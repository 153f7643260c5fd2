/**
  The Fargate adapter: what RunTask passes to the cluster and what it returns. Pointers
  matter here, so Go variables whose address is taken are objects.
 */
module Aws {
  import opened Options
  import opened Errors

  /** A Go string variable whose address is taken. */
  class Cell {
    var text: string

    constructor ()
      ensures text == ""
    {
      text := "";
    }
  }

  /** ecs.KeyValuePair holds two pointers. */
  datatype KeyValuePair = KeyValuePair(name: Cell, value: Cell)

  /** What the cluster reads when the pointers are followed. */
  ghost function Denoted(list: seq<KeyValuePair>): (pairs: seq<(string, string)>)
    reads set p | p in list :: p.name, set p | p in list :: p.value
    ensures |pairs| == |list|
  {
    seq(|list|, i requires 0 <= i < |list|
          reads set p | p in list :: p.name, set p | p in list :: p.value
          => (list[i].name.text, list[i].value.text))
  }

  function Repeated(pair: (string, string), n: nat): seq<(string, string)> {
    seq(n, _ => pair)
  }

  /** The pairs are those of the map, whatever their order and number. */
  ghost predicate Represents(pairs: seq<(string, string)>, m: map<string, string>) {
    && (forall p :: p in pairs ==> p.0 in m && m[p.0] == p.1)
    && (forall k :: k in m ==> (k, m[k]) in pairs)
  }

  /** Copies of a single entry of a map represent it exactly when there is no other entry. */
  lemma RepeatedRepresents(m: map<string, string>, key: string)
    requires key in m
    ensures Represents(Repeated((key, m[key]), |m|), m) <==> |m| <= 1
  {
    var pairs := Repeated((key, m[key]), |m|);
    assert |m| == |m.Keys| > 0;
    assert pairs[0] == (key, m[key]);
    if |m| <= 1 {
      assert |m.Keys - {key}| == 0;
      forall k | k in m
        ensures (k, m[k]) in pairs
      {
        assert k !in m.Keys - {key};
      }
    } else {
      assert m.Keys - {key} != {} by { assert |m.Keys - {key}| == |m| - 1; }
      var other :| other in m.Keys - {key};
      assert (other, m[other]) !in pairs;
    }
  }

  /** A list of `n` entries that share their cells. */
  function Shared(name: Cell, value: Cell, n: nat): seq<KeyValuePair> {
    seq(n, _ => KeyValuePair(name, value))
  }

  lemma SharedGrows(name: Cell, value: Cell, n: nat)
    ensures Shared(name, value, 0) == [] && Shared(name, value, n) + [KeyValuePair(name, value)] == Shared(name, value, n + 1)
    ensures forall p :: p in Shared(name, value, n) ==> p.name == name && p.value == value
  {
  }

  /** Entries that share their cells all denote what the cells hold in the end. */
  lemma SharedDenotes(name: Cell, value: Cell, n: nat)
    ensures Denoted(Shared(name, value, n)) == Repeated((name.text, value.text), n)
  {
  }

  /** A list with an entry for every key, and entries of the map only, represents the map. */
  lemma EntriesRepresent(list: seq<KeyValuePair>, m: map<string, string>)
    requires forall p :: p in list ==> p.name.text in m && p.value.text == m[p.name.text]
    requires forall k :: k in m ==> exists p :: p in list && p.name.text == k
    ensures Represents(Denoted(list), m)
  {
    var pairs := Denoted(list);
    forall p | p in pairs
      ensures p.0 in m && m[p.0] == p.1
    {
      var i :| 0 <= i < |pairs| && pairs[i] == p;
      assert list[i] in list;
    }
    forall k | k in m
      ensures (k, m[k]) in pairs
    {
      var p :| p in list && p.name.text == k;
      var i :| 0 <= i < |list| && list[i] == p;
      assert pairs[i] == (k, m[k]);
    }
  }

  /** The answers of the ECS client. */
  datatype RunTaskOutput = RunTaskOutput(arn: string, err: Error)

  class AwsFargate {
    var ecsReady: bool
    var ec2Ready: bool

    constructor ()
      ensures !ecsReady && !ec2Ready
    {
      ecsReady, ec2Ready := false, false;
    }

    method Initialize(sessionErr: Error) returns (err: Error)
      modifies this
      ensures err == NIL <==> sessionErr == NIL
      ensures err != NIL ==> Blames(err, CreatingAwsSession, sessionErr)
      ensures IsBuildFailure(err) <==> IsBuildFailure(sessionErr)
      ensures if err == NIL then ecsReady && ec2Ready else ecsReady == old(ecsReady) && ec2Ready == old(ec2Ready)
    {
      BlameLaws();
      if sessionErr != NIL {
        return Wrap(CreatingAwsSession, sessionErr);
      }
      ecsReady, ec2Ready := true, true;
      return NIL;
    }

    /**
      The environment override. Under the declared language version the loop variables are shared by all
      iterations, so every entry denotes the pair visited last; `visited` is that pair's key.
     */
    method ProcessEnvVariablesToInject(envVars: map<string, string>)
        returns (environment: Option<seq<KeyValuePair>>, ghost visited: string)
      ensures envVars == map[] <==> environment == None
      ensures environment.Some? ==>
        && visited in envVars && fresh(set p | p in environment.value :: p.name) && fresh(set p | p in environment.value :: p.value)
        && Denoted(environment.value) == Repeated((visited, envVars[visited]), |envVars|)
        && (Represents(Denoted(environment.value), envVars) <==> |envVars| <= 1)
    {
      hide Represents, Denoted, Repeated, Shared;
      visited := "";
      if |envVars| == 0 {
        return None, visited;
      }
      var key := new Cell();
      var value := new Cell();
      var environmentVars: seq<KeyValuePair> := [];
      var rest := envVars.Keys;
      SharedGrows(key, value, 0);
      while rest != {}
        invariant rest <= envVars.Keys && |rest| <= |envVars|
        invariant environmentVars == Shared(key, value, |envVars| - |rest|)
        invariant rest != envVars.Keys ==> visited in envVars && key.text == visited && value.text == envVars[visited]
        decreases |rest|
      {
        var k :| k in rest;
        key.text, value.text := k, envVars[k];
        SharedGrows(key, value, |envVars| - |rest|);
        environmentVars := environmentVars + [KeyValuePair(key, value)];
        assert |rest - {k}| == |rest| - 1;
        rest := rest - {k};
        visited := k;
      }
      RepeatedRepresents(envVars, visited);
      SharedGrows(key, value, |envVars|);
      SharedDenotes(key, value, |envVars|);
      environment := Some(environmentVars);
    }

    /**
      The same loop with a copy of the variables for each iteration: one entry per key again, and now the list
      represents any map in any visiting order. So it is the sharing that breaks the list.
     */
    method InjectWithCopies(envVars: map<string, string>) returns (environmentVars: seq<KeyValuePair>)
      ensures forall p :: p in environmentVars ==> fresh(p.name) && fresh(p.value)
      ensures |environmentVars| == |envVars| && Represents(Denoted(environmentVars), envVars)
    {
      environmentVars := [];
      var rest := envVars.Keys;
      while rest != {}
        invariant rest <= envVars.Keys && |environmentVars| == |envVars| - |rest|
        invariant forall p :: p in environmentVars ==> fresh(p.name) && fresh(p.value)
        invariant forall p :: p in environmentVars ==> p.name.text in envVars && p.value.text == envVars[p.name.text]
        invariant forall k :: k in envVars && k !in rest ==> exists p :: p in environmentVars && p.name.text == k
        decreases |rest|
      {
        var k :| k in rest;
        var key := new Cell();
        var value := new Cell();
        key.text, value.text := k, envVars[k];
        environmentVars := environmentVars + [KeyValuePair(key, value)];
        assert |rest - {k}| == |rest| - 1;
        rest := rest - {k};
      }
      EntriesRepresent(environmentVars, envVars);
    }

    /**
      Starts a task whose container gets `envVars`, if there is at most one of them. Whenever it fails, also before the
      adapter is initialised, the ARN is empty.
     */
    method RunTask(envVars: map<string, string>, answer: RunTaskOutput)
        returns (arn: string, err: Error, environment: Option<seq<KeyValuePair>>)
      ensures err != NIL ==> arn == ""
      ensures err == NIL <==> ecsReady && ec2Ready && answer.err == NIL
      ensures IsBuildFailure(err) ==> IsBuildFailure(answer.err)
      ensures err == NIL ==> arn == answer.arn
      ensures err != NIL ==> Blames(err, CallingFargate, if ecsReady && ec2Ready then answer.err else [Leaf(NotInitialized)])
      ensures ecsReady && ec2Ready && |envVars| == 1 ==> 
        environment.Some? && |environment.value| == 1 && Represents(Denoted(environment.value), envVars)
      ensures environment.Some? ==> fresh(set p | p in environment.value :: p.name) && fresh(set p | p in environment.value :: p.value)
    {
      BlameLaws();
      if !(ecsReady && ec2Ready) {
        return "", Wrap(CallingFargate, [Leaf(NotInitialized)]), None;
      }
      ghost var visited;
      environment, visited := ProcessEnvVariablesToInject(envVars);
      if answer.err != NIL {
        return "", Wrap(CallingFargate, answer.err), environment;
      }
      return answer.arn, NIL, environment;
    }

    /** WaitUntilTaskRunning and StopTask: one call of the ECS client, which ends with `answer`. */
    method CallEcs(answer: Error) returns (err: Error)
      ensures err == NIL <==> ecsReady && ec2Ready && answer == NIL
      ensures err != NIL ==> Blames(err, CallingFargate, if ecsReady && ec2Ready then answer else [Leaf(NotInitialized)])
      ensures IsBuildFailure(err) ==> IsBuildFailure(answer)
    {
      BlameLaws();
      if !(ecsReady && ec2Ready) {
        return Wrap(CallingFargate, [Leaf(NotInitialized)]);
      }
      if answer != NIL {
        return Wrap(CallingFargate, answer);
      }
      return NIL;
    }

    /** The address of a task: its private one, or the public one, which takes a second call. */
    method GetContainerIP(usePublicIp: bool, described: Error, privateIp: string, read: Error, publicIp: string)
        returns (ip: string, err: Error)
      ensures err == NIL <==> ecsReady && ec2Ready && described == NIL && (usePublicIp ==> read == NIL)
      ensures err != NIL ==> Carries(err,
        if !(ecsReady && ec2Ready) then [Leaf(NotInitialized)] else if described != NIL then described else read)
      ensures ip == if err != NIL then "" else if usePublicIp then publicIp else privateIp
      ensures IsBuildFailure(err) ==> IsBuildFailure(described) || IsBuildFailure(read)
    {
      BlameLaws();
      if !(ecsReady && ec2Ready) {
        return "", Wrap(CallingFargate, [Leaf(NotInitialized)]);
      }
      if described != NIL {
        return "", Wrap(AccessingTask, Wrap(DescribingTask, described));
      }
      if !usePublicIp {
        return privateIp, NIL;
      }
      if read != NIL {
        return "", Wrap(FetchingPublicIp, Wrap(ReadingInterfaces, read));
      }
      return publicIp, NIL;
    }

    /** What prepare asks for: a task that is given the public key, and nothing else. */
    method StartNewFargateTask(publicKey: string, answer: RunTaskOutput)
        returns (arn: string, err: Error, environment: Option<seq<KeyValuePair>>)
      ensures err == NIL <==> ecsReady && ec2Ready && answer.err == NIL
      ensures arn == if err == NIL then answer.arn else ""
      ensures err != NIL ==> Blames(err, RunningTask, if ecsReady && ec2Ready then answer.err else [Leaf(NotInitialized)])
      ensures IsBuildFailure(err) ==> IsBuildFailure(answer.err)
      ensures ecsReady && ec2Ready ==> environment.Some? && Denoted(environment.value) == [("SSH_PUBLIC_KEY", publicKey)]
    {
      var envVars := map["SSH_PUBLIC_KEY" := publicKey];
      assert |envVars| == 1;
      arn, err, environment := RunTask(envVars, answer);
      if ecsReady && ec2Ready {
        ghost var pairs := Denoted(environment.value);
        assert pairs == [pairs[0]];
        assert pairs[0] in pairs;
      }
      if err != NIL {
        BlamesInside(RunningTask, err, CallingFargate, if ecsReady && ec2Ready then answer.err else [Leaf(NotInitialized)]);
        err := Wrap(RunningTask, err);
      }
    }
  }
}
