/** Each of the six ways to lose a task does occur, so none can be dropped from the list. */
module Losses {
  import opened Options
  import opened Errors
  import opened Protocol
  import opened System
  import opened Orphans

  function Last(states: seq<State>): State
    requires states != []
  {
    states[|states| - 1]
  }

  function Blank(site: Site): State {
    State(Shared(map[], map[]), map j | j in site.paths :: Idle, map j | j in site.paths :: false, map[])
  }

  const REASON: Error := [Leaf(External(1))]

  /** Records of prepare can be encoded, and an empty file is not a record. */
  ghost predicate Usable(codec: Codec, pair: KeyPair) {
    && codec.decode([]) == None
    && codec.encode(Data("a", "", pair.priv)).Some?
    && codec.encode(Data("b", "", pair.priv)).Some?
    && codec.encode(Data("a", "ip", pair.priv)).Some?
  }

  /** A prepare is started and comes to its launch. */
  lemma ToLaunch(site: Site, states: seq<State>, labels: seq<Label>, j: Job, pair: KeyPair)
      returns (states': seq<State>, labels': seq<Label>)
    requires Execution(site, states, labels) && j in site.paths
    requires var s := Last(states); j in s.procs && j in s.cancelled && s.procs[j] == Idle
    ensures Execution(site, states', labels') && states <= states'
    ensures var s, t := Last(states), Last(states');
      t == State(s.shared, s.procs[j := PLaunch(pair)], s.cancelled[j := false], s.launched)
  {
    var s := Last(states);
    states', labels' := Extend(site, states, labels, Start(j, PInit), s.(procs := s.procs[j := PInit], cancelled := s.cancelled[j := false]));
    states', labels' := Answer(site, states', labels', j, Ok, s.shared);
    states', labels' := Answer(site, states', labels', j, Key(pair), s.shared);
    assert Last(states').procs == s.procs[j := PLaunch(pair)];
  }

  function Started1(s: State, j: Job, pair: KeyPair, a: Arn): State {
    State(
      s.shared.(tasks := s.shared.tasks[a := Task(Provisioning, pair.pub, "ip")]), s.procs, s.cancelled,
      s.launched[a := Launch(j, pair)])
  }

  /** The launch succeeds with the fresh ARN `a`. */
  lemma ToRecord(site: Site, states: seq<State>, labels: seq<Label>, j: Job, pair: KeyPair, a: Arn)
      returns (states': seq<State>, labels': seq<Label>)
    requires Execution(site, states, labels) && j in site.paths && a != ""
    requires site.codec.encode(Data(a, "", pair.priv)).Some?
    requires var s := Last(states);
      j in s.procs && j in s.cancelled && s.procs[j] == PLaunch(pair) && !s.cancelled[j]
      && a !in s.shared.tasks && s.launched.Keys == s.shared.tasks.Keys
    ensures Execution(site, states', labels') && states <= states'
    ensures var s, t := Last(states), Last(states');
      t == Started1(s, j, pair, a).(procs := s.procs[j := PRecord(pair, a, site.codec.encode(Data(a, "", pair.priv)).value)])
  {
    var s := Last(states);
    var u := Started1(s, j, pair, a);
    assert Launches(s.shared, a, pair.pub, u.shared);
    states', labels' := Answer(site, states, labels, j, Started(a), u.shared);
    assert Last(states').launched == u.launched;
  }

  /** The first record of `a` is written. */
  lemma ToWait(site: Site, states: seq<State>, labels: seq<Label>, j: Job, pair: KeyPair, a: Arn)
      returns (states': seq<State>, labels': seq<Label>)
    requires Execution(site, states, labels) && j in site.paths
    requires var s := Last(states); j in s.procs && j in s.cancelled && s.procs[j].PRecord? && s.procs[j].pair == pair && s.procs[j].arn == a
    ensures Execution(site, states', labels') && |states'| == |states| + 1 && states <= states'
    ensures |labels'| == |labels| + 1 && labels'[|labels|] == Reply(j, Ok)
    ensures var s, t := Last(states), Last(states');
      t == s.(shared := WriteIn(s.shared, site.paths[j], s.procs[j].bytes), procs := s.procs[j := PWait(pair, a)])
  {
    var s := Last(states);
    states', labels' := Answer(site, states, labels, j, Ok, WriteIn(s.shared, site.paths[j], s.procs[j].bytes));
  }

  lemma FromBlank(site: Site, j: Job, pair: KeyPair) returns (states: seq<State>, labels: seq<Label>)
    requires j in site.paths
    ensures Execution(site, states, labels) && states[0] == Blank(site) && Init(site, states[0])
    ensures Last(states) == Blank(site).(procs := Blank(site).procs[j := PLaunch(pair)], cancelled := Blank(site).cancelled[j := false])
  {
    states, labels := ToLaunch(site, [Blank(site)], [], j, pair);
  }

  /** The last step of the behaviour loses `a` in the given way. */
  ghost predicate EndsIn(loss: Loss, site: Site, states: seq<State>, labels: seq<Label>, a: Arn) {
    && Behaviour(site, states, labels) && labels != []
    && Loses(site, states[|labels| - 1], labels[|labels| - 1], states[|labels|], a)
    && IsLoss(loss, states[|labels| - 1], labels[|labels| - 1], a)
  }

  /** The step from `s` to `t` loses `a` in the given way. */
  ghost predicate LosingStep(loss: Loss, site: Site, s: State, l: Label, t: State, a: Arn) {
    Step(site, s, l, t) && Loses(site, s, l, t, a) && IsLoss(loss, s, l, a)
  }

  lemma Conclude(loss: Loss, site: Site, states: seq<State>, labels: seq<Label>, l: Label, t: State, a: Arn)
      returns (states': seq<State>, labels': seq<Label>)
    requires Behaviour(site, states, labels) && LosingStep(loss, site, Last(states), l, t, a)
    ensures EndsIn(loss, site, states', labels', a)
  {
    hide Step, Loses, Init, IsLoss;
    states', labels' := Extend(site, states, labels, l, t);
  }

  lemma LaunchStep(site: Site, j: Job, pair: KeyPair, s: State, answered: bool) returns (l: Label, t: State)
    requires j in site.paths
    requires s == Blank(site).(procs := Blank(site).procs[j := PLaunch(pair)], cancelled := Blank(site).cancelled[j := false])
    ensures LosingStep(if answered then AnswerLost else DiedLaunching, site, s, l, t, "a")
  {
    var u := Started1(s, j, pair, "a");
    assert Launches(s.shared, "a", pair.pub, u.shared);
    assert Record(s.launched, j, s.procs[j], u.shared.tasks) == u.launched;
    if answered {
      l, t := Reply(j, RunFailed("", REASON)), u.(procs := s.procs[j := Compensate("", LaunchFailed, REASON)]);
      assert IsLoss(AnswerLost, s, l, "a");
    } else {
      l, t := KillAfter(j, Started("a")), u.(procs := s.procs[j := Idle]);
      assert IsLoss(DiedLaunching, s, l, "a");
    }
  }

  lemma LostAtLaunch(site: Site, j: Job, pair: KeyPair, answered: bool) returns (states: seq<State>, labels: seq<Label>)
    requires j in site.paths
    ensures EndsIn(if answered then AnswerLost else DiedLaunching, site, states, labels, "a")
  {
    hide LosingStep, EndsIn, Step;
    states, labels := FromBlank(site, j, pair);
    var l, t := LaunchStep(site, j, pair, Last(states), answered);
    states, labels := Conclude(if answered then AnswerLost else DiedLaunching, site, states, labels, l, t, "a");
  }

  /** Job `j` alone, with task "a" launched, its process at `p`, and `files` on disk. */
  function Alone(site: Site, j: Job, pair: KeyPair, status: Status, p: Proc, files: map<Path, Bytes>): State {
    State(Shared(files, map["a" := Task(status, pair.pub, "ip")]),
          Blank(site).procs[j := p], Blank(site).cancelled[j := false], map["a" := Launch(j, pair)])
  }

  function RecordA(site: Site, pair: KeyPair): Bytes
    requires site.codec.encode(Data("a", "", pair.priv)).Some?
  {
    site.codec.encode(Data("a", "", pair.priv)).value
  }

  /** Prepare has launched "a" and is about to record it. */
  lemma Recording(site: Site, j: Job, pair: KeyPair) returns (states: seq<State>, labels: seq<Label>)
    requires j in site.paths && Usable(site.codec, pair)
    ensures Behaviour(site, states, labels)
    ensures Last(states) == Alone(site, j, pair, Provisioning, PRecord(pair, "a", RecordA(site, pair)), map[])
  {
    states, labels := FromBlank(site, j, pair);
    states, labels := ToRecord(site, states, labels, j, pair, "a");
    assert Last(states).procs == Blank(site).procs[j := PRecord(pair, "a", RecordA(site, pair))];
  }

  /** Prepare has recorded "a" and waits for it. */
  lemma Waiting(site: Site, j: Job, pair: KeyPair) returns (states: seq<State>, labels: seq<Label>)
    requires j in site.paths && Usable(site.codec, pair)
    ensures Behaviour(site, states, labels)
    ensures Last(states) == Alone(site, j, pair, Provisioning, PWait(pair, "a"), map[site.paths[j] := RecordA(site, pair)])
  {
    states, labels := Recording(site, j, pair);
    states, labels := ToWait(site, states, labels, j, pair, "a");
    assert Last(states).procs == Blank(site).procs[j := PWait(pair, "a")];
  }

  lemma LostKilledRecording(site: Site, j: Job, pair: KeyPair) returns (states: seq<State>, labels: seq<Label>)
    requires j in site.paths && Usable(site.codec, pair)
    ensures EndsIn(DiedRecording, site, states, labels, "a")
  {
    states, labels := Recording(site, j, pair);
    var s := Last(states);
    hide EndsIn, Execution, Init;
    assert IsLoss(DiedRecording, s, Kill(j), "a");
    states, labels := Conclude(DiedRecording, site, states, labels, Kill(j), s.(procs := s.procs[j := Idle]), "a");
  }

  lemma StopStep(site: Site, j: Job, pair: KeyPair, err: Error) returns (l: Label, t: State)
    requires j in site.paths && err != NIL
    ensures LosingStep(NotStopped, site, Alone(site, j, pair, Provisioning, PStop("a", FirstRecordFailed, err), map[]), l, t, "a")
  {
    l, t := Reply(j, Fail(REASON)), Alone(site, j, pair, Provisioning, Done(Prepare, err), map[]);
    var s := Alone(site, j, pair, Provisioning, PStop("a", FirstRecordFailed, err), map[]);
    assert t.procs == s.procs[j := Done(Prepare, err)];
    assert IsLoss(NotStopped, s, l, "a");
  }

  lemma LostNotStopped(site: Site, j: Job, pair: KeyPair) returns (states: seq<State>, labels: seq<Label>)
    requires j in site.paths && Usable(site.codec, pair)
    ensures EndsIn(NotStopped, site, states, labels, "a")
  {
    hide LosingStep, EndsIn, Step;
    states, labels := NotRecorded(site, j, pair);
    var l, t := StopStep(site, j, pair, PrepareError(FirstRecordFailed, PersistError(REASON)));
    states, labels := Conclude(NotStopped, site, states, labels, l, t, "a");
  }

  /** The first record could not be written, and "a" is about to be stopped. */
  lemma NotRecorded(site: Site, j: Job, pair: KeyPair) returns (states: seq<State>, labels: seq<Label>)
    requires j in site.paths && Usable(site.codec, pair)
    ensures Behaviour(site, states, labels)
    ensures Last(states)
      == Alone(site, j, pair, Provisioning, PStop("a", FirstRecordFailed, PrepareError(FirstRecordFailed, PersistError(REASON))), map[])
  {
    states, labels := Recording(site, j, pair);
    states, labels := Answer(site, states, labels, j, Fail(REASON), Last(states).shared);
    assert Last(states).procs
        == Blank(site).procs[j := PStop("a", FirstRecordFailed, PrepareError(FirstRecordFailed, PersistError(REASON)))];
  }

  /** The task of prepare is up, and prepare asks for its address. */
  lemma Addressing(site: Site, j: Job, pair: KeyPair) returns (states: seq<State>, labels: seq<Label>)
    requires j in site.paths && Usable(site.codec, pair)
    ensures Behaviour(site, states, labels)
    ensures Last(states) == Alone(site, j, pair, Running, PAddress(pair, "a"), map[site.paths[j] := RecordA(site, pair)])
  {
    states, labels := Waiting(site, j, pair);
    hide Init;
    var files := map[site.paths[j] := RecordA(site, pair)];
    states, labels := Extend(site, states, labels, Boot("a"), Alone(site, j, pair, Running, PWait(pair, "a"), files));
    states, labels := Answer(site, states, labels, j, Ok, Last(states).shared);
    assert Last(states).procs == Blank(site).procs[j := PAddress(pair, "a")];
  }

  /** Prepare is about to record the address of "a". */
  lemma Rerecording(site: Site, j: Job, pair: KeyPair) returns (states: seq<State>, labels: seq<Label>)
    requires j in site.paths && Usable(site.codec, pair)
    ensures Behaviour(site, states, labels)
    ensures Last(states) == Alone(site, j, pair, Running,
      PRerecord(pair, "a", "ip", site.codec.encode(Data("a", "ip", pair.priv)).value), map[site.paths[j] := RecordA(site, pair)])
  {
    states, labels := Addressing(site, j, pair);
    hide Init;
    states, labels := Answer(site, states, labels, j, Ip("ip"), Last(states).shared);
    assert Last(states).procs
        == Blank(site).procs[j := PRerecord(pair, "a", "ip", site.codec.encode(Data("a", "ip", pair.priv)).value)];
  }

  lemma RerecordStep(site: Site, j: Job, pair: KeyPair, bytes: Bytes, files: map<Path, Bytes>) returns (l: Label, t: State)
    requires j in site.paths && site.codec.decode([]) == None
    ensures LosingStep(DiedRerecording, site, Alone(site, j, pair, Running, PRerecord(pair, "a", "ip", bytes), files), l, t, "a")
  {
    var s := Alone(site, j, pair, Running, PRerecord(pair, "a", "ip", bytes), files);
    assert bytes[..0] == [];
    l, t := KillAfter(j, Fail(REASON)), Alone(site, j, pair, Running, Idle, files[site.paths[j] := bytes[..0]]);
    assert t.procs == s.procs[j := Idle];
    assert Held(s, "a");
    assert IsLoss(DiedRerecording, s, l, "a");
  }

  lemma LostAtSecondRecord(site: Site, j: Job, pair: KeyPair) returns (states: seq<State>, labels: seq<Label>)
    requires j in site.paths && Usable(site.codec, pair)
    ensures EndsIn(DiedRerecording, site, states, labels, "a")
  {
    hide LosingStep, EndsIn, Step;
    states, labels := Rerecording(site, j, pair);
    var l, t := RerecordStep(site, j, pair, Last(states).procs[j].bytes, map[site.paths[j] := RecordA(site, pair)]);
    states, labels := Conclude(DiedRerecording, site, states, labels, l, t, "a");
  }

  /** The first prepare died while waiting, and a second one is about to record its task "b". */
  ghost predicate SecondPrepare(site: Site, j: Job, pair: KeyPair, t: State)
    requires j in site.paths && Usable(site.codec, pair)
  {
    var s := Alone(site, j, pair, Provisioning, Idle, map[site.paths[j] := RecordA(site, pair)]);
    && t.shared == s.shared.(tasks := s.shared.tasks["b" := Task(Provisioning, pair.pub, "ip")])
    && t.launched == s.launched["b" := Launch(j, pair)] && t.cancelled == s.cancelled
    && t.procs == s.procs[j := PRecord(pair, "b", site.codec.encode(Data("b", "", pair.priv)).value)]
  }

  lemma RecordingAgain(site: Site, j: Job, pair: KeyPair) returns (states: seq<State>, labels: seq<Label>)
    requires j in site.paths && Usable(site.codec, pair)
    ensures Behaviour(site, states, labels) && SecondPrepare(site, j, pair, Last(states))
  {
    hide Init, Execution;
    states, labels := Waiting(site, j, pair);
    HasStates(site, states, labels);
    var s := Last(states);
    states, labels := Extend(site, states, labels, Kill(j), s.(procs := s.procs[j := Idle]));
    states, labels := ToLaunch(site, states, labels, j, pair);
    states, labels := ToRecord(site, states, labels, j, pair, "b");
  }

  function Overwrite(site: Site, j: Job, pair: KeyPair, s: State): State
    requires j in site.paths && site.codec.encode(Data("b", "", pair.priv)).Some?
  {
    s.(shared := WriteIn(s.shared, site.paths[j], site.codec.encode(Data("b", "", pair.priv)).value),
       procs := s.procs[j := PWait(pair, "b")])
  }

  lemma OverwriteIsStep(site: Site, j: Job, pair: KeyPair, s: State)
    requires j in site.paths && Usable(site.codec, pair) && SecondPrepare(site, j, pair, s)
    ensures Step(site, s, Reply(j, Ok), Overwrite(site, j, pair, s))
  {
  }

  lemma OverwriteLoses(site: Site, j: Job, pair: KeyPair, s: State)
    requires site.codec.Lawful() && j in site.paths && Usable(site.codec, pair) && SecondPrepare(site, j, pair, s)
    ensures Loses(site, s, Reply(j, Ok), Overwrite(site, j, pair, s), "a") && IsLoss(Overwritten, s, Reply(j, Ok), "a")
  {
    var first, second := RecordA(site, pair), site.codec.encode(Data("b", "", pair.priv)).value;
    assert first[..|first|] == first && second[..|second|] == second;
    assert Recoverable(site, s, "a");
    assert IsLoss(Overwritten, s, Reply(j, Ok), "a");
  }

  lemma LostByOverwriting(site: Site, j: Job, pair: KeyPair) returns (states: seq<State>, labels: seq<Label>)
    requires site.Valid() && j in site.paths && Usable(site.codec, pair)
    ensures EndsIn(Overwritten, site, states, labels, "a")
  {
    hide EndsIn, Step, Loses, IsLoss, SecondPrepare;
    states, labels := RecordingAgain(site, j, pair);
    OverwriteIsStep(site, j, pair, Last(states));
    OverwriteLoses(site, j, pair, Last(states));
    states, labels := Conclude(Overwritten, site, states, labels, Reply(j, Ok), Overwrite(site, j, pair, Last(states)), "a");
  }

  /** Every loss on the list ends some behaviour of any site with a job. */
  lemma EveryLossHappens(site: Site, j: Job, pair: KeyPair, loss: Loss) returns (states: seq<State>, labels: seq<Label>)
    requires site.Valid() && j in site.paths && Usable(site.codec, pair)
    ensures EndsIn(loss, site, states, labels, "a")
  {
    match loss
    case AnswerLost => states, labels := LostAtLaunch(site, j, pair, true);
    case DiedLaunching => states, labels := LostAtLaunch(site, j, pair, false);
    case DiedRecording => states, labels := LostKilledRecording(site, j, pair);
    case NotStopped => states, labels := LostNotStopped(site, j, pair);
    case DiedRerecording => states, labels := LostAtSecondRecord(site, j, pair);
    case Overwritten => states, labels := LostByOverwriting(site, j, pair);
  }
}
