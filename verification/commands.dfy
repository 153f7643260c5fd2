/** What the results about the interleaved system say about the commands that the stage processes execute. */
module Commands {
  import opened Options
  import opened Errors
  import opened Protocol
  import opened System
  import opened Orphans
  import opened Lifecycle
  import opened Compensation
  import opened Outside
  import opened Stages
  import opened Traces
  import opened Refinement
  import opened Convergence

  /** What the calls logged since `before` were, with `gaps` between them. */
  ghost function ActivitySince(world: World, before: seq<Event>, gaps: seq<Segment>): Activity
    reads world
    requires before <= world.log && |world.trail| == |world.log|
  {
    Activity(Since(world.log, before), world.trail[|before|..], gaps)
  }

  /** Every call through the AWS adapter had a possible effect. */
  lemma LogIsPossible(world: World, before: seq<Event>)
    requires world.Valid() && world.adapter && before <= world.log
    ensures Possible(Since(world.log, before), world.trail[|before|..])
  {
    hide Effect;
    var es, trail := Since(world.log, before), world.trail[|before|..];
    forall i {:trigger es[i]} | 0 <= i < |es|
      ensures Effect(trail[i].cancelled, es[i].req, es[i].resp, trail[i].pre, trail[i].post)
    {
      assert es[i] == world.log[|before| + i];
    }
  }

  /** The invariant holds before and after each call. */
  lemma InvAround(site: Site, s: State, j: Job, start: Proc, act: Activity, n: nat)
    requires site.Valid() && Inv(site, s) && Acts(site, s, j, start, act) && n < |act.events|
    ensures Inv(site, End(act.gaps[n])) && Inv(site, After(site, s, j, start, act, n + 1))
  {
    hide Inv, Step, Acts, After, Effect;
    ActsShape(site, s, j, start, act);
    var run := CommandIsExecution(site, s, j, start, act, n);
    InvAlong(site, run.states, run.labels, |run.labels|);
    GapIsExecution(site, s, j, start, act, n);
    InvAlong(site, act.gaps[n].states, act.gaps[n].labels, |act.gaps[n].labels|);
    AnswerIsStep(site, s, j, start, act, n);
    StepKeepsInv(site, End(act.gaps[n]), Reply(j, act.events[n].resp), After(site, s, j, start, act, n + 1));
  }

  // ----- prepare -----

  /** Job `j` is prepared: its file has the full record of a task of its own, which was given the public half of `pair`. */
  ghost predicate Prepared(site: Site, s: State, j: Job, a: Arn, pair: KeyPair) {
    && j in site.paths && j in s.procs && Owns(s, j, a)
    && Ready(site, s, j, Data(a, s.shared.tasks[a].ip, pair.priv))
    && s.launched[a].pair == pair && s.shared.tasks[a].injected == pair.pub
  }

  lemma SuccessRerecords(cfg: Cfg, es: seq<Event>) returns (p: Proc)
    requires Drive(cfg, PInit, es) == Some(Done(Prepare, NIL))
    ensures es != [] && Drive(cfg, PInit, es[..|es| - 1]) == Some(p) && p.PRerecord? && es[|es| - 1].resp == Ok
    ensures Launched(es, p.arn, p.pair)
  {
    var front := es[..|es| - 1];
    p := Drive(cfg, PInit, front).value;
    ProgressHolds(cfg, front, p);
    LastIsRerecord(cfg, p, es[|es| - 1]);
    PairIsGenerated(cfg, front, p);
  }

  lemma LastIsRerecord(cfg: Cfg, p: Proc, e: Event)
    requires Active(p) && Fits(Pending(cfg, p), e.resp) && Resume(cfg, p, e.resp) == Done(Prepare, NIL)
    requires p.PStop? ==> p.err != NIL
    ensures p.PRerecord? && e.resp == Ok
  {
  }

  /**
    When prepare has succeeded, the job's file holds the full record of the task that this very prepare
    launched, whatever went on between its calls.
   */
  lemma SuccessPrepares(site: Site, s: State, j: Job, act: Activity) returns (a: Arn, pair: KeyPair)
    requires site.Valid() && Inv(site, s) && Acts(site, s, j, PInit, act)
    requires Drive(site.CfgOf(j), PInit, act.events) == Some(Done(Prepare, NIL))
    ensures Launched(act.events, a, pair)
    ensures |act.gaps| == |act.events| && Prepared(site, After(site, s, j, PInit, act, |act.events|), j, a, pair)
  {
    hide Inv, Step, After, Effect, Resume, Pending, Drive, Ready, JobOk;
    var n := |act.events|;
    ActsShape(site, s, j, PInit, act);
    var p := SuccessRerecords(site.CfgOf(j), act.events);
    InvAround(site, s, j, PInit, act, n - 1);
    AnswerIsStep(site, s, j, PInit, act, n - 1);
    a, pair := p.arn, p.pair;
    var u, t := End(act.gaps[n - 1]), After(site, s, j, PInit, act, n);
    PrepareLeavesReady(site, u, t, j);
    StepPersists(site, u, Reply(j, Ok), t);
    InvKeys(site, u);
    InvKeys(site, t);
  }

  /** Prepare launches `a`. */
  lemma CanLaunch(site: Site, s: State, j: Job, pair: KeyPair, a: Arn, task: Task) returns (states: seq<State>, labels: seq<Label>)
    requires j in site.paths && j in s.procs && j in s.cancelled && s.procs[j] == PInit && !s.cancelled[j]
    requires a != "" && a !in s.shared.tasks && site.codec.encode(Data(a, "", pair.priv)).Some?
    requires task.status == Provisioning && task.injected == pair.pub
    ensures Execution(site, states, labels) && states[0] == s
    ensures forall l :: l in labels ==> l.Reply?
    ensures var t := states[|labels|];
      && t.procs == s.procs[j := PRecord(pair, a, site.codec.encode(Data(a, "", pair.priv)).value)]
      && t.cancelled == s.cancelled && a in t.shared.tasks && t.shared.tasks[a] == task
  {
    hide Execution;
    Alone(site, s, j);
    states, labels := Answer(site, [s], [], j, Ok, s.shared);
    states, labels := Answer(site, states, labels, j, Key(pair), s.shared);
    var started := s.shared.(tasks := s.shared.tasks[a := task]);
    assert Launches(s.shared, a, pair.pub, started);
    states, labels := Answer(site, states, labels, j, Started(a), started);
    assert states[|labels|].procs == s.procs[j := PRecord(pair, a, site.codec.encode(Data(a, "", pair.priv)).value)];
  }

  /** Prepare records `a`, and the cluster brings it up. */
  lemma CanWait(site: Site, s: State, j: Job, pair: KeyPair, a: Arn, bytes: Bytes) returns (states: seq<State>, labels: seq<Label>)
    requires j in site.paths && j in s.procs && j in s.cancelled && s.procs[j] == PRecord(pair, a, bytes)
    requires a in s.shared.tasks && s.shared.tasks[a].status == Provisioning
    ensures Execution(site, states, labels) && states[0] == s
    ensures forall l :: l in labels ==> l == Boot(a) || l.Reply?
    ensures var t := states[|labels|];
      && t.procs == s.procs[j := PWait(pair, a)] && t.cancelled == s.cancelled
      && a in t.shared.tasks && t.shared.tasks[a] == s.shared.tasks[a].(status := Running)
  {
    hide Execution;
    Alone(site, s, j);
    states, labels := Answer(site, [s], [], j, Ok, WriteIn(s.shared, site.paths[j], bytes));
    var t := states[|labels|];
    var up := t.shared.(tasks := t.shared.tasks[a := t.shared.tasks[a].(status := Running)]);
    states, labels := Extend(site, states, labels, Boot(a), t.(shared := up));
  }

  /** Once the task is up, prepare records its address. */
  lemma CanRerecord(site: Site, s: State, j: Job, pair: KeyPair, a: Arn) returns (states: seq<State>, labels: seq<Label>)
    requires j in site.paths && j in s.procs && j in s.cancelled && s.procs[j] == PWait(pair, a) && !s.cancelled[j]
    requires a in s.shared.tasks && s.shared.tasks[a].status == Running
    requires site.codec.encode(Data(a, s.shared.tasks[a].ip, pair.priv)).Some?
    ensures Execution(site, states, labels) && states[0] == s
    ensures forall l :: l in labels ==> l.Reply?
    ensures states[|labels|].procs == s.procs[j := Done(Prepare, NIL)]
  {
    hide Execution;
    Alone(site, s, j);
    states, labels := Answer(site, [s], [], j, Ok, s.shared);
    states, labels := Answer(site, states, labels, j, Ip(s.shared.tasks[a].ip), s.shared);
    var bytes := site.codec.encode(Data(a, s.shared.tasks[a].ip, pair.priv)).value;
    states, labels := Answer(site, states, labels, j, Ok, WriteIn(s.shared, site.paths[j], bytes));
    assert states[|labels|].procs == s.procs[j := Done(Prepare, NIL)];
  }

  lemma BootIsNoMove(a: Arn, j: Job)
    ensures !Moves(Boot(a), j)
  {
  }

  /** Prepare can succeed in every state in which it has just been started, with the cluster moving between its calls. */
  lemma PrepareCanSucceed(site: Site, s: State, j: Job, pair: KeyPair, a: Arn, ip: string) returns (act: Activity)
    requires j in site.paths && j in s.procs && j in s.cancelled && s.procs[j] == PInit && !s.cancelled[j]
    requires a != "" && a !in s.shared.tasks
    requires site.codec.encode(Data(a, "", pair.priv)).Some? && site.codec.encode(Data(a, ip, pair.priv)).Some?
    ensures Acts(site, s, j, PInit, act)
    ensures Drive(site.CfgOf(j), PInit, act.events) == Some(Done(Prepare, NIL))
  {
    hide Execution, Acts, Drive, Step, OwnMoves, After, Moves;
    var states, labels := CanLaunch(site, s, j, pair, a, Task(Provisioning, pair.pub, ip));
    HasStates(site, states, labels);
    var run: Segment := Stretch(states, labels);
    states, labels := CanWait(site, End(run), j, pair, a, site.codec.encode(Data(a, "", pair.priv)).value);
    HasStates(site, states, labels);
    run := Join(site, run, Stretch(states, labels), j);
    states, labels := CanRerecord(site, End(run), j, pair, a);
    HasStates(site, states, labels);
    run := Join(site, run, Stretch(states, labels), j);
    BootIsNoMove(a, j);
    var rest;
    act, rest := ExecutionIsCommand(site, run, j, PInit);
    RestStands(site, s, j, PInit, act, rest);
  }

  /** A failing prepare that launched a task ends with a StopTask for it, for the reason its error names. */
  lemma FailureStops(cfg: Cfg, es: seq<Event>, err: Error) returns (p: Proc)
    requires Drive(cfg, PInit, es) == Some(Done(Prepare, err)) && err != NIL && Yielded(es) != ""
    ensures es != [] && Drive(cfg, PInit, es[..|es| - 1]) == Some(p) && p.PStop? && p.arn == Yielded(es) && p.err == err
    ensures p.cause == FirstRecordFailed ==> err[0] == Fmt(PersistingArn)
    ensures p.cause == SecondRecordFailed ==> err[0] == Fmt(PersistingIp)
  {
    hide Resume, Pending, Fits, Explained;
    var front, e := es[..|es| - 1], es[|es| - 1];
    PrepareCompensates(cfg, es, err);
    p := Drive(cfg, PInit, front).value;
    ProgressHolds(cfg, front, p);
    OnlyStopStops(cfg, p);
    StopReturns(cfg, p, e.resp);
    assert es == front + [e];
    CauseShows(cfg, front, p);
  }

  lemma StopReturns(cfg: Cfg, p: Proc, r: Response)
    requires p.PStop? && Fits(Pending(cfg, p), r)
    ensures Resume(cfg, p, r) == Done(Prepare, p.err)
  {
  }

  lemma OnlyStopStops(cfg: Cfg, p: Proc)
    requires Active(p) && Pending(cfg, p).StopTask? && !p.CStop?
    ensures p.PStop? && Pending(cfg, p) == StopTask(p.arn)
  {
  }

  lemma CauseShows(cfg: Cfg, es: seq<Event>, p: Proc)
    requires Drive(cfg, PInit, es) == Some(p) && p.PStop?
    ensures p.cause == FirstRecordFailed ==> p.err[..1] == [Fmt(PersistingArn)]
    ensures p.cause == SecondRecordFailed ==> p.err[..1] == [Fmt(PersistingIp)]
  {
    var q := Drive(cfg, PInit, es[..|es| - 1]).value;
    ProgressHolds(cfg, es[..|es| - 1], q);
  }

  /**
    When prepare has failed but the task it launched is still live, then its StopTask failed, and the job's file
    names the task unless the error says that one of the two records could not be written.
   */
  lemma FailureLeaves(site: Site, s: State, j: Job, act: Activity, err: Error)
    requires site.Valid() && Inv(site, s) && Acts(site, s, j, PInit, act)
    requires Drive(site.CfgOf(j), PInit, act.events) == Some(Done(Prepare, err)) && err != NIL
    requires Yielded(act.events) != "" && |act.gaps| == |act.events|
    requires Live(After(site, s, j, PInit, act, |act.events|), Yielded(act.events))
    ensures act.events != [] && act.events[|act.events| - 1].req.StopTask? && act.events[|act.events| - 1].resp.Fail?
    ensures Recoverable(site, After(site, s, j, PInit, act, |act.events|), Yielded(act.events))
      || err[0] == Fmt(PersistingArn) || err[0] == Fmt(PersistingIp)
  {
    hide Inv, Step, After, Effect, Resume, Pending, Drive;
    var n := |act.events|;
    ActsShape(site, s, j, PInit, act);
    var p := FailureStops(site.CfgOf(j), act.events, err);
    PrepareCompensates(site.CfgOf(j), act.events, err);
    InvAround(site, s, j, PInit, act, n - 1);
    AnswerIsStep(site, s, j, PInit, act, n - 1);
    StopLeaves(site, End(act.gaps[n - 1]), j, act.events[n - 1].resp, After(site, s, j, PInit, act, n));
  }

  lemma StopLeaves(site: Site, s: State, j: Job, r: Response, t: State)
    requires site.Valid() && Inv(site, s) && j in site.paths && s.procs[j].PStop? && Step(site, s, Reply(j, r), t)
    ensures var p := s.procs[j]; Live(t, p.arn) ==>
      r.Fail? && (Recoverable(site, t, p.arn) || p.cause == FirstRecordFailed || p.cause == SecondRecordFailed)
  {
    assert JobOk(site, s, j);
    RecordStays(site, s, j, r, Resume(site.CfgOf(j), s.procs[j], r), t);
  }

  // ----- run -----

  lemma {:induction false} OwnMovesHas(labels: seq<Label>, j: Job, l: Label)
    requires l in labels && Moves(l, j)
    ensures l in OwnMoves(labels, j)
    decreases |labels|
  {
    if l != labels[|labels| - 1] {
      OwnMovesHas(labels[..|labels| - 1], j, l);
    }
  }

  /** The steps up to the call of event `k`, in which the job's process starts nothing. */
  lemma UpToCall(site: Site, s: State, j: Job, start: Proc, act: Activity, k: nat) returns (run: Segment)
    requires Acts(site, s, j, start, act) && k < |act.events|
    ensures Execution(site, run.states, run.labels) && run.states[0] == s
    ensures |act.gaps| == |act.events| && End(run) == End(act.gaps[k])
    ensures forall p :: Start(j, p) !in run.labels
  {
    hide Acts, Step, After, Execution;
    ActsShape(site, s, j, start, act);
    run := CommandIsExecution(site, s, j, start, act, k);
    GapIsExecution(site, s, j, start, act, k);
    NoOwnMoves(act.gaps[k].labels, j);
    run := Join(site, run, act.gaps[k], j);
    forall p
      ensures Start(j, p) !in run.labels
    {
      if Start(j, p) in run.labels {
        OwnMovesHas(run.labels, j, Start(j, p));
      }
    }
  }

  predicate NoOtherStage(labels: seq<Label>, j: Job) {
    Start(j, PInit) !in labels && Start(j, CInit) !in labels
  }

  lemma PreparedAlong(site: Site, run: Segment, j: Job, a: Arn, pair: KeyPair)
    requires site.Valid() && Execution(site, run.states, run.labels) && Inv(site, run.states[0])
    requires NoOtherStage(run.labels, j) && Prepared(site, run.states[0], j, a, pair)
    ensures Inv(site, End(run)) && Prepared(site, End(run), j, a, pair)
  {
    hide Inv, Step, Ready;
    var s, n := run.states[0], |run.labels|;
    InvAlong(site, run.states, run.labels, n);
    ReadyAlong(site, run.states, run.labels, j, Data(a, s.shared.tasks[a].ip, pair.priv), 0, n);
    TaskAlong(site, run.states, run.labels, a, 0, n);
    InvKeys(site, s);
    InvKeys(site, End(run));
  }

  lemma ConnectsTo(site: Site, s: State, j: Job, a: Arn, pair: KeyPair)
    requires Prepared(site, s, j, a, pair) && Active(s.procs[j]) && Pending(site.CfgOf(j), s.procs[j]).Ssh?
    ensures var req := Pending(site.CfgOf(j), s.procs[j]);
      req == Ssh(s.shared.tasks[a].ip, if site.port >= 1 then site.port else 22, site.user, pair.priv, req.script)
  {
  }

  /**
    Once job `j` is prepared, and as long as no other prepare or cleanup of it is started, each connection that
    a run process makes goes to the prepared task, with the key that belongs to the one injected there, and
    sends the script that the process read.
   */
  lemma RunConnects(site: Site, between: Segment, j: Job, a: Arn, pair: KeyPair, script: Path, act: Activity, k: nat)
    requires site.Valid() && Execution(site, between.states, between.labels) && Inv(site, between.states[0])
    requires NoOtherStage(between.labels, j) && Prepared(site, between.states[0], j, a, pair)
    requires Acts(site, End(between), j, RScript(script), act) && k < |act.events| && act.events[k].req.Ssh?
    ensures |act.gaps| == |act.events| && Prepared(site, End(act.gaps[k]), j, a, pair)
    ensures
      var req, task := act.events[k].req, End(act.gaps[k]).shared.tasks[a];
      && req == Ssh(task.ip, if site.port >= 1 then site.port else 22, site.user, pair.priv, req.script)
      && task.injected == pair.pub
    ensures act.events[0] == Event(ReadScript(script), Content(act.events[k].req.script))
  {
    hide Inv, Step, After, Prepared, Drive, Execution, Effect;
    ScriptIsSent(site.CfgOf(j), script, act.events, k);
    PreparedAlong(site, between, j, a, pair);
    var run := UpToCall(site, End(between), j, RScript(script), act, k);
    PreparedAlong(site, run, j, a, pair);
    AnswerIsStep(site, End(between), j, RScript(script), act, k);
    StandStep(site.CfgOf(j), RScript(script), act.events, k);
    ConnectsTo(site, End(run), j, a, pair);
    assert a in End(run).shared.tasks && End(run).shared.tasks[a].injected == pair.pub by { PreparedHas(site, End(run), j, a, pair); }
  }

  lemma PreparedHas(site: Site, s: State, j: Job, a: Arn, pair: KeyPair)
    requires Prepared(site, s, j, a, pair)
    ensures j in site.paths && a in s.shared.tasks && s.shared.tasks[a].injected == pair.pub
  {
  }

  // ----- cleanup -----

  /** A successful cleanup stopped the task it read from the record, and its last call was the removal. */
  lemma SuccessRemoves(cfg: Cfg, es: seq<Event>) returns (a: Arn)
    requires Drive(cfg, CInit, es) == Some(Done(Cleanup, NIL))
    ensures es != [] && es[|es| - 1].resp == Ok && Event(StopTask(a), Ok) in es
    ensures Drive(cfg, CInit, es[..|es| - 1]) == Some(CRemove(a))
  {
    CleanupSucceeds(cfg, es, NIL);
    CleanupMakes(cfg, es);
    CleanupMakes(cfg, es[..5]);
    a := es[3].req.arn;
    assert Event(StopTask(a), Ok) == es[3];
  }

  /** When cleanup has succeeded, the task it stopped is stopped and the record is gone, whatever went on between its calls. */
  lemma SuccessCleans(site: Site, s: State, j: Job, act: Activity) returns (a: Arn)
    requires site.Valid() && Inv(site, s) && Acts(site, s, j, CInit, act)
    requires Drive(site.CfgOf(j), CInit, act.events) == Some(Done(Cleanup, NIL))
    ensures |act.gaps| == |act.events| == |act.trail| && Event(StopTask(a), Ok) in act.events
    ensures Cleaned(site, After(site, s, j, CInit, act, |act.events|), j, a)
  {
    hide Inv, Step, After, Effect, Resume, Pending, Drive;
    var n := |act.events|;
    ActsShape(site, s, j, CInit, act);
    a := SuccessRemoves(site.CfgOf(j), act.events);
    InvAround(site, s, j, CInit, act, n - 1);
    AnswerIsStep(site, s, j, CInit, act, n - 1);
    RemovalEnds(site, End(act.gaps[n - 1]), j, After(site, s, j, CInit, act, n));
  }

  lemma RemovalEnds(site: Site, s: State, j: Job, t: State)
    requires Inv(site, s) && j in site.paths && s.procs[j].CRemove? && Step(site, s, Reply(j, Ok), t)
    ensures Cleaned(site, t, j, s.procs[j].arn)
  {
    assert JobOk(site, s, j);
  }

  // ----- the commands themselves -----

  /** Every live task is held by its prepare or named by its job's file, unless a step of `run` lost it. */
  ghost predicate NoneUnaccounted(site: Site, run: Segment) {
    forall a :: Live(End(run), a) ==> (Known(site, End(run), a) <==> !WasLost(site, run.states, run.labels, a))
  }

  /** `run` is a behaviour that goes on after `before` with what the job's process does. */
  ghost predicate GoesOn(site: Site, before: Segment, j: Job, es: seq<Event>, t: State, run: Segment) {
    && Behaviour(site, run.states, run.labels) && before.labels <= run.labels && End(run) == t
    && OwnMoves(run.labels, j) == OwnMoves(before.labels, j) + Replies(j, es)
  }

  /** A command goes on after any behaviour to a behaviour, in which no live task is unaccounted for. */
  lemma NoOrphanAfter(site: Site, before: Segment, j: Job, start: Proc, act: Activity) returns (run: Segment)
    requires site.Valid() && Behaviour(site, before.states, before.labels)
    requires Acts(site, End(before), j, start, act)
    ensures |act.gaps| == |act.events| == |act.trail|
    ensures GoesOn(site, before, j, act.events, After(site, End(before), j, start, act, |act.events|), run)
    ensures NoneUnaccounted(site, run)
  {
    hide Step, Init, Acts, After, Live, Known, WasLost, Execution, OwnMoves;
    assert BehaviourParts: Execution(site, before.states, before.labels) && Init(site, before.states[0]);
    ActsShape(site, End(before), j, start, act);
    var mine := CommandIsExecution(site, End(before), j, start, act, |act.events|);
    assert act.events[..|act.events|] == act.events;
    run := Join(site, before, mine, j);
    forall a | Live(End(run), a)
      ensures Known(site, End(run), a) <==> !WasLost(site, run.states, run.labels, a)
    {
      NoSilentOrphan(site, run.states, run.labels, a);
    }
  }

  /** Between the calls since `before`, others went on as the system allows, from the end of `run`, where `j` stood at `start`. */
  ghost predicate Meets(site: Site, run: Segment, j: Job, start: Proc, act: Activity)
    requires j in site.paths
  {
    && j in End(run).procs && j in End(run).cancelled && End(run).procs[j] == start
    && Interleaved(site, End(run), j, start, act)
  }

  ghost predicate WorldOf(site: Site, j: Job, world: World)
    reads world
  {
    && site.Valid() && j in site.paths && world.Valid() && world.adapter && world.path == site.paths[j]
  }

  /** What prepare returned, and what it leaves behind. */
  ghost predicate PrepareLeft(site: Site, before: Segment, j: Job, act: Activity, err: Error)
    requires j in site.paths && |act.gaps| == |act.events| == |act.trail|
  {
    var t := After(site, End(before), j, PInit, act, |act.events|);
    && (exists run :: GoesOn(site, before, j, act.events, t, run) && NoneUnaccounted(site, run))
    && (err == NIL ==> exists a, pair :: Launched(act.events, a, pair) && Prepared(site, t, j, a, pair))
    && (err != NIL && Yielded(act.events) != "" && Live(t, Yielded(act.events)) ==>
          Recoverable(site, t, Yielded(act.events)) || err[0] == Fmt(PersistingArn) || err[0] == Fmt(PersistingIp))
  }

  lemma PrepareLeaves(site: Site, before: Segment, j: Job, act: Activity, err: Error)
    requires site.Valid() && Behaviour(site, before.states, before.labels) && j in site.paths
    requires Acts(site, End(before), j, PInit, act)
    requires Drive(site.CfgOf(j), PInit, act.events) == Some(Done(Prepare, err))
    ensures |act.gaps| == |act.events| == |act.trail| && PrepareLeft(site, before, j, act, err)
  {
    hide Step, Init, Acts, After, Live, Known, WasLost, Inv, NoneUnaccounted, GoesOn, Prepared, Launched, Recoverable, Drive;
    var run := NoOrphanAfter(site, before, j, PInit, act);
    InitEstablishesInv(site, before.states[0]);
    InvAlong(site, before.states, before.labels, |before.labels|);
    if err == NIL {
      var a, pair := SuccessPrepares(site, End(before), j, act);
    } else if Yielded(act.events) != "" && Live(After(site, End(before), j, PInit, act, |act.events|), Yielded(act.events)) {
      FailureLeaves(site, End(before), j, act, err);
    }
  }

  /**
    Prepare, executed as a command in any state that the system can reach, with anything going on between its calls:
    no live task is unaccounted for, success means that the job is prepared, and a failure that
    leaves the task behind names the reason.
   */
  method ExecutePrepare(command: PrepareCommand, site: Site, j: Job) returns (err: Error)
    requires WorldOf(site, j, command.world) && command.cfg == site.CfgOf(j)
    modifies command, command.world
    ensures command.world.Valid() && old(command.world.log) <= command.world.log
    ensures
      var es := Since(command.world.log, old(command.world.log));
      (PrepareCalls(command.cfg, es) || StoppedAfter(command.cfg, es)) && PrepareStands(command.cfg, es, Done(Prepare, err))
    ensures forall before: Segment, gaps: seq<Segment> ::
      (var act := ActivitySince(command.world, old(command.world.log), gaps);
       Behaviour(site, before.states, before.labels) && Meets(site, before, j, PInit, act) ==>
         PrepareLeft(site, before, j, act, err))
  {
    hide PrepareCalls, StoppedAfter, PrepareStands;
    ghost var log := command.world.log;
    err := command.CustomExecute();
    PrepareMakes(command.cfg, Since(command.world.log, log));
    LogIsPossible(command.world, log);
    forall before: Segment, gaps: seq<Segment> |
      Behaviour(site, before.states, before.labels)
      && Meets(site, before, j, PInit, ActivitySince(command.world, log, gaps))
      ensures PrepareLeft(site, before, j, ActivitySince(command.world, log, gaps), err)
    {
      PrepareLeaves(site, before, j, ActivitySince(command.world, log, gaps), err);
    }
  }

  /**
    Every connection among the events goes to task `a` of the system at that moment, with the private half of `pair`, and
    sends what was read from `script`.
   */
  ghost predicate ConnectsOnlyTo(site: Site, act: Activity, a: Arn, pair: KeyPair, script: Path)
    requires |act.gaps| == |act.events|
  {
    forall k {:trigger act.events[k]} :: 0 <= k < |act.events| && act.events[k].req.Ssh? ==>
      var req, tasks := act.events[k].req, End(act.gaps[k]).shared.tasks;
      && a in tasks && tasks[a].injected == pair.pub
      && req == Ssh(tasks[a].ip, if site.port >= 1 then site.port else 22, site.user, pair.priv, req.script)
      && act.events[0] == Event(ReadScript(script), Content(req.script))
  }

  lemma RunConnectsOnlyTo(site: Site, between: Segment, j: Job, a: Arn, pair: KeyPair, script: Path, act: Activity)
    requires site.Valid() && Execution(site, between.states, between.labels) && Inv(site, between.states[0])
    requires NoOtherStage(between.labels, j) && Prepared(site, between.states[0], j, a, pair)
    requires Acts(site, End(between), j, RScript(script), act)
    ensures |act.gaps| == |act.events| && ConnectsOnlyTo(site, act, a, pair, script)
  {
    hide Inv, Step, After, Prepared, Drive, Execution, Effect, Acts;
    ActsShape(site, End(between), j, RScript(script), act);
    forall k {:trigger act.events[k]} | 0 <= k < |act.events| && act.events[k].req.Ssh?
      ensures
        var req, tasks := act.events[k].req, End(act.gaps[k]).shared.tasks;
        && a in tasks && tasks[a].injected == pair.pub
        && req == Ssh(tasks[a].ip, if site.port >= 1 then site.port else 22, site.user, pair.priv, req.script)
        && act.events[0] == Event(ReadScript(script), Content(req.script))
    {
      RunConnects(site, between, j, a, pair, script, act, k);
      PreparedHas(site, End(act.gaps[k]), j, a, pair);
    }
  }

  /** Run, executed as a command once the job is prepared: it connects to the prepared task, with its key, and nowhere else. */
  method ExecuteRun(command: RunCommand, args: seq<string>, site: Site, j: Job) returns (err: Error)
    requires WorldOf(site, j, command.world) && command.cfg == site.CfgOf(j) && |args| >= 2
    modifies command, command.world
    ensures command.world.Valid() && old(command.world.log) <= command.world.log
    ensures
      var es := Since(command.world.log, old(command.world.log));
      RunCalls(command.cfg, args[0], es) && RunAt(command.cfg, args[0], es, Done(Run, err))
    ensures forall between: Segment, gaps: seq<Segment>, a: Arn, pair: KeyPair ::
      (var act := ActivitySince(command.world, old(command.world.log), gaps);
       && Execution(site, between.states, between.labels) && Inv(site, between.states[0])
       && NoOtherStage(between.labels, j) && Prepared(site, between.states[0], j, a, pair)
       && Meets(site, between, j, RScript(args[0]), act) ==>
         ConnectsOnlyTo(site, act, a, pair, args[0]))
  {
    hide Inv, Execution, Prepared, Drive, Effect, RunCalls, RunAt;
    ghost var log := command.world.log;
    err := command.CustomExecute(args);
    RunMakes(command.cfg, args[0], Since(command.world.log, log));
    LogIsPossible(command.world, log);
    forall between: Segment, gaps: seq<Segment>, a: Arn, pair: KeyPair |
      && Execution(site, between.states, between.labels) && Inv(site, between.states[0])
      && NoOtherStage(between.labels, j) && Prepared(site, between.states[0], j, a, pair)
      && Meets(site, between, j, RScript(args[0]), ActivitySince(command.world, log, gaps))
      ensures ConnectsOnlyTo(site, ActivitySince(command.world, log, gaps), a, pair, args[0])
    {
      RunConnectsOnlyTo(site, between, j, a, pair, args[0], ActivitySince(command.world, log, gaps));
    }
  }

  /** Cleanup, executed as a command in any reachable state: success means that the task it read is stopped and the record gone. */
  method ExecuteCleanup(command: CleanupCommand, site: Site, j: Job) returns (err: Error)
    requires WorldOf(site, j, command.world) && command.cfg == site.CfgOf(j)
    modifies command, command.world
    ensures command.world.Valid() && old(command.world.log) <= command.world.log
    ensures
      var es := Since(command.world.log, old(command.world.log));
      CleanupCalls(command.cfg, es) && CleanupAt(command.cfg, es, Done(Cleanup, err))
    ensures err == NIL ==> forall before: Segment, gaps: seq<Segment> ::
      (var act := ActivitySince(command.world, old(command.world.log), gaps);
       Inv(site, End(before)) && Meets(site, before, j, CInit, act) ==>
         exists a :: Event(StopTask(a), Ok) in act.events
               && Cleaned(site, After(site, End(before), j, CInit, act, |act.events|), j, a))
  {
    hide Inv, Drive, Effect, After, Cleaned, CleanupCalls, CleanupAt;
    ghost var log := command.world.log;
    err := command.CustomExecute();
    CleanupMakes(command.cfg, Since(command.world.log, log));
    LogIsPossible(command.world, log);
    if err == NIL {
      forall before: Segment, gaps: seq<Segment> |
        Inv(site, End(before)) && Meets(site, before, j, CInit, ActivitySince(command.world, log, gaps))
        ensures (var act := ActivitySince(command.world, log, gaps);
                 exists a :: Event(StopTask(a), Ok) in act.events
                   && Cleaned(site, After(site, End(before), j, CInit, act, |act.events|), j, a))
      {
        var a := SuccessCleans(site, End(before), j, ActivitySince(command.world, log, gaps));
      }
    }
  }
}
