/**
  What can become of a task: over every interleaving, a live task is held by the prepare
  that launched it, or its job's file names it, or one of six events lost it for good.
 */
module Orphans {
  import opened Options
  import opened Errors
  import opened Protocol
  import opened System

  predicate Live(s: State, a: Arn) {
    a in s.shared.tasks && s.shared.tasks[a].status != Stopped
  }

  /** The task a process of prepare is responsible for. */
  function Holding(p: Proc): Option<Arn> {
    match p
    case PRecord(_, a, _) => Some(a)
    case PWait(_, a) => Some(a)
    case PAddress(_, a) => Some(a)
    case PRerecord(_, a, _, _) => Some(a)
    case PStop(a, _, _) => Some(a)
    case _ => None
  }

  /** The prepare that launched `a` is still working on it. */
  predicate Held(s: State, a: Arn) {
    && a in s.launched && s.launched[a].job in s.procs
    && Holding(s.procs[s.launched[a].job]) == Some(a)
  }

  /** The file of the job that launched `a` decodes to a record of `a`: its cleanup will stop `a`. */
  predicate Recoverable(site: Site, s: State, a: Arn) {
    && a in s.launched && s.launched[a].job in site.paths
    && Recorded(site, s, s.launched[a].job).Some?
    && Recorded(site, s, s.launched[a].job).value.arn == a
  }

  predicate Known(site: Site, s: State, a: Arn) {
    Held(s, a) || Recoverable(site, s, a)
  }

  datatype Loss =
    | AnswerLost        // the cluster started the task, but RunTask returned an error
    | DiedLaunching     // prepare died between the launch and the first record
    | DiedRecording     // prepare died while writing the first record
    | NotStopped        // a record could not be written, and the task was not stopped either
    | DiedRerecording   // prepare died while writing the second record
    | Overwritten       // a later prepare of the same job wrote over the record

  /** The event `l`, in state `s`, is of the kind `loss` with respect to task `a`. */
  predicate IsLoss(loss: Loss, s: State, l: Label, a: Arn) {
    match loss
    case AnswerLost =>
      l.Reply? && l.job in s.procs && s.procs[l.job].PLaunch? && l.resp.RunFailed? && a !in s.shared.tasks
    case DiedLaunching =>
      l.KillAfter? && l.job in s.procs && s.procs[l.job].PLaunch? && a !in s.shared.tasks
    case DiedRecording =>
      (l.Kill? || (l.KillAfter? && l.resp.Fail?)) && l.job in s.procs && s.procs[l.job].PRecord? && s.procs[l.job].arn == a
    case NotStopped =>
      && (l.Kill? || ((l.KillAfter? || l.Reply?) && l.resp.Fail?))
      && l.job in s.procs && s.procs[l.job].PStop? && s.procs[l.job].arn == a
      && (s.procs[l.job].cause == FirstRecordFailed || s.procs[l.job].cause == SecondRecordFailed)
    case DiedRerecording =>
      l.KillAfter? && l.resp.Fail? && l.job in s.procs && s.procs[l.job].PRerecord? && s.procs[l.job].arn == a
    case Overwritten =>
      && (l.KillAfter? || l.Reply?) && l.job in s.procs && s.procs[l.job].PRecord? && s.procs[l.job].arn != a
      && a in s.launched && s.launched[a].job == l.job
  }

  /** This step makes the driver lose track of the live task `a`. */
  ghost predicate Loses(site: Site, s: State, l: Label, t: State, a: Arn) {
    && Live(t, a) && !Known(site, t, a)
    && (a !in s.shared.tasks || Known(site, s, a))
    && exists loss :: IsLoss(loss, s, l, a)
  }

  /** The parts of `Known` that a call of the launching job can change. */
  predicate Tracks(p: Proc, record: Option<Data>, a: Arn) {
    Holding(p) == Some(a) || (record.Some? && record.value.arn == a)
  }

  lemma KnownIsTracks(site: Site, s: State, j: Job, a: Arn)
    requires j in site.paths && j in s.procs && a in s.launched && s.launched[a].job == j
    ensures Known(site, s, a) <==> Tracks(s.procs[j], Recorded(site, s, j), a)
  {
  }

  /** Either way of taking a call: the answer arrives, or the process dies instead. */
  ghost predicate Taken(site: Site, s: State, l: Label, j: Job, r: Response, next: Proc, t: State)
    requires j in site.paths && j in s.procs && j in s.cancelled && Active(s.procs[j])
  {
    && Called(site, s, j, r, next, t)
    && (if l.Reply? then l == Reply(j, r) && next == Resume(site.CfgOf(j), s.procs[j], r)
        else l == KillAfter(j, r) && next == Idle)
  }

  /** A step that answers a call, or loses its answer with the process. */
  lemma StepTakesCall(site: Site, s: State, l: Label, t: State) returns (next: Proc)
    requires Step(site, s, l, t) && (l.Reply? || l.KillAfter?)
    ensures l.job in site.paths && l.job in s.procs && l.job in s.cancelled && Active(s.procs[l.job])
    ensures Taken(site, s, l, l.job, l.resp, next, t)
  {
    hide Effect, Resume, Pending, Fits, Record;
    next := if l.Reply? then Resume(site.CfgOf(l.job), s.procs[l.job], l.resp) else Idle;
  }

  lemma FirstWriteTracks(site: Site, s: State, l: Label, j: Job, r: Response, next: Proc, t: State, a: Arn)
    requires site.Valid() && j in site.paths && j in s.procs && j in s.cancelled && s.procs[j].PRecord?
    requires JobOk(site, s, j) && Taken(site, s, l, j, r, next, t) && a in s.launched && s.launched[a].job == j && a != ""
    requires Tracks(s.procs[j], Recorded(site, s, j), a)
    ensures Tracks(next, Recorded(site, t, j), a) || IsLoss(Overwritten, s, l, a) || IsLoss(DiedRecording, s, l, a)
  {
    WriteLeaves(site, s, j, r, next, t, Data(s.procs[j].arn, "", s.procs[j].pair.priv));
  }

  lemma SecondWriteTracks(site: Site, s: State, l: Label, j: Job, r: Response, next: Proc, t: State, a: Arn)
    requires site.Valid() && j in site.paths && j in s.procs && j in s.cancelled && s.procs[j].PRerecord?
    requires JobOk(site, s, j) && Taken(site, s, l, j, r, next, t) && a != ""
    requires Tracks(s.procs[j], Recorded(site, s, j), a)
    ensures Tracks(next, Recorded(site, t, j), a) || IsLoss(DiedRerecording, s, l, a)
  {
    WriteLeaves(site, s, j, r, next, t, Data(s.procs[j].arn, s.procs[j].ip, s.procs[j].pair.priv));
  }

  lemma StopTracks(site: Site, s: State, l: Label, j: Job, r: Response, next: Proc, t: State, a: Arn)
    requires j in site.paths && j in s.procs && j in s.cancelled && s.procs[j].PStop?
    requires JobOk(site, s, j) && Taken(site, s, l, j, r, next, t) && Live(t, a)
    requires Tracks(s.procs[j], Recorded(site, s, j), a)
    ensures Tracks(next, Recorded(site, t, j), a) || IsLoss(NotStopped, s, l, a)
  {
    RecordStays(site, s, j, r, next, t);
  }

  /** The task whose record is being removed is stopped. */
  lemma RemovesStopped(site: Site, s: State, l: Label, j: Job, r: Response, next: Proc, t: State, a: Arn)
    requires j in site.paths && j in s.procs && j in s.cancelled && s.procs[j].CRemove?
    requires JobOk(site, s, j) && Taken(site, s, l, j, r, next, t) && Persists(s, t)
    requires Tracks(s.procs[j], Recorded(site, s, j), a)
    ensures !Live(t, a)
  {
  }

  lemma OtherCallTracks(site: Site, s: State, l: Label, j: Job, r: Response, next: Proc, t: State, a: Arn)
    requires j in site.paths && j in s.procs && j in s.cancelled && Active(s.procs[j])
    requires !s.procs[j].PRecord? && !s.procs[j].PRerecord? && !s.procs[j].PStop? && !s.procs[j].CRemove?
    requires JobOk(site, s, j) && Taken(site, s, l, j, r, next, t)
    requires Tracks(s.procs[j], Recorded(site, s, j), a)
    ensures Tracks(next, Recorded(site, t, j), a)
  {
    RecordStays(site, s, j, r, next, t);
  }

  /** A call by the job that launched `a` keeps track of it, or is one of the losses. */
  lemma CallKeepsTrack(site: Site, s: State, l: Label, j: Job, r: Response, next: Proc, t: State, a: Arn)
    requires site.Valid() && Inv(site, s) && Inv(site, t) && j in site.paths && Active(s.procs[j])
    requires Taken(site, s, l, j, r, next, t)
    requires Live(t, a) && a in s.shared.tasks && s.launched[a].job == j && Known(site, s, a)
    ensures Known(site, t, a) || exists loss :: IsLoss(loss, s, l, a)
  {
    hide Effect, Resume, Pending;
    CallPersists(site, s, j, r, next, t);
    KnownIsTracks(site, s, j, a);
    KnownIsTracks(site, t, j, a);
    assert JobOk(site, s, j);
    match s.procs[j]
    case PRecord(_, _, _) => FirstWriteTracks(site, s, l, j, r, next, t, a);
    case PRerecord(_, _, _, _) => SecondWriteTracks(site, s, l, j, r, next, t, a);
    case PStop(_, _, _) => StopTracks(site, s, l, j, r, next, t, a);
    case CRemove(_) => RemovesStopped(site, s, l, j, r, next, t, a);
    case _ => OtherCallTracks(site, s, l, j, r, next, t, a);
  }

  /** A task the cluster just started is held by its prepare, or lost in that very step. */
  lemma LaunchTracks(site: Site, s: State, l: Label, j: Job, r: Response, next: Proc, t: State, a: Arn)
    requires site.Valid() && Inv(site, s) && j in site.paths && Active(s.procs[j])
    requires Taken(site, s, l, j, r, next, t)
    requires a !in s.shared.tasks && a in t.shared.tasks
    ensures Known(site, t, a) || exists loss :: IsLoss(loss, s, l, a)
  {
    hide JobOk, Recorded;
    CallPersists(site, s, j, r, next, t);
    if l.KillAfter? {
      assert IsLoss(DiedLaunching, s, l, a);
    } else if r.RunFailed? {
      assert IsLoss(AnswerLost, s, l, a);
    } else {
      KnownIsTracks(site, t, j, a);
    }
  }

  /** A call by any process keeps track of every live task, or is one of the losses. */
  lemma TakenKeepsTrack(site: Site, s: State, l: Label, j: Job, r: Response, next: Proc, t: State, a: Arn)
    requires site.Valid() && Inv(site, s) && Inv(site, t) && j in site.paths && Active(s.procs[j])
    requires Taken(site, s, l, j, r, next, t)
    requires Live(t, a) && (a in s.shared.tasks ==> Known(site, s, a))
    ensures Known(site, t, a) || exists loss :: IsLoss(loss, s, l, a)
  {
    hide Effect, JobOk, Resume, Pending, IsLoss, Fits, Record;
    if a !in s.shared.tasks {
      LaunchTracks(site, s, l, j, r, next, t, a);
    } else if s.launched[a].job == j {
      CallKeepsTrack(site, s, l, j, r, next, t, a);
    } else {
      var k := s.launched[a].job;
      CallUnaffected(site, s, j, r, next, t, k);
      SameKnowledge(site, s, t, k, a);
    }
  }

  /** What a job knows of its own tasks does not change when nothing about it changes. */
  lemma SameKnowledge(site: Site, s: State, t: State, k: Job, a: Arn)
    requires k in site.paths && SameFor(site, s, t, k) && Owns(s, k, a)
    ensures Known(site, s, a) <==> Known(site, t, a)
  {
  }

  lemma StepKeepsTrack(site: Site, s: State, l: Label, t: State, a: Arn)
    requires site.Valid() && Inv(site, s) && Inv(site, t) && Step(site, s, l, t)
    requires Live(t, a) && (a in s.shared.tasks ==> Known(site, s, a))
    ensures Known(site, t, a) || Loses(site, s, l, t, a)
  {
    hide Step, JobOk, IsLoss, Known;
    if l.Reply? || l.KillAfter? {
      var next := StepTakesCall(site, s, l, t);
      TakenKeepsTrack(site, s, l, l.job, l.resp, next, t, a);
    } else {
      NoCallKeepsTrack(site, s, l, t, a);
    }
  }

  /** Apart from calls, only the death of a process can lose a task. */
  lemma NoCallKeepsTrack(site: Site, s: State, l: Label, t: State, a: Arn)
    requires Inv(site, s) && Step(site, s, l, t) && !l.Reply? && !l.KillAfter?
    requires Live(t, a) && (a in s.shared.tasks ==> Known(site, s, a))
    ensures Known(site, t, a) || exists loss :: IsLoss(loss, s, l, a)
  {
    var j := s.launched[a].job;
    assert JobOk(site, s, j);
    KnownIsTracks(site, s, j, a);
    KnownIsTracks(site, t, j, a);
    assert Recorded(site, t, j) == Recorded(site, s, j);
    if l == Kill(j) {
      match s.procs[j]
      case PRecord(_, _, _) => if s.procs[j].arn == a { assert IsLoss(DiedRecording, s, l, a); }
      case PStop(_, cause, _) =>
        if s.procs[j].arn == a && (cause == FirstRecordFailed || cause == SecondRecordFailed) { assert IsLoss(NotStopped, s, l, a); }
      case _ =>
    }
  }

  lemma WriteTeachesNothing(site: Site, s: State, l: Label, j: Job, r: Response, next: Proc, t: State, a: Arn)
    requires site.Valid() && j in site.paths && j in s.procs && j in s.cancelled && Active(s.procs[j])
    requires s.procs[j].PRecord? || s.procs[j].PRerecord?
    requires JobOk(site, s, j) && Taken(site, s, l, j, r, next, t)
    requires !Tracks(s.procs[j], Recorded(site, s, j), a)
    ensures !Tracks(next, Recorded(site, t, j), a)
  {
    match s.procs[j]
    case PRecord(pair, b, _) => WriteLeaves(site, s, j, r, next, t, Data(b, "", pair.priv));
    case PRerecord(pair, b, ip, _) => WriteLeaves(site, s, j, r, next, t, Data(b, ip, pair.priv));
    case _ =>
  }

  lemma LaunchTeachesNothing(site: Site, s: State, l: Label, j: Job, r: Response, next: Proc, t: State, a: Arn)
    requires j in site.paths && j in s.procs && j in s.cancelled && s.procs[j].PLaunch?
    requires Taken(site, s, l, j, r, next, t) && a in s.shared.tasks && a != ""
    requires !Tracks(s.procs[j], Recorded(site, s, j), a)
    ensures !Tracks(next, Recorded(site, t, j), a)
  {
    RecordStays(site, s, j, r, next, t);
  }

  lemma OtherTeachesNothing(site: Site, s: State, l: Label, j: Job, r: Response, next: Proc, t: State, a: Arn)
    requires j in site.paths && j in s.procs && j in s.cancelled && Active(s.procs[j])
    requires !s.procs[j].PRecord? && !s.procs[j].PRerecord? && !s.procs[j].PLaunch?
    requires Taken(site, s, l, j, r, next, t)
    requires !Tracks(s.procs[j], Recorded(site, s, j), a)
    ensures !Tracks(next, Recorded(site, t, j), a)
  {
    if s.procs[j].CRemove? {
      RemoveLeaves(site, s, j, r, next, t);
    } else {
      RecordStays(site, s, j, r, next, t);
    }
  }

  lemma CallTeachesNothing(site: Site, s: State, l: Label, j: Job, r: Response, next: Proc, t: State, a: Arn)
    requires site.Valid() && Inv(site, s) && j in site.paths && Active(s.procs[j])
    requires Taken(site, s, l, j, r, next, t) && a in s.shared.tasks && s.launched[a].job == j
    requires !Known(site, s, a)
    ensures a in t.shared.tasks && a in t.launched && t.launched[a].job == j && !Known(site, t, a)
  {
    CallPersists(site, s, j, r, next, t);
    KnownIsTracks(site, s, j, a);
    KnownIsTracks(site, t, j, a);
    assert JobOk(site, s, j);
    if s.procs[j].PRecord? || s.procs[j].PRerecord? {
      WriteTeachesNothing(site, s, l, j, r, next, t, a);
    } else if s.procs[j].PLaunch? {
      LaunchTeachesNothing(site, s, l, j, r, next, t, a);
    } else {
      OtherTeachesNothing(site, s, l, j, r, next, t, a);
    }
  }

  lemma NoCallTeachesNothing(site: Site, s: State, l: Label, t: State, a: Arn)
    requires Inv(site, s) && Step(site, s, l, t) && !l.Reply? && !l.KillAfter?
    requires a in s.shared.tasks && !Known(site, s, a)
    ensures a in t.shared.tasks && !Known(site, t, a)
  {
    var k := s.launched[a].job;
    KnownIsTracks(site, s, k, a);
    KnownIsTracks(site, t, k, a);
    assert Recorded(site, t, k) == Recorded(site, s, k);
  }

  lemma TakenTeachesNothing(site: Site, s: State, l: Label, j: Job, r: Response, next: Proc, t: State, a: Arn)
    requires site.Valid() && Inv(site, s) && j in site.paths && Active(s.procs[j])
    requires Taken(site, s, l, j, r, next, t) && a in s.shared.tasks && !Known(site, s, a)
    ensures a in t.shared.tasks && !Known(site, t, a)
  {
    var k := s.launched[a].job;
    if j == k {
      CallTeachesNothing(site, s, l, j, r, next, t, a);
    } else {
      CallUnaffected(site, s, j, r, next, t, k);
      assert Owns(s, k, a);
    }
  }

  /** Once lost, always lost: no later process learns the ARN again. */
  lemma LostStaysLost(site: Site, s: State, l: Label, t: State, a: Arn)
    requires site.Valid() && Inv(site, s) && Step(site, s, l, t)
    requires a in s.shared.tasks && !Known(site, s, a)
    ensures a in t.shared.tasks && !Known(site, t, a)
  {
    hide Step, JobOk, Known;
    if l.Reply? || l.KillAfter? {
      var next := StepTakesCall(site, s, l, t);
      TakenTeachesNothing(site, s, l, l.job, l.resp, next, t, a);
    } else {
      NoCallTeachesNothing(site, s, l, t, a);
    }
  }

  /** Some step of the execution lost `a`. */
  ghost predicate WasLost(site: Site, states: seq<State>, labels: seq<Label>, a: Arn)
    requires |states| == |labels| + 1
  {
    exists i {:trigger labels[i]} :: 0 <= i < |labels| && Loses(site, states[i], labels[i], states[i + 1], a)
  }

  lemma LiveBefore(site: Site, s: State, l: Label, t: State, a: Arn)
    requires Inv(site, s) && Step(site, s, l, t) && Live(t, a) && a in s.shared.tasks
    ensures Live(s, a)
  {
    if l.Reply? || l.KillAfter? {
      var next := if l.Reply? then Resume(site.CfgOf(l.job), s.procs[l.job], l.resp) else Idle;
      CallPersists(site, s, l.job, l.resp, next, t);
    }
  }

  lemma {:induction false} StillLost(site: Site, states: seq<State>, labels: seq<Label>, a: Arn, i: nat, n: nat)
    requires site.Valid() && Execution(site, states, labels) && Inv(site, states[0]) && i <= n < |states|
    requires a in states[i].shared.tasks && !Known(site, states[i], a)
    ensures a in states[n].shared.tasks && !Known(site, states[n], a)
    decreases n - i
  {
    hide Step, Inv;
    if i < n {
      InvAlong(site, states, labels, i);
      LostStaysLost(site, states[i], labels[i], states[i + 1], a);
      StillLost(site, states, labels, a, i + 1, n);
    }
  }

  /** One step: a live task that was new or known before it is known after it, or lost in it. */
  lemma StepTracksOrLoses(site: Site, s: State, l: Label, t: State, a: Arn)
    requires site.Valid() && Inv(site, s) && Step(site, s, l, t) && Live(t, a)
    ensures a in s.shared.tasks ==> Live(s, a)
    ensures (a in s.shared.tasks ==> Known(site, s, a)) ==> Known(site, t, a) || Loses(site, s, l, t, a)
  {
    hide Inv, Step, Known, Loses;
    StepKeepsInv(site, s, l, t);
    if a in s.shared.tasks {
      LiveBefore(site, s, l, t, a);
    }
    if a in s.shared.tasks ==> Known(site, s, a) {
      StepKeepsTrack(site, s, l, t, a);
    }
  }

  lemma {:induction false} TrackedOrLost(site: Site, states: seq<State>, labels: seq<Label>, a: Arn, n: nat)
    requires site.Valid() && Execution(site, states, labels) && Inv(site, states[0]) && states[0].shared.tasks == map[]
    requires n < |states| && Live(states[n], a)
    ensures Known(site, states[n], a) || exists i {:trigger labels[i]} :: 0 <= i < n && Loses(site, states[i], labels[i], states[i + 1], a)
  {
    hide Inv, Step, Known, Loses;
    if n > 0 {
      InvAlong(site, states, labels, n - 1);
      assert Step(site, states[n - 1], labels[n - 1], states[n]);
      StepTracksOrLoses(site, states[n - 1], labels[n - 1], states[n], a);
      if a in states[n - 1].shared.tasks {
        TrackedOrLost(site, states, labels, a, n - 1);
      }
    }
  }

  /**
    No silent orphan: at the end of any behaviour of any number of jobs, a live task is held by
    the prepare that launched it or named by its job's file, unless one of the six
    losses happened to it, and exactly in that case.
   */
  lemma NoSilentOrphan(site: Site, states: seq<State>, labels: seq<Label>, a: Arn)
    requires site.Valid() && Behaviour(site, states, labels)
    requires Live(states[|labels|], a)
    ensures Known(site, states[|labels|], a) <==> !WasLost(site, states, labels, a)
  {
    InitEstablishesInv(site, states[0]);
    TrackedOrLost(site, states, labels, a, |labels|);
    if WasLost(site, states, labels, a) {
      var i {:trigger labels[i]} :| 0 <= i < |labels| && Loses(site, states[i], labels[i], states[i + 1], a);
      StillLost(site, states, labels, a, i + 1, |labels|);
    }
  }
}
