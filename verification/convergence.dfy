/**
  Cleanup can be retried: it never makes a task unrecoverable, and with finitely many
  failures its repetition ends with the task stopped and the record gone.
 */
module Convergence {
  import opened Options
  import opened Errors
  import opened Protocol
  import opened System
  import opened Orphans
  import opened Cancellation

  predicate InCleanup(p: Proc) {
    p.CInit? || p.CExists? || p.CRead? || p.CStop? || p.CClear? || p.CRemove?
  }

  /** No loss is a step of a cleanup. */
  lemma CleanupIsNoLoss(s: State, l: Label, j: Job, a: Arn, loss: Loss)
    requires About(s, l) == Some(j) && j in s.procs && (InCleanup(s.procs[j]) || l == Start(j, CInit))
    ensures !IsLoss(loss, s, l, a)
  {
  }

  /** No step of a cleanup, failing, dying or not, loses a task, and a live recoverable task stays recoverable. */
  lemma CleanupLosesNothing(site: Site, s: State, l: Label, t: State, j: Job, a: Arn)
    requires site.Valid() && Inv(site, s) && Step(site, s, l, t)
    requires j in site.paths && About(s, l) == Some(j) && (InCleanup(s.procs[j]) || l == Start(j, CInit))
    ensures !Loses(site, s, l, t, a)
    ensures Live(t, a) && Recoverable(site, s, a) ==> Known(site, t, a)
    ensures Live(t, a) && Recoverable(site, s, a) && s.launched[a].job == j ==> Recoverable(site, t, a)
  {
    hide Step, Inv, IsLoss, Held, Recoverable, Live;
    InvKeys(site, s);
    forall loss ensures !IsLoss(loss, s, l, a) { CleanupIsNoLoss(s, l, j, a, loss); }
    if Live(t, a) && Recoverable(site, s, a) {
      StepKeepsInv(site, s, l, t);
      StepKeepsTrack(site, s, l, t, a);
      StaysInCleanup(site, s, l, t, j, a);
    }
  }

  lemma CleanupHoldsNothing(cfg: Cfg, p: Proc, r: Response)
    requires InCleanup(p) && Fits(Pending(cfg, p), r)
    ensures Holding(Resume(cfg, p, r)) == None
  {
  }

  lemma StaysInCleanup(site: Site, s: State, l: Label, t: State, j: Job, a: Arn)
    requires Inv(site, s) && Step(site, s, l, t) && Recoverable(site, s, a)
    requires j in site.paths && About(s, l) == Some(j) && (InCleanup(s.procs[j]) || l == Start(j, CInit))
    ensures s.launched[a].job == j ==> !Held(t, a)
  {
    hide Effect, Resume, Pending, Fits, JobOk, Recorded;
    if l.Reply? {
      CleanupHoldsNothing(site.CfgOf(j), s.procs[j], l.resp);
      CallPersists(site, s, j, l.resp, Resume(site.CfgOf(j), s.procs[j], l.resp), t);
    } else if l.KillAfter? {
      CallPersists(site, s, j, l.resp, Idle, t);
    }
  }

  // ----- convergence -----

  /** The task is stopped and its record is gone. */
  predicate Cleaned(site: Site, s: State, j: Job, a: Arn)
    requires j in site.paths
  {
    a in s.shared.tasks && s.shared.tasks[a].status == Stopped && site.paths[j] !in s.shared.files
  }

  /** No process, or a cleanup that is about task `a`. */
  predicate WorksOn(p: Proc, a: Arn) {
    match p
    case Idle | Done(_, _) | CInit | CExists | CRead => true
    case CStop(b) => b == a
    case CClear(b) => b == a
    case CRemove(b) => b == a
    case _ => false
  }

  /** Job `j` has a record of `a` on file, and no process but possibly a cleanup working on it. */
  ghost predicate Cleaning(site: Site, s: State, j: Job, a: Arn)
    requires j in site.paths && j in s.procs
  {
    Recorded(site, s, j).Some? && Recorded(site, s, j).value.arn == a && WorksOn(s.procs[j], a)
  }

  /** How many undisturbed steps away the end is. */
  function Distance(p: Proc): nat {
    match p
    case CRemove(_) => 1
    case CClear(_) => 2
    case CStop(_) => 3
    case CRead => 4
    case CExists => 5
    case CInit => 6
    case Idle => 7
    case _ => 8
  }

  /** A call of `j` fails, or its process dies. */
  predicate Fails(l: Label, j: Job) {
    match l
    case Reply(k, r) => k == j && r.Fail?
    case Kill(k) => k == j
    case KillAfter(k, _) => k == j
    case _ => false
  }

  /** A successful answer brings a cleanup closer to its end; here the record is on file, and names `a`. */
  lemma AnswerCleans(cfg: Cfg, p: Proc, r: Response, a: Arn)
    requires Active(p) && WorksOn(p, a) && !p.CRemove? && Fits(Pending(cfg, p), r)
    requires r.Found? ==> r.there
    requires r.Content? ==> cfg.codec.decode(r.bytes).Some? && cfg.codec.decode(r.bytes).value.arn == a
    ensures WorksOn(Resume(cfg, p, r), a)
    ensures !r.Fail? ==> Distance(Resume(cfg, p, r)) < Distance(p)
  {
  }

  /** What the file system answers while the record is on file. */
  lemma AnswersAreOfRecord(site: Site, s: State, j: Job, r: Response, next: Proc, t: State)
    requires j in site.paths && j in s.procs && j in s.cancelled && Active(s.procs[j]) && !s.procs[j].RScript?
    requires Called(site, s, j, r, next, t) && Recorded(site, s, j).Some?
    ensures r.Found? ==> r.there
    ensures r.Content? ==> site.codec.decode(r.bytes) == Recorded(site, s, j)
  {
  }

  lemma CallCleans(site: Site, s: State, l: Label, j: Job, r: Response, next: Proc, t: State, a: Arn)
    requires j in site.paths && j in s.procs && j in s.cancelled && Active(s.procs[j]) && !s.procs[j].CRemove?
    requires Taken(site, s, l, j, r, next, t) && Cleaning(site, s, j, a)
    ensures Cleaning(site, t, j, a)
    ensures !Fails(l, j) ==> Distance(next) < Distance(s.procs[j])
  {
    hide Effect, Resume, Pending, Fits, Recorded, Record, Distance;
    RecordStays(site, s, j, r, next, t);
    AnswersAreOfRecord(site, s, j, r, next, t);
    AnswerCleans(site.CfgOf(j), s.procs[j], r, a);
  }

  lemma RemovalCleans(site: Site, s: State, l: Label, j: Job, r: Response, next: Proc, t: State, a: Arn)
    requires j in site.paths && j in s.procs && j in s.cancelled && s.procs[j].CRemove? && JobOk(site, s, j)
    requires Taken(site, s, l, j, r, next, t) && Cleaning(site, s, j, a)
    ensures Cleaned(site, t, j, a) || (Cleaning(site, t, j, a) && Fails(l, j))
  {
    RemoveLeaves(site, s, j, r, next, t);
  }

  /** A call of another job sets nothing back. */
  lemma OtherCallCleans(site: Site, s: State, l: Label, t: State, j: Job, a: Arn)
    requires j in site.paths && SameFor(site, s, t, j) && Cleaning(site, s, j, a)
    requires (l.Reply? || l.KillAfter?) && l.job != j
    ensures Cleaning(site, t, j, a) && t.procs[j] == s.procs[j] && !Moves(l, j)
  {
  }

  lemma NoCallCleans(site: Site, s: State, l: Label, t: State, j: Job, a: Arn)
    requires j in site.paths && j in s.procs && Step(site, s, l, t) && !l.Reply? && !l.KillAfter?
    requires l.Start? && l.job == j ==> l.proc == CInit
    requires Cleaning(site, s, j, a)
    ensures j in t.procs && Cleaning(site, t, j, a)
    ensures Distance(t.procs[j]) + (if Moves(l, j) then 1 else 0) <= Distance(s.procs[j]) + (if Fails(l, j) then 8 else 0)
  {
    assert t.shared.files == s.shared.files;
  }

  /** Every undisturbed step of the job's cleanup comes closer to the end, and no step of another job sets it back. */
  lemma StepCleans(site: Site, s: State, l: Label, t: State, j: Job, a: Arn)
    requires site.Valid() && Inv(site, s) && Step(site, s, l, t) && j in site.paths
    requires l.Start? && l.job == j ==> l.proc == CInit
    requires Cleaning(site, s, j, a) && !Cleaned(site, t, j, a)
    ensures j in t.procs && Cleaning(site, t, j, a)
    ensures Distance(t.procs[j]) + (if Moves(l, j) then 1 else 0) <= Distance(s.procs[j]) + (if Fails(l, j) then 8 else 0)
  {
    hide Effect, JobOk, Cleaning, Cleaned, SameFor, Distance;
    if !l.Reply? && !l.KillAfter? {
      NoCallCleans(site, s, l, t, j, a);
    } else if l.job != j {
      OthersUnaffected(site, s, l, t, j);
      OtherCallCleans(site, s, l, t, j, a);
    } else {
      assert JobOk(site, s, j);
      OwnCallCleans(site, s, l, j, l.resp, if l.Reply? then Resume(site.CfgOf(j), s.procs[j], l.resp) else Idle, t, a);
    }
  }

  lemma OwnCallCleans(site: Site, s: State, l: Label, j: Job, r: Response, next: Proc, t: State, a: Arn)
    requires j in site.paths && j in s.procs && j in s.cancelled && Active(s.procs[j]) && JobOk(site, s, j)
    requires (l.Reply? || l.KillAfter?) && l.job == j && l.resp == r
    requires Taken(site, s, l, j, r, next, t) && Cleaning(site, s, j, a) && !Cleaned(site, t, j, a)
    ensures j in t.procs && t.procs[j] == next && Cleaning(site, t, j, a)
    ensures Distance(next) + 1 <= Distance(s.procs[j]) + (if Fails(l, j) then 8 else 0)
  {
    hide Effect, JobOk, Resume, Pending, Fits, Recorded;
    if s.procs[j].CRemove? {
      RemovalCleans(site, s, l, j, r, next, t, a);
    } else {
      CallCleans(site, s, l, j, r, next, t, a);
    }
    DistanceIsBounded(next);
  }

  lemma DistanceIsBounded(p: Proc)
    ensures 1 <= Distance(p) <= 8
  {
  }

  /** How many of the first `n` labels satisfy `Moves` or `Fails` for `j`. */
  function CountMoves(labels: seq<Label>, j: Job, n: nat): nat
    requires n <= |labels|
  {
    if n == 0 then 0 else CountMoves(labels, j, n - 1) + if Moves(labels[n - 1], j) then 1 else 0
  }

  function CountFailures(labels: seq<Label>, j: Job, n: nat): nat
    requires n <= |labels|
  {
    if n == 0 then 0 else CountFailures(labels, j, n - 1) + if Fails(labels[n - 1], j) then 1 else 0
  }

  lemma {:induction false} MovesAreBounded(site: Site, states: seq<State>, labels: seq<Label>, j: Job, a: Arn, n: nat)
    requires site.Valid() && Execution(site, states, labels) && Inv(site, states[0]) && j in site.paths
    requires n <= |labels|
    requires forall i {:trigger labels[i]} :: 0 <= i < |labels| ==> labels[i].Start? && labels[i].job == j ==> labels[i].proc == CInit
    requires Cleaning(site, states[0], j, a)
    requires forall i {:trigger states[i]} :: 0 <= i < |states| ==> !Cleaned(site, states[i], j, a)
    ensures j in states[n].procs && Cleaning(site, states[n], j, a)
    ensures Distance(states[n].procs[j]) + CountMoves(labels, j, n) <= Distance(states[0].procs[j]) + 8 * CountFailures(labels, j, n)
  {
    hide Step, JobOk, Distance, Cleaning;
    if n > 0 {
      MovesAreBounded(site, states, labels, j, a, n - 1);
      InvAlong(site, states, labels, n - 1);
      StepCleans(site, states[n - 1], labels[n - 1], states[n], j, a);
    }
  }

  /**
    Repeated cleanup converges. Let the runner start nothing but cleanups for `j`, from a state in which
    the file names `a`. Then, whatever other jobs do, once the job's processes have moved
    eight times for each of their failures and eight times more, the task has been stopped
    and its record removed.
   */
  lemma CleanupConverges(site: Site, states: seq<State>, labels: seq<Label>, j: Job, a: Arn)
    requires site.Valid() && Execution(site, states, labels) && Inv(site, states[0]) && j in site.paths
    requires forall i {:trigger labels[i]} :: 0 <= i < |labels| ==> labels[i].Start? && labels[i].job == j ==> labels[i].proc == CInit
    requires Cleaning(site, states[0], j, a)
    requires CountMoves(labels, j, |labels|) >= 8 * CountFailures(labels, j, |labels|) + 8
    ensures exists i {:trigger states[i]} :: 0 <= i < |states| && Cleaned(site, states[i], j, a)
  {
    hide Execution, Inv, Cleaning, Cleaned, Distance;
    if forall i {:trigger states[i]} :: 0 <= i < |states| ==> !Cleaned(site, states[i], j, a) {
      HasStates(site, states, labels);
      InvKeys(site, states[0]);
      MovesAreBounded(site, states, labels, j, a, |labels|);
      DistanceIsBounded(states[0].procs[j]);
      DistanceIsBounded(states[|labels|].procs[j]);
    }
  }

  /** As long as the context is not cancelled, the next undisturbed move is possible. */
  lemma CleanupCanMove(site: Site, s: State, j: Job, a: Arn) returns (l: Label, t: State)
    requires site.Valid() && Inv(site, s) && j in site.paths
    requires Cleaning(site, s, j, a) && (s.procs[j].Idle? || s.procs[j].Done? || !s.cancelled[j])
    ensures Step(site, s, l, t) && Moves(l, j) && !Fails(l, j) && !(l.Start? && l.proc != CInit)
    ensures j in t.cancelled && j in t.procs && (t.procs[j].Idle? || t.procs[j].Done? || !t.cancelled[j])
  {
    assert JobOk(site, s, j);
    var p := s.procs[j];
    if p.Idle? {
      l, t := Start(j, CInit), s.(procs := s.procs[j := CInit], cancelled := s.cancelled[j := false]);
    } else if p.Done? {
      l, t := Reap(j), s.(procs := s.procs[j := Idle]);
    } else {
      var r := if p.CExists? || p.CClear? then Found(true)
               else if p.CRead? then Content(s.shared.files[site.paths[j]])
               else Ok;
      var shared := if p.CStop? then StopIn(s.shared, p.arn)
                    else if p.CRemove? then RemoveIn(s.shared, site.paths[j])
                    else s.shared;
      l, t := Reply(j, r), State(shared, s.procs[j := Resume(site.CfgOf(j), p, r)], s.cancelled, s.launched);
    }
  }

  /** From any recoverable state between stages, some execution cleans up. */
  lemma {:induction false} CleanupCanFinish(site: Site, s: State, j: Job, a: Arn)
      returns (states: seq<State>, labels: seq<Label>)
    requires site.Valid() && Inv(site, s) && j in site.paths
    requires Cleaning(site, s, j, a) && (s.procs[j].Idle? || s.procs[j].Done? || !s.cancelled[j])
    ensures Execution(site, states, labels) && states[0] == s && Cleaned(site, states[|labels|], j, a)
    ensures forall i :: 0 <= i < |labels| ==> Moves(labels[i], j) && !Fails(labels[i], j)
    decreases Distance(s.procs[j])
  {
    hide Step, Inv, Cleaning, Cleaned, Distance;
    InvKeys(site, s);
    var l, t := CleanupCanMove(site, s, j, a);
    if Cleaned(site, t, j, a) {
      states, labels := [s, t], [l];
    } else {
      StepCleans(site, s, l, t, j, a);
      StepKeepsInv(site, s, l, t);
      var rest, more := CleanupCanFinish(site, t, j, a);
      states, labels := [s] + rest, [l] + more;
      assert forall i {:trigger labels[i]} :: 0 <= i < |labels| ==> labels[i] == if i == 0 then l else more[i - 1];
    }
  }

  /** In particular after a prepare that was cancelled during the wait: a cleanup process has a context of its own. */
  lemma CancelledWaitCanBeCleaned(site: Site, s: State, j: Job, a: Arn)
      returns (states: seq<State>, labels: seq<Label>)
    requires site.Valid() && Inv(site, s) && j in site.paths
    requires CancelledWaiting(site, s, j, a) && !Active(s.procs[j])
    ensures Execution(site, states, labels) && states[0] == s && Cleaned(site, states[|labels|], j, a)
  {
    states, labels := CleanupCanFinish(site, s, j, a);
  }
}
