/**
  A prepare that is cancelled while it waits for its task: the compensating StopTask on
  the cancelled context fails, but the first record keeps the task recoverable.
 */
module Cancellation {
  import opened Options
  import opened Errors
  import opened Protocol
  import opened System
  import opened Orphans

  /** Prepare of `j` was cancelled while waiting for `a`, and nothing has been started for `j` since. */
  ghost predicate CancelledWaiting(site: Site, s: State, j: Job, a: Arn)
    requires j in site.paths && j in s.procs
  {
    && j in s.cancelled && s.cancelled[j]
    && Owns(s, j, a) && Recorded(site, s, j).Some? && Recorded(site, s, j).value.arn == a
    && match s.procs[j]
       case PWait(_, b) => b == a
       case PAddress(_, b) => b == a
       case PStop(b, cause, err) => b == a && (cause == WaitFailed || cause == AddressFailed) && err != NIL
       case Done(stage, err) => stage == Prepare && err != NIL
       case Idle => true
       case _ => false
  }

  lemma CallStaysCancelled(site: Site, s: State, l: Label, j: Job, r: Response, next: Proc, t: State, a: Arn)
    requires j in site.paths && j in s.procs && j in s.cancelled && Active(s.procs[j]) && a != ""
    requires Taken(site, s, l, j, r, next, t) && CancelledWaiting(site, s, j, a)
    ensures CancelledWaiting(site, t, j, a)
    ensures t.shared.tasks == s.shared.tasks
  {
    RecordStays(site, s, j, r, next, t);
  }

  lemma NoCallStaysCancelled(site: Site, s: State, l: Label, t: State, j: Job, a: Arn)
    requires j in site.paths && j in s.procs && j in s.cancelled && s.launched.Keys == s.shared.tasks.Keys
    requires Step(site, s, l, t) && !l.Reply? && !l.KillAfter? && !(l.Start? && l.job == j)
    requires CancelledWaiting(site, s, j, a)
    ensures j in t.procs && CancelledWaiting(site, t, j, a)
    ensures Live(s, a) && l != Exit(a) ==> Live(t, a)
  {
    assert t.shared.files == s.shared.files;
  }

  /** Prepare cannot leave the cancelled wait with success, and its StopTask cannot stop the task. */
  lemma StepStaysCancelled(site: Site, s: State, l: Label, t: State, j: Job, a: Arn)
    requires site.Valid() && Inv(site, s) && Step(site, s, l, t) && j in site.paths && !(l.Start? && l.job == j)
    requires CancelledWaiting(site, s, j, a)
    ensures j in t.procs && CancelledWaiting(site, t, j, a)
    ensures Live(s, a) && l != Exit(a) ==> Live(t, a)
  {
    hide Effect, JobOk, Resume, Pending;
    assert Owns(s, j, a);
    if !l.Reply? && !l.KillAfter? {
      NoCallStaysCancelled(site, s, l, t, j, a);
    } else if About(s, l) != Some(j) {
      OthersUnaffected(site, s, l, t, j);
    } else if l.Reply? {
      CallStaysCancelled(site, s, l, j, l.resp, Resume(site.CfgOf(j), s.procs[j], l.resp), t, a);
    } else {
      CallStaysCancelled(site, s, l, j, l.resp, Idle, t, a);
    }
  }

  /** While it waits, prepare has the record of its task on file. */
  lemma WaitHasRecord(site: Site, s: State, j: Job)
    requires Inv(site, s) && j in site.paths && (s.procs[j].PWait? || s.procs[j].PAddress?) && s.cancelled[j]
    ensures CancelledWaiting(site, s, j, s.procs[j].arn)
  {
    assert JobOk(site, s, j);
  }

  lemma WaitingIsRecoverable(site: Site, s: State, j: Job, a: Arn)
    requires j in site.paths && j in s.procs && CancelledWaiting(site, s, j, a)
    ensures Recoverable(site, s, a)
  {
  }

  /**
    Whatever happens after the cancellation, until the runner starts another stage of the
    job: prepare ends with an error or dies, the task's record stays on file, and
    the task stays live unless it exits on its own.
   */
  lemma {:induction false} CancelledWaitStaysRecoverable(
      site: Site, states: seq<State>, labels: seq<Label>, j: Job, a: Arn, m: nat, n: nat)
    requires site.Valid() && Execution(site, states, labels) && Inv(site, states[0]) && j in site.paths
    requires m <= n <= |labels|
    requires forall i {:trigger labels[i]} :: m <= i < n ==> !(labels[i].Start? && labels[i].job == j)
    requires j in states[m].procs && j in states[m].cancelled && states[m].cancelled[j]
    requires (states[m].procs[j].PWait? || states[m].procs[j].PAddress?) && states[m].procs[j].arn == a
    ensures j in states[n].procs && CancelledWaiting(site, states[n], j, a) && Recoverable(site, states[n], a)
    ensures Live(states[m], a) && (forall i {:trigger labels[i]} :: m <= i < n ==> labels[i] != Exit(a)) ==> Live(states[n], a)
    decreases n
  {
    hide Step, Inv, CancelledWaiting, Recoverable, Live;
    if m < n {
      CancelledWaitStaysRecoverable(site, states, labels, j, a, m, n - 1);
      InvAlong(site, states, labels, n - 1);
      StepStaysCancelled(site, states[n - 1], labels[n - 1], states[n], j, a);
    } else {
      InvAlong(site, states, labels, m);
      WaitHasRecord(site, states[m], j);
    }
    WaitingIsRecoverable(site, states[n], j, a);
  }
}
