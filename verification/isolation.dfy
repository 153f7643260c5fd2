/**
  Jobs do not interfere: what one job's file, tasks and process go through in any
  interleaving is an execution of that job alone.
 */
module Isolation {
  import opened Options
  import opened Errors
  import opened Protocol
  import opened System

  /** The same site with no job but `k`. */
  function Only(site: Site, k: Job): Site
    requires k in site.paths
  {
    site.(paths := map[k := site.paths[k]])
  }

  /** The file, the tasks, and the process of job `k`. */
  function View(site: Site, s: State, k: Job): State
    requires k in site.paths && k in s.procs && k in s.cancelled
  {
    State(
      Shared(FilesAt(s.shared.files, site.paths[k]), TasksOf(s.shared.tasks, s.launched, k)),
      map[k := s.procs[k]],
      map[k := s.cancelled[k]],
      LaunchedBy(s.launched, k))
  }

  function FilesAt(files: map<Path, Bytes>, p: Path): map<Path, Bytes> {
    if p in files then map[p := files[p]] else map[]
  }

  function TasksOf(tasks: map<Arn, Task>, launched: map<Arn, Launch>, k: Job): map<Arn, Task> {
    map a | a in tasks && a in launched && launched[a].job == k :: tasks[a]
  }

  function LaunchedBy(launched: map<Arn, Launch>, k: Job): map<Arn, Launch> {
    map a | a in launched && launched[a].job == k :: launched[a]
  }

  lemma SameView(site: Site, s: State, t: State, k: Job)
    requires k in site.paths && SameFor(site, s, t, k)
    requires s.launched.Keys == s.shared.tasks.Keys && t.launched.Keys == t.shared.tasks.Keys
    ensures View(site, s, k) == View(site, t, k)
  {
    var v, w := View(site, s, k), View(site, t, k);
    assert forall a :: a in s.launched && s.launched[a].job == k <==> Owns(s, k, a);
    assert forall a :: a in t.launched && t.launched[a].job == k <==> Owns(t, k, a);
    assert v.shared.files == w.shared.files;
    assert v.shared.tasks == w.shared.tasks;
    assert v.launched == w.launched;
  }

  /** A call of job `k` has the same effect when nothing but the job's own file and tasks is there. */
  lemma EffectInView(site: Site, s: State, k: Job, r: Response, next: Proc, t: State)
    requires site.Valid() && Inv(site, s) && k in site.paths && Active(s.procs[k])
    requires Called(site, s, k, r, next, t)
    ensures k in t.procs && k in t.cancelled
    ensures Effect(s.cancelled[k], Pending(site.CfgOf(k), s.procs[k]), r, View(site, s, k).shared, View(site, t, k).shared)
  {
    hide Effect, JobOk;
    TouchesOwn(site, s, k);
    match Pending(site.CfgOf(k), s.procs[k])
    case RunTask(_) => LaunchInView(site, s, k, r, next, t);
    case StopTask(a) => StopInView(site, s, k, a, r, next, t);
    case WriteFile(_, _) => WriteInView(site, s, k, r, next, t);
    case Remove(_) => RemoveInView(site, s, k, r, next, t);
    case _ =>
      assert JobOk(site, s, k);
      ReadInView(site, s, k, r, next, t);
  }

  lemma ReadInView(site: Site, s: State, k: Job, r: Response, next: Proc, t: State)
    requires k in site.paths && k in s.procs && k in s.cancelled && Active(s.procs[k])
    requires JobOk(site, s, k) && Called(site, s, k, r, next, t)
    requires
      var req := Pending(site.CfgOf(k), s.procs[k]);
      !req.RunTask? && !req.StopTask? && !req.WriteFile? && !req.Remove?
    ensures Effect(s.cancelled[k], Pending(site.CfgOf(k), s.procs[k]), r, View(site, s, k).shared, View(site, t, k).shared)
  {
    assert t.shared == s.shared && t.launched == s.launched;
  }

  lemma LaunchInView(site: Site, s: State, k: Job, r: Response, next: Proc, t: State)
    requires k in site.paths && k in s.procs && k in s.cancelled && s.procs[k].PLaunch?
    requires s.launched.Keys == s.shared.tasks.Keys
    requires Called(site, s, k, r, next, t)
    ensures Effect(s.cancelled[k], Pending(site.CfgOf(k), s.procs[k]), r, View(site, s, k).shared, View(site, t, k).shared)
  {
    hide TasksOf, LaunchedBy, FilesAt;
    var pair := s.procs[k].pair;
    var v, w := View(site, s, k).shared, View(site, t, k).shared;
    if t.shared == s.shared {
      assert t.launched == s.launched;
    } else {
      var a :| Launches(s.shared, a, pair.pub, t.shared) && (r.Started? ==> a == r.arn);
      LaunchedInView(s.shared.tasks, s.launched, a, t.shared.tasks[a], Launch(k, pair), k);
      assert t.launched == s.launched[a := Launch(k, pair)];
      assert Launches(v, a, pair.pub, w);
    }
  }

  lemma LaunchedInView(tasks: map<Arn, Task>, launched: map<Arn, Launch>, a: Arn, task: Task, launch: Launch, k: Job)
    requires launched.Keys == tasks.Keys && a !in tasks && launch.job == k
    ensures TasksOf(tasks[a := task], launched[a := launch], k) == TasksOf(tasks, launched, k)[a := task]
    ensures a !in TasksOf(tasks, launched, k)
  {
  }

  lemma RecordInView(launched: map<Arn, Launch>, k: Job, p: Proc, tasks: map<Arn, Task>)
    requires launched.Keys <= tasks.Keys
    ensures LaunchedBy(Record(launched, k, p, tasks), k)
         == Record(LaunchedBy(launched, k), k, p, TasksOf(tasks, Record(launched, k, p, tasks), k))
  {
  }

  lemma StopInView(site: Site, s: State, k: Job, a: Arn, r: Response, next: Proc, t: State)
    requires k in site.paths && k in s.procs && k in s.cancelled && Active(s.procs[k])
    requires Pending(site.CfgOf(k), s.procs[k]) == StopTask(a) && Owns(s, k, a)
    requires Called(site, s, k, r, next, t)
    ensures Effect(s.cancelled[k], StopTask(a), r, View(site, s, k).shared, View(site, t, k).shared)
  {
    var v, w := View(site, s, k).shared, View(site, t, k).shared;
    assert v.files == w.files;
    if t.shared == s.shared {
      assert v == w;
    } else {
      assert w.tasks == StopIn(v, a).tasks;
    }
  }

  lemma WriteInView(site: Site, s: State, k: Job, r: Response, next: Proc, t: State)
    requires k in site.paths && k in s.procs && k in s.cancelled && Active(s.procs[k])
    requires Pending(site.CfgOf(k), s.procs[k]).WriteFile? && Called(site, s, k, r, next, t)
    ensures Effect(s.cancelled[k], Pending(site.CfgOf(k), s.procs[k]), r, View(site, s, k).shared, View(site, t, k).shared)
  {
    var b := Pending(site.CfgOf(k), s.procs[k]).bytes;
    var p := site.paths[k];
    var v, w := View(site, s, k).shared, View(site, t, k).shared;
    assert v.tasks == w.tasks;
    hide TasksOf, Record;
    if t.shared == s.shared {
      assert v == w;
    } else if r.Ok? {
      assert w.files == v.files[p := b];
    } else {
      var n: nat :| n <= |b| && t.shared == WriteIn(s.shared, p, b[..n]);
      assert w.files == v.files[p := b[..n]];
    }
  }

  lemma RemoveInView(site: Site, s: State, k: Job, r: Response, next: Proc, t: State)
    requires k in site.paths && k in s.procs && k in s.cancelled && Active(s.procs[k])
    requires Pending(site.CfgOf(k), s.procs[k]).Remove? && Called(site, s, k, r, next, t)
    ensures Effect(s.cancelled[k], Pending(site.CfgOf(k), s.procs[k]), r, View(site, s, k).shared, View(site, t, k).shared)
  {
    var p := site.paths[k];
    var v, w := View(site, s, k).shared, View(site, t, k).shared;
    assert v.tasks == w.tasks;
    if t.shared == s.shared {
      assert v == w;
    } else {
      assert w.files == v.files - {p};
    }
  }

  /** Two states of a single job that differ by the effect of a call. */
  lemma CalledAlone(site: Site, v: State, k: Job, r: Response, next: Proc, w: State)
    requires k in site.paths && k in v.procs && k in v.cancelled && Active(v.procs[k])
    requires Effect(v.cancelled[k], Pending(site.CfgOf(k), v.procs[k]), r, v.shared, w.shared)
    requires w.procs == v.procs[k := next] && w.cancelled == v.cancelled
    requires w.launched == Record(v.launched, k, v.procs[k], w.shared.tasks)
    ensures Called(site, v, k, r, next, w)
  {
    hide Record, Pending, Active;
  }

  lemma CallInView(site: Site, s: State, k: Job, r: Response, next: Proc, t: State)
    requires site.Valid() && Inv(site, s) && k in site.paths && Active(s.procs[k])
    requires Called(site, s, k, r, next, t)
    ensures k in t.procs && k in t.cancelled
    ensures Called(Only(site, k), View(site, s, k), k, r, next, View(site, t, k))
  {
    hide Effect, Inv, Record, TasksOf, LaunchedBy, FilesAt, Pending, Fits, Active, Persists;
    InvKeys(site, s);
    EffectInView(site, s, k, r, next, t);
    CallPersists(site, s, k, r, next, t);
    RecordInView(s.launched, k, s.procs[k], t.shared.tasks);
    var v, w := View(site, s, k), View(site, t, k);
    assert w.procs == v.procs[k := next];
    hide Called, View;
    CalledAlone(Only(site, k), v, k, r, next, w);
  }

  lemma ReplyInView(site: Site, s: State, k: Job, r: Response, t: State)
    requires site.Valid() && Inv(site, s) && k in site.paths && Step(site, s, Reply(k, r), t)
    ensures k in t.procs && k in t.cancelled
    ensures Step(Only(site, k), View(site, s, k), Reply(k, r), View(site, t, k))
  {
    hide Effect, JobOk, Called, TasksOf, LaunchedBy, FilesAt;
    CallInView(site, s, k, r, Resume(site.CfgOf(k), s.procs[k], r), t);
    assert Only(site, k).CfgOf(k) == site.CfgOf(k);
  }

  lemma KillInView(site: Site, s: State, k: Job, r: Response, t: State)
    requires site.Valid() && Inv(site, s) && k in site.paths && Step(site, s, KillAfter(k, r), t)
    ensures k in t.procs && k in t.cancelled
    ensures Step(Only(site, k), View(site, s, k), KillAfter(k, r), View(site, t, k))
  {
    hide Effect, JobOk, Called, TasksOf, LaunchedBy, FilesAt;
    CallInView(site, s, k, r, Idle, t);
  }

  /** A step about job `k` is a step of job `k` alone; any other step it cannot see. */
  lemma StepInView(site: Site, s: State, l: Label, t: State, k: Job)
    requires site.Valid() && Inv(site, s) && Inv(site, t) && Step(site, s, l, t) && k in site.paths
    ensures About(s, l) == Some(k) ==> Step(Only(site, k), View(site, s, k), l, View(site, t, k))
    ensures About(s, l) != Some(k) ==> View(site, s, k) == View(site, t, k)
  {
    hide Step, JobOk, View;
    if About(s, l) != Some(k) {
      OthersUnaffected(site, s, l, t, k);
      SameView(site, s, t, k);
    } else if l.Reply? {
      ReplyInView(site, s, k, l.resp, t);
    } else if l.KillAfter? {
      KillInView(site, s, k, l.resp, t);
    } else {
      NoCallInView(site, s, l, t, k);
    }
  }

  lemma NoCallInView(site: Site, s: State, l: Label, t: State, k: Job)
    requires s.launched.Keys == s.shared.tasks.Keys
    requires s.procs.Keys == site.paths.Keys && s.cancelled.Keys == site.paths.Keys
    requires Step(site, s, l, t) && !l.Reply? && !l.KillAfter? && k in site.paths && About(s, l) == Some(k)
    ensures k in t.procs && k in t.cancelled
    ensures Step(Only(site, k), View(site, s, k), l, View(site, t, k))
  {
    hide Effect, Called, TasksOf, LaunchedBy, FilesAt;
    if l.Boot? || l.Exit? {
      TaskMoveInView(site, s, l, t, k);
    } else {
      ProcMoveInView(site, s, l, t, k);
    }
  }

  /** The job's process starts, dies, is cancelled or collected. */
  lemma ProcMoveInView(site: Site, s: State, l: Label, t: State, k: Job)
    requires s.procs.Keys == site.paths.Keys && s.cancelled.Keys == site.paths.Keys
    requires Step(site, s, l, t) && (l.Start? || l.Kill? || l.Cancel? || l.Reap?) && k in site.paths && l.job == k
    ensures k in t.procs && k in t.cancelled
    ensures Step(Only(site, k), View(site, s, k), l, View(site, t, k))
  {
    hide Effect, Called, View;
    var p, c := t.procs[k], t.cancelled[k];
    assert t.cancelled == s.cancelled[k := c] && t.procs == s.procs[k := p];
    ViewOfProc(site, s, k, t);
    var v := View(site, s, k);
    assert v.procs[k := p] == map[k := p] && v.cancelled[k := c] == map[k := c];
  }

  lemma ViewOfProc(site: Site, s: State, k: Job, t: State)
    requires k in site.paths && k in s.procs && k in s.cancelled && k in t.procs && k in t.cancelled
    requires t.shared == s.shared && t.launched == s.launched
    ensures View(site, t, k) == View(site, s, k).(procs := map[k := t.procs[k]], cancelled := map[k := t.cancelled[k]])
    ensures var v := View(site, s, k); v.procs == map[k := s.procs[k]] && v.cancelled == map[k := s.cancelled[k]]
  {
  }

  lemma TaskMoveInView(site: Site, s: State, l: Label, t: State, k: Job)
    requires s.launched.Keys == s.shared.tasks.Keys
    requires s.procs.Keys == site.paths.Keys && s.cancelled.Keys == site.paths.Keys
    requires Step(site, s, l, t) && (l.Boot? || l.Exit?) && k in site.paths && About(s, l) == Some(k)
    ensures k in t.procs && k in t.cancelled
    ensures Step(Only(site, k), View(site, s, k), l, View(site, t, k))
  {
    hide Effect, Called;
    var v, w := View(site, s, k), View(site, t, k);
    assert Owns(s, k, l.arn);
    assert w.launched == v.launched;
    assert w.shared.files == v.shared.files;
    if l.Boot? {
      assert w.shared.tasks == v.shared.tasks[l.arn := v.shared.tasks[l.arn].(status := Running)];
    } else {
      assert w.shared.tasks == StopIn(v.shared, l.arn).tasks;
    }
  }

  /** The steps about job `k` among the first `n`. */
  function OwnLabels(states: seq<State>, labels: seq<Label>, k: Job, n: nat): seq<Label>
    requires n <= |labels| && |states| == |labels| + 1
  {
    if n == 0 then []
    else OwnLabels(states, labels, k, n - 1) + if About(states[n - 1], labels[n - 1]) == Some(k) then [labels[n - 1]] else []
  }

  /** What job `k` sees, without the moments at which other jobs move. */
  function OwnStates(site: Site, states: seq<State>, labels: seq<Label>, k: Job, n: nat): (vs: seq<State>)
    requires n <= |labels| && |states| == |labels| + 1 && k in site.paths
    requires forall s :: s in states ==> k in s.procs && k in s.cancelled
  {
    if n == 0 then [View(site, states[0], k)]
    else OwnStates(site, states, labels, k, n - 1)
         + if About(states[n - 1], labels[n - 1]) == Some(k) then [View(site, states[n], k)] else []
  }

  lemma {:induction false} ProjectionHolds(site: Site, states: seq<State>, labels: seq<Label>, k: Job, n: nat)
    requires site.Valid() && Execution(site, states, labels) && Inv(site, states[0])
    requires k in site.paths && n <= |labels|
    requires forall s :: s in states ==> k in s.procs && k in s.cancelled
    ensures
      var vs, ls := OwnStates(site, states, labels, k, n), OwnLabels(states, labels, k, n);
      Execution(Only(site, k), vs, ls) && vs[0] == View(site, states[0], k) && vs[|ls|] == View(site, states[n], k)
  {
    hide Step, Inv, View;
    if n > 0 {
      ProjectionHolds(site, states, labels, k, n - 1);
      InvAlong(site, states, labels, n - 1);
      InvAlong(site, states, labels, n);
      StepInView(site, states[n - 1], labels[n - 1], states[n], k);
    }
  }

  /**
    In any behaviour of any number of jobs, the steps about job `k`, in order, with what
    the job sees of each state, are a behaviour of the site in which `k` is the only job.
   */
  lemma JobRunsAlone(site: Site, states: seq<State>, labels: seq<Label>, k: Job)
    requires site.Valid() && Behaviour(site, states, labels) && k in site.paths
    ensures forall s :: s in states ==> k in s.procs && k in s.cancelled
    ensures
      var vs, ls := OwnStates(site, states, labels, k, |labels|), OwnLabels(states, labels, k, |labels|);
      Behaviour(Only(site, k), vs, ls) && vs[|ls|] == View(site, states[|labels|], k)
  {
    InitEstablishesInv(site, states[0]);
    forall s | s in states
      ensures k in s.procs && k in s.cancelled
    {
      var i :| 0 <= i < |states| && states[i] == s;
      InvAlong(site, states, labels, i);
    }
    ProjectionHolds(site, states, labels, k, |labels|);
  }
}
