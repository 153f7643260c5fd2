/**
  All jobs of one site at once: every job runs one stage process at a time, all of
  them share the metadata directory and the cluster, and their steps interleave with
  failures, cancellations, crashes and the cluster's own moves.
 */
module System {
  import opened Options
  import opened Errors
  import opened Protocol
  import Identity

  type Job = Identity.RunnerData

  datatype Site = Site(codec: Codec, user: string, port: int, paths: map<Job, Path>)
  {
    /** Distinct jobs have distinct metadata files. */
    ghost predicate Valid() {
      && codec.Lawful()
      && forall j, k :: j in paths && k in paths && paths[j] == paths[k] ==> j == k
    }

    function CfgOf(j: Job): Cfg
      requires j in paths
    {
      Cfg(codec, paths[j], user, port)
    }
  }

  /** Who launched a task, and with which key pair. The driver never reads this. */
  datatype Launch = Launch(job: Job, pair: KeyPair)

  datatype State = State(
    shared: Shared,
    procs: map<Job, Proc>,
    cancelled: map<Job, bool>,
    launched: map<Arn, Launch>)

  datatype Label =
    | Start(job: Job, proc: Proc)           // a new stage process of the job, with a fresh context
    | Reply(job: Job, resp: Response)       // the pending call of the job's process returns
    | Kill(job: Job)                        // the process dies before its pending call has any effect
    | KillAfter(job: Job, resp: Response)   // the process dies after the effect of its pending call
    | Cancel(job: Job)                      // SIGINT or SIGTERM
    | Reap(job: Job)                        // the runner collects a finished process
    | Boot(arn: Arn)                        // the cluster brings a task up
    | Exit(arn: Arn)                        // a task ends on its own

  predicate IsStart(p: Proc) {
    p == PInit || p == CInit || p.RScript? || p == Done(Run, MISSING_ARGUMENTS)
  }

  ghost predicate Init(site: Site, s: State) {
    && s.procs.Keys == site.paths.Keys && s.cancelled.Keys == site.paths.Keys
    && (forall j :: j in s.procs ==> s.procs[j] == Idle)
    && (forall j :: j in site.paths ==> site.paths[j] !in s.shared.files)
    && s.shared.tasks == map[] && s.launched == map[]
  }

  /** Who launched what, after a step in which a process with key pair `pair` of job `j` may have launched. */
  function Record(launched: map<Arn, Launch>, j: Job, p: Proc, tasks: map<Arn, Task>): map<Arn, Launch> {
    if p.PLaunch?
    then map a | a in tasks :: if a in launched then launched[a] else Launch(j, p.pair)
    else launched
  }

  /** The pending call of job `j` is answered with `r`; its process then stands at `next`. */
  ghost predicate Called(site: Site, s: State, j: Job, r: Response, next: Proc, t: State)
    requires j in site.paths && j in s.procs && j in s.cancelled && Active(s.procs[j])
  {
    && Fits(Pending(site.CfgOf(j), s.procs[j]), r)
    && Effect(s.cancelled[j], Pending(site.CfgOf(j), s.procs[j]), r, s.shared, t.shared)
    && t == State(t.shared, s.procs[j := next], s.cancelled, Record(s.launched, j, s.procs[j], t.shared.tasks))
  }

  ghost predicate Step(site: Site, s: State, l: Label, t: State) {
    match l
    case Start(j, p) =>
      && j in s.procs && s.procs[j] == Idle && IsStart(p)
      && t == s.(procs := s.procs[j := p], cancelled := s.cancelled[j := false])
    case Reply(j, r) =>
      && j in site.paths && j in s.procs && j in s.cancelled && Active(s.procs[j])
      && Fits(Pending(site.CfgOf(j), s.procs[j]), r)
      && Called(site, s, j, r, Resume(site.CfgOf(j), s.procs[j], r), t)
    case Kill(j) =>
      && j in s.procs && Active(s.procs[j])
      && t == s.(procs := s.procs[j := Idle])
    case KillAfter(j, r) =>
      && j in site.paths && j in s.procs && j in s.cancelled && Active(s.procs[j])
      && Called(site, s, j, r, Idle, t)
    case Cancel(j) =>
      && j in s.cancelled
      && t == s.(cancelled := s.cancelled[j := true])
    case Reap(j) =>
      && j in s.procs && s.procs[j].Done?
      && t == s.(procs := s.procs[j := Idle])
    case Boot(a) =>
      && a in s.shared.tasks && s.shared.tasks[a].status == Provisioning
      && t == s.(shared := s.shared.(tasks := s.shared.tasks[a := s.shared.tasks[a].(status := Running)]))
    case Exit(a) =>
      && a in s.shared.tasks
      && t == s.(shared := StopIn(s.shared, a))
  }

  /** A finite run: `states[i]` goes to `states[i+1]` by `labels[i]`. */
  ghost predicate Execution(site: Site, states: seq<State>, labels: seq<Label>) {
    && |states| == |labels| + 1
    && forall i {:trigger labels[i]} :: 0 <= i < |labels| ==> Step(site, states[i], labels[i], states[i + 1])
  }

  ghost predicate Behaviour(site: Site, states: seq<State>, labels: seq<Label>) {
    Execution(site, states, labels) && Init(site, states[0])
  }

  // ----- what one job sees -----

  /** The record the job's metadata file decodes to. */
  function Recorded(site: Site, s: State, j: Job): Option<Data>
    requires j in site.paths
  {
    if site.paths[j] in s.shared.files then site.codec.decode(s.shared.files[site.paths[j]]) else None
  }

  predicate Owns(s: State, j: Job, a: Arn) {
    a in s.shared.tasks && a in s.launched && s.launched[a].job == j
  }

  /** The job's file still holds exactly the record of `a` without an address. */
  ghost predicate Holds(site: Site, s: State, j: Job, d: Data)
    requires j in site.paths
  {
    Recorded(site, s, j) == Some(d)
  }

  ghost predicate RecordOk(site: Site, s: State, j: Job)
    requires j in site.paths
  {
    var r := Recorded(site, s, j);
    r.Some? ==>
      && Owns(s, j, r.value.arn)
      && r.value.key == s.launched[r.value.arn].pair.priv
      && (r.value.ip == "" || r.value.ip == s.shared.tasks[r.value.arn].ip)
  }

  ghost predicate ProcOk(site: Site, s: State, j: Job)
    requires j in site.paths && j in s.procs
  {
    match s.procs[j]
    case PRecord(pair, a, bytes) =>
      && Owns(s, j, a) && s.launched[a].pair == pair
      && site.codec.encode(Data(a, "", pair.priv)) == Some(bytes)
    case PWait(pair, a) => Owns(s, j, a) && s.launched[a].pair == pair && Holds(site, s, j, Data(a, "", pair.priv))
    case PAddress(pair, a) => Owns(s, j, a) && s.launched[a].pair == pair && Holds(site, s, j, Data(a, "", pair.priv))
    case PRerecord(pair, a, ip, bytes) =>
      && Owns(s, j, a) && s.launched[a].pair == pair && ip == s.shared.tasks[a].ip
      && Holds(site, s, j, Data(a, "", pair.priv))
      && site.codec.encode(Data(a, ip, pair.priv)) == Some(bytes)
    case PStop(a, cause, err) =>
      && Owns(s, j, a) && cause != LaunchFailed && err != NIL
      && (cause == WaitFailed || cause == AddressFailed ==>
            Recorded(site, s, j).Some? && Recorded(site, s, j).value.arn == a)
    case RSsh(d, _) => Holds(site, s, j, d)
    case CStop(a) => Recorded(site, s, j).Some? && Recorded(site, s, j).value.arn == a
    case CClear(a) => Owns(s, j, a) && s.shared.tasks[a].status == Stopped && (Recorded(site, s, j).Some? ==> Recorded(site, s, j).value.arn == a)
    case CRemove(a) => Owns(s, j, a) && s.shared.tasks[a].status == Stopped && (Recorded(site, s, j).Some? ==> Recorded(site, s, j).value.arn == a)
    case _ => true
  }

  ghost predicate JobOk(site: Site, s: State, j: Job)
    requires j in site.paths && j in s.procs
  {
    RecordOk(site, s, j) && ProcOk(site, s, j)
  }

  /** What holds in every reachable state. */
  ghost predicate Inv(site: Site, s: State) {
    && s.procs.Keys == site.paths.Keys && s.cancelled.Keys == site.paths.Keys
    && s.launched.Keys == s.shared.tasks.Keys
    && (forall a :: a in s.launched ==> s.launched[a].job in site.paths)
    && (forall a :: a in s.launched ==> s.shared.tasks[a].injected == s.launched[a].pair.pub)
    && (forall a :: a in s.launched ==> a != "")
    && (forall j {:trigger JobOk(site, s, j)} :: j in site.paths ==> JobOk(site, s, j))
  }

  /** The part of the invariant that says which keys the maps have, and which key each task got. */
  lemma InvKeys(site: Site, s: State)
    requires Inv(site, s)
    ensures s.procs.Keys == site.paths.Keys && s.cancelled.Keys == site.paths.Keys
    ensures s.launched.Keys == s.shared.tasks.Keys
    ensures forall a :: a in s.launched ==> s.shared.tasks[a].injected == s.launched[a].pair.pub
  {
  }

  // ----- preservation -----

  /** Everything job `k` can see or act on is the same in `s` and `t`. */
  ghost predicate SameFor(site: Site, s: State, t: State, k: Job)
    requires k in site.paths
  {
    && k in s.procs && k in t.procs && s.procs[k] == t.procs[k]
    && k in s.cancelled && k in t.cancelled && s.cancelled[k] == t.cancelled[k]
    && (site.paths[k] in s.shared.files <==> site.paths[k] in t.shared.files)
    && (site.paths[k] in s.shared.files ==> s.shared.files[site.paths[k]] == t.shared.files[site.paths[k]])
    && (forall a :: Owns(s, k, a) <==> Owns(t, k, a))
    && (forall a :: Owns(s, k, a) ==> s.launched[a] == t.launched[a] && s.shared.tasks[a] == t.shared.tasks[a])
  }

  lemma SameKeepsJobOk(site: Site, s: State, t: State, k: Job)
    requires k in site.paths && SameFor(site, s, t, k) && JobOk(site, s, k)
    ensures JobOk(site, t, k)
  {
  }

  /** The job a label is about. */
  function About(s: State, l: Label): Option<Job> {
    match l
    case Start(j, _) => Some(j)
    case Reply(j, _) => Some(j)
    case Kill(j) => Some(j)
    case KillAfter(j, _) => Some(j)
    case Cancel(j) => Some(j)
    case Reap(j) => Some(j)
    case Boot(a) => if a in s.launched then Some(s.launched[a].job) else None
    case Exit(a) => if a in s.launched then Some(s.launched[a].job) else None
  }

  /** The process of `j` moves. */
  predicate Moves(l: Label, j: Job) {
    match l
    case Start(k, _) => k == j
    case Reply(k, _) => k == j
    case Kill(k) => k == j
    case KillAfter(k, _) => k == j
    case Reap(k) => k == j
    case _ => false
  }

  /** What a call leaves alone: files other than the one it writes or removes, and tasks other than the one it stops. */
  lemma EffectShape(cancelled: bool, req: Request, resp: Response, s: Shared, t: Shared)
    requires Effect(cancelled, req, resp, s, t)
    ensures forall p :: !((req.WriteFile? || req.Remove?) && req.path == p) ==>
      (p in s.files <==> p in t.files) && (p in s.files ==> s.files[p] == t.files[p])
    ensures forall a :: a in s.tasks ==>
      && a in t.tasks
      && (t.tasks[a] == s.tasks[a] || (req == StopTask(a) && t.tasks[a] == s.tasks[a].(status := Stopped)))
    ensures forall a :: a in t.tasks && a !in s.tasks ==>
      req.RunTask? && t.tasks[a].injected == req.pub && a != ""
  {
  }

  /** A process writes and removes no file but its job's own, and stops no task but its job's own. */
  lemma TouchesOwn(site: Site, s: State, j: Job)
    requires Inv(site, s) && j in site.paths && Active(s.procs[j])
    ensures
      var req := Pending(site.CfgOf(j), s.procs[j]);
      && ((req.WriteFile? || req.Remove?) ==> req.path == site.paths[j])
      && (req.StopTask? ==> Owns(s, j, req.arn))
      && (req.RunTask? <==> s.procs[j].PLaunch?)
  {
    assert JobOk(site, s, j);
  }

  lemma TasksUnaffected(s: State, j: Job, p: Proc, req: Request, t: State, k: Job)
    requires s.launched.Keys == s.shared.tasks.Keys && j != k
    requires forall a :: a in s.shared.tasks ==>
      a in t.shared.tasks && (t.shared.tasks[a] == s.shared.tasks[a] || req == StopTask(a))
    requires forall a :: a in t.shared.tasks && a !in s.shared.tasks ==> req.RunTask?
    requires (req.StopTask? ==> Owns(s, j, req.arn)) && (req.RunTask? <==> p.PLaunch?)
    requires t.launched == Record(s.launched, j, p, t.shared.tasks)
    ensures forall a :: Owns(s, k, a) <==> Owns(t, k, a)
    ensures forall a :: Owns(s, k, a) ==> s.launched[a] == t.launched[a] && s.shared.tasks[a] == t.shared.tasks[a]
  {
  }

  lemma CallUnaffected(site: Site, s: State, j: Job, r: Response, next: Proc, t: State, k: Job)
    requires site.Valid() && Inv(site, s) && j in site.paths && Active(s.procs[j])
    requires Called(site, s, j, r, next, t)
    requires k in site.paths && j != k
    ensures SameFor(site, s, t, k)
  {
    hide Effect, Pending, JobOk, Owns, Record, Fits, Inv;
    InvKeys(site, s);
    TouchesOwn(site, s, j);
    EffectShape(s.cancelled[j], Pending(site.CfgOf(j), s.procs[j]), r, s.shared, t.shared);
    TasksUnaffected(s, j, s.procs[j], Pending(site.CfgOf(j), s.procs[j]), t, k);
    assert site.paths[j] != site.paths[k];
  }

  lemma NoCallUnaffected(site: Site, s: State, l: Label, t: State, k: Job)
    requires s.launched.Keys == s.shared.tasks.Keys
    requires s.procs.Keys == site.paths.Keys && s.cancelled.Keys == site.paths.Keys
    requires Step(site, s, l, t) && !l.Reply? && !l.KillAfter?
    requires k in site.paths && About(s, l) != Some(k)
    ensures SameFor(site, s, t, k)
  {
  }

  /** A step about one job changes nothing any other job sees. */
  lemma OthersUnaffected(site: Site, s: State, l: Label, t: State, k: Job)
    requires site.Valid() && Inv(site, s) && Step(site, s, l, t)
    requires k in site.paths && About(s, l) != Some(k)
    ensures SameFor(site, s, t, k)
  {
    hide Effect, JobOk, SameFor;
    match l
    case Reply(j, r) => CallUnaffected(site, s, j, r, Resume(site.CfgOf(j), s.procs[j], r), t, k);
    case KillAfter(j, r) => CallUnaffected(site, s, j, r, Idle, t, k);
    case _ => NoCallUnaffected(site, s, l, t, k);
  }

  /** The record a pending write is about to leave. */
  ghost predicate Writes(site: Site, p: Proc, d: Data) {
    match p
    case PRecord(pair, a, bytes) => d == Data(a, "", pair.priv) && site.codec.encode(d) == Some(bytes)
    case PRerecord(pair, a, ip, bytes) => d == Data(a, ip, pair.priv) && site.codec.encode(d) == Some(bytes)
    case _ => false
  }

  /** A write leaves the old record, no record, or the new record; a successful one leaves the new record. */
  lemma WriteLeaves(site: Site, s: State, j: Job, r: Response, next: Proc, t: State, d: Data)
    requires site.Valid() && j in site.paths && j in s.procs && j in s.cancelled && Active(s.procs[j])
    requires Called(site, s, j, r, next, t) && Writes(site, s.procs[j], d)
    ensures Recorded(site, t, j) in {Recorded(site, s, j), None, Some(d)}
    ensures r.Ok? ==> Recorded(site, t, j) == Some(d)
  {
    var bytes := site.codec.encode(d).value;
    assert bytes[..|bytes|] == bytes;
  }

  /** Only a pending write or removal changes the record. */
  lemma RecordStays(site: Site, s: State, j: Job, r: Response, next: Proc, t: State)
    requires j in site.paths && j in s.procs && j in s.cancelled && Active(s.procs[j])
    requires Called(site, s, j, r, next, t)
    requires !s.procs[j].PRecord? && !s.procs[j].PRerecord? && !s.procs[j].CRemove?
    ensures Recorded(site, t, j) == Recorded(site, s, j)
  {
    EffectShape(s.cancelled[j], Pending(site.CfgOf(j), s.procs[j]), r, s.shared, t.shared);
  }

  /** A removal leaves the old record or none. */
  lemma RemoveLeaves(site: Site, s: State, j: Job, r: Response, next: Proc, t: State)
    requires j in site.paths && j in s.procs && j in s.cancelled && s.procs[j].CRemove?
    requires Called(site, s, j, r, next, t)
    ensures Recorded(site, t, j) in {Recorded(site, s, j), None}
    ensures r.Ok? ==> site.paths[j] !in t.shared.files
  {
  }

  /** Launch data and addresses survive; no stopped task comes back. */
  ghost predicate Persists(s: State, t: State) {
    && (forall a :: a in s.launched ==> a in t.launched && t.launched[a] == s.launched[a])
    && (forall a :: a in s.shared.tasks ==>
          && a in t.shared.tasks && t.shared.tasks[a].ip == s.shared.tasks[a].ip
          && (s.shared.tasks[a].status == Stopped ==> t.shared.tasks[a].status == Stopped))
  }

  lemma CallPersists(site: Site, s: State, j: Job, r: Response, next: Proc, t: State)
    requires s.launched.Keys == s.shared.tasks.Keys
    requires j in site.paths && j in s.procs && j in s.cancelled && Active(s.procs[j])
    requires Called(site, s, j, r, next, t)
    ensures Persists(s, t)
    ensures forall a :: a in t.shared.tasks && a !in s.shared.tasks ==>
      s.procs[j].PLaunch? && a in t.launched && t.launched[a] == Launch(j, s.procs[j].pair)
  {
    EffectShape(s.cancelled[j], Pending(site.CfgOf(j), s.procs[j]), r, s.shared, t.shared);
  }

  lemma SameRecordStaysOk(site: Site, s: State, j: Job, t: State)
    requires j in site.paths && RecordOk(site, s, j) && Persists(s, t)
    requires Recorded(site, t, j) == Recorded(site, s, j) || Recorded(site, t, j) == None
    ensures RecordOk(site, t, j)
  {
  }

  lemma CallKeepsRecordOk(site: Site, s: State, j: Job, r: Response, next: Proc, t: State)
    requires site.Valid() && Inv(site, s) && j in site.paths && Active(s.procs[j])
    requires Called(site, s, j, r, next, t)
    ensures RecordOk(site, t, j)
  {
    assert JobOk(site, s, j);
    CallPersists(site, s, j, r, next, t);
    WriteKeepsRecordOk(site, s, j, r, next, t);
    if s.procs[j].CRemove? {
      RemoveLeaves(site, s, j, r, next, t);
      SameRecordStaysOk(site, s, j, t);
    } else if !s.procs[j].PRecord? && !s.procs[j].PRerecord? {
      RecordStays(site, s, j, r, next, t);
      SameRecordStaysOk(site, s, j, t);
    }
  }

  lemma WriteKeepsRecordOk(site: Site, s: State, j: Job, r: Response, next: Proc, t: State)
    requires site.Valid() && j in site.paths && j in s.procs && j in s.cancelled && Active(s.procs[j])
    requires JobOk(site, s, j) && Persists(s, t)
    requires Called(site, s, j, r, next, t)
    ensures s.procs[j].PRecord? || s.procs[j].PRerecord? ==> RecordOk(site, t, j)
  {
    match s.procs[j]
    case PRecord(pair, a, _) =>
      WriteLeaves(site, s, j, r, next, t, Data(a, "", pair.priv));
      if Recorded(site, t, j) != Some(Data(a, "", pair.priv)) { SameRecordStaysOk(site, s, j, t); }
    case PRerecord(pair, a, ip, _) =>
      WriteLeaves(site, s, j, r, next, t, Data(a, ip, pair.priv));
      if Recorded(site, t, j) != Some(Data(a, ip, pair.priv)) { SameRecordStaysOk(site, s, j, t); }
    case _ =>
  }

  lemma RecordingKeepsProcOk(site: Site, s: State, j: Job, r: Response, t: State)
    requires site.Valid() && j in site.paths && j in s.procs && j in s.cancelled && s.procs[j].PRecord?
    requires JobOk(site, s, j) && Persists(s, t)
    requires Fits(Pending(site.CfgOf(j), s.procs[j]), r)
    requires Called(site, s, j, r, Resume(site.CfgOf(j), s.procs[j], r), t)
    ensures ProcOk(site, t, j)
  {
    hide Effect;
    var p := s.procs[j];
    WriteLeaves(site, s, j, r, Resume(site.CfgOf(j), p, r), t, Data(p.arn, "", p.pair.priv));
  }

  lemma WaitingKeepsProcOk(site: Site, s: State, j: Job, r: Response, t: State)
    requires site.Valid() && j in site.paths && j in s.procs && j in s.cancelled && (s.procs[j].PWait? || s.procs[j].PAddress?)
    requires JobOk(site, s, j) && Persists(s, t)
    requires Fits(Pending(site.CfgOf(j), s.procs[j]), r)
    requires Called(site, s, j, r, Resume(site.CfgOf(j), s.procs[j], r), t)
    ensures ProcOk(site, t, j)
  {
    RecordStays(site, s, j, r, Resume(site.CfgOf(j), s.procs[j], r), t);
  }

  lemma PrepareKeepsProcOk(site: Site, s: State, j: Job, r: Response, t: State)
    requires site.Valid() && j in site.paths && j in s.procs && j in s.cancelled && Active(s.procs[j])
    requires s.launched.Keys == s.shared.tasks.Keys && JobOk(site, s, j) && Persists(s, t)
    requires Fits(Pending(site.CfgOf(j), s.procs[j]), r)
    requires Called(site, s, j, r, Resume(site.CfgOf(j), s.procs[j], r), t)
    ensures s.procs[j].PRecord? || s.procs[j].PWait? || s.procs[j].PAddress? || s.procs[j].PRerecord? ==> ProcOk(site, t, j)
  {
    if s.procs[j].PRecord? {
      RecordingKeepsProcOk(site, s, j, r, t);
    } else if s.procs[j].PWait? || s.procs[j].PAddress? {
      WaitingKeepsProcOk(site, s, j, r, t);
    }
  }

  lemma LaunchKeepsProcOk(site: Site, s: State, j: Job, r: Response, t: State)
    requires site.Valid() && j in site.paths && j in s.procs && j in s.cancelled && s.procs[j].PLaunch?
    requires s.launched.Keys == s.shared.tasks.Keys
    requires Fits(Pending(site.CfgOf(j), s.procs[j]), r)
    requires Called(site, s, j, r, Resume(site.CfgOf(j), s.procs[j], r), t)
    ensures ProcOk(site, t, j)
  {
    if r.Started? {
      assert Owns(t, j, r.arn) && t.launched[r.arn] == Launch(j, s.procs[j].pair);
    }
  }

  lemma CleanupKeepsProcOk(site: Site, s: State, j: Job, r: Response, t: State)
    requires j in site.paths && j in s.procs && j in s.cancelled && Active(s.procs[j])
    requires JobOk(site, s, j) && Persists(s, t)
    requires Fits(Pending(site.CfgOf(j), s.procs[j]), r)
    requires Called(site, s, j, r, Resume(site.CfgOf(j), s.procs[j], r), t)
    ensures s.procs[j].CRead? || s.procs[j].CStop? || s.procs[j].CClear? || s.procs[j].CRemove? || s.procs[j].RRead? ==> ProcOk(site, t, j)
  {
    if !s.procs[j].PRecord? && !s.procs[j].PRerecord? && !s.procs[j].CRemove? {
      RecordStays(site, s, j, r, Resume(site.CfgOf(j), s.procs[j], r), t);
    }
  }

  lemma CallKeepsProcOk(site: Site, s: State, j: Job, r: Response, t: State)
    requires site.Valid() && Inv(site, s) && j in site.paths && Active(s.procs[j])
    requires Fits(Pending(site.CfgOf(j), s.procs[j]), r)
    requires Called(site, s, j, r, Resume(site.CfgOf(j), s.procs[j], r), t)
    ensures ProcOk(site, t, j)
  {
    assert JobOk(site, s, j);
    CallPersists(site, s, j, r, Resume(site.CfgOf(j), s.procs[j], r), t);
    if s.procs[j].PLaunch? {
      LaunchKeepsProcOk(site, s, j, r, t);
    } else if s.procs[j].PRecord? || s.procs[j].PWait? || s.procs[j].PAddress? || s.procs[j].PRerecord? {
      PrepareKeepsProcOk(site, s, j, r, t);
    } else if s.procs[j].CRead? || s.procs[j].CStop? || s.procs[j].CClear? || s.procs[j].CRemove? || s.procs[j].RRead? {
      CleanupKeepsProcOk(site, s, j, r, t);
    }
  }

  lemma CallKeepsRegistry(site: Site, s: State, j: Job, r: Response, next: Proc, t: State)
    requires Inv(site, s) && j in site.paths && Active(s.procs[j])
    requires Called(site, s, j, r, next, t)
    ensures t.launched.Keys == t.shared.tasks.Keys
    ensures forall a :: a in t.launched ==>
      && t.launched[a].job in site.paths && t.shared.tasks[a].injected == t.launched[a].pair.pub && a != ""
  {
    hide Effect;
    EffectShape(s.cancelled[j], Pending(site.CfgOf(j), s.procs[j]), r, s.shared, t.shared);
    CallPersists(site, s, j, r, next, t);
  }

  /** A task comes up or ends: launch data, keys and addresses stay, and no stopped task comes back. */
  lemma TaskMoveKeepsOwn(site: Site, s: State, l: Label, t: State, j: Job)
    requires j in site.paths && j in s.procs && j in t.procs && JobOk(site, s, j)
    requires s.launched.Keys == s.shared.tasks.Keys
    requires Step(site, s, l, t) && (l.Boot? || l.Exit?)
    ensures JobOk(site, t, j)
  {
    assert Recorded(site, t, j) == Recorded(site, s, j);
  }

  lemma NoCallKeepsOwn(site: Site, s: State, l: Label, t: State, j: Job)
    requires j in site.paths && j in s.procs && j in t.procs && JobOk(site, s, j)
    requires s.launched.Keys == s.shared.tasks.Keys
    requires Step(site, s, l, t) && !l.Reply? && !l.KillAfter?
    ensures JobOk(site, t, j)
  {
    if l.Boot? || l.Exit? {
      TaskMoveKeepsOwn(site, s, l, t, j);
    } else {
      hide Recorded;
      assert t.shared == s.shared && t.launched == s.launched;
      assert Recorded(site, t, j) == Recorded(site, s, j) by { SameSharedSameRecord(site, s, t, j); }
    }
  }

  lemma SameSharedSameRecord(site: Site, s: State, t: State, j: Job)
    requires j in site.paths && t.shared == s.shared
    ensures Recorded(site, t, j) == Recorded(site, s, j)
  {
  }

  lemma StepKeepsOwn(site: Site, s: State, l: Label, t: State, j: Job)
    requires site.Valid() && Inv(site, s) && Step(site, s, l, t) && j in t.procs
    requires j in site.paths && About(s, l) == Some(j)
    ensures JobOk(site, t, j)
  {
    hide Effect, RecordOk, ProcOk;
    assert JobOk(site, s, j);
    match l
    case Reply(_, r) => CallOwn(site, s, j, r, t);
    case KillAfter(_, r) => KillOwn(site, s, j, r, t);
    case _ => NoCallKeepsOwn(site, s, l, t, j);
  }

  lemma CallOwn(site: Site, s: State, j: Job, r: Response, t: State)
    requires site.Valid() && Inv(site, s) && j in site.paths && Active(s.procs[j])
    requires Fits(Pending(site.CfgOf(j), s.procs[j]), r)
    requires Called(site, s, j, r, Resume(site.CfgOf(j), s.procs[j], r), t)
    ensures JobOk(site, t, j)
  {
    hide Effect, RecordOk, ProcOk, Resume, Pending;
    CallKeepsRecordOk(site, s, j, r, Resume(site.CfgOf(j), s.procs[j], r), t);
    CallKeepsProcOk(site, s, j, r, t);
  }

  lemma KillOwn(site: Site, s: State, j: Job, r: Response, t: State)
    requires site.Valid() && Inv(site, s) && j in site.paths && Active(s.procs[j])
    requires Called(site, s, j, r, Idle, t)
    ensures JobOk(site, t, j)
  {
    hide Effect, RecordOk, Resume, Pending;
    CallKeepsRecordOk(site, s, j, r, Idle, t);
  }

  lemma StepKeepsRegistry(site: Site, s: State, l: Label, t: State)
    requires Inv(site, s) && Step(site, s, l, t)
    ensures t.procs.Keys == site.paths.Keys && t.cancelled.Keys == site.paths.Keys
    ensures t.launched.Keys == t.shared.tasks.Keys
    ensures forall a :: a in t.launched ==>
      && t.launched[a].job in site.paths && t.shared.tasks[a].injected == t.launched[a].pair.pub && a != ""
  {
    hide Effect, Resume, Pending, JobOk, Record, Fits;
    match l
    case Reply(j, r) => CallKeepsRegistry(site, s, j, r, Resume(site.CfgOf(j), s.procs[j], r), t);
    case KillAfter(j, r) => CallKeepsRegistry(site, s, j, r, Idle, t);
    case _ =>
  }

  lemma StepKeepsInv(site: Site, s: State, l: Label, t: State)
    requires site.Valid() && Inv(site, s) && Step(site, s, l, t)
    ensures Inv(site, t)
  {
    StepKeepsRegistry(site, s, l, t);
    forall k | k in site.paths
      ensures JobOk(site, t, k)
    {
      if About(s, l) == Some(k) {
        StepKeepsOwn(site, s, l, t, k);
      } else {
        OthersUnaffected(site, s, l, t, k);
        SameKeepsJobOk(site, s, t, k);
      }
    }
  }

  lemma InitEstablishesInv(site: Site, s: State)
    requires Init(site, s)
    ensures Inv(site, s)
  {
  }

  /** The invariant holds all along an execution that starts in it. */
  lemma {:induction false} InvAlong(site: Site, states: seq<State>, labels: seq<Label>, i: nat)
    requires site.Valid() && Execution(site, states, labels) && Inv(site, states[0]) && i < |states|
    ensures Inv(site, states[i])
  {
    if i > 0 {
      InvAlong(site, states, labels, i - 1);
      StepKeepsInv(site, states[i - 1], labels[i - 1], states[i]);
    }
  }

  lemma HasStates(site: Site, states: seq<State>, labels: seq<Label>)
    requires Execution(site, states, labels)
    ensures |states| == |labels| + 1
  {
  }

  // ----- building executions -----

  lemma Extend(site: Site, states: seq<State>, labels: seq<Label>, l: Label, t: State)
      returns (states': seq<State>, labels': seq<Label>)
    requires Execution(site, states, labels) && Step(site, states[|labels|], l, t)
    ensures states' == states + [t] && labels' == labels + [l] && Execution(site, states', labels')
  {
    hide Step;
    states', labels' := states + [t], labels + [l];
    forall i {:trigger labels'[i]} | 0 <= i < |labels'|
      ensures Step(site, states'[i], labels'[i], states'[i + 1])
    {
      if i < |labels| {
        assert labels'[i] == labels[i];
      }
    }
  }

  /** The pending call of `j` is answered with `r`, leaving `shared`. */
  lemma Answer(site: Site, states: seq<State>, labels: seq<Label>, j: Job, r: Response, shared: Shared)
      returns (states': seq<State>, labels': seq<Label>)
    requires Execution(site, states, labels) && j in site.paths
    requires var s := states[|labels|];
      && j in s.procs && j in s.cancelled && Active(s.procs[j])
      && Fits(Pending(site.CfgOf(j), s.procs[j]), r)
      && Effect(s.cancelled[j], Pending(site.CfgOf(j), s.procs[j]), r, s.shared, shared)
    ensures Execution(site, states', labels') && labels' == labels + [Reply(j, r)] && |states'| == |states| + 1 && states <= states'
    ensures var s := states[|labels|];
      states'[|labels'|] == State(shared, s.procs[j := Resume(site.CfgOf(j), s.procs[j], r)], s.cancelled,
                                  Record(s.launched, j, s.procs[j], shared.tasks))
  {
    hide Effect, Resume, Pending, Fits, Record;
    var s := states[|labels|];
    var t := State(shared, s.procs[j := Resume(site.CfgOf(j), s.procs[j], r)], s.cancelled,
                   Record(s.launched, j, s.procs[j], shared.tasks));
    states', labels' := Extend(site, states, labels, Reply(j, r), t);
  }
}
