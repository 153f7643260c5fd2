/**
  What holds across the successive processes of one job, whatever all the other
  jobs, the cluster and the runner do in between.
 */
module Lifecycle {
  import opened Options
  import opened Errors
  import opened Protocol
  import opened System
  import opened Orphans

  // ----- credentials -----

  /** Between stages, or inside a run stage, with the record `d` on file. */
  ghost predicate Ready(site: Site, s: State, j: Job, d: Data)
    requires j in site.paths && j in s.procs
  {
    && Recorded(site, s, j) == Some(d)
    && match s.procs[j]
       case Idle | Done(_, _) | RScript(_) | RExists(_) | RRead(_) => true
       case RSsh(seen, _) => seen == d
       case _ => false
  }

  lemma CallKeepsReady(site: Site, s: State, j: Job, r: Response, next: Proc, t: State, d: Data)
    requires j in site.paths && j in s.procs && j in s.cancelled && Active(s.procs[j])
    requires Called(site, s, j, r, next, t)
    requires next == Idle || next == Resume(site.CfgOf(j), s.procs[j], r)
    requires Ready(site, s, j, d)
    ensures j in t.procs && Ready(site, t, j, d)
  {
    RecordStays(site, s, j, r, next, t);
  }

  /** No step but the start of a prepare or a cleanup of the job touches a ready record. */
  lemma StepKeepsReady(site: Site, s: State, l: Label, t: State, j: Job, d: Data)
    requires site.Valid() && Inv(site, s) && Step(site, s, l, t) && j in site.paths
    requires l != Start(j, PInit) && l != Start(j, CInit) && Ready(site, s, j, d)
    ensures j in t.procs && Ready(site, t, j, d)
  {
    hide Effect, JobOk;
    if About(s, l) != Some(j) {
      OthersUnaffected(site, s, l, t, j);
    } else if l.Reply? {
      CallKeepsReady(site, s, j, l.resp, Resume(site.CfgOf(j), s.procs[j], l.resp), t, d);
    } else if l.KillAfter? {
      CallKeepsReady(site, s, j, l.resp, Idle, t, d);
    } else {
      assert t.shared.files == s.shared.files;
    }
  }

  lemma {:induction false} ReadyAlong(site: Site, states: seq<State>, labels: seq<Label>, j: Job, d: Data, m: nat, n: nat)
    requires site.Valid() && Execution(site, states, labels) && Inv(site, states[0]) && j in site.paths
    requires m <= n <= |labels|
    requires forall i {:trigger labels[i]} :: m <= i < n ==> labels[i] != Start(j, PInit) && labels[i] != Start(j, CInit)
    requires j in states[m].procs && Ready(site, states[m], j, d)
    ensures j in states[n].procs && Ready(site, states[n], j, d)
    decreases n
  {
    hide Inv, Step, Ready;
    if m < n {
      ReadyAlong(site, states, labels, j, d, m, n - 1);
      InvAlong(site, states, labels, n - 1);
      StepKeepsReady(site, states[n - 1], labels[n - 1], states[n], j, d);
    }
  }

  /** A launched task keeps its launch data, key and address. */
  lemma {:induction false} TaskAlong(site: Site, states: seq<State>, labels: seq<Label>, a: Arn, m: nat, n: nat)
    requires site.Valid() && Execution(site, states, labels) && Inv(site, states[0])
    requires m <= n <= |labels| && a in states[m].shared.tasks
    ensures a in states[m].launched && a in states[n].launched && states[n].launched[a] == states[m].launched[a]
    ensures a in states[n].shared.tasks && states[n].shared.tasks[a].ip == states[m].shared.tasks[a].ip
    decreases n
  {
    hide Step, Inv;
    InvAlong(site, states, labels, m);
    InvKeys(site, states[m]);
    if m < n {
      TaskAlong(site, states, labels, a, m, n - 1);
      InvAlong(site, states, labels, n - 1);
      StepPersists(site, states[n - 1], labels[n - 1], states[n]);
    }
  }

  lemma StepPersists(site: Site, s: State, l: Label, t: State)
    requires Inv(site, s) && Step(site, s, l, t)
    ensures Persists(s, t)
  {
    hide Effect, JobOk;
    if l.Reply? {
      CallPersists(site, s, l.job, l.resp, Resume(site.CfgOf(l.job), s.procs[l.job], l.resp), t);
    } else if l.KillAfter? {
      CallPersists(site, s, l.job, l.resp, Idle, t);
    }
  }

  /** The step in which prepare succeeds leaves the full record of its task on file. */
  lemma PrepareLeavesReady(site: Site, s: State, t: State, j: Job)
    requires site.Valid() && Inv(site, s) && j in site.paths && j in s.procs && s.procs[j].PRerecord?
    requires Step(site, s, Reply(j, Ok), t)
    ensures
      var p := s.procs[j];
      && Owns(s, j, p.arn) && p.ip == s.shared.tasks[p.arn].ip && s.launched[p.arn].pair == p.pair
      && j in t.procs && Ready(site, t, j, Data(p.arn, p.ip, p.pair.priv))
  {
    var p := s.procs[j];
    assert JobOk(site, s, j);
    WriteLeaves(site, s, j, Ok, Resume(site.CfgOf(j), p, Ok), t, Data(p.arn, p.ip, p.pair.priv));
  }

  /**
    After a successful prepare of job `j`, and until its next prepare or cleanup, every
    connection of a run process goes to the address of the task that prepare started, with the
    private half of the pair whose public half was injected into that very task.
   */
  lemma CredentialsAgree(site: Site, states: seq<State>, labels: seq<Label>, j: Job, m: nat, n: nat)
    requires site.Valid() && Behaviour(site, states, labels) && j in site.paths
    requires m < n <= |labels| && j in states[m].procs && j in states[n].procs
    requires states[m].procs[j].PRerecord? && labels[m] == Reply(j, Ok)
    requires forall i {:trigger labels[i]} :: m < i < n ==> labels[i] != Start(j, PInit) && labels[i] != Start(j, CInit)
    requires states[n].procs[j].RSsh?
    ensures
      var p, s, q := states[m].procs[j], states[n], states[n].procs[j];
      && p.arn in s.shared.tasks && q.data.arn == p.arn
      && Pending(site.CfgOf(j), q)
           == Ssh(s.shared.tasks[p.arn].ip, if site.port >= 1 then site.port else 22, site.user, p.pair.priv, q.script)
      && s.shared.tasks[p.arn].injected == p.pair.pub
  {
    hide Step, Inv, Init, Ready, Recorded, Pending;
    InitEstablishesInv(site, states[0]);
    InvAlong(site, states, labels, m);
    InvAlong(site, states, labels, n);
    InvKeys(site, states[n]);
    var p := states[m].procs[j];
    PrepareLeavesReady(site, states[m], states[m + 1], j);
    ReadyAlong(site, states, labels, j, Data(p.arn, p.ip, p.pair.priv), m + 1, n);
    TaskAlong(site, states, labels, p.arn, m, n);
    ReadyData(site, states[n], j, Data(p.arn, p.ip, p.pair.priv));
  }

  lemma ReadyData(site: Site, s: State, j: Job, d: Data)
    requires j in site.paths && j in s.procs && Ready(site, s, j, d) && s.procs[j].RSsh?
    ensures s.procs[j].data == d
    ensures Pending(site.CfgOf(j), s.procs[j]) == Ssh(d.ip, if site.port >= 1 then site.port else 22, site.user, d.key, s.procs[j].script)
  {
  }

  /** Prepare has got `pair` from the key factory, has launched with its public half, and was given `a`. */
  ghost predicate Launched(es: seq<Event>, a: Arn, pair: KeyPair) {
    && |es| >= 3 && es[1] == Event(CreateKey, Key(pair)) && es[2] == Event(RunTask(pair.pub), Started(a))
  }

  /** What prepare has done about keys and tasks once it stands at `p`. */
  ghost predicate Generated(p: Proc, es: seq<Event>) {
    match p
    case PInit => |es| == 0
    case PKey => |es| == 1
    case PLaunch(pair) => |es| == 2 && es[1] == Event(CreateKey, Key(pair))
    case PRecord(pair, a, _) => Launched(es, a, pair)
    case PWait(pair, a) => Launched(es, a, pair)
    case PAddress(pair, a) => Launched(es, a, pair)
    case PRerecord(pair, a, _, _) => Launched(es, a, pair)
    case PStop(_, _, _) => true
    case Done(stage, _) => stage == Prepare
    case _ => false
  }

  lemma GeneratedGoesOn(cfg: Cfg, q: Proc, es: seq<Event>, e: Event)
    requires Generated(q, es) && Active(q) && e.req == Pending(cfg, q) && Fits(e.req, e.resp)
    ensures Generated(Resume(cfg, q, e.resp), es + [e])
  {
  }

  /** The pair prepare works with is the one the key factory made, and its public half is what it launched its task with. */
  lemma {:induction false} PairIsGenerated(cfg: Cfg, es: seq<Event>, p: Proc)
    requires Drive(cfg, PInit, es) == Some(p)
    ensures Generated(p, es)
    decreases |es|
  {
    hide Resume, Pending, Fits, Generated;
    if es == [] {
      assert Generated(PInit, []) by { NothingGenerated(); }
    } else {
      var front, e := es[..|es| - 1], es[|es| - 1];
      var q := Drive(cfg, PInit, front).value;
      PairIsGenerated(cfg, front, q);
      GeneratedGoesOn(cfg, q, front, e);
      assert es == front + [e];
    }
  }

  lemma NothingGenerated()
    ensures Generated(PInit, [])
  {
  }
}
