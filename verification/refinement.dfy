/**
  What a command does to the world is part of an execution of the interleaved system: other jobs,
  the cluster and signals go on between its calls.
 */
module Refinement {
  import opened Options
  import opened Errors
  import opened Protocol
  import opened System
  import opened Outside
  import opened Stages

  datatype Stretch = Stretch(states: seq<State>, labels: seq<Label>)

  /** A stretch of states with the steps between them. */
  type Segment = s: Stretch | |s.states| == |s.labels| + 1
    witness Stretch([State(Shared(map[], map[]), map[], map[], map[])], [])

  /** The calls of one process with their answers, what each call met and left, and what the others did before it. */
  datatype Activity = Activity(events: seq<Event>, trail: seq<Around>, gaps: seq<Segment>)

  function End(run: Segment): State {
    run.states[|run.labels|]
  }

  /** The steps of the job's own process, in order. */
  function OwnMoves(labels: seq<Label>, j: Job): seq<Label> {
    if labels == [] then []
    else OwnMoves(labels[..|labels| - 1], j) + if Moves(labels[|labels| - 1], j) then [labels[|labels| - 1]] else []
  }

  function Replies(j: Job, es: seq<Event>): seq<Label> {
    seq(|es|, i requires 0 <= i < |es| => Reply(j, es[i].resp))
  }

  /** Where a process that starts in `start` stands after its first `n` events. */
  function Stand(cfg: Cfg, start: Proc, es: seq<Event>, n: nat): Proc
    requires n <= |es|
  {
    match Drive(cfg, start, es[..n])
    case None => Idle
    case Some(p) => p
  }

  /** The system right after the first `n` calls of job `j` were answered. */
  function After(site: Site, s: State, j: Job, start: Proc, act: Activity, n: nat): State
    requires j in site.paths && n <= |act.events| == |act.trail| == |act.gaps|
  {
    if n == 0 then s
    else
      var u, post := End(act.gaps[n - 1]), act.trail[n - 1].post;
      State(post, u.procs[j := Stand(site.CfgOf(j), start, act.events, n)], u.cancelled,
            Record(u.launched, j, Stand(site.CfgOf(j), start, act.events, n - 1), post.tasks))
  }

  /** From `s`, steps in which the process of `j` does not move lead to what its next call meets. */
  ghost predicate Leads(site: Site, s: State, j: Job, gap: Segment, met: Around) {
    && Execution(site, gap.states, gap.labels) && gap.states[0] == s
    && (forall l :: l in gap.labels ==> !Moves(l, j))
    && End(gap).shared == met.pre
    && j in End(gap).cancelled && End(gap).cancelled[j] == met.cancelled
  }

  /** Before each call the others go on as the system allows, from where the call before it left the system. */
  ghost predicate Interleaved(site: Site, s: State, j: Job, start: Proc, act: Activity)
    requires j in site.paths
  {
    && |act.events| == |act.trail| == |act.gaps|
    && forall i {:trigger act.gaps[i]} :: 0 <= i < |act.gaps| ==>
         Leads(site, After(site, s, j, start, act, i), j, act.gaps[i], act.trail[i])
  }

  /** Each call had a possible effect. */
  ghost predicate Possible(es: seq<Event>, trail: seq<Around>) {
    && |trail| == |es|
    && forall i {:trigger es[i]} :: 0 <= i < |es| ==>
         Effect(trail[i].cancelled, es[i].req, es[i].resp, trail[i].pre, trail[i].post)
  }

  /** In state `s` job `j` has a process at `start`, and `act` is what it then does. */
  ghost predicate Acts(site: Site, s: State, j: Job, start: Proc, act: Activity) {
    && j in site.paths && j in s.procs && j in s.cancelled && s.procs[j] == start
    && Interleaved(site, s, j, start, act) && Possible(act.events, act.trail)
    && Drive(site.CfgOf(j), start, act.events).Some?
  }

  // ----- from events to steps -----

  lemma {:induction false} DrivePrefix(cfg: Cfg, p: Proc, es: seq<Event>, n: nat)
    requires n <= |es| && Drive(cfg, p, es).Some?
    ensures Drive(cfg, p, es[..n]).Some?
    decreases |es|
  {
    if n < |es| {
      DrivePrefix(cfg, p, es[..|es| - 1], n);
      assert es[..|es| - 1][..n] == es[..n];
    } else {
      assert es[..n] == es;
    }
  }

  /** The process stands at the call of event `n`, and goes on with its answer. */
  lemma StandStep(cfg: Cfg, p: Proc, es: seq<Event>, n: nat)
    requires n < |es| && Drive(cfg, p, es).Some?
    ensures
      var q := Stand(cfg, p, es, n);
      && Active(q) && es[n].req == Pending(cfg, q) && Fits(es[n].req, es[n].resp)
      && Stand(cfg, p, es, n + 1) == Resume(cfg, q, es[n].resp)
  {
    DrivePrefix(cfg, p, es, n + 1);
    assert es[..n + 1][..n] == es[..n];
  }

  lemma StandEnds(cfg: Cfg, p: Proc, es: seq<Event>)
    requires Drive(cfg, p, es).Some?
    ensures Stand(cfg, p, es, |es|) == Drive(cfg, p, es).value && Stand(cfg, p, es, 0) == p
  {
    assert es[..|es|] == es && es[..0] == [];
  }

  lemma StepStaysOut(site: Site, s: State, l: Label, t: State, j: Job)
    requires Step(site, s, l, t) && !Moves(l, j) && j in s.procs
    ensures j in t.procs && t.procs[j] == s.procs[j]
  {
  }

  lemma {:induction false} StaysOut(site: Site, gap: Segment, j: Job, n: nat)
    requires Execution(site, gap.states, gap.labels) && (forall l :: l in gap.labels ==> !Moves(l, j))
    requires j in gap.states[0].procs && n <= |gap.labels|
    ensures j in gap.states[n].procs && gap.states[n].procs[j] == gap.states[0].procs[j]
  {
    hide Step;
    if n > 0 {
      StaysOut(site, gap, j, n - 1);
      StepStaysOut(site, gap.states[n - 1], gap.labels[n - 1], gap.states[n], j);
    }
  }

  lemma {:induction false} AfterStands(site: Site, s: State, j: Job, start: Proc, act: Activity, n: nat)
    requires Acts(site, s, j, start, act) && n <= |act.events|
    ensures
      var t := After(site, s, j, start, act, n);
      j in t.procs && j in t.cancelled && t.procs[j] == Stand(site.CfgOf(j), start, act.events, n)
  {
    StandEnds(site.CfgOf(j), start, act.events);
    if n > 0 {
      assert Leads(site, After(site, s, j, start, act, n - 1), j, act.gaps[n - 1], act.trail[n - 1]);
    }
  }

  /** Once the gap before it is over, the answer to call `n` is a step of the system. */
  lemma AnswerIsStep(site: Site, s: State, j: Job, start: Proc, act: Activity, n: nat)
    requires Acts(site, s, j, start, act) && n < |act.events|
    ensures
      var u := End(act.gaps[n]);
      && j in u.procs && u.procs[j] == Stand(site.CfgOf(j), start, act.events, n)
      && Step(site, u, Reply(j, act.events[n].resp), After(site, s, j, start, act, n + 1))
  {
    hide Effect, Resume, Pending, Fits, Drive, Record;
    var gap := act.gaps[n];
    AfterStands(site, s, j, start, act, n);
    StaysOut(site, gap, j, |gap.labels|);
    StandStep(site.CfgOf(j), start, act.events, n);
    assert Effect(act.trail[n].cancelled, act.events[n].req, act.events[n].resp, act.trail[n].pre, act.trail[n].post);
  }

  // ----- putting stretches together -----

  lemma Join(site: Site, a: Segment, b: Segment, j: Job) returns (c: Segment)
    requires Execution(site, a.states, a.labels) && Execution(site, b.states, b.labels) && End(a) == b.states[0]
    ensures Execution(site, c.states, c.labels) && c.labels == a.labels + b.labels
    ensures c.states == a.states + b.states[1..] && End(c) == End(b)
    ensures OwnMoves(c.labels, j) == OwnMoves(a.labels, j) + OwnMoves(b.labels, j)
  {
    hide Step;
    c := Stretch(a.states + b.states[1..], a.labels + b.labels);
    forall i {:trigger c.labels[i]} | 0 <= i < |c.labels|
      ensures Step(site, c.states[i], c.labels[i], c.states[i + 1])
    {
      if i < |a.labels| {
        assert c.labels[i] == a.labels[i];
      } else {
        assert c.labels[i] == b.labels[i - |a.labels|];
      }
    }
    OwnMovesJoin(a.labels, b.labels, j);
  }

  lemma {:induction false} OwnMovesJoin(a: seq<Label>, b: seq<Label>, j: Job)
    ensures OwnMoves(a + b, j) == OwnMoves(a, j) + OwnMoves(b, j)
    decreases |b|
  {
    if b == [] {
      assert a + b == a;
    } else {
      OwnMovesJoin(a, b[..|b| - 1], j);
      assert (a + b)[..|a + b| - 1] == a + b[..|b| - 1];
    }
  }

  lemma {:induction false} NoOwnMoves(labels: seq<Label>, j: Job)
    requires forall l :: l in labels ==> !Moves(l, j)
    ensures OwnMoves(labels, j) == []
    decreases |labels|
  {
    if labels != [] {
      NoOwnMoves(labels[..|labels| - 1], j);
    }
  }

  lemma Single(site: Site, s: State, l: Label, t: State, j: Job) returns (run: Segment)
    requires Step(site, s, l, t) && Moves(l, j)
    ensures run == Stretch([s, t], [l]) && Execution(site, run.states, run.labels) && OwnMoves(run.labels, j) == [l]
  {
    run := Stretch([s, t], [l]);
    assert OwnMoves([l][..0], j) == [];
  }

  /** One more turn: the gap, then the answer. */
  lemma OneMore(site: Site, run: Segment, gap: Segment, l: Label, t: State, j: Job) returns (more: Segment)
    requires Execution(site, run.states, run.labels) && Execution(site, gap.states, gap.labels) && End(run) == gap.states[0]
    requires (forall m :: m in gap.labels ==> !Moves(m, j)) && Moves(l, j) && Step(site, End(gap), l, t)
    ensures Execution(site, more.states, more.labels) && more.states[0] == run.states[0] && End(more) == t
    ensures OwnMoves(more.labels, j) == OwnMoves(run.labels, j) + [l]
  {
    hide Step, Execution, OwnMoves, Moves;
    NoOwnMoves(gap.labels, j);
    more := Join(site, run, gap, j);
    var last := Single(site, End(gap), l, t, j);
    more := Join(site, more, last, j);
  }

  lemma ActsShape(site: Site, s: State, j: Job, start: Proc, act: Activity)
    requires Acts(site, s, j, start, act)
    ensures j in site.paths && |act.events| == |act.trail| == |act.gaps|
    ensures After(site, s, j, start, act, 0) == s
  {
  }

  lemma GapIsExecution(site: Site, s: State, j: Job, start: Proc, act: Activity, i: nat)
    requires Acts(site, s, j, start, act) && i < |act.gaps|
    ensures Execution(site, act.gaps[i].states, act.gaps[i].labels)
    ensures act.gaps[i].states[0] == After(site, s, j, start, act, i)
    ensures forall l :: l in act.gaps[i].labels ==> !Moves(l, j)
  {
    assert Leads(site, After(site, s, j, start, act, i), j, act.gaps[i], act.trail[i]);
  }

  /**
    Whatever a process of job `j` does, with whatever goes on between its calls: the gaps and the answers
    make up an execution of the interleaved system, in which the process makes exactly the moves
    that answer its calls.
   */
  lemma {:induction false} CommandIsExecution(site: Site, s: State, j: Job, start: Proc, act: Activity, n: nat)
      returns (run: Segment)
    requires Acts(site, s, j, start, act) && n <= |act.events|
    ensures Execution(site, run.states, run.labels) && run.states[0] == s
    ensures End(run) == After(site, s, j, start, act, n)
    ensures OwnMoves(run.labels, j) == Replies(j, act.events[..n])
  {
    hide Step, Execution, OwnMoves, Acts, After;
    ActsShape(site, s, j, start, act);
    if n == 0 {
      run := Stretch([s], []);
      Alone(site, s, j);
    } else {
      var rest := CommandIsExecution(site, s, j, start, act, n - 1);
      GapIsExecution(site, s, j, start, act, n - 1);
      AnswerIsStep(site, s, j, start, act, n - 1);
      run := OneMore(site, rest, act.gaps[n - 1], Reply(j, act.events[n - 1].resp), After(site, s, j, start, act, n), j);
      assert Replies(j, act.events[..n]) == Replies(j, act.events[..n - 1]) + [Reply(j, act.events[n - 1].resp)];
    }
  }

  lemma Alone(site: Site, s: State, j: Job)
    ensures Execution(site, [s], []) && OwnMoves([], j) == []
  {
  }

  // ----- from steps to events -----

  lemma AfterSame(site: Site, s: State, j: Job, start: Proc, act: Activity, more: Activity, n: nat)
    requires j in site.paths && n <= |act.events| == |act.trail| == |act.gaps| && |more.events| == |more.trail| == |more.gaps|
    requires act.events <= more.events && act.trail <= more.trail && act.gaps <= more.gaps
    ensures After(site, s, j, start, act, n) == After(site, s, j, start, more, n)
  {
    assert act.events[..n] == more.events[..n];
    if n > 0 {
      assert act.events[..n - 1] == more.events[..n - 1];
    }
  }

  function Turned(act: Activity, e: Event, around: Around, gap: Segment): Activity {
    Activity(act.events + [e], act.trail + [around], act.gaps + [gap])
  }

  /** Until its next move the process stands where its events have brought it. */
  lemma RestStands(site: Site, s: State, j: Job, start: Proc, act: Activity, rest: Segment)
    requires Acts(site, s, j, start, act) && Execution(site, rest.states, rest.labels)
    requires rest.states[0] == After(site, s, j, start, act, |act.events|)
    requires forall l :: l in rest.labels ==> !Moves(l, j)
    ensures j in End(rest).procs && Some(End(rest).procs[j]) == Drive(site.CfgOf(j), start, act.events)
  {
    AfterStands(site, s, j, start, act, |act.events|);
    StaysOut(site, rest, j, |rest.labels|);
    StandEnds(site.CfgOf(j), start, act.events);
  }

  /** What it means that the next own move, after `gap`, answers the pending call with `r`. */
  lemma ReplyAnswers(site: Site, s: State, j: Job, start: Proc, act: Activity, gap: Segment, r: Response, t: State)
    requires Acts(site, s, j, start, act)
    requires Execution(site, gap.states, gap.labels) && gap.states[0] == After(site, s, j, start, act, |act.events|)
    requires (forall l :: l in gap.labels ==> !Moves(l, j)) && Step(site, End(gap), Reply(j, r), t)
    ensures
      var u, cfg := End(gap), site.CfgOf(j);
      && j in u.procs && j in u.cancelled && Some(u.procs[j]) == Drive(cfg, start, act.events)
      && Active(u.procs[j]) && Fits(Pending(cfg, u.procs[j]), r)
      && Effect(u.cancelled[j], Pending(cfg, u.procs[j]), r, u.shared, t.shared)
      && t == State(t.shared, u.procs[j := Resume(cfg, u.procs[j], r)], u.cancelled, Record(u.launched, j, u.procs[j], t.shared.tasks))
  {
    hide Effect, Resume, Pending, Fits, Record;
    RestStands(site, s, j, start, act, gap);
  }

  /** The process answers one more call, after `gap`. */
  lemma TurnActs(site: Site, s: State, j: Job, start: Proc, act: Activity, gap: Segment, r: Response, t: State)
      returns (more: Activity)
    requires Acts(site, s, j, start, act)
    requires Execution(site, gap.states, gap.labels) && gap.states[0] == After(site, s, j, start, act, |act.events|)
    requires (forall l :: l in gap.labels ==> !Moves(l, j)) && Step(site, End(gap), Reply(j, r), t)
    ensures Acts(site, s, j, start, more) && |more.events| == |act.events| + 1
    ensures t == After(site, s, j, start, more, |more.events|)
    ensures Replies(j, more.events) == Replies(j, act.events) + [Reply(j, r)]
  {
    hide Effect, Resume, Pending, Fits, Record, Step, Execution, Interleaved, Possible, Drive, Stand;
    ReplyAnswers(site, s, j, start, act, gap, r, t);
    var u, cfg := End(gap), site.CfgOf(j);
    var e, around := Event(Pending(cfg, u.procs[j]), r), Around(u.shared, u.cancelled[j], t.shared);
    more := Turned(act, e, around, gap);
    ActsShape(site, s, j, start, act);
    TurnInterleaves(site, s, j, start, act, e, around, gap);
    TurnIsPossible(act.events, act.trail, e, around);
    TurnDrives(cfg, start, act.events, e);
  }

  lemma TurnIsPossible(es: seq<Event>, trail: seq<Around>, e: Event, around: Around)
    requires Possible(es, trail) && Effect(around.cancelled, e.req, e.resp, around.pre, around.post)
    ensures Possible(es + [e], trail + [around])
  {
    hide Effect;
    assert forall i {:trigger es[i]} :: 0 <= i < |es| ==> (es + [e])[i] == es[i];
  }

  lemma TurnDrives(cfg: Cfg, start: Proc, es: seq<Event>, e: Event)
    requires Drive(cfg, start, es).Some?
    requires var q := Drive(cfg, start, es).value; Active(q) && e.req == Pending(cfg, q) && Fits(e.req, e.resp)
    ensures Drive(cfg, start, es + [e]) == Some(Resume(cfg, Drive(cfg, start, es).value, e.resp))
    ensures Stand(cfg, start, es + [e], |es|) == Drive(cfg, start, es).value
    ensures Stand(cfg, start, es + [e], |es| + 1) == Resume(cfg, Drive(cfg, start, es).value, e.resp)
  {
    hide Resume, Pending, Fits;
    assert (es + [e])[..|es|] == es && (es + [e])[..|es| + 1] == es + [e];
  }

  lemma TurnInterleaves(site: Site, s: State, j: Job, start: Proc, act: Activity, e: Event, around: Around, gap: Segment)
    requires j in site.paths && Interleaved(site, s, j, start, act)
    requires Leads(site, After(site, s, j, start, act, |act.events|), j, gap, around)
    ensures Interleaved(site, s, j, start, Turned(act, e, around, gap))
  {
    hide After, Leads;
    var more := Turned(act, e, around, gap);
    forall i {:trigger more.gaps[i]} | 0 <= i < |more.gaps|
      ensures Leads(site, After(site, s, j, start, more, i), j, more.gaps[i], more.trail[i])
    {
      AfterSame(site, s, j, start, act, more, i);
      if i < |act.gaps| {
        assert Leads(site, After(site, s, j, start, act, i), j, act.gaps[i], act.trail[i]);
      }
    }
  }

  /**
    Nothing else happens in the system: every execution in which the process of `j` only has its calls
    answered comes from such an activity, followed by what the others do in the end.
   */
  lemma {:induction false} ExecutionIsCommand(site: Site, run: Segment, j: Job, start: Proc)
      returns (act: Activity, rest: Segment)
    requires Execution(site, run.states, run.labels) && j in site.paths
    requires var s := run.states[0]; j in s.procs && j in s.cancelled && s.procs[j] == start
    requires forall l :: l in run.labels && Moves(l, j) ==> l.Reply?
    ensures Acts(site, run.states[0], j, start, act)
    ensures OwnMoves(run.labels, j) == Replies(j, act.events)
    ensures Execution(site, rest.states, rest.labels) && (forall l :: l in rest.labels ==> !Moves(l, j))
    ensures rest.states[0] == After(site, run.states[0], j, start, act, |act.events|) && End(rest) == End(run)
    decreases |run.labels|
  {
    hide Step, Acts, After, Moves;
    var n := |run.labels|;
    if n == 0 {
      act, rest := Activity([], [], []), run;
      NothingActs(site, run.states[0], j, start);
    } else {
      var front: Segment := Stretch(run.states[..n], run.labels[..n - 1]);
      FrontIsExecution(site, run);
      var l, t := run.labels[n - 1], run.states[n];
      act, rest := ExecutionIsCommand(site, front, j, start);
      if Moves(l, j) {
        OwnReply(l, j);
        act := TurnActs(site, run.states[0], j, start, act, rest, l.resp, t);
        rest := Stretch([t], []);
      } else {
        rest := Join(site, rest, Stretch([End(front), t], [l]), j);
      }
    }
  }

  lemma OwnReply(l: Label, j: Job)
    requires Moves(l, j) && l.Reply?
    ensures l == Reply(j, l.resp)
  {
  }

  lemma FrontIsExecution(site: Site, run: Segment)
    requires Execution(site, run.states, run.labels) && run.labels != []
    ensures var n := |run.labels|;
      && Execution(site, run.states[..n], run.labels[..n - 1])
      && Execution(site, [run.states[n - 1], run.states[n]], [run.labels[n - 1]])
      && Step(site, run.states[n - 1], run.labels[n - 1], run.states[n])
  {
    hide Step;
    var n := |run.labels|;
    forall i {:trigger run.labels[..n - 1][i]} | 0 <= i < n - 1
      ensures Step(site, run.states[..n][i], run.labels[..n - 1][i], run.states[..n][i + 1])
    {
      assert Step(site, run.states[i], run.labels[i], run.states[i + 1]);
    }
  }

  lemma NothingActs(site: Site, s: State, j: Job, start: Proc)
    requires j in site.paths && j in s.procs && j in s.cancelled && s.procs[j] == start
    ensures Acts(site, s, j, start, Activity([], [], [])) && After(site, s, j, start, Activity([], [], []), 0) == s
  {
  }
}
