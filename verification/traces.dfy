/**
  The complete runs of the three stages, written out: which calls are made, with what from the earlier answers,
  and which error is returned. The automata make exactly these runs.
 */
module Traces {
  import opened Options
  import opened Errors
  import opened Protocol

  /** What is wrong with an answer, if anything: a failure, a file that is not there, or contents that are no record. */
  function Fault(codec: Codec, e: Event): Option<Error> {
    match e.resp
    case Fail(err) => Some(err)
    case RunFailed(_, err) => Some(err)
    case Found(there) => if there then None else Some([Leaf(NotExist)])
    case Content(bytes) => if e.req.ReadFile? && codec.decode(bytes).None? then Some([Leaf(NotDecodable)]) else None
    case _ => None
  }

  /** The answers are of the right kind, and nothing was wrong with any but the last. */
  ghost predicate Regular(codec: Codec, es: seq<Event>) {
    && (forall i {:trigger es[i]} :: 0 <= i < |es| ==> Fits(es[i].req, es[i].resp))
    && (forall i {:trigger es[i]} :: 0 <= i < |es| - 1 ==> Fault(codec, es[i]) == None)
  }

  function LastFault(codec: Codec, es: seq<Event>): Option<Error> {
    if es == [] then None else Fault(codec, es[|es| - 1])
  }

  lemma RegularGrows(codec: Codec, front: seq<Event>, e: Event)
    ensures Regular(codec, front + [e]) <==> Regular(codec, front) && LastFault(codec, front) == None && Fits(e.req, e.resp)
    ensures LastFault(codec, front + [e]) == Fault(codec, e)
  {
    hide Fits, Fault;
    var es := front + [e];
    assert forall i {:trigger front[i]} :: 0 <= i < |front| ==> es[i] == front[i];
    assert es[|front|] == e;
    if Regular(codec, es) {
      assert forall i {:trigger front[i]} :: 0 <= i < |front| ==> Fits(front[i].req, front[i].resp) && Fault(codec, front[i]) == None;
    }
  }

  lemma DriveLast(cfg: Cfg, start: Proc, front: seq<Event>, e: Event)
    ensures Drive(cfg, start, front + [e]) ==
      match Drive(cfg, start, front)
      case None => None
      case Some(q) =>
        if Active(q) && e.req == Pending(cfg, q) && Fits(e.req, e.resp) then Some(Resume(cfg, q, e.resp)) else None
  {
    hide Active, Pending, Fits, Resume;
    assert (front + [e])[..|front|] == front;
  }

  // ----- run -----

  /** Read the script, check for the record, read it, and send that script to the address in the record, with the key in it. */
  ghost predicate RunCalls(cfg: Cfg, script: Path, es: seq<Event>) {
    && |es| <= 4 && Regular(cfg.codec, es)
    && (|es| > 0 ==> es[0].req == ReadScript(script))
    && (|es| > 1 ==> es[1].req == Exists(cfg.path))
    && (|es| > 2 ==> es[2].req == ReadFile(cfg.path))
    && (|es| > 3 ==>
          && es[0].resp.Content? && es[2].resp.Content? && cfg.codec.decode(es[2].resp.bytes).Some?
          && var d := cfg.codec.decode(es[2].resp.bytes).value;
             es[3].req == Ssh(d.ip, if cfg.port >= 1 then cfg.port else 22, cfg.user, d.key, es[0].resp.bytes))
  }

  function RunContext(calls: nat): Context {
    if calls == 1 then ReadingScript else if calls == 4 then ExecutingRemotely else ObtainingTask
  }

  /** Where run stands after these calls. */
  ghost predicate RunAt(cfg: Cfg, script: Path, es: seq<Event>, p: Proc) {
    var fault := LastFault(cfg.codec, es);
    if fault.Some? then p.Done? && p.stage == Run && Blames(p.err, RunContext(|es|), fault.value)
    else if |es| == 0 then p == RScript(script)
    else if |es| == 1 then es[0].resp.Content? && p == RExists(es[0].resp.bytes)
    else if |es| == 2 then es[0].resp.Content? && p == RRead(es[0].resp.bytes)
    else if |es| == 3 then
      es[0].resp.Content? && es[2].resp.Content? && cfg.codec.decode(es[2].resp.bytes).Some?
      && p == RSsh(cfg.codec.decode(es[2].resp.bytes).value, es[0].resp.bytes)
    else p == Done(Run, NIL)
  }

  lemma RunGoesOn(cfg: Cfg, script: Path, front: seq<Event>, q: Proc, e: Event)
    requires RunCalls(cfg, script, front) && RunAt(cfg, script, front, q)
    ensures RunCalls(cfg, script, front + [e]) <==> Active(q) && e.req == Pending(cfg, q) && Fits(e.req, e.resp)
    ensures RunCalls(cfg, script, front + [e]) ==> RunAt(cfg, script, front + [e], Resume(cfg, q, e.resp))
  {
    hide Regular, Blames, Wrap;
    RegularGrows(cfg.codec, front, e);
    BlameLaws();
  }

  lemma RunFront(cfg: Cfg, script: Path, front: seq<Event>, e: Event)
    requires RunCalls(cfg, script, front + [e])
    ensures RunCalls(cfg, script, front)
  {
    RegularGrows(cfg.codec, front, e);
  }

  /**
    The run stage makes exactly these calls, and its error says what was wrong with the last one: it succeeds
    exactly when it has made all four and nothing was wrong.
   */
  lemma {:induction false} RunMakes(cfg: Cfg, script: Path, es: seq<Event>)
    ensures Drive(cfg, RScript(script), es).Some? <==> RunCalls(cfg, script, es)
    ensures RunCalls(cfg, script, es) ==> RunAt(cfg, script, es, Drive(cfg, RScript(script), es).value)
    decreases |es|
  {
    hide RunCalls, RunAt, Resume, Pending, Fits;
    if es == [] {
      NothingRun(cfg, script);
    } else {
      var front, e := es[..|es| - 1], es[|es| - 1];
      assert es == front + [e];
      RunMakes(cfg, script, front);
      DriveLast(cfg, RScript(script), front, e);
      if RunCalls(cfg, script, front) {
        RunGoesOn(cfg, script, front, Drive(cfg, RScript(script), front).value, e);
      } else if RunCalls(cfg, script, es) {
        RunFront(cfg, script, front, e);
      }
    }
  }

  /** Whatever is sent over SSH is the script that was read first, to where the record that was read says. */
  lemma ScriptIsSent(cfg: Cfg, script: Path, es: seq<Event>, k: nat)
    requires Drive(cfg, RScript(script), es).Some? && k < |es| && es[k].req.Ssh?
    ensures k == 3 && es[0] == Event(ReadScript(script), Content(es[k].req.script))
    ensures es[2].resp.Content? && cfg.codec.decode(es[2].resp.bytes).Some?
    ensures cfg.codec.decode(es[2].resp.bytes).value.ip == es[k].req.host
    ensures cfg.codec.decode(es[2].resp.bytes).value.key == es[k].req.key
  {
    hide Drive;
    RunMakes(cfg, script, es);
  }

  /** Run succeeds exactly when all four calls were made and the last, the connection, reported success. */
  lemma RunSucceeds(cfg: Cfg, script: Path, es: seq<Event>, err: Error)
    requires Drive(cfg, RScript(script), es) == Some(Done(Run, err))
    ensures err == NIL <==> |es| == 4 && es[3].req.Ssh? && es[3].resp == Ok
    ensures err != NIL ==> LastFault(cfg.codec, es).Some? && Blames(err, RunContext(|es|), LastFault(cfg.codec, es).value)
  {
    hide Drive;
    RunMakes(cfg, script, es);
  }

  lemma NothingRun(cfg: Cfg, script: Path)
    ensures RunCalls(cfg, script, []) && RunAt(cfg, script, [], RScript(script))
  {
  }

  // ----- cleanup -----

  /** Check for the record, read it, stop the task in it, check for the record again, and remove it. */
  ghost predicate CleanupCalls(cfg: Cfg, es: seq<Event>) {
    && |es| <= 6 && Regular(cfg.codec, es)
    && (|es| > 0 ==> es[0].req == InitFargate)
    && (|es| > 1 ==> es[1].req == Exists(cfg.path))
    && (|es| > 2 ==> es[2].req == ReadFile(cfg.path))
    && (|es| > 3 ==>
          && es[2].resp.Content? && cfg.codec.decode(es[2].resp.bytes).Some?
          && es[3].req == StopTask(cfg.codec.decode(es[2].resp.bytes).value.arn))
    && (|es| > 4 ==> es[4].req == Exists(cfg.path))
    && (|es| > 5 ==> es[5].req == Remove(cfg.path))
  }

  function CleanupContext(calls: nat): Context {
    if calls == 1 then InitializingCleanup
    else if calls <= 3 then ObtainingTask
    else if calls == 4 then StoppingTask
    else DeletingMetadata
  }

  /** Where cleanup stands after these calls. */
  ghost predicate CleanupAt(cfg: Cfg, es: seq<Event>, p: Proc) {
    var fault := LastFault(cfg.codec, es);
    if fault.Some? then p.Done? && p.stage == Cleanup && Blames(p.err, CleanupContext(|es|), fault.value)
    else if |es| == 0 then p == CInit
    else if |es| == 1 then p == CExists
    else if |es| == 2 then p == CRead
    else if |es| == 6 then p == Done(Cleanup, NIL)
    else
      && es[2].resp.Content? && cfg.codec.decode(es[2].resp.bytes).Some?
      && var a := cfg.codec.decode(es[2].resp.bytes).value.arn;
         p == (if |es| == 3 then CStop(a) else if |es| == 4 then CClear(a) else CRemove(a))
  }

  lemma ReadGoesOn(cfg: Cfg, front: seq<Event>, q: Proc, e: Event)
    requires |front| <= 2 && CleanupCalls(cfg, front) && CleanupAt(cfg, front, q)
    ensures CleanupCalls(cfg, front + [e]) <==> Active(q) && e.req == Pending(cfg, q) && Fits(e.req, e.resp)
    ensures CleanupCalls(cfg, front + [e]) ==> CleanupAt(cfg, front + [e], Resume(cfg, q, e.resp))
  {
    hide Regular, Blames, Wrap;
    RegularGrows(cfg.codec, front, e);
    BlameLaws();
  }

  lemma StopAndRemoveGoesOn(cfg: Cfg, front: seq<Event>, q: Proc, e: Event)
    requires 3 <= |front| && CleanupCalls(cfg, front) && CleanupAt(cfg, front, q)
    ensures CleanupCalls(cfg, front + [e]) <==> Active(q) && e.req == Pending(cfg, q) && Fits(e.req, e.resp)
    ensures CleanupCalls(cfg, front + [e]) ==> CleanupAt(cfg, front + [e], Resume(cfg, q, e.resp))
  {
    hide Regular, Blames, Wrap;
    RegularGrows(cfg.codec, front, e);
    BlameLaws();
  }

  lemma CleanupGoesOn(cfg: Cfg, front: seq<Event>, q: Proc, e: Event)
    requires CleanupCalls(cfg, front) && CleanupAt(cfg, front, q)
    ensures CleanupCalls(cfg, front + [e]) <==> Active(q) && e.req == Pending(cfg, q) && Fits(e.req, e.resp)
    ensures CleanupCalls(cfg, front + [e]) ==> CleanupAt(cfg, front + [e], Resume(cfg, q, e.resp))
  {
    hide CleanupCalls, CleanupAt, Pending, Resume, Fits, Active;
    if |front| <= 2 {
      ReadGoesOn(cfg, front, q, e);
    } else {
      StopAndRemoveGoesOn(cfg, front, q, e);
    }
  }

  lemma CleanupFront(cfg: Cfg, front: seq<Event>, e: Event)
    requires CleanupCalls(cfg, front + [e])
    ensures CleanupCalls(cfg, front)
  {
    RegularGrows(cfg.codec, front, e);
  }

  /** The cleanup stage makes exactly these calls; it succeeds exactly when it has made all six and nothing was wrong. */
  lemma {:induction false} CleanupMakes(cfg: Cfg, es: seq<Event>)
    ensures Drive(cfg, CInit, es).Some? <==> CleanupCalls(cfg, es)
    ensures CleanupCalls(cfg, es) ==> CleanupAt(cfg, es, Drive(cfg, CInit, es).value)
    decreases |es|
  {
    hide CleanupCalls, CleanupAt, Resume, Pending, Fits;
    if es == [] {
      NothingCleaned(cfg);
    } else {
      var front, e := es[..|es| - 1], es[|es| - 1];
      assert es == front + [e];
      CleanupMakes(cfg, front);
      DriveLast(cfg, CInit, front, e);
      if CleanupCalls(cfg, front) {
        CleanupGoesOn(cfg, front, Drive(cfg, CInit, front).value, e);
      } else if CleanupCalls(cfg, es) {
        CleanupFront(cfg, front, e);
      }
    }
  }

  /** Cleanup succeeds exactly when all six calls were made and the last, the removal, succeeded. */
  lemma CleanupSucceeds(cfg: Cfg, es: seq<Event>, err: Error)
    requires Drive(cfg, CInit, es) == Some(Done(Cleanup, err))
    ensures err == NIL <==> |es| == 6 && es[5].req == Remove(cfg.path) && es[5].resp == Ok
    ensures |es| == 6 ==> es[3].resp == Ok
    ensures err != NIL ==> LastFault(cfg.codec, es).Some? && Blames(err, CleanupContext(|es|), LastFault(cfg.codec, es).value)
  {
    hide Drive;
    CleanupMakes(cfg, es);
  }

  lemma NothingCleaned(cfg: Cfg)
    ensures CleanupCalls(cfg, []) && CleanupAt(cfg, [], CInit)
  {
  }

  // ----- prepare -----

  /** The ARN that the launch yielded, with or without an error. */
  function ArnOf(es: seq<Event>): Arn {
    if |es| > 2 && (es[2].resp.Started? || es[2].resp.RunFailed?) then es[2].resp.arn else ""
  }

  /** The first three calls: session, key pair, and the launch with its public half. */
  ghost predicate LaunchCalls(es: seq<Event>) {
    && (|es| > 0 ==> es[0].req == InitFargate)
    && (|es| > 1 ==> es[1].req == CreateKey)
    && (|es| > 2 ==> es[1].resp.Key? && es[2].req == RunTask(es[1].resp.pair.pub))
  }

  /** Then: the record without an address, the wait, the address, and the record with it. */
  ghost predicate RecordCalls(cfg: Cfg, es: seq<Event>)
    requires |es| > 3 ==> es[1].resp.Key?
  {
    && (|es| > 3 ==>
          && es[2].resp.Started? && cfg.codec.encode(Data(es[2].resp.arn, "", es[1].resp.pair.priv)).Some?
          && es[3].req == WriteFile(cfg.path, cfg.codec.encode(Data(es[2].resp.arn, "", es[1].resp.pair.priv)).value))
    && (|es| > 4 ==> es[4].req == WaitRunning(es[2].resp.arn))
    && (|es| > 5 ==> es[5].req == GetIP(es[2].resp.arn))
    && (|es| > 6 ==>
          && es[5].resp.Ip? && cfg.codec.encode(Data(es[2].resp.arn, es[5].resp.ip, es[1].resp.pair.priv)).Some?
          && es[6].req == WriteFile(cfg.path, cfg.codec.encode(Data(es[2].resp.arn, es[5].resp.ip, es[1].resp.pair.priv)).value))
  }

  /** The calls of prepare, without a compensating StopTask. */
  ghost predicate PrepareCalls(cfg: Cfg, es: seq<Event>) {
    |es| <= 7 && Regular(cfg.codec, es) && LaunchCalls(es) && RecordCalls(cfg, es)
  }

  /** What is wrong after these calls: with the last answer, or that the record to be written next cannot be encoded. */
  function PrepareFault(cfg: Cfg, es: seq<Event>): Option<Error> {
    if LastFault(cfg.codec, es).Some? then LastFault(cfg.codec, es)
    else if |es| == 3 && es[1].resp.Key? && es[2].resp.Started? && cfg.codec.encode(Data(es[2].resp.arn, "", es[1].resp.pair.priv)).None?
      then Some([Leaf(NotEncodable)])
    else if |es| == 6 && es[1].resp.Key? && es[2].resp.Started? && es[5].resp.Ip?
            && cfg.codec.encode(Data(es[2].resp.arn, es[5].resp.ip, es[1].resp.pair.priv)).None?
      then Some([Leaf(NotEncodable)])
    else None
  }

  /** The step that failed, when the fault showed after so many calls. */
  function PrepareContext(cfg: Cfg, es: seq<Event>): Context {
    if LastFault(cfg.codec, es).Some? then
      (match |es|
       case 1 => InitializingPrepare
       case 2 => GeneratingKeys
       case 3 => StartingTask
       case 4 => PersistingArn
       case 7 => PersistingIp
       case _ => WaitingReady)
    else if |es| == 3 then PersistingArn
    else PersistingIp
  }

  /** Where prepare stands after these calls. */
  ghost predicate PrepareAt(cfg: Cfg, es: seq<Event>, p: Proc) {
    var fault := PrepareFault(cfg, es);
    if fault.Some? then
      if ArnOf(es) == "" then p.Done? && p.stage == Prepare && Blames(p.err, PrepareContext(cfg, es), fault.value)
      else p.PStop? && p.arn == ArnOf(es) && Blames(p.err, PrepareContext(cfg, es), fault.value)
    else if |es| == 0 then p == PInit
    else if |es| == 1 then p == PKey
    else if |es| == 2 then es[1].resp.Key? && p == PLaunch(es[1].resp.pair)
    else if |es| == 7 then p == Done(Prepare, NIL)
    else es[1].resp.Key? && es[2].resp.Started? && Between(cfg, es, es[1].resp.pair, es[2].resp.arn, p)
  }

  ghost predicate Between(cfg: Cfg, es: seq<Event>, pair: KeyPair, a: Arn, p: Proc) {
    if |es| == 3 then p.PRecord? && p == PRecord(pair, a, p.bytes) && cfg.codec.encode(Data(a, "", pair.priv)) == Some(p.bytes)
    else if |es| == 4 then p == PWait(pair, a)
    else if |es| == 5 then p == PAddress(pair, a)
    else
      && |es| == 6 && es[5].resp.Ip? && p.PRerecord? && p == PRerecord(pair, a, es[5].resp.ip, p.bytes)
      && cfg.codec.encode(Data(a, es[5].resp.ip, pair.priv)) == Some(p.bytes)
  }

  lemma LaunchGoesOn(cfg: Cfg, front: seq<Event>, q: Proc, e: Event)
    requires |front| <= 2 && PrepareCalls(cfg, front) && PrepareAt(cfg, front, q) && !q.PStop?
    ensures PrepareCalls(cfg, front + [e]) && PrepareFault(cfg, front).None? <==> Active(q) && e.req == Pending(cfg, q) && Fits(e.req, e.resp)
    ensures PrepareCalls(cfg, front + [e]) && PrepareFault(cfg, front).None? ==> PrepareAt(cfg, front + [e], Resume(cfg, q, e.resp))
  {
    hide Regular, Blames, Wrap;
    RegularGrows(cfg.codec, front, e);
    BlameLaws();
  }

  lemma FirstRecordGoesOn(cfg: Cfg, front: seq<Event>, q: Proc, e: Event)
    requires 3 <= |front| <= 4 && PrepareCalls(cfg, front) && PrepareAt(cfg, front, q) && !q.PStop?
    ensures PrepareCalls(cfg, front + [e]) && PrepareFault(cfg, front).None? <==> Active(q) && e.req == Pending(cfg, q) && Fits(e.req, e.resp)
    ensures PrepareCalls(cfg, front + [e]) && PrepareFault(cfg, front).None? ==> PrepareAt(cfg, front + [e], Resume(cfg, q, e.resp))
  {
    hide Regular, Blames, Wrap;
    RegularGrows(cfg.codec, front, e);
    BlameLaws();
  }

  lemma AddressGoesOn(cfg: Cfg, front: seq<Event>, q: Proc, e: Event)
    requires |front| == 5 && PrepareCalls(cfg, front) && PrepareAt(cfg, front, q) && !q.PStop?
    ensures PrepareCalls(cfg, front + [e]) && PrepareFault(cfg, front).None? <==> Active(q) && e.req == Pending(cfg, q) && Fits(e.req, e.resp)
    ensures PrepareCalls(cfg, front + [e]) && PrepareFault(cfg, front).None? ==> PrepareAt(cfg, front + [e], Resume(cfg, q, e.resp))
  {
    hide Regular, Blames, Wrap;
    RegularGrows(cfg.codec, front, e);
    BlameLaws();
  }

  lemma SecondRecordGoesOn(cfg: Cfg, front: seq<Event>, q: Proc, e: Event)
    requires 6 <= |front| && PrepareCalls(cfg, front) && PrepareAt(cfg, front, q) && !q.PStop?
    ensures PrepareCalls(cfg, front + [e]) && PrepareFault(cfg, front).None? <==> Active(q) && e.req == Pending(cfg, q) && Fits(e.req, e.resp)
    ensures PrepareCalls(cfg, front + [e]) && PrepareFault(cfg, front).None? ==> PrepareAt(cfg, front + [e], Resume(cfg, q, e.resp))
  {
    hide Regular, Blames, Wrap;
    RegularGrows(cfg.codec, front, e);
    BlameLaws();
  }

  /** After a fault, when an ARN is known: StopTask with it, and nothing after that. */
  ghost predicate StoppedAfter(cfg: Cfg, es: seq<Event>) {
    && es != []
    && var front, e := es[..|es| - 1], es[|es| - 1];
       && PrepareCalls(cfg, front) && PrepareFault(cfg, front).Some? && ArnOf(front) != ""
       && e.req == StopTask(ArnOf(front)) && Fits(e.req, e.resp)
  }

  lemma StopGoesOn(cfg: Cfg, front: seq<Event>, q: Proc, e: Event)
    requires PrepareCalls(cfg, front) && PrepareAt(cfg, front, q) && PrepareFault(cfg, front).Some?
    ensures StoppedAfter(cfg, front + [e]) <==> Active(q) && e.req == Pending(cfg, q) && Fits(e.req, e.resp)
    ensures StoppedAfter(cfg, front + [e]) ==>
      Resume(cfg, q, e.resp) == Done(Prepare, q.err) && Blames(q.err, PrepareContext(cfg, front), PrepareFault(cfg, front).value)
  {
    hide PrepareCalls, PrepareFault, PrepareContext, Blames, ArnOf;
    assert (front + [e])[..|front|] == front;
  }

  lemma PrepareFront(cfg: Cfg, front: seq<Event>, e: Event)
    requires PrepareCalls(cfg, front + [e])
    ensures PrepareCalls(cfg, front) && PrepareFault(cfg, front).None? && !e.req.StopTask?
  {
    RegularGrows(cfg.codec, front, e);
  }

  lemma StopIsLast(cfg: Cfg, es: seq<Event>)
    requires StoppedAfter(cfg, es)
    ensures !PrepareCalls(cfg, es)
  {
    var front, e := es[..|es| - 1], es[|es| - 1];
    assert es == front + [e];
    if PrepareCalls(cfg, es) {
      PrepareFront(cfg, front, e);
    }
  }

  /** Where prepare stands after all its calls, the compensating one included. */
  ghost predicate PrepareStands(cfg: Cfg, es: seq<Event>, p: Proc) {
    if StoppedAfter(cfg, es) then
      var front := es[..|es| - 1];
      p.Done? && p.stage == Prepare && Blames(p.err, PrepareContext(cfg, front), PrepareFault(cfg, front).value)
    else PrepareAt(cfg, es, p)
  }

  lemma PrepareGoesOn(cfg: Cfg, front: seq<Event>, q: Proc, e: Event)
    requires PrepareCalls(cfg, front) && PrepareAt(cfg, front, q)
    ensures PrepareCalls(cfg, front + [e]) || StoppedAfter(cfg, front + [e])
      <==> Active(q) && e.req == Pending(cfg, q) && Fits(e.req, e.resp)
    ensures PrepareCalls(cfg, front + [e]) || StoppedAfter(cfg, front + [e]) ==> PrepareStands(cfg, front + [e], Resume(cfg, q, e.resp))
  {
    hide PrepareCalls, PrepareFault, PrepareContext, Blames, Pending, Resume, Fits;
    var es := front + [e];
    assert es[..|front|] == front;
    if PrepareFault(cfg, front).Some? {
      StopGoesOn(cfg, front, q, e);
      if PrepareCalls(cfg, es) {
        PrepareFront(cfg, front, e);
      }
    } else {
      NotStopping(cfg, front, q);
      if |front| <= 2 {
        LaunchGoesOn(cfg, front, q, e);
      } else if |front| <= 4 {
        FirstRecordGoesOn(cfg, front, q, e);
      } else if |front| == 5 {
        AddressGoesOn(cfg, front, q, e);
      } else {
        SecondRecordGoesOn(cfg, front, q, e);
      }
    }
  }

  lemma NotStopping(cfg: Cfg, es: seq<Event>, p: Proc)
    requires PrepareAt(cfg, es, p) && PrepareFault(cfg, es).None?
    ensures !p.PStop?
  {
  }

  /**
    The prepare stage makes exactly these calls. It succeeds exactly when it has made all seven and nothing was wrong. Otherwise
    its error names the step that failed and carries what was wrong with it, and if an ARN is known, the
    last call is a StopTask with it, whose own answer shows nowhere.
   */
  lemma {:induction false} PrepareMakes(cfg: Cfg, es: seq<Event>)
    ensures Drive(cfg, PInit, es).Some? <==> PrepareCalls(cfg, es) || StoppedAfter(cfg, es)
    ensures Drive(cfg, PInit, es).Some? ==> PrepareStands(cfg, es, Drive(cfg, PInit, es).value)
    decreases |es|
  {
    hide PrepareCalls, PrepareAt, PrepareStands, StoppedAfter, Resume, Pending, Fits, Active;
    if es == [] {
      NothingPrepared(cfg);
    } else {
      var front, e := es[..|es| - 1], es[|es| - 1];
      assert es == front + [e];
      PrepareMakes(cfg, front);
      DriveLast(cfg, PInit, front, e);
      if PrepareCalls(cfg, front) {
        NotStopped(cfg, front);
        PrepareGoesOn(cfg, front, Drive(cfg, PInit, front).value, e);
      } else {
        if StoppedAfter(cfg, front) {
          StopEnds(cfg, front, Drive(cfg, PInit, front).value);
        }
        if PrepareCalls(cfg, es) || StoppedAfter(cfg, es) {
          CallsComeFirst(cfg, front, e);
        }
      }
    }
  }

  lemma NotStopped(cfg: Cfg, es: seq<Event>)
    requires PrepareCalls(cfg, es)
    ensures !StoppedAfter(cfg, es)
    ensures forall p :: PrepareStands(cfg, es, p) ==> PrepareAt(cfg, es, p)
  {
    if StoppedAfter(cfg, es) {
      StopIsLast(cfg, es);
    }
  }

  lemma StopEnds(cfg: Cfg, es: seq<Event>, p: Proc)
    requires StoppedAfter(cfg, es) && PrepareStands(cfg, es, p)
    ensures !Active(p)
  {
  }

  lemma CallsComeFirst(cfg: Cfg, front: seq<Event>, e: Event)
    requires PrepareCalls(cfg, front + [e]) || StoppedAfter(cfg, front + [e])
    ensures PrepareCalls(cfg, front)
  {
    assert (front + [e])[..|front|] == front;
    if PrepareCalls(cfg, front + [e]) {
      PrepareFront(cfg, front, e);
    }
  }

  lemma NothingPrepared(cfg: Cfg)
    ensures PrepareCalls(cfg, []) && !StoppedAfter(cfg, []) && PrepareStands(cfg, [], PInit)
  {
  }
}
