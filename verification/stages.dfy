/** The metadata manager and the three stage commands, each against the automaton of its stage. */
module Stages {
  import opened Options
  import opened Errors
  import opened Protocol
  import opened Register
  import opened Outside

  // ----- runs of the automata, put together -----

  lemma DriveOne(cfg: Cfg, p: Proc, e: Event)
    requires Active(p) && e.req == Pending(cfg, p) && Fits(e.req, e.resp)
    ensures Drive(cfg, p, [e]) == Some(Resume(cfg, p, e.resp))
  {
    assert [e][..0] == [];
  }

  lemma {:induction false} DriveOn(cfg: Cfg, p: Proc, es: seq<Event>, q: Proc, fs: seq<Event>)
    requires Drive(cfg, p, es) == Some(q) && Drive(cfg, q, fs).Some?
    ensures Drive(cfg, p, es + fs) == Drive(cfg, q, fs)
    decreases |fs|
  {
    hide Resume, Pending, Fits;
    if fs == [] {
      assert es + fs == es;
    } else {
      var front := fs[..|fs| - 1];
      DriveOn(cfg, p, es, q, front);
      assert (es + fs)[..|es + fs| - 1] == es + front;
    }
  }

  /** The events since the log was `before`. */
  function Since(log: seq<Event>, before: seq<Event>): seq<Event>
    requires before <= log
  {
    log[|before|..]
  }

  lemma SinceSplits(log: seq<Event>, middle: seq<Event>, before: seq<Event>)
    requires before <= middle <= log
    ensures Since(log, before) == Since(middle, before) + Since(log, middle)
  {
  }

  // ----- what the manager's operations ask and answer -----

  ghost predicate PersistTrace(codec: Codec, path: Path, data: Data, es: seq<Event>, err: Error) {
    match codec.encode(data)
    case None => es == [] && err == Wrap(EncodingData, ENCODE_ERROR)
    case Some(bytes) =>
      && |es| == 1 && es[0].req == WriteFile(path, bytes) && Fits(es[0].req, es[0].resp)
      && (if es[0].resp.Fail? then err == Wrap(WritingFile, es[0].resp.err) else es[0].resp == Ok && err == NIL)
  }

  ghost predicate GetTrace(codec: Codec, path: Path, es: seq<Event>, data: Data, err: Error) {
    && 1 <= |es| <= 2 && es[0].req == Exists(path) && Fits(es[0].req, es[0].resp)
    && (|es| == 1 ==>
          if es[0].resp.Fail? then err == AccessError(es[0].resp.err)
          else es[0].resp == Found(false) && err == AccessError(NOT_EXIST))
    && (|es| == 2 ==>
          && es[0].resp == Found(true) && es[1].req == ReadFile(path) && Fits(es[1].req, es[1].resp)
          && (if es[1].resp.Fail? then err == ReadError(es[1].resp.err)
              else match codec.decode(es[1].resp.bytes)
                   case None => err == DECODING_FAILED
                   case Some(d) => err == NIL && data == d))
  }

  ghost predicate ClearTrace(path: Path, es: seq<Event>, err: Error) {
    && 1 <= |es| <= 2 && es[0].req == Exists(path) && Fits(es[0].req, es[0].resp)
    && (|es| == 1 ==>
          if es[0].resp.Fail? then err == AccessError(es[0].resp.err)
          else es[0].resp == Found(false) && err == AccessError(NOT_EXIST))
    && (|es| == 2 ==>
          && es[0].resp == Found(true) && es[1].req == Remove(path)
          && (if es[1].resp.Fail? then es[1].resp.err != NIL && err == Wrap(DeletingFile, es[1].resp.err)
              else es[1].resp == Ok && err == NIL))
  }

  /** fsMetadataManager: the store of one job's record. */
  class MetadataManager {
    const world: World
    const codec: Codec
    ghost var registers: seq<Register>
    ghost var ops: seq<Op>

    /** The operations so far are a history of the register, whose last value is on file unless the file vanished. */
    ghost predicate Valid()
      reads this, world
    {
      && codec.Lawful() && world.Valid() && History(registers, ops)
      && (RegisterOf(codec, world.Own()) == registers[|ops|] || RegisterOf(codec, world.Own()) == Empty)
    }

    constructor (world: World, codec: Codec)
      requires codec.Lawful() && world.Valid()
      ensures Valid() && this.world == world && this.codec == codec && ops == []
    {
      this.world, this.codec := world, codec;
      ops := [];
      registers := [RegisterOf(codec, world.Own())];
    }

    /** Ghost bookkeeping: `op` took the register to what is now on file. */
    ghost method Note(op: Op)
      requires codec.Lawful() && world.Valid() && History(registers, ops)
      requires Steps(registers[|ops|], op, RegisterOf(codec, world.Own()))
      modifies this
      ensures Valid() && ops == old(ops) + [op] && old(registers) <= registers
    {
      ops := ops + [op];
      registers := registers + [RegisterOf(codec, world.Own())];
    }

    method Persist(data: Data) returns (err: Error)
      requires Valid()
      modifies this, world
      ensures Valid() && old(world.log) <= world.log
      ensures PersistTrace(codec, world.path, data, Since(world.log, old(world.log)), err)
      ensures ops == old(ops) + [if err == NIL then Persisted(data) else PersistFailed(data)]
    {
      match codec.encode(data) {
        case None =>
          Note(PersistFailed(data));
          return Wrap(EncodingData, ENCODE_ERROR);
        case Some(bytes) =>
          var resp := world.Call(WriteFile(world.path, bytes));
          assert bytes[..|bytes|] == bytes;
          if resp.Fail? {
            Note(PersistFailed(data));
            return Wrap(WritingFile, resp.err);
          }
          Note(Persisted(data));
          return NIL;
      }
    }

    method ErrIfFileNotExists() returns (err: Error)
      requires Valid()
      modifies world
      ensures Valid() && |world.log| == |old(world.log)| + 1 && old(world.log) <= world.log
      ensures
        var e := world.log[|old(world.log)|];
        && e.req == Exists(world.path) && Fits(e.req, e.resp)
        && err == if e.resp.Fail? then e.resp.err else if e.resp.there then NIL else NOT_EXIST
      ensures RegisterOf(codec, world.Own()) == old(RegisterOf(codec, world.Own())) || RegisterOf(codec, world.Own()) == Empty
      ensures err == NIL ==> world.Own() == old(world.Own()) && world.Own().Some?
    {
      var resp := world.Call(Exists(world.path));
      if resp.Fail? {
        return resp.err;
      }
      if !resp.there {
        return NOT_EXIST;
      }
      return NIL;
    }

    method Get() returns (data: Data, err: Error)
      requires Valid()
      modifies this, world
      ensures Valid() && old(world.log) <= world.log
      ensures GetTrace(codec, world.path, Since(world.log, old(world.log)), data, err)
      ensures ops == old(ops) + [if err == NIL then Got(data) else GetFailed]
    {
      data := Data("", "", []);
      var accessErr := ErrIfFileNotExists();
      if accessErr != NIL {
        Note(GetFailed);
        return data, AccessError(accessErr);
      }
      var resp := world.Call(ReadFile(world.path));
      if resp.Fail? {
        Note(GetFailed);
        return data, ReadError(resp.err);
      }
      match codec.decode(resp.bytes) {
        case None =>
          Note(GetFailed);
          return data, DECODING_FAILED;
        case Some(d) =>
          Note(Got(d));
          return d, NIL;
      }
    }

    method Clear() returns (err: Error)
      requires Valid()
      modifies this, world
      ensures Valid() && old(world.log) <= world.log
      ensures ClearTrace(world.path, Since(world.log, old(world.log)), err)
      ensures ops == old(ops) + [if err == NIL then Cleared else ClearFailed]
    {
      var accessErr := ErrIfFileNotExists();
      if accessErr != NIL {
        Note(ClearFailed);
        return AccessError(accessErr);
      }
      var resp := world.Call(Remove(world.path));
      if resp.Fail? {
        Note(ClearFailed);
        return Wrap(DeletingFile, resp.err);
      }
      Note(Cleared);
      return NIL;
    }
  }

  // ----- the commands -----

  /** One call, answered. */
  lemma CallDrives(cfg: Cfg, p: Proc, before: seq<Event>, req: Request, resp: Response)
    requires Active(p) && req == Pending(cfg, p) && Fits(req, resp)
    ensures before <= before + [Event(req, resp)]
    ensures Drive(cfg, p, Since(before + [Event(req, resp)], before)) == Some(Resume(cfg, p, resp))
  {
    assert Since(before + [Event(req, resp)], before) == [Event(req, resp)];
    DriveOne(cfg, p, Event(req, resp));
  }

  lemma KeyDrives(cfg: Cfg, before: seq<Event>, resp: Response)
    requires Fits(CreateKey, resp)
    ensures before <= before + [Event(CreateKey, resp)]
    ensures resp.Fail? || resp.Key?
    ensures Drive(cfg, PKey, Since(before + [Event(CreateKey, resp)], before))
      == Some(if resp.Fail? then Done(Prepare, Wrap(GeneratingKeys, resp.err)) else PLaunch(resp.pair))
  {
    CallDrives(cfg, PKey, before, CreateKey, resp);
  }

  lemma LaunchDrives(cfg: Cfg, pair: KeyPair, before: seq<Event>, resp: Response)
    requires Fits(RunTask(pair.pub), resp)
    ensures before <= before + [Event(RunTask(pair.pub), resp)]
    ensures resp.RunFailed? || resp.Started?
    ensures Drive(cfg, PLaunch(pair), Since(before + [Event(RunTask(pair.pub), resp)], before))
      == Some(if resp.RunFailed? then Compensate(resp.arn, LaunchFailed, resp.err) else RecordFirst(cfg, pair, resp.arn))
  {
    CallDrives(cfg, PLaunch(pair), before, RunTask(pair.pub), resp);
  }

  lemma WaitErrors(arn: Arn, es: seq<Event>, ip: string, err: Error)
    requires WaitTrace(arn, es, ip, err) && err != NIL
    ensures es != [] && es[|es| - 1].resp.Fail?
    ensures PrepareError(if |es| == 1 then WaitFailed else AddressFailed, es[|es| - 1].resp.err) == Wrap(WaitingReady, err)
  {
  }

  ghost predicate WaitTrace(arn: Arn, es: seq<Event>, ip: string, err: Error) {
    && 1 <= |es| <= 2 && es[0].req == WaitRunning(arn) && Fits(es[0].req, es[0].resp)
    && (|es| == 1 ==> es[0].resp.Fail? && err == Wrap(WaitingRunning, es[0].resp.err))
    && (|es| == 2 ==>
          && es[0].resp.Ok? && es[1].req == GetIP(arn) && Fits(es[1].req, es[1].resp)
          && (if es[1].resp.Fail? then err == Wrap(FetchingIp, es[1].resp.err) else err == NIL && ip == es[1].resp.ip))
  }

  lemma FirstPersistDrives(cfg: Cfg, pair: KeyPair, arn: Arn, es: seq<Event>, err: Error)
    requires PersistTrace(cfg.codec, cfg.path, Data(arn, "", pair.priv), es, err)
    ensures Drive(cfg, RecordFirst(cfg, pair, arn), es)
      == Some(if err == NIL then PWait(pair, arn) else Compensate(arn, FirstRecordFailed, Wrap(PersistingMetadata, err)))
  {
    if cfg.codec.encode(Data(arn, "", pair.priv)).Some? {
      assert es == [es[0]];
      DriveOne(cfg, RecordFirst(cfg, pair, arn), es[0]);
    }
  }

  lemma SecondPersistDrives(cfg: Cfg, pair: KeyPair, arn: Arn, ip: string, es: seq<Event>, err: Error)
    requires PersistTrace(cfg.codec, cfg.path, Data(arn, ip, pair.priv), es, err)
    ensures Drive(cfg, RecordAgain(cfg, pair, arn, ip), es)
      == Some(if err == NIL then Done(Prepare, NIL) else Compensate(arn, SecondRecordFailed, Wrap(PersistingMetadata, err)))
  {
    if cfg.codec.encode(Data(arn, ip, pair.priv)).Some? {
      assert es == [es[0]];
      DriveOne(cfg, RecordAgain(cfg, pair, arn, ip), es[0]);
    }
  }

  /** How a failed wait continues. */
  function WaitFailure(arn: Arn, es: seq<Event>): Proc
    requires es != [] && es[|es| - 1].resp.Fail?
  {
    Compensate(arn, if |es| == 1 then WaitFailed else AddressFailed, es[|es| - 1].resp.err)
  }

  lemma WaitDrives(cfg: Cfg, pair: KeyPair, arn: Arn, es: seq<Event>, ip: string, err: Error)
    requires WaitTrace(arn, es, ip, err)
    ensures err == NIL ==> Drive(cfg, PWait(pair, arn), es) == Some(RecordAgain(cfg, pair, arn, ip))
    ensures err != NIL ==> es[|es| - 1].resp.Fail? && Drive(cfg, PWait(pair, arn), es) == Some(WaitFailure(arn, es))
  {
    DriveOne(cfg, PWait(pair, arn), es[0]);
    if |es| == 2 {
      assert es == [es[0]] + [es[1]];
      DriveOne(cfg, PAddress(pair, arn), es[1]);
      DriveOn(cfg, PWait(pair, arn), [es[0]], PAddress(pair, arn), [es[1]]);
    } else {
      assert es == [es[0]];
    }
  }

  class PrepareCommand {
    const world: World
    const cfg: Cfg
    var manager: MetadataManager?

    ghost predicate Ready()
      reads this, world, manager
    {
      manager != null && manager.world == world && manager.codec == cfg.codec && manager.Valid() && world.path == cfg.path
    }

    constructor (world: World, cfg: Cfg)
      ensures this.world == world && this.cfg == cfg && manager == null
    {
      this.world, this.cfg, this.manager := world, cfg, null;
    }

    method Initialize() returns (err: Error)
      requires cfg.codec.Lawful() && world.Valid() && world.path == cfg.path
      modifies this, world
      ensures world.Valid() && old(world.log) <= world.log
      ensures Drive(cfg, PInit, Since(world.log, old(world.log)))
        == Some(if err == NIL then PKey else Done(Prepare, Wrap(InitializingPrepare, err)))
      ensures err == NIL ==> Ready() && fresh(manager)
    {
      var resp := world.Call(InitFargate);
      CallDrives(cfg, PInit, old(world.log), InitFargate, resp);
      if resp.Fail? {
        return Wrap(InitializingFargate, resp.err);
      }
      manager := new MetadataManager(world, cfg.codec);
      return NIL;
    }

    /** Stops the task, if there is one; the ghost parameters say where prepare stands. */
    method StopFargateTaskOnError(arn: Arn, ghost start: seq<Event>, ghost cause: Cause, ghost e: Error)
      requires world.Valid() && start <= world.log
      requires Drive(cfg, PInit, Since(world.log, start)) == Some(Compensate(arn, cause, e))
      modifies world
      ensures world.Valid() && start <= world.log
      ensures Drive(cfg, PInit, Since(world.log, start)) == Some(Done(Prepare, PrepareError(cause, e)))
    {
      hide Drive, Since;
      if arn == "" {
        return;
      }
      ghost var before := world.log;
      var resp := world.Call(StopTask(arn));
      CallDrives(cfg, PStop(arn, cause, PrepareError(cause, e)), before, StopTask(arn), resp);
      Continue(start, before, PStop(arn, cause, PrepareError(cause, e)));
    }

    method PersistDataForLaterStages(data: Data) returns (err: Error, ghost inner: Error)
      requires Ready()
      modifies manager, world
      ensures Ready() && manager == old(manager) && old(world.log) <= world.log
      ensures PersistTrace(cfg.codec, cfg.path, data, Since(world.log, old(world.log)), inner)
      ensures err == if inner == NIL then NIL else Wrap(PersistingMetadata, inner)
    {
      var persistErr := manager.Persist(data);
      inner := persistErr;
      if persistErr != NIL {
        return Wrap(PersistingMetadata, persistErr), inner;
      }
      return NIL, inner;
    }

    method WaitFargateTaskReady(arn: Arn) returns (ip: string, err: Error)
      requires Ready()
      modifies world
      ensures Ready() && old(world.log) <= world.log
      ensures WaitTrace(arn, Since(world.log, old(world.log)), ip, err)
    {
      ip := "";
      var resp := world.Call(WaitRunning(arn));
      if resp.Fail? {
        return ip, Wrap(WaitingRunning, resp.err);
      }
      resp := world.Call(GetIP(arn));
      if resp.Fail? {
        return ip, Wrap(FetchingIp, resp.err);
      }
      return resp.ip, NIL;
    }

    /** The ordered effects of prepare, with StopTask on every failure after the launch: a complete run of prepare's automaton. */
    method CustomExecute() returns (err: Error)
      requires cfg.codec.Lawful() && world.Valid() && world.path == cfg.path
      modifies this, world
      ensures world.Valid() && old(world.log) <= world.log
      ensures Drive(cfg, PInit, Since(world.log, old(world.log))) == Some(Done(Prepare, err))
    {
      hide Drive, Since, Resume, Pending, Fits, PersistTrace, WaitTrace, Compensate, RecordFirst, RecordAgain, Effect;
      ghost var start := world.log;
      var initErr := Initialize();
      if initErr != NIL {
        return Wrap(InitializingPrepare, initErr);
      }

      ghost var before := world.log;
      var resp := world.Call(CreateKey);
      KeyDrives(cfg, before, resp);
      Continue(start, before, PKey);
      if resp.Fail? {
        return Wrap(GeneratingKeys, resp.err);
      }
      var pair := resp.pair;

      before := world.log;
      resp := world.Call(RunTask(pair.pub));
      LaunchDrives(cfg, pair, before, resp);
      Continue(start, before, PLaunch(pair));
      var arn := resp.arn;
      if resp.RunFailed? {
        StopFargateTaskOnError(arn, start, LaunchFailed, resp.err);
        return Wrap(StartingTask, Wrap(RunningTask, resp.err));
      }

      before := world.log;
      ghost var inner;
      err, inner := PersistDataForLaterStages(Data(arn, "", pair.priv));
      FirstPersistDrives(cfg, pair, arn, Since(world.log, before), inner);
      Continue(start, before, RecordFirst(cfg, pair, arn));
      if err != NIL {
        StopFargateTaskOnError(arn, start, FirstRecordFailed, err);
        return Wrap(PersistingArn, err);
      }
      err := FinishPreparing(arn, pair, start);
    }

    /** The second half of CustomExecute: wait, and record the address. */
    method FinishPreparing(arn: Arn, pair: KeyPair, ghost start: seq<Event>) returns (err: Error)
      requires Ready() && start <= world.log && Drive(cfg, PInit, Since(world.log, start)) == Some(PWait(pair, arn))
      modifies manager, world
      ensures world.Valid() && start <= world.log
      ensures Drive(cfg, PInit, Since(world.log, start)) == Some(Done(Prepare, err))
    {
      hide Drive, Since, Resume, Pending, Fits, PersistTrace, WaitTrace, Compensate, RecordFirst, RecordAgain, Effect, History, RegisterOf;
      ghost var before := world.log;
      var containerIp, waitErr := WaitFargateTaskReady(arn);
      ghost var waited := Since(world.log, before);
      WaitDrives(cfg, pair, arn, waited, containerIp, waitErr);
      Continue(start, before, PWait(pair, arn));
      if waitErr != NIL {
        WaitErrors(arn, waited, containerIp, waitErr);
        StopFargateTaskOnError(arn, start, if |waited| == 1 then WaitFailed else AddressFailed, waited[|waited| - 1].resp.err);
        return Wrap(WaitingReady, waitErr);
      }

      before := world.log;
      ghost var inner;
      err, inner := PersistDataForLaterStages(Data(arn, containerIp, pair.priv));
      SecondPersistDrives(cfg, pair, arn, containerIp, Since(world.log, before), inner);
      Continue(start, before, RecordAgain(cfg, pair, arn, containerIp));
      if err != NIL {
        StopFargateTaskOnError(arn, start, SecondRecordFailed, err);
        return Wrap(PersistingIp, err);
      }
      return NIL;
    }

    /** If the run up to `middle` stands at `p`, what followed goes on from there. */
    lemma Continue(start: seq<Event>, middle: seq<Event>, p: Proc)
      requires start <= middle <= world.log
      requires Drive(cfg, PInit, Since(middle, start)) == Some(p)
      requires Drive(cfg, p, Since(world.log, middle)).Some?
      ensures Drive(cfg, PInit, Since(world.log, start)) == Drive(cfg, p, Since(world.log, middle))
    {
      SinceSplits(world.log, middle, start);
      DriveOn(cfg, PInit, Since(middle, start), p, Since(world.log, middle));
    }
  }

  // ----- run and cleanup -----

  /** What a stage makes of the outcome of Get. */
  lemma GetDrives(cfg: Cfg, p: Proc, es: seq<Event>, data: Data, err: Error)
    requires GetTrace(cfg.codec, cfg.path, es, data, err) && (p.CExists? || p.RExists?)
    ensures Drive(cfg, p, es) == Some(
      if p.CExists? then (if err == NIL then CStop(data.arn) else Done(Cleanup, CleanupGetError(err)))
      else (if err == NIL then RSsh(data, p.script) else Done(Run, RunError(err))))
  {
    DriveOne(cfg, p, es[0]);
    if |es| == 2 {
      var q := Resume(cfg, p, es[0].resp);
      DriveOne(cfg, q, es[1]);
      assert es == [es[0]] + [es[1]];
      DriveOn(cfg, p, [es[0]], q, [es[1]]);
    } else {
      assert es == [es[0]];
    }
  }

  lemma ClearDrives(cfg: Cfg, arn: Arn, es: seq<Event>, err: Error)
    requires ClearTrace(cfg.path, es, err)
    ensures Drive(cfg, CClear(arn), es) == Some(Done(Cleanup, if err == NIL then NIL else CleanupClearError(err)))
  {
    DriveOne(cfg, CClear(arn), es[0]);
    if |es| == 2 {
      DriveOne(cfg, CRemove(arn), es[1]);
      assert es == [es[0]] + [es[1]];
      DriveOn(cfg, CClear(arn), [es[0]], CRemove(arn), [es[1]]);
    } else {
      assert es == [es[0]];
    }
  }

  lemma InitDrives(cfg: Cfg, before: seq<Event>, resp: Response)
    requires Fits(InitFargate, resp)
    ensures before <= before + [Event(InitFargate, resp)]
    ensures Drive(cfg, CInit, Since(before + [Event(InitFargate, resp)], before))
      == Some(if resp.Fail? then Done(Cleanup, Wrap(InitializingCleanup, Wrap(InitializingFargate, resp.err))) else CExists)
  {
    CallDrives(cfg, CInit, before, InitFargate, resp);
  }

  lemma StopDrives(cfg: Cfg, arn: Arn, before: seq<Event>, resp: Response)
    requires Fits(StopTask(arn), resp)
    ensures before <= before + [Event(StopTask(arn), resp)]
    ensures Drive(cfg, CStop(arn), Since(before + [Event(StopTask(arn), resp)], before))
      == Some(if resp.Fail? then Done(Cleanup, Wrap(StoppingTask, resp.err)) else CClear(arn))
  {
    CallDrives(cfg, CStop(arn), before, StopTask(arn), resp);
  }

  class CleanupCommand {
    const world: World
    const cfg: Cfg
    var manager: MetadataManager?

    constructor (world: World, cfg: Cfg)
      ensures this.world == world && this.cfg == cfg && manager == null
    {
      this.world, this.cfg, this.manager := world, cfg, null;
    }

    /** Read the record, stop its task, and only then remove the record: a complete run of cleanup's automaton. */
    method CustomExecute() returns (err: Error)
      requires cfg.codec.Lawful() && world.Valid() && world.path == cfg.path
      modifies this, world
      ensures world.Valid() && old(world.log) <= world.log
      ensures Drive(cfg, CInit, Since(world.log, old(world.log))) == Some(Done(Cleanup, err))
    {
      hide Drive, Since, GetTrace, ClearTrace, Effect, Resume, Pending, Fits;
      ghost var start := world.log;
      var resp := world.Call(InitFargate);
      InitDrives(cfg, start, resp);
      if resp.Fail? {
        return Wrap(InitializingCleanup, Wrap(InitializingFargate, resp.err));
      }
      manager := new MetadataManager(world, cfg.codec);

      ghost var before := world.log;
      var data;
      data, err := manager.Get();
      GetDrives(cfg, CExists, Since(world.log, before), data, err);
      Continue(start, before, CExists);
      if err != NIL {
        return Wrap(ObtainingTask, err);
      }

      before := world.log;
      resp := world.Call(StopTask(data.arn));
      StopDrives(cfg, data.arn, before, resp);
      Continue(start, before, CStop(data.arn));
      if resp.Fail? {
        return Wrap(StoppingTask, resp.err);
      }

      before := world.log;
      err := manager.Clear();
      ClearDrives(cfg, data.arn, Since(world.log, before), err);
      Continue(start, before, CClear(data.arn));
      if err != NIL {
        return Wrap(DeletingMetadata, err);
      }
      return NIL;
    }

    lemma Continue(start: seq<Event>, middle: seq<Event>, p: Proc)
      requires start <= middle <= world.log
      requires Drive(cfg, CInit, Since(middle, start)) == Some(p)
      requires Drive(cfg, p, Since(world.log, middle)).Some?
      ensures Drive(cfg, CInit, Since(world.log, start)) == Drive(cfg, p, Since(world.log, middle))
    {
      SinceSplits(world.log, middle, start);
      DriveOn(cfg, CInit, Since(middle, start), p, Since(world.log, middle));
    }
  }

  class RunCommand {
    const world: World
    const cfg: Cfg
    var manager: MetadataManager?

    constructor (world: World, cfg: Cfg)
      ensures this.world == world && this.cfg == cfg && manager == null
    {
      this.world, this.cfg, this.manager := world, cfg, null;
    }

    method ReadFileContent(path: Path) returns (bytes: Bytes, err: Error)
      requires world.Valid()
      modifies world
      ensures world.Valid() && old(world.log) <= world.log
      ensures Drive(cfg, RScript(path), Since(world.log, old(world.log)))
        == Some(if err == NIL then RExists(bytes) else Done(Run, Wrap(ReadingScript, err)))
      ensures world.Own() == old(world.Own()) || world.Own() == None
    {
      bytes := [];
      var resp := world.Call(ReadScript(path));
      CallDrives(cfg, RScript(path), old(world.log), ReadScript(path), resp);
      if resp.Fail? {
        return bytes, Wrap(ReadingFile, resp.err);
      }
      return resp.bytes, NIL;
    }

    method ExecuteScriptOnTaskContainer(data: Data, script: Bytes) returns (err: Error)
      requires world.Valid()
      modifies world
      ensures world.Valid() && old(world.log) <= world.log
      ensures Drive(cfg, RSsh(data, script), Since(world.log, old(world.log)))
        == Some(Done(Run, if err == NIL then NIL else Wrap(ExecutingRemotely, err)))
    {
      var port := cfg.port;
      if port < 1 {
        port := DEFAULT_PORT;
      }
      var resp := world.Call(Ssh(data.ip, port, cfg.user, data.key, script));
      CallDrives(cfg, RSsh(data, script), old(world.log), Ssh(data.ip, port, cfg.user, data.key, script), resp);
      if resp.Fail? {
        return Wrap(ExecutingOnContainer, resp.err);
      }
      return NIL;
    }

    /** Read the script, read the record, and connect with what the record says: a complete run of run's automaton. */
    method CustomExecute(args: seq<string>) returns (err: Error)
      requires cfg.codec.Lawful() && world.Valid() && world.path == cfg.path
      modifies this, world
      ensures world.Valid() && old(world.log) <= world.log
      ensures |args| < 2 ==> err == [Leaf(MissingArguments)] && world.log == old(world.log)
      ensures |args| >= 2 ==> Drive(cfg, RScript(args[0]), Since(world.log, old(world.log))) == Some(Done(Run, err))
    {
      if |args| < 2 {
        return MISSING_ARGUMENTS;
      }
      hide Drive, Since, GetTrace, Effect;
      ghost var start := world.log;
      manager := new MetadataManager(world, cfg.codec);

      var script, readErr := ReadFileContent(args[0]);
      if readErr != NIL {
        return Wrap(ReadingScript, readErr);
      }

      ghost var before := world.log;
      var data;
      data, err := manager.Get();
      GetDrives(cfg, RExists(script), Since(world.log, before), data, err);
      Continue(args[0], start, before, RExists(script));
      if err != NIL {
        return Wrap(ObtainingTask, Wrap(FetchingData, err));
      }

      before := world.log;
      err := ExecuteScriptOnTaskContainer(data, script);
      Continue(args[0], start, before, RSsh(data, script));
      if err != NIL {
        return Wrap(ExecutingRemotely, err);
      }
      return NIL;
    }

    lemma Continue(path: Path, start: seq<Event>, middle: seq<Event>, p: Proc)
      requires start <= middle <= world.log
      requires Drive(cfg, RScript(path), Since(middle, start)) == Some(p)
      requires Drive(cfg, p, Since(world.log, middle)).Some?
      ensures Drive(cfg, RScript(path), Since(world.log, start)) == Drive(cfg, p, Since(world.log, middle))
    {
      SinceSplits(world.log, middle, start);
      DriveOn(cfg, RScript(path), Since(middle, start), p, Since(world.log, middle));
    }
  }
}
