/**
  The stage processes of one job as resumable automata. A process in state `p`
  is waiting for the answer to the single request `Pending(cfg, p)`; an answer
  `r` moves it to `Resume(cfg, p, r)`. `Effect` says which answers the cluster
  and the file store may give, and what they leave behind.
 */
module Protocol {
  import opened Options
  import opened Errors

  type Byte = x: int | 0 <= x < 256
  type Bytes = seq<Byte>
  type Path = string
  type Arn = string

  /** The record shared between the stages (task/metadata.go, Data). */
  datatype Data = Data(arn: Arn, ip: string, key: Bytes)

  datatype KeyPair = KeyPair(pub: Bytes, priv: Bytes)

  /** The encoder: encoding or decoding may fail. */
  datatype Codec = Codec(encode: Data -> Option<Bytes>, decode: Bytes -> Option<Data>)
  {
    /**
      Decoding undoes encoding, and a proper prefix of an encoding decodes to the
      same record or not at all (the encoder ends with a newline the decoder does not need).
     */
    ghost predicate Lawful() {
      forall d: Data, k: nat {:trigger encode(d).value[..k]} ::
        encode(d).Some? && k <= |encode(d).value| ==>
          && (decode(encode(d).value[..k]) == None || decode(encode(d).value[..k]) == Some(d))
          && (k == |encode(d).value| ==> decode(encode(d).value[..k]) == Some(d))
    }
  }

  /** What the stages of one job are configured with. */
  datatype Cfg = Cfg(codec: Codec, path: Path, user: string, port: int)

  datatype Stage = Prepare | Run | Cleanup

  datatype Request =
    | InitFargate
    | CreateKey
    | RunTask(pub: Bytes)
    | WaitRunning(arn: Arn)
    | GetIP(arn: Arn)
    | StopTask(arn: Arn)
    | WriteFile(path: Path, bytes: Bytes)
    | Exists(path: Path)
    | ReadFile(path: Path)
    | Remove(path: Path)
    | ReadScript(path: Path)
    | Ssh(host: string, port: int, user: string, key: Bytes, script: Bytes)

  datatype Response =
    | Ok
    | Fail(err: Error)
    | Key(pair: KeyPair)
    | Started(arn: Arn)
    | RunFailed(arn: Arn, err: Error)
    | Ip(ip: string)
    | Found(there: bool)
    | Content(bytes: Bytes)

  /** The kinds of answer a request can get; a failure always carries a non-nil error. */
  predicate Fits(req: Request, resp: Response) {
    if resp.Fail? then !req.RunTask? && resp.err != NIL
    else
      match req
      case InitFargate | WaitRunning(_) | StopTask(_) | WriteFile(_, _) | Remove(_) | Ssh(_, _, _, _, _) => resp.Ok?
      case CreateKey => resp.Key?
      case RunTask(_) => resp.Started? || (resp.RunFailed? && resp.err != NIL)
      case GetIP(_) => resp.Ip?
      case Exists(_) => resp.Found?
      case ReadFile(_) | ReadScript(_) => resp.Content?
  }

  /** Which step of prepare failed. */
  datatype Cause = LaunchFailed | FirstRecordFailed | WaitFailed | AddressFailed | SecondRecordFailed

  datatype Proc =
    | Idle
    | Done(stage: Stage, err: Error)
      // prepare
    | PInit
    | PKey
    | PLaunch(pair: KeyPair)
    | PRecord(pair: KeyPair, arn: Arn, bytes: Bytes)
    | PWait(pair: KeyPair, arn: Arn)
    | PAddress(pair: KeyPair, arn: Arn)
    | PRerecord(pair: KeyPair, arn: Arn, ip: string, bytes: Bytes)
    | PStop(arn: Arn, cause: Cause, err: Error)
      // run
    | RScript(scriptPath: Path)
    | RExists(script: Bytes)
    | RRead(script: Bytes)
    | RSsh(data: Data, script: Bytes)
      // cleanup
    | CInit
    | CExists
    | CRead
    | CStop(arn: Arn)
    | CClear(arn: Arn)
    | CRemove(arn: Arn)

  predicate Active(p: Proc) {
    !p.Idle? && !p.Done?
  }

  const DEFAULT_PORT := 22
  const NOT_EXIST: Error := [Leaf(NotExist)]
  const ENCODE_ERROR: Error := [Leaf(NotEncodable)]
  const DECODE_ERROR: Error := [Leaf(NotDecodable)]
  const MISSING_ARGUMENTS: Error := [Leaf(MissingArguments)]

  // ----- wrapping applied by the metadata manager -----

  function PersistError(e: Error): Error {
    Wrap(PersistingMetadata, Wrap(WritingFile, e))
  }

  const ENCODING_FAILED: Error := Wrap(PersistingMetadata, Wrap(EncodingData, ENCODE_ERROR))

  function AccessError(e: Error): Error { Wrap(AccessingFile, e) }

  function ReadError(e: Error): Error { Wrap(ReadingFile, e) }

  const DECODING_FAILED: Error := Wrap(DecodingData, DECODE_ERROR)

  // ----- prepare -----

  function PrepareError(cause: Cause, e: Error): Error {
    match cause
    case LaunchFailed => Wrap(StartingTask, Wrap(RunningTask, e))
    case FirstRecordFailed => Wrap(PersistingArn, e)
    case WaitFailed => Wrap(WaitingReady, Wrap(WaitingRunning, e))
    case AddressFailed => Wrap(WaitingReady, Wrap(FetchingIp, e))
    case SecondRecordFailed => Wrap(PersistingIp, e)
  }

  /** A failing prepare stops the task it knows of, if it knows of one, and reports the failure. */
  function Compensate(arn: Arn, cause: Cause, e: Error): Proc {
    if arn == "" then Done(Prepare, PrepareError(cause, e)) else PStop(arn, cause, PrepareError(cause, e))
  }

  function RecordFirst(cfg: Cfg, pair: KeyPair, arn: Arn): Proc {
    match cfg.codec.encode(Data(arn, "", pair.priv))
    case None => Compensate(arn, FirstRecordFailed, ENCODING_FAILED)
    case Some(bytes) => PRecord(pair, arn, bytes)
  }

  function RecordAgain(cfg: Cfg, pair: KeyPair, arn: Arn, ip: string): Proc {
    match cfg.codec.encode(Data(arn, ip, pair.priv))
    case None => Compensate(arn, SecondRecordFailed, ENCODING_FAILED)
    case Some(bytes) => PRerecord(pair, arn, ip, bytes)
  }

  // ----- run and cleanup -----

  function RunError(e: Error): Error {
    Wrap(ObtainingTask, Wrap(FetchingData, e))
  }

  function CleanupGetError(e: Error): Error {
    Wrap(ObtainingTask, e)
  }

  function CleanupClearError(e: Error): Error {
    Wrap(DeletingMetadata, e)
  }

  function EffectivePort(port: int): int {
    if port < 1 then DEFAULT_PORT else port
  }

  // ----- the automata -----

  function Pending(cfg: Cfg, p: Proc): Request
    requires Active(p)
  {
    match p
    case PInit | CInit => InitFargate
    case PKey => CreateKey
    case PLaunch(pair) => RunTask(pair.pub)
    case PRecord(_, _, bytes) => WriteFile(cfg.path, bytes)
    case PWait(_, arn) => WaitRunning(arn)
    case PAddress(_, arn) => GetIP(arn)
    case PRerecord(_, _, _, bytes) => WriteFile(cfg.path, bytes)
    case PStop(arn, _, _) => StopTask(arn)
    case RScript(path) => ReadScript(path)
    case RExists(_) | CExists | CClear(_) => Exists(cfg.path)
    case RRead(_) | CRead => ReadFile(cfg.path)
    case RSsh(data, script) => Ssh(data.ip, EffectivePort(cfg.port), cfg.user, data.key, script)
    case CStop(arn) => StopTask(arn)
    case CRemove(_) => Remove(cfg.path)
  }

  function Resume(cfg: Cfg, p: Proc, resp: Response): Proc
    requires Active(p) && Fits(Pending(cfg, p), resp)
  {
    match p
    case PInit =>
      if resp.Fail? then Done(Prepare, Wrap(InitializingPrepare, Wrap(InitializingFargate, resp.err)))
      else PKey
    case PKey =>
      if resp.Fail? then Done(Prepare, Wrap(GeneratingKeys, resp.err)) else PLaunch(resp.pair)
    case PLaunch(pair) =>
      if resp.RunFailed? then Compensate(resp.arn, LaunchFailed, resp.err) else RecordFirst(cfg, pair, resp.arn)
    case PRecord(pair, arn, _) =>
      if resp.Fail? then Compensate(arn, FirstRecordFailed, PersistError(resp.err)) else PWait(pair, arn)
    case PWait(pair, arn) =>
      if resp.Fail? then Compensate(arn, WaitFailed, resp.err) else PAddress(pair, arn)
    case PAddress(pair, arn) =>
      if resp.Fail? then Compensate(arn, AddressFailed, resp.err) else RecordAgain(cfg, pair, arn, resp.ip)
    case PRerecord(_, arn, _, _) =>
      if resp.Fail? then Compensate(arn, SecondRecordFailed, PersistError(resp.err)) else Done(Prepare, NIL)
    case PStop(_, _, err) => Done(Prepare, err)

    case RScript(_) =>
      if resp.Fail? then Done(Run, Wrap(ReadingScript, Wrap(ReadingFile, resp.err)))
      else RExists(resp.bytes)
    case RExists(script) =>
      if resp.Fail? then Done(Run, RunError(AccessError(resp.err)))
      else if !resp.there then Done(Run, RunError(AccessError(NOT_EXIST)))
      else RRead(script)
    case RRead(script) =>
      if resp.Fail? then Done(Run, RunError(ReadError(resp.err)))
      else (match cfg.codec.decode(resp.bytes)
            case None => Done(Run, RunError(DECODING_FAILED))
            case Some(d) => RSsh(d, script))
    case RSsh(_, _) =>
      if resp.Fail? then Done(Run, Wrap(ExecutingRemotely, Wrap(ExecutingOnContainer, resp.err)))
      else Done(Run, NIL)

    case CInit =>
      if resp.Fail? then Done(Cleanup, Wrap(InitializingCleanup, Wrap(InitializingFargate, resp.err)))
      else CExists
    case CExists =>
      if resp.Fail? then Done(Cleanup, CleanupGetError(AccessError(resp.err)))
      else if !resp.there then Done(Cleanup, CleanupGetError(AccessError(NOT_EXIST)))
      else CRead
    case CRead =>
      if resp.Fail? then Done(Cleanup, CleanupGetError(ReadError(resp.err)))
      else (match cfg.codec.decode(resp.bytes)
            case None => Done(Cleanup, CleanupGetError(DECODING_FAILED))
            case Some(d) => CStop(d.arn))
    case CStop(arn) =>
      if resp.Fail? then Done(Cleanup, Wrap(StoppingTask, resp.err)) else CClear(arn)
    case CClear(arn) =>
      if resp.Fail? then Done(Cleanup, CleanupClearError(AccessError(resp.err)))
      else if !resp.there then Done(Cleanup, CleanupClearError(AccessError(NOT_EXIST)))
      else CRemove(arn)
    case CRemove(_) =>
      if resp.Fail? then Done(Cleanup, CleanupClearError(Wrap(DeletingFile, resp.err))) else Done(Cleanup, NIL)
  }

  /** One request together with the answer it got. */
  datatype Event = Event(req: Request, resp: Response)

  /** Where a process that starts in `p` stands after exactly these events; None if it would not issue them. */
  function Drive(cfg: Cfg, p: Proc, es: seq<Event>): Option<Proc> {
    if es == [] then Some(p)
    else
      var last := es[|es| - 1];
      match Drive(cfg, p, es[..|es| - 1])
      case None => None
      case Some(q) =>
        if Active(q) && last.req == Pending(cfg, q) && Fits(last.req, last.resp)
        then Some(Resume(cfg, q, last.resp))
        else None
  }

  // ----- the world outside the processes -----

  datatype Status = Provisioning | Running | Stopped

  /** A task of the cluster: its status, the public key injected into it, and its address. */
  datatype Task = Task(status: Status, injected: Bytes, ip: string)

  datatype Shared = Shared(files: map<Path, Bytes>, tasks: map<Arn, Task>)

  /** `t` is `s` after the cluster started the fresh task `a` with public key `pub`. */
  ghost predicate Launches(s: Shared, a: Arn, pub: Bytes, t: Shared) {
    && a != "" && a !in s.tasks && a in t.tasks
    && t.tasks[a].status == Provisioning && t.tasks[a].injected == pub
    && t == s.(tasks := s.tasks[a := t.tasks[a]])
  }

  function StopIn(s: Shared, a: Arn): Shared
    requires a in s.tasks
  {
    s.(tasks := s.tasks[a := s.tasks[a].(status := Stopped)])
  }

  function WriteIn(s: Shared, p: Path, b: Bytes): Shared {
    s.(files := s.files[p := b])
  }

  function RemoveIn(s: Shared, p: Path): Shared {
    s.(files := s.files - {p})
  }

  /** A failed or interrupted write leaves the old contents, or any prefix of the new ones. */
  ghost predicate PartialWrite(s: Shared, p: Path, b: Bytes, t: Shared) {
    t == s || exists k: nat :: k <= |b| && t == WriteIn(s, p, b[..k])
  }

  /**
    The world may answer `req` with `resp`, going from `s` to `t`. A call on a cancelled
    context fails without effect; any other call may fail, and a call that changes
    something may fail after the change was made (the answer was lost).
   */
  ghost predicate Effect(cancelled: bool, req: Request, resp: Response, s: Shared, t: Shared) {
    && Fits(req, resp)
    && match req
       case InitFargate => t == s
       case CreateKey => t == s
       case RunTask(pub) =>
         if resp.Started? then !cancelled && Launches(s, resp.arn, pub, t)
         else resp.arn == "" && (t == s || (!cancelled && exists a :: Launches(s, a, pub, t)))
       case WaitRunning(a) =>
         && t == s
         && (resp.Ok? ==> !cancelled && a in s.tasks && s.tasks[a].status == Running)
       case GetIP(a) =>
         && t == s
         && (resp.Ip? ==> !cancelled && a in s.tasks && resp.ip == s.tasks[a].ip)
       case StopTask(a) =>
         if resp.Ok? then !cancelled && a in s.tasks && t == StopIn(s, a)
         else t == s || (!cancelled && a in s.tasks && t == StopIn(s, a))
       case WriteFile(p, b) =>
         if resp.Ok? then t == WriteIn(s, p, b) else PartialWrite(s, p, b, t)
       case Exists(p) =>
         && t == s
         && (resp.Found? ==> resp.there == (p in s.files))
       case ReadFile(p) =>
         && t == s
         && (resp.Content? ==> p in s.files && resp.bytes == s.files[p])
       case Remove(p) =>
         if resp.Ok? then p in s.files && t == RemoveIn(s, p) else t == s || t == RemoveIn(s, p)
       case ReadScript(_) => t == s
       case Ssh(_, _, _, _, _) => t == s
  }
}
