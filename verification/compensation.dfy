/**
  What every complete run of prepare did about the task it started, over all
  answers the cluster, the key factory and the file store may give.
 */
module Compensation {
  import opened Options
  import opened Errors
  import opened Protocol

  /** The ARN the launch yielded, with or without an error; empty when it yielded none. */
  function Yielded(es: seq<Event>): Arn {
    if |es| < 3 then ""
    else if es[2].resp.Started? || es[2].resp.RunFailed? then es[2].resp.arn
    else ""
  }

  /** The number of StopTask calls attempted. */
  function Stops(es: seq<Event>): nat {
    if es == [] then 0
    else Stops(es[..|es| - 1]) + (if es[|es| - 1].req.StopTask? then 1 else 0)
  }

  /** The answer of `e` reports the failure `cause`. */
  predicate Reports(e: Event, cause: Error) {
    (e.resp.Fail? || e.resp.RunFailed?) && e.resp.err == cause
  }

  /** `err` carries the failure of some call other than StopTask, or says that the record cannot be encoded. */
  ghost predicate Explained(es: seq<Event>, err: Error) {
    || Carries(err, ENCODE_ERROR)
    || exists i, cause: Error :: 0 <= i < |es| && !es[i].req.StopTask? && cause != NIL && Reports(es[i], cause) && Carries(err, cause)
  }

  lemma ExplainedExtends(es: seq<Event>, e: Event, err: Error)
    requires Explained(es, err)
    ensures Explained(es + [e], err)
  {
    if !Carries(err, ENCODE_ERROR) {
      var i, cause :| 0 <= i < |es| && !es[i].req.StopTask? && cause != NIL && Reports(es[i], cause) && Carries(err, cause);
      assert (es + [e])[i] == es[i];
    }
  }

  lemma FailureExplains(es: seq<Event>, err: Error, cause: Error)
    requires es != [] && !es[|es| - 1].req.StopTask? && cause != NIL
    requires Reports(es[|es| - 1], cause) && Carries(err, cause)
    ensures Explained(es, err)
  {
  }

  lemma TwiceWrapped(a: Context, b: Context, e: Error)
    ensures Carries(Wrap(a, Wrap(b, e)), e)
    ensures Wrap(a, Wrap(b, e)) != NIL
  {
    assert Carries(e, e);
    WrapCarries(b, e, e);
    WrapCarries(a, Wrap(b, e), e);
  }

  lemma PrepareErrorCarries(cause: Cause, e: Error, inner: Error)
    requires Carries(e, inner)
    ensures Carries(PrepareError(cause, e), inner) && PrepareError(cause, e) != NIL
  {
    match cause
    case LaunchFailed => WrapCarries(RunningTask, e, inner); WrapCarries(StartingTask, Wrap(RunningTask, e), inner);
    case FirstRecordFailed => WrapCarries(PersistingArn, e, inner);
    case WaitFailed =>
      WrapCarries(WaitingRunning, e, inner);
      WrapCarries(WaitingReady, Wrap(WaitingRunning, e), inner);
    case AddressFailed =>
      WrapCarries(FetchingIp, e, inner);
      WrapCarries(WaitingReady, Wrap(FetchingIp, e), inner);
    case SecondRecordFailed => WrapCarries(PersistingIp, e, inner);
  }

  /** Where prepare stands determines what it has done so far. */
  ghost predicate Progress(p: Proc, es: seq<Event>) {
    match p
    case PInit => |es| == 0
    case PKey => |es| == 1
    case PLaunch(_) => |es| == 2
    case PRecord(_, arn, _) => |es| == 3 && Yielded(es) == arn
    case PWait(_, arn) => |es| == 4 && Yielded(es) == arn
    case PAddress(_, arn) => |es| == 5 && Yielded(es) == arn
    case PRerecord(_, arn, _, _) => |es| == 6 && Yielded(es) == arn
    case PStop(arn, _, err) => |es| >= 3 && arn != "" && Yielded(es) == arn && err != NIL && Explained(es, err)
    case Done(stage, err) => stage == Prepare
    case _ => false
  }

  ghost predicate Compensated(es: seq<Event>, err: Error) {
    if err == NIL then Stops(es) == 0
    else
      && Explained(es, err)
      && (if Yielded(es) == "" then Stops(es) == 0
          else Stops(es) == 1 && es[|es| - 1].req == StopTask(Yielded(es)))
  }

  lemma {:induction false} ProgressHolds(cfg: Cfg, es: seq<Event>, p: Proc)
    requires Drive(cfg, PInit, es) == Some(p)
    ensures Progress(p, es)
    ensures p.Done? ==> Compensated(es, p.err)
    ensures !p.Done? ==> Stops(es) == 0
    decreases |es|
  {
    if es != [] {
      var front, e := es[..|es| - 1], es[|es| - 1];
      var q := Drive(cfg, PInit, front).value;
      ProgressHolds(cfg, front, q);
      assert es == front + [e];
      StepProgress(cfg, front, q, e);
    }
  }

  lemma StepProgress(cfg: Cfg, front: seq<Event>, q: Proc, e: Event)
    requires Progress(q, front) && Active(q) && Stops(front) == 0
    requires e.req == Pending(cfg, q) && Fits(e.req, e.resp)
    ensures
      var es, p := front + [e], Resume(cfg, q, e.resp);
      && Progress(p, es)
      && (if p.Done? then Compensated(es, p.err) else Stops(es) == 0)
  {
    var es := front + [e];
    assert es[..|es| - 1] == front;
    if q.PStop? {
      ExplainedExtends(front, e, q.err);
    } else if e.resp.Fail? || e.resp.RunFailed? {
      StepFails(cfg, front, q, e);
    } else if q.PLaunch? {
      assert Carries(ENCODING_FAILED, ENCODE_ERROR) by { TwiceWrapped(PersistingMetadata, EncodingData, ENCODE_ERROR); }
      PrepareErrorCarries(FirstRecordFailed, ENCODING_FAILED, ENCODE_ERROR);
    } else if q.PAddress? {
      assert Carries(ENCODING_FAILED, ENCODE_ERROR) by { TwiceWrapped(PersistingMetadata, EncodingData, ENCODE_ERROR); }
      PrepareErrorCarries(SecondRecordFailed, ENCODING_FAILED, ENCODE_ERROR);
    }
  }

  /** A failing answer other than StopTask's ends prepare, or sends it to StopTask, with that failure in the chain. */
  lemma FailureIsCarried(cfg: Cfg, q: Proc, e: Event)
    requires Active(q) && !q.PStop?
    requires q.PInit? || q.PKey? || q.PLaunch? || q.PRecord? || q.PWait? || q.PAddress? || q.PRerecord?
    requires e.req == Pending(cfg, q) && Fits(e.req, e.resp) && (e.resp.Fail? || e.resp.RunFailed?)
    ensures
      var p := Resume(cfg, q, e.resp);
      (p.Done? || p.PStop?) && p.err != NIL && Carries(p.err, e.resp.err)
  {
    var cause := e.resp.err;
    assert Carries(cause, cause);
    match q
    case PInit => TwiceWrapped(InitializingPrepare, InitializingFargate, cause);
    case PKey => WrapCarries(GeneratingKeys, cause, cause);
    case PLaunch(_) => PrepareErrorCarries(LaunchFailed, cause, cause);
    case PRecord(_, _, _) =>
      TwiceWrapped(PersistingMetadata, WritingFile, cause);
      PrepareErrorCarries(FirstRecordFailed, PersistError(cause), cause);
    case PWait(_, _) => PrepareErrorCarries(WaitFailed, cause, cause);
    case PAddress(_, _) => PrepareErrorCarries(AddressFailed, cause, cause);
    case PRerecord(_, _, _, _) =>
      TwiceWrapped(PersistingMetadata, WritingFile, cause);
      PrepareErrorCarries(SecondRecordFailed, PersistError(cause), cause);
  }

  lemma StepFails(cfg: Cfg, front: seq<Event>, q: Proc, e: Event)
    requires Progress(q, front) && Active(q) && Stops(front) == 0 && !q.PStop?
    requires e.req == Pending(cfg, q) && Fits(e.req, e.resp) && (e.resp.Fail? || e.resp.RunFailed?)
    ensures
      var es, p := front + [e], Resume(cfg, q, e.resp);
      && Progress(p, es)
      && (if p.Done? then Compensated(es, p.err) else Stops(es) == 0)
  {
    var es := front + [e];
    assert es[..|es| - 1] == front;
    FailureIsCarried(cfg, q, e);
    FailureExplains(es, Resume(cfg, q, e.resp).err, e.resp.err);
  }

  /**
    Once the launch yielded an ARN, prepare fails if and only if it attempted StopTask, exactly
    once, with that ARN, as its last call; without an ARN it never attempts it. The
    error it returns carries the failure of another call.
   */
  lemma PrepareCompensates(cfg: Cfg, es: seq<Event>, err: Error)
    requires Drive(cfg, PInit, es) == Some(Done(Prepare, err))
    ensures Yielded(es) == "" ==> Stops(es) == 0
    ensures Yielded(es) != "" ==> (err != NIL <==> Stops(es) == 1 && es[|es| - 1].req == StopTask(Yielded(es)))
    ensures Yielded(es) != "" ==> (err == NIL <==> Stops(es) == 0)
    ensures err != NIL ==> Explained(es, err)
  {
    ProgressHolds(cfg, es, Done(Prepare, err));
  }

  /** Whatever StopTask answers, prepare returns the same error. */
  lemma StopOutcomeIsDropped(cfg: Cfg, es: seq<Event>, err: Error, other: Response)
    requires Drive(cfg, PInit, es) == Some(Done(Prepare, err))
    requires Stops(es) == 1 && Fits(es[|es| - 1].req, other)
    ensures Drive(cfg, PInit, es[..|es| - 1] + [Event(es[|es| - 1].req, other)]) == Some(Done(Prepare, err))
  {
    ProgressHolds(cfg, es, Done(Prepare, err));
    var front, e := es[..|es| - 1], es[|es| - 1];
    ProgressHolds(cfg, front, Drive(cfg, PInit, front).value);
    assert (front + [Event(e.req, other)])[..|front|] == front;
  }
}
