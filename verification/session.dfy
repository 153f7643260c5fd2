/**
  ExecuteScript as two goroutines over an unbuffered channel: one runs the script and then sends its
  result, the caller waits for that result or for the context to be done.
 */
module Session {
  import opened Options
  import opened Errors

  datatype Sender = Running | Sending(result: Error) | Sent

  datatype Caller = Selecting | Signalling | Returned(err: Error)

  datatype State = State(sender: Sender, caller: Caller, done: bool)

  const START := State(Running, Selecting, false)

  datatype Move =
    | ScriptEnds(result: Error)        // Run returns; the goroutine blocks in its send
    | ContextDone
    | Receive                          // the send and the receive complete together
    | TakeCancel                       // select takes the ctx.Done() case
    | SignalReturns(result: Error)

  function Moved(s: State, m: Move): Option<State> {
    match m
    case ScriptEnds(result) =>
      if s.sender.Running? then Some(s.(sender := Sending(result))) else None
    case ContextDone =>
      Some(s.(done := true))
    case Receive =>
      if s.sender.Sending? && s.caller.Selecting?
      then Some(s.(sender := Sent, caller := Returned(if s.sender.result == NIL then NIL else Wrap(ExecutingCommand, s.sender.result))))
      else None
    case TakeCancel =>
      if s.caller.Selecting? && s.done then Some(s.(caller := Signalling)) else None
    case SignalReturns(result) =>
      if s.caller.Signalling?
      then Some(s.(caller := Returned(if result == NIL then NIL else Wrap(KillingCommand, result))))
      else None
  }

  /** The state after the moves `ms`, if they are possible. */
  function After(ms: seq<Move>): Option<State> {
    if ms == [] then Some(START)
    else
      match After(ms[..|ms| - 1])
      case None => None
      case Some(s) => Moved(s, ms[|ms| - 1])
  }

  /** How often a result crossed the channel. */
  function Receives(ms: seq<Move>): nat {
    if ms == [] then 0 else Receives(ms[..|ms| - 1]) + if ms[|ms| - 1].Receive? then 1 else 0
  }

  /** How often the cancel branch was taken. */
  function Cancels(ms: seq<Move>): nat {
    if ms == [] then 0 else Cancels(ms[..|ms| - 1]) + if ms[|ms| - 1].TakeCancel? then 1 else 0
  }

  /** How the script ended, if it did. */
  function ScriptResult(ms: seq<Move>): Option<Error> {
    if ms == [] then None
    else if ms[|ms| - 1].ScriptEnds? then Some(ms[|ms| - 1].result)
    else ScriptResult(ms[..|ms| - 1])
  }

  /** What the signal returned, if it did. */
  function SignalResult(ms: seq<Move>): Option<Error> {
    if ms == [] then None
    else if ms[|ms| - 1].SignalReturns? then Some(ms[|ms| - 1].result)
    else SignalResult(ms[..|ms| - 1])
  }

  /** What the moves so far say about the state. */
  predicate Explains(ms: seq<Move>, s: State) {
    && Receives(ms) + Cancels(ms) <= 1
    && (s.done <==> ContextDone in ms)
    && (match s.sender
        case Running => ScriptResult(ms) == None && Receives(ms) == 0
        case Sending(r) => ScriptResult(ms) == Some(r) && Receives(ms) == 0
        case Sent => ScriptResult(ms).Some? && Receives(ms) == 1)
    && (match s.caller
        case Selecting => Receives(ms) == 0 && Cancels(ms) == 0 && SignalResult(ms) == None
        case Signalling => s.done && Cancels(ms) == 1 && SignalResult(ms) == None
        case Returned(err) =>
          if Receives(ms) == 1
          then ScriptResult(ms).Some? && err == (if ScriptResult(ms).value == NIL then NIL else Wrap(ExecutingCommand, ScriptResult(ms).value))
          else s.done && Cancels(ms) == 1
               && SignalResult(ms).Some? && err == (if SignalResult(ms).value == NIL then NIL else Wrap(KillingCommand, SignalResult(ms).value)))
  }

  lemma {:induction false} MovesExplain(ms: seq<Move>)
    requires After(ms).Some?
    ensures Explains(ms, After(ms).value)
    decreases |ms|
  {
    hide Explains, Moved;
    if ms == [] {
      NothingMoved();
    } else {
      var front, m := ms[..|ms| - 1], ms[|ms| - 1];
      MovesExplain(front);
      assert ms == front + [m];
      MoveExplains(front, After(front).value, m);
    }
  }

  lemma NothingMoved()
    ensures Explains([], START)
  {
  }

  lemma MoveExplains(front: seq<Move>, s: State, m: Move)
    requires Explains(front, s) && Moved(s, m).Some?
    ensures Explains(front + [m], Moved(s, m).value)
  {
    assert (front + [m])[..|front|] == front;
  }

  /** The call of the session is over. */
  predicate Completes(ms: seq<Move>) {
    After(ms).Some? && After(ms).value.caller.Returned?
  }

  function ReturnedError(ms: seq<Move>): Error
    requires Completes(ms)
  {
    After(ms).value.caller.err
  }

  /**
    In every run at most one result crosses the channel, and none if the cancel branch is taken. The goroutine that sends is
    done when the call returns if and only if the cancel branch was not taken.
   */
  lemma AtMostOneResult(ms: seq<Move>)
    requires After(ms).Some?
    ensures Receives(ms) <= 1
    ensures Cancels(ms) > 0 ==> Receives(ms) == 0 && !After(ms).value.sender.Sent?
    ensures Completes(ms) ==> (After(ms).value.sender.Sent? <==> Cancels(ms) == 0)
  {
    MovesExplain(ms);
  }

  /**
    The call returns nil exactly when it received a nil result, or took the cancel branch
    and the signal was delivered; the script need not have ended then.
   */
  lemma NilExactlyWhen(ms: seq<Move>)
    requires Completes(ms)
    ensures ReturnedError(ms) == NIL
      <==> (Receives(ms) == 1 && ScriptResult(ms) == Some(NIL)) || (Cancels(ms) == 1 && SignalResult(ms) == Some(NIL))
    ensures Receives(ms) + Cancels(ms) == 1
  {
    MovesExplain(ms);
  }

  /** As long as the context is not done, nil means that the script has ended, and ended well. */
  lemma NilWithoutCancellation(ms: seq<Move>)
    requires Completes(ms) && ContextDone !in ms
    ensures ReturnedError(ms) == NIL <==> ScriptResult(ms) == Some(NIL)
    ensures After(ms).value.sender.Sent?
  {
    MovesExplain(ms);
  }

  /** The call returns what it received, or what the signal returned if it took the cancel branch, in one more layer. */
  lemma ErrorIsPassedOn(ms: seq<Move>)
    requires Completes(ms)
    ensures Cancels(ms) == 0 ==> ScriptResult(ms).Some? && PassesOn(ReturnedError(ms), ExecutingCommand, ScriptResult(ms).value)
    ensures Cancels(ms) > 0 ==> SignalResult(ms).Some? && PassesOn(ReturnedError(ms), KillingCommand, SignalResult(ms).value)
  {
    MovesExplain(ms);
    BlameLaws();
  }

  /** Nil stays nil, and any other error is carried on. */
  ghost predicate PassesOn(err: Error, context: Context, cause: Error) {
    if cause == NIL then err == NIL
    else Blames(err, context, cause) && (IsBuildFailure(err) <==> IsBuildFailure(cause))
  }

  /** When a result is waiting and the context is done, select may take either branch. */
  lemma EitherBranch(ms: seq<Move>)
    requires After(ms).Some? && After(ms).value.sender.Sending? && After(ms).value.done && After(ms).value.caller.Selecting?
    ensures After(ms + [Receive]).Some? && After(ms + [TakeCancel]).Some?
  {
    assert (ms + [Receive])[..|ms|] == ms && (ms + [TakeCancel])[..|ms|] == ms;
  }

  /** The caller can always go on once the script has ended or the context is done, and until it returns. */
  lemma CallerCanGoOn(ms: seq<Move>) returns (m: Move)
    requires After(ms).Some? && !After(ms).value.caller.Returned?
    requires !After(ms).value.sender.Running? || After(ms).value.done
    ensures After(ms + [m]).Some? && After(ms + [m]).value.caller != After(ms).value.caller
  {
    MovesExplain(ms);
    var s := After(ms).value;
    m := if s.caller.Signalling? then SignalReturns(NIL) else if s.sender.Sending? then Receive else TakeCancel;
    assert (ms + [m])[..|ms|] == ms;
  }

  /** After a delivered signal the call reports success while the script is still running. */
  lemma NilWhileRunning() returns (ms: seq<Move>)
    ensures After(ms).Some? && After(ms).value == State(Running, Returned(NIL), true)
  {
    ms := [ContextDone, TakeCancel, SignalReturns(NIL)];
    assert ms[..2] == [ContextDone, TakeCancel] && ms[..2][..1] == [ContextDone] && [ContextDone][..0] == [];
    assert After([ContextDone]) == Some(START.(done := true));
    assert After([ContextDone, TakeCancel]) == Some(State(Running, Signalling, true));
  }
}
