/**
  Go error chains. An error value is the sequence of links that repeated
  `errors.Unwrap` visits, outermost first; the nil error is the empty sequence.
 */
module Errors {

  /** Errors the driver makes itself, and those it gets from the libraries below it. */
  datatype LeafKind =
    | NotExist | NotEncodable | NotDecodable | MissingArguments | NotConnected | NotInitialized | NotParsable
    | External(code: nat)

  /** The message a layer of the driver puts in front of the error it passes on. */
  datatype Context =
    | InitializingPrepare | InitializingCleanup | InitializingFargate | GeneratingKeys
    | StartingTask | RunningTask | PersistingArn | PersistingIp | WaitingReady | WaitingRunning | FetchingIp
    | PersistingMetadata | EncodingData | WritingFile | AccessingFile | ReadingFile | DecodingData | DeletingFile
    | ObtainingTask | FetchingData | StoppingTask | DeletingMetadata
    | ReadingScript | ExecutingRemotely | ExecutingOnContainer
    | ConnectingServer | ConnectingAs | ExecutingScript | CreatingSession | ExecutingRemoteScript | Disconnecting
    | ExecutingCommand | KillingCommand
    | CreatingAwsSession | CallingFargate | AccessingTask | DescribingTask | FetchingPublicIp | ReadingInterfaces
    | HookFailure | InitializingAdapter | ParsingExitCode | ParsingInt64

  datatype Link =
    | Leaf(kind: LeafKind)      // an error without Unwrap
    | Fmt(context: Context)     // fmt.Errorf("context: %w", inner)
    | BuildFailure              // *runner.BuildFailureError
    | InvalidKey                // *ssh.errInvalidPrivateKey and *ssh.ErrInvalidPrivateKey
    | WriteConfig               // *custom.errWriteConfig

  type Error = seq<Link>

  const NIL: Error := []

  function Wrap(context: Context, inner: Error): Error {
    [Fmt(context)] + inner
  }

  /** The `Is` method of one link, for a freshly allocated target (so never pointer-equal to it). */
  predicate LinkIs(link: Link, target: Link) {
    match link
    case Leaf(_) => false
    case Fmt(_) => false
    case BuildFailure => target.BuildFailure?
    case InvalidKey => target.InvalidKey?
    case WriteConfig => target.WriteConfig?
  }

  /** `errors.Is`: ask each link of the chain in turn, unwrapping until nil. */
  method Is(err: Error, target: Link) returns (found: bool)
    ensures found <==> exists i :: 0 <= i < |err| && LinkIs(err[i], target)
  {
    var rest := err;
    while rest != NIL
      invariant |rest| <= |err| && rest == err[|err| - |rest|..]
      invariant forall i :: 0 <= i < |err| - |rest| ==> !LinkIs(err[i], target)
      decreases |rest|
    {
      if LinkIs(rest[0], target) {
        return true;
      }
      rest := rest[1..];
    }
    return false;
  }

  /** Some link of the chain is a BuildFailureError. */
  ghost predicate IsBuildFailure(err: Error) {
    BuildFailure in err
  }

  lemma WrapClassifiesAsInner(context: Context, inner: Error)
    ensures IsBuildFailure(Wrap(context, inner)) <==> IsBuildFailure(inner)
  {
  }

  /** The chain ends with `inner`: every link of `inner` is still reachable by unwrapping. */
  ghost predicate Carries(err: Error, inner: Error) {
    |inner| <= |err| && err[|err| - |inner|..] == inner
  }

  lemma WrapCarries(context: Context, err: Error, inner: Error)
    requires Carries(err, inner)
    ensures Carries(Wrap(context, err), inner)
  {
    assert Wrap(context, err)[|err| + 1 - |inner|..] == err[|err| - |inner|..];
  }

  /** `err` says in which step the failure was, and still carries what was wrong there. */
  ghost predicate Blames(err: Error, context: Context, cause: Error) {
    err != NIL && err[0] == Fmt(context) && Carries(err, cause)
  }

  lemma BlamesOnce(a: Context, cause: Error)
    ensures Blames(Wrap(a, cause), a, cause)
  {
    assert Wrap(a, cause)[1..] == cause;
  }

  lemma BlamesTwice(a: Context, b: Context, cause: Error)
    ensures Blames(Wrap(a, Wrap(b, cause)), a, cause)
  {
    assert Wrap(a, Wrap(b, cause))[2..] == cause;
  }

  lemma BlamesThrice(a: Context, b: Context, c: Context, cause: Error)
    ensures Blames(Wrap(a, Wrap(b, Wrap(c, cause))), a, cause)
  {
    assert Wrap(a, Wrap(b, Wrap(c, cause)))[3..] == cause;
  }

  lemma BlameLaws()
    ensures forall a, c: Error :: Blames(Wrap(a, c), a, c)
    ensures forall a, b, c: Error :: Blames(Wrap(a, Wrap(b, c)), a, c)
    ensures forall a, b, d, c: Error :: Blames(Wrap(a, Wrap(b, Wrap(d, c))), a, c)
  {
    forall a, c: Error ensures Blames(Wrap(a, c), a, c) { BlamesOnce(a, c); }
    forall a, b, c: Error ensures Blames(Wrap(a, Wrap(b, c)), a, c) { BlamesTwice(a, b, c); }
    forall a, b, d, c: Error ensures Blames(Wrap(a, Wrap(b, Wrap(d, c))), a, c) { BlamesThrice(a, b, d, c); }
  }

  /** One more layer carries what the error below it carries. */
  lemma BlamesInside(a: Context, err: Error, b: Context, cause: Error)
    requires Blames(err, b, cause)
    ensures Blames(Wrap(a, err), a, cause)
  {
    WrapCarries(a, err, cause);
  }
}
