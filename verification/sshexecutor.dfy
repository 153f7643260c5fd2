/**
  The SSH executor: connect, run one script in one session, and release everything in
  deferred calls, over any number of Execute calls on the same executor.
 */
module SshExecutor {
  import opened Options
  import opened Errors
  import opened Protocol
  import opened Decimal
  import Session

  type Id = nat

  /** Whom to connect to, and as whom. */
  datatype Target = Target(host: string, port: int, user: string, key: Bytes)

  /** What the libraries answer during one call: errors, and how the session goes if one is opened. */
  datatype Answers = Answers(key: Error, dial: Error, open: Error, session: seq<Session.Move>, disconnect: Error)

  datatype Event =
    | Dialled(client: Id, address: string, user: string, key: Bytes)
    | DialFailed
    | Opened(client: Id, session: Id)
    | OpenFailed(client: Id)
    | Ran(client: Id, session: Id, script: Bytes, err: Error)
    | Closed(client: Id, session: Id)
    | Disconnected(client: Id, ok: bool)

  /** What is currently open. */
  datatype Phase = Free | Connected(client: Id) | InSession(client: Id, session: Id) | AfterSession(client: Id)

  datatype Scan = Scan(phase: Phase, clients: nat, sessions: nat)

  /** One event more; None if it is out of order. Clients and sessions are numbered as they come. */
  function Next(s: Scan, e: Event): Option<Scan> {
    match e
    case Dialled(c, _, _, _) =>
      if s.phase.Free? && c == s.clients then Some(Scan(Connected(c), c + 1, s.sessions)) else None
    case DialFailed =>
      if s.phase.Free? then Some(s) else None
    case Opened(c, n) =>
      if s.phase == Connected(c) && n == s.sessions then Some(Scan(InSession(c, n), s.clients, n + 1)) else None
    case OpenFailed(c) =>
      if s.phase == Connected(c) then Some(s.(phase := AfterSession(c))) else None
    case Ran(c, n, _, _) =>
      if s.phase == InSession(c, n) then Some(s) else None
    case Closed(c, n) =>
      if s.phase == InSession(c, n) then Some(s.(phase := AfterSession(c))) else None
    case Disconnected(c, _) =>
      if s.phase == AfterSession(c) then Some(s.(phase := Free)) else None
  }

  /** Where the log leaves off, if its events are in order. */
  function Scanned(log: seq<Event>): Option<Scan> {
    if log == [] then Some(Scan(Free, 0, 0))
    else
      match Scanned(log[..|log| - 1])
      case None => None
      case Some(s) => Next(s, log[|log| - 1])
  }

  lemma ScannedAppend(log: seq<Event>, e: Event)
    ensures Scanned(log + [e]) == if Scanned(log).None? then None else Next(Scanned(log).value, e)
  {
    assert (log + [e])[..|log|] == log;
  }

  function Dials(log: seq<Event>, c: Id): nat {
    if log == [] then 0 else Dials(log[..|log| - 1], c) + if log[|log| - 1].Dialled? && log[|log| - 1].client == c then 1 else 0
  }

  function Disconnects(log: seq<Event>, c: Id): nat {
    if log == [] then 0
    else Disconnects(log[..|log| - 1], c) + if log[|log| - 1].Disconnected? && log[|log| - 1].client == c then 1 else 0
  }

  function Opens(log: seq<Event>, n: Id): nat {
    if log == [] then 0
    else Opens(log[..|log| - 1], n) + if log[|log| - 1].Opened? && log[|log| - 1].session == n then 1 else 0
  }

  function Closes(log: seq<Event>, n: Id): nat {
    if log == [] then 0
    else Closes(log[..|log| - 1], n) + if log[|log| - 1].Closed? && log[|log| - 1].session == n then 1 else 0
  }

  /** An ordered log dials each client once, and has disconnected it once unless it is the current one. */
  lemma {:induction false} ClientsBalance(log: seq<Event>, c: Id)
    requires Scanned(log).Some?
    ensures
      var s := Scanned(log).value;
      && Dials(log, c) == (if c < s.clients then 1 else 0)
      && Disconnects(log, c) == (if c < s.clients && (s.phase.Free? || s.phase.client != c) then 1 else 0)
      && (!s.phase.Free? ==> s.phase.client < s.clients)
    decreases |log|
  {
    if log != [] {
      ClientsBalance(log[..|log| - 1], c);
    }
  }

  /** And it opens each session once, and has closed it once unless it is the current one. */
  lemma {:induction false} SessionsBalance(log: seq<Event>, n: Id)
    requires Scanned(log).Some?
    ensures
      var s := Scanned(log).value;
      && Opens(log, n) == (if n < s.sessions then 1 else 0)
      && Closes(log, n) == (if n < s.sessions && !(s.phase.InSession? && s.phase.session == n) then 1 else 0)
      && (s.phase.InSession? ==> s.phase.session < s.sessions)
    decreases |log|
  {
    if log != [] {
      SessionsBalance(log[..|log| - 1], n);
    }
  }

  /** Once the executor is free again, whatever was acquired was released exactly once. */
  lemma EverythingReleased(log: seq<Event>, id: Id)
    requires Scanned(log).Some? && Scanned(log).value.phase.Free?
    ensures Dials(log, id) == Disconnects(log, id) <= 1
    ensures Opens(log, id) == Closes(log, id) <= 1
  {
    ClientsBalance(log, id);
    SessionsBalance(log, id);
  }

  /** A prefix of an ordered log is ordered. */
  lemma {:induction false} PrefixIsOrdered(log: seq<Event>, i: nat)
    requires Scanned(log).Some? && i <= |log|
    ensures Scanned(log[..i]).Some?
    decreases |log|
  {
    if i < |log| {
      PrefixIsOrdered(log[..|log| - 1], i);
      assert log[..|log| - 1][..i] == log[..i];
    } else {
      assert log[..i] == log;
    }
  }

  /**
    A script runs only on a client that was dialled before and is not disconnected yet, in a session that
    was opened on it and is not closed yet; a session is closed before its client is disconnected.
   */
  lemma OrderOfUse(log: seq<Event>, i: nat)
    requires Scanned(log).Some? && i < |log|
    ensures log[i].Ran? ==>
      && Dials(log[..i], log[i].client) == 1 && Disconnects(log[..i], log[i].client) == 0
      && Opens(log[..i], log[i].session) == 1 && Closes(log[..i], log[i].session) == 0
    ensures log[i].Disconnected? ==> forall n :: Opens(log[..i], n) == Closes(log[..i], n)
  {
    PrefixIsOrdered(log, i);
    PrefixIsOrdered(log, i + 1);
    assert log[..i + 1][..i] == log[..i];
    if log[i].Ran? {
      ClientsBalance(log[..i], log[i].client);
      SessionsBalance(log[..i], log[i].session);
    }
    if log[i].Disconnected? {
      forall n ensures Opens(log[..i], n) == Closes(log[..i], n) { SessionsBalance(log[..i], n); }
    }
  }

  class Executor {
    var client: Option<Id>
    ghost var log: seq<Event>
    var clients: nat             // dialled so far; the next one gets this number
    ghost var sessions: nat

    /** Between calls nothing is open, and a client that is still held is one whose Disconnect failed. */
    ghost predicate Valid()
      reads this
    {
      && Scanned(log) == Some(Scan(Free, clients, sessions))
      && (client.Some? ==> Disconnected(client.value, false) in log)
    }

    constructor ()
      ensures Valid() && log == [] && client == None
    {
      client, log, clients, sessions := None, [], 0, 0;
    }

    method Connect(target: Target, answers: Answers) returns (err: Error)
      requires Valid()
      modifies this
      ensures sessions == old(sessions)
      ensures answers.key != NIL ==>
        err == [InvalidKey] + answers.key && log == old(log) && client == old(client) && clients == old(clients)
      ensures answers.key == NIL && answers.dial != NIL ==>
        err == Wrap(ConnectingAs, answers.dial) && log == old(log) + [DialFailed] && client == old(client) && clients == old(clients)
      ensures err != NIL ==> Valid()
      ensures answers.key == NIL && answers.dial == NIL ==>
        && err == NIL && client == Some(old(clients)) && clients == old(clients) + 1
        && log == old(log) + [Dialled(old(clients), target.host + ":" + Print(target.port), target.user, target.key)]
        && Scanned(log) == Some(Scan(Connected(old(clients)), clients, sessions))
    {
      if answers.key != NIL {
        return [InvalidKey] + answers.key;
      }
      var address := target.host + ":" + Print(target.port);
      if answers.dial != NIL {
        ScannedAppend(log, DialFailed);
        log := log + [DialFailed];
        return Wrap(ConnectingAs, answers.dial);
      }
      ScannedAppend(log, Dialled(clients, address, target.user, target.key));
      log := log + [Dialled(clients, address, target.user, target.key)];
      client := Some(clients);
      clients := clients + 1;
      return NIL;
    }

    method Disconnect(answers: Answers) returns (err: Error)
      modifies this
      ensures clients == old(clients) && sessions == old(sessions)
      ensures old(client).None? ==> err == NIL && client == None && log == old(log)
      ensures old(client).Some? ==>
        && err == (if answers.disconnect == NIL then NIL else Wrap(Disconnecting, answers.disconnect))
        && log == old(log) + [Disconnected(old(client).value, answers.disconnect == NIL)]
        && client == (if answers.disconnect == NIL then None else old(client))
        && (old(Scanned(log)) == Some(Scan(AfterSession(old(client).value), clients, sessions)) ==> Valid())
    {
      if client.None? {
        return NIL;
      }
      var e := answers.disconnect;
      ScannedAppend(log, Disconnected(client.value, e == NIL));
      log := log + [Disconnected(client.value, e == NIL)];
      assert log[|log| - 1] == Disconnected(client.value, e == NIL);
      if e != NIL {
        return Wrap(Disconnecting, e);
      }
      client := None;
      return NIL;
    }

    method ExecuteScript(script: Bytes, answers: Answers) returns (err: Error)
      requires Session.Completes(answers.session)
      modifies this
      ensures client == old(client) && clients == old(clients)
      ensures client.None? ==> err == [Leaf(NotConnected)] && log == old(log) && sessions == old(sessions)
      ensures client.Some? && answers.open != NIL ==>
        err == Wrap(CreatingSession, answers.open) && log == old(log) + [OpenFailed(client.value)] && sessions == old(sessions)
      ensures client.Some? && answers.open == NIL ==>
        && var c, n, e := client.value, old(sessions), Session.ReturnedError(answers.session);
           && err == (if e == NIL then NIL else Wrap(ExecutingRemoteScript, e)) && sessions == n + 1
           && log == old(log) + [Opened(c, n), Ran(c, n, script, e), Closed(c, n)]
      ensures client.Some? && old(Scanned(log)) == Some(Scan(Connected(client.value), clients, old(sessions))) ==>
        Scanned(log) == Some(Scan(AfterSession(client.value), clients, sessions))
    {
      hide Scanned;
      if client.None? {
        return [Leaf(NotConnected)];
      }
      if answers.open != NIL {
        ScannedAppend(log, OpenFailed(client.value));
        log := log + [OpenFailed(client.value)];
        return Wrap(CreatingSession, answers.open);
      }
      ghost var n := sessions;
      sessions := sessions + 1;
      ScannedAppend(log, Opened(client.value, n));
      log := log + [Opened(client.value, n)];
      var runErr := Session.ReturnedError(answers.session);
      ScannedAppend(log, Ran(client.value, n, script, runErr));
      log := log + [Ran(client.value, n, script, runErr)];
      err := if runErr != NIL then Wrap(ExecutingRemoteScript, runErr) else NIL;
      ScannedAppend(log, Closed(client.value, n));
      log := log + [Closed(client.value, n)];      // deferred
    }

    /**
      One Execute call. It dials the target once, runs the script on that client and no other, and ends with a Disconnect
      attempt on it. Its error is that of the first step that failed, so a failing Disconnect is
      reported exactly when everything else went well.
     */
    method Execute(target: Target, script: Bytes, answers: Answers) returns (err: Error)
      requires Valid() && Session.Completes(answers.session)
      modifies this
      ensures Valid()
      ensures
        var c, n, e, ok := old(clients), old(sessions), Session.ReturnedError(answers.session), answers.disconnect == NIL;
        var dialled := Dialled(c, target.host + ":" + Print(target.port), target.user, target.key);
        log == old(log) +
          if answers.key != NIL then []
          else if answers.dial != NIL then [DialFailed]
          else if answers.open != NIL then [dialled, OpenFailed(c), Disconnected(c, ok)]
          else [dialled, Opened(c, n), Ran(c, n, script, e), Closed(c, n), Disconnected(c, ok)]
      ensures client ==
        if answers.key != NIL || answers.dial != NIL then old(client)
        else if answers.disconnect == NIL then None
        else Some(old(clients))
      ensures err == NIL <==> FirstError(answers) == NIL
      ensures answers.key != NIL ==> Blames(err, ConnectingServer, answers.key) && InvalidKey in err
      ensures answers.key == NIL && answers.dial != NIL ==> Blames(err, ConnectingServer, answers.dial)
      ensures answers.key == NIL && answers.dial == NIL && answers.open != NIL ==> Blames(err, ExecutingScript, answers.open)
      ensures answers.key == NIL && answers.dial == NIL && answers.open == NIL && Session.ReturnedError(answers.session) != NIL ==>
        Blames(err, ExecutingScript, Session.ReturnedError(answers.session))
      ensures err != NIL && err[0] == Fmt(Disconnecting) <==>
        && answers.key == NIL && answers.dial == NIL && answers.open == NIL && Session.ReturnedError(answers.session) == NIL
        && answers.disconnect != NIL
      ensures err != NIL && err[0] == Fmt(Disconnecting) ==> Blames(err, Disconnecting, answers.disconnect)
      ensures IsBuildFailure(err) <==> IsBuildFailure(FirstError(answers))
    {
      hide Scanned, IsBuildFailure, Print, Blames;
      BlameLaws();
      LayersClassifyAsInner();
      err := Connect(target, answers);
      if err != NIL {
        KeyIsBlamed(answers.key);
        return Wrap(ConnectingServer, err);
      }
      err := ExecuteScript(script, answers);
      if err != NIL {
        err := Wrap(ExecutingScript, err);
      }
      var disconnectErr := Disconnect(answers);      // deferred
      if err == NIL && disconnectErr != NIL {
        err := Wrap(Disconnecting, disconnectErr);
      }
    }
  }

  /** The error of the first step that failed: the key, the dial, the session, the script, the Disconnect. */
  function FirstError(answers: Answers): Error
    requires Session.Completes(answers.session)
  {
    if answers.key != NIL then answers.key
    else if answers.dial != NIL then answers.dial
    else if answers.open != NIL then answers.open
    else if Session.ReturnedError(answers.session) != NIL then Session.ReturnedError(answers.session)
    else answers.disconnect
  }

  lemma KeyIsBlamed(e: Error)
    ensures Blames(Wrap(ConnectingServer, [InvalidKey] + e), ConnectingServer, e)
    ensures InvalidKey in Wrap(ConnectingServer, [InvalidKey] + e)
    ensures IsBuildFailure([InvalidKey] + e) <==> IsBuildFailure(e)
  {
    assert Wrap(ConnectingServer, [InvalidKey] + e)[2..] == e;
    assert Wrap(ConnectingServer, [InvalidKey] + e)[1] == InvalidKey;
  }

  lemma LayersClassifyAsInner()
    ensures forall c, e: Error :: IsBuildFailure(Wrap(c, e)) <==> IsBuildFailure(e)
    ensures !IsBuildFailure(NIL)
  {
  }

  /** What the libraries reported during one call. */
  ghost function LibraryErrors(answers: Answers): set<Error> {
    {answers.key, answers.dial, answers.open, answers.disconnect}
    + (if Session.ScriptResult(answers.session).Some? then {Session.ScriptResult(answers.session).value} else {})
    + (if Session.SignalResult(answers.session).Some? then {Session.SignalResult(answers.session).value} else {})
  }

  /** Neither the executor nor the session makes a build failure of its own. */
  lemma NoneOfItsOwn(answers: Answers)
    requires Session.Completes(answers.session) && IsBuildFailure(FirstError(answers))
    ensures exists e :: e in LibraryErrors(answers) && IsBuildFailure(e)
  {
    Session.ErrorIsPassedOn(answers.session);
    hide Session.ReturnedError, Session.Completes, Session.ScriptResult, Session.SignalResult, Session.Cancels;
    var e := FirstError(answers);
    if e !in LibraryErrors(answers) {
      if Session.Cancels(answers.session) == 0 {
        assert Session.ScriptResult(answers.session).value in LibraryErrors(answers);
      } else {
        assert Session.SignalResult(answers.session).value in LibraryErrors(answers);
      }
    }
  }

  /** As long as the context is not done, success means that the script ended well, on a client that was then disconnected. */
  lemma SuccessMeans(answers: Answers)
    requires Session.Completes(answers.session) && Session.ContextDone !in answers.session
    ensures FirstError(answers) == NIL <==>
      && answers.key == NIL && answers.dial == NIL && answers.open == NIL && answers.disconnect == NIL
      && Session.ScriptResult(answers.session) == Some(NIL)
  {
    Session.NilWithoutCancellation(answers.session);
  }
}
