/** The session store of src/Context/AuthContext.tsx: one boolean flag,
    overwritten by `login` and `logout`, and the `useAuth` guard that refuses
    to run outside the provider. */
module Auth {
  import opened Common

  /** A call a component can make on the session. */
  datatype AuthCall = LoginCall | LogoutCall

  /** The flag after one call: each call overwrites it, whatever it was. */
  function Step(loggedIn: bool, call: AuthCall): bool
  {
    call == LoginCall
  }

  /** The flag after a sequence of calls, applied first to last. */
  function Replay(loggedIn: bool, calls: seq<AuthCall>): bool
    decreases |calls|
  {
    if calls == [] then loggedIn
    else Replay(Step(loggedIn, calls[0]), calls[1..])
  }

  /** `login` and `logout` are idempotent, and neither reads the prior state. */
  lemma StepIdempotent(loggedIn: bool, call: AuthCall)
    ensures Step(Step(loggedIn, call), call) == Step(loggedIn, call)
    ensures Step(loggedIn, call) == Step(!loggedIn, call)
  {
  }

  /** Replaying `a + b` is replaying `b` from where `a` left the flag. */
  lemma {:induction false} ReplayAppend(loggedIn: bool, a: seq<AuthCall>, b: seq<AuthCall>)
    ensures Replay(loggedIn, a + b) == Replay(Replay(loggedIn, a), b)
    decreases |a|
  {
    if a == [] {
      assert a + b == b;
    } else {
      assert (a + b)[0] == a[0];
      assert (a + b)[1..] == a[1..] + b;
      ReplayAppend(Step(loggedIn, a[0]), a[1..], b);
    }
  }

  /** After any non-empty sequence of calls the flag reflects the last call;
      after none it is unchanged. */
  lemma {:induction false} ReplayLastCallWins(loggedIn: bool, calls: seq<AuthCall>)
    ensures calls == [] ==> Replay(loggedIn, calls) == loggedIn
    ensures calls != [] ==> Replay(loggedIn, calls) == (calls[|calls| - 1] == LoginCall)
    decreases |calls|
  {
    if calls != [] {
      var init := calls[..|calls| - 1];
      var last := calls[|calls| - 1];
      assert calls == init + [last];
      ReplayAppend(loggedIn, init, [last]);
      assert Replay(Replay(loggedIn, init), [last]) == Step(Replay(loggedIn, init), last);
    }
  }

  /** Repeating the last call changes nothing. */
  lemma ReplayRepeatLast(loggedIn: bool, calls: seq<AuthCall>, call: AuthCall)
    ensures Replay(loggedIn, calls + [call, call]) == Replay(loggedIn, calls + [call])
  {
    ReplayLastCallWins(loggedIn, calls + [call, call]);
    ReplayLastCallWins(loggedIn, calls + [call]);
  }

  /** The state `AuthProvider` creates (useState) and hands to its children. */
  class Session {
    var isLoggedIn: bool

    /** A fresh provider starts logged out. */
    constructor ()
      ensures !isLoggedIn
    {
      isLoggedIn := false;
    }

    method Login()
      modifies this
      ensures isLoggedIn == Step(old(isLoggedIn), LoginCall)
      ensures isLoggedIn
    {
      isLoggedIn := true;
    }

    method Logout()
      modifies this
      ensures isLoggedIn == Step(old(isLoggedIn), LogoutCall)
      ensures !isLoggedIn
    {
      isLoggedIn := false;
    }
  }

  const UseAuthOutsideProvider := "useAuth must be used inside AuthProvider"

  /** `useAuth`: the nearest provider's session, or an error when there is no
      provider above the caller. */
  function UseAuth(context: Option<Session>): (r: Result<Session, string>)
    ensures r.Failure? <==> context.None?
    ensures context.Some? ==> r == Success(context.value)
    ensures r.Failure? ==> r.error == UseAuthOutsideProvider
  {
    match context
    case None => Failure(UseAuthOutsideProvider)
    case Some(session) => Success(session)
  }
}
