/** The session state machine of `AuthProvider`: `token`, `user`, `loading` and the token kept
    in local storage under `auth_token`. */
module AuthStore {
  import opened Wrappers
  import Forms
  import opened Session

  /** The answer of `GET /auth/me`: OK with the user, a non-OK status, or a fetch that throws. */
  datatype VerifyReply = Verified(user: User) | Rejected | Unreachable

  /** The answer of `POST /auth/signin` or `/auth/signup`: OK with `{ token, user }`, a non-OK
      status whose body carries `error` ("" when it has none), or a fetch that throws with
      `message`. */
  datatype AuthReply = Accepted(token: string, user: User) | Refused(error: string) | Offline(message: string)

  /** What `signin`/`signup` hand back: the response data, or the error they throw. */
  datatype AuthResult = SignedIn(token: string, user: User) | Failed(message: string)

  /** The outcome of a sign-in or sign-up whose generic failure text is `fallback`
      ("Signin failed" or "Signup failed"). */
  function Outcome(reply: AuthReply, fallback: string): (r: AuthResult)
    ensures r.SignedIn? <==> reply.Accepted?
    ensures reply.Accepted? ==> r == SignedIn(reply.token, reply.user)
    ensures reply.Refused? ==> r.message == (if reply.error != "" then reply.error else fallback)
    ensures reply.Offline? ==> r.message == reply.message
  {
    match reply
    case Accepted(t, u) => SignedIn(t, u)
    case Refused(e) => Failed(Forms.ErrorText(e, fallback))
    case Offline(m) => Failed(m)
  }

  const SigninFallback := "Signin failed"
  const SignupFallback := "Signup failed"

  datatype AuthRequest = Me(token: string) | SignUp(email: string, password: string, name: string) | SignIn(email: string, password: string)

  class Auth {
    var user: Option<User>
    /** The token; "" stands for `null`. */
    var token: string
    var loading: bool
    ghost var stored: string
    ghost var requests: seq<AuthRequest>

    /** The token in state and the one in local storage never disagree. */
    ghost predicate Valid()
      reads this
    {
      stored == token
    }

    /** `localStorage.getItem("auth_token") || null` (a read that throws is `saved == ""`),
        no user yet, and `loading` true until the mount effect has run. */
    constructor (saved: string)
      ensures Valid() && token == saved && user.None? && loading && requests == []
    {
      token := saved;
      stored := saved;
      user := None;
      loading := true;
      requests := [];
    }

    /** `user && token`, the condition under which the stores reach the backend. */
    function Bearer(): (s: Option<string>)
      reads this
      ensures s == BearerOf(user, token)
    {
      BearerOf(user, token)
    }

    /** The mount effect: with a token, verify it against `/auth/me`; without one, stop loading
        and ask nothing. */
    method Mount(reply: VerifyReply)
      requires Valid()
      modifies this
      ensures Valid() && !loading
      ensures old(token) == "" ==> token == "" && user == old(user) && requests == old(requests)
      ensures old(token) != "" ==> requests == old(requests) + [Me(old(token))]
      ensures old(token) != "" && reply.Verified? ==> user == Some(reply.user) && token == old(token)
      ensures old(token) != "" && reply.Rejected? ==> token == "" && stored == "" && user == old(user)
      ensures old(token) != "" && reply.Unreachable? ==> token == old(token) && user == old(user)
    {
      if token != "" {
        VerifyToken(token, reply);
      } else {
        loading := false;
      }
    }

    /** `verifyToken(tok)`: an OK reply sets the user; a non-OK one drops the token here and in
        storage; a network error changes nothing; `loading` ends false in every case. */
    method VerifyToken(tok: string, reply: VerifyReply)
      requires Valid()
      modifies this
      ensures Valid() && !loading
      ensures requests == old(requests) + [Me(tok)]
      ensures reply.Verified? ==> user == Some(reply.user) && token == old(token)
      ensures reply.Rejected? ==> token == "" && stored == "" && user == old(user)
      ensures reply.Unreachable? ==> token == old(token) && user == old(user)
    {
      requests := requests + [Me(tok)];
      if reply.Verified? {
        user := Some(reply.user);
      } else if reply.Rejected? {
        token := "";
        stored := "";
      }
      loading := false;
    }

    /** Success stores the new token and user; failure leaves the state alone. */
    method Finish(r: AuthResult)
      requires Valid()
      modifies this
      ensures Valid() && loading == old(loading) && requests == old(requests)
      ensures r.SignedIn? ==> token == r.token && user == Some(r.user)
      ensures r.Failed? ==> token == old(token) && user == old(user)
    {
      if r.SignedIn? {
        token := r.token;
        user := Some(r.user);
        stored := r.token;
      }
    }

    /** `signup(email, password, name)`. */
    method Signup(email: string, password: string, name: string, reply: AuthReply) returns (r: AuthResult)
      requires Valid()
      modifies this
      ensures Valid() && loading == old(loading)
      ensures r == Outcome(reply, SignupFallback)
      ensures requests == old(requests) + [SignUp(email, password, name)]
      ensures r.SignedIn? ==> token == r.token && user == Some(r.user) && stored == r.token
      ensures r.Failed? ==> token == old(token) && user == old(user)
    {
      requests := requests + [SignUp(email, password, name)];
      r := Outcome(reply, SignupFallback);
      Finish(r);
    }

    /** `signin(email, password)`. */
    method Signin(email: string, password: string, reply: AuthReply) returns (r: AuthResult)
      requires Valid()
      modifies this
      ensures Valid() && loading == old(loading)
      ensures r == Outcome(reply, SigninFallback)
      ensures requests == old(requests) + [SignIn(email, password)]
      ensures r.SignedIn? ==> token == r.token && user == Some(r.user) && stored == r.token
      ensures r.Failed? ==> token == old(token) && user == old(user)
    {
      requests := requests + [SignIn(email, password)];
      r := Outcome(reply, SigninFallback);
      Finish(r);
    }

    /** `logout()`: token, user and the stored token are all cleared, so the stores stop
        reaching the backend. */
    method Logout()
      requires Valid()
      modifies this
      ensures Valid() && token == "" && user.None? && stored == ""
      ensures loading == old(loading) && requests == old(requests)
      ensures Bearer().None?
    {
      token := "";
      user := None;
      stored := "";
    }
  }
}
