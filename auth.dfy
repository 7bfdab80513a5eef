/**
 * The authentication store: the session fields `user`, `isAuthenticated` and
 * `isLoading`, kept in step with a key/value secure store on the device.
 * `login` accepts only the demo credentials, `signup` accepts anything,
 * `logout` deletes the stored session and `checkAuthStatus` restores the
 * session from the stored keys.
 *
 * Every call into the secure store may throw. A fault is an explicit input:
 * `FailsAt(k)` makes the k-th secure-store call of the operation (counting
 * from 0) throw; the operation's `catch` then takes over. Nothing written
 * before the fault is rolled back.
 */
module Auth {
  import opened Wrappers

  const DEMO_EMAIL := "demo@example.com"
  const DEMO_PASSWORD := "password"
  const USER_TOKEN_KEY := "user_token"
  const USER_DATA_KEY := "user_data"

  const DEMO_USER_ID := "1"
  const DEMO_USER_NAME := "Demo User"
  const DEMO_TOKEN := "demo_token_123"
  const TOKEN_PREFIX := "token_"

  datatype User = User(id: string, email: string, name: string)

  /**
   * A value held by the secure store: a plain string, or the serialized form
   * of a user record (what `JSON.stringify(user)` writes).
   */
  datatype Stored = Text(s: string) | UserJson(user: User)

  /** JavaScript truthiness of a value read back: only the empty string is falsy. */
  predicate Truthy(v: Stored) {
    v.Text? ==> v.s != ""
  }

  /** Which secure-store call of one operation throws, if any. */
  datatype Fault = NoFault | FailsAt(call: nat)

  /** The first `n` secure-store calls of the operation return normally. */
  predicate Survives(f: Fault, n: nat) {
    f.NoFault? || n <= f.call
  }

  /** The three state fields of the store. */
  datatype Session = Session(user: Option<User>, isAuthenticated: bool, isLoading: bool)

  const INITIAL_SESSION := Session(None, false, true)
  const SIGNED_OUT := Session(None, false, false)

  /** The store's state together with the secure store's contents. */
  datatype StoreState = StoreState(session: Session, secure: map<string, Stored>)

  /** What `login`/`signup` resolve to, with the state they leave. */
  datatype Answer = Answer(ok: bool, next: StoreState)

  /** The two maps agree on every key outside `keys`. */
  ghost predicate SameExcept(m: map<string, Stored>, m': map<string, Stored>, keys: set<string>) {
    forall k :: k !in keys ==> (k in m <==> k in m') && (k in m ==> m[k] == m'[k])
  }

  /** Both session keys are stored, the token is non-empty and the user data is a serialized user. */
  predicate HasStoredSession(secure: map<string, Stored>) {
    && USER_TOKEN_KEY in secure && Truthy(secure[USER_TOKEN_KEY])
    && USER_DATA_KEY in secure && secure[USER_DATA_KEY].UserJson?
  }

  /** Authenticated exactly when a user is set. */
  predicate Coherent(s: Session) {
    s.isAuthenticated <==> s.user.Some?
  }

  function DemoUser(email: string): User {
    User(DEMO_USER_ID, email, DEMO_USER_NAME)
  }

  // ---------------------------------------------------------------------------
  // Transitions
  // ---------------------------------------------------------------------------

  /** `login`: only the demo credentials succeed, and only if both writes succeed. */
  function LoginStep(a: StoreState, email: string, password: string, f: Fault): (r: Answer)
    ensures r.ok <==> email == DEMO_EMAIL && password == DEMO_PASSWORD && Survives(f, 2)
    ensures r.ok ==> r.next.session == Session(Some(User(DEMO_USER_ID, email, DEMO_USER_NAME)), true, false)
    ensures r.ok ==> USER_TOKEN_KEY in r.next.secure && r.next.secure[USER_TOKEN_KEY] == Text(DEMO_TOKEN)
    ensures r.ok ==> USER_DATA_KEY in r.next.secure && r.next.secure[USER_DATA_KEY] == UserJson(r.next.session.user.value)
    ensures !r.ok ==> r.next.session == a.session
    ensures email != DEMO_EMAIL || password != DEMO_PASSWORD ==> r.next == a
    ensures f == FailsAt(0) ==> r.next == a
    ensures email == DEMO_EMAIL && password == DEMO_PASSWORD && f == FailsAt(1) ==>
      r.next == a.(secure := a.secure[USER_TOKEN_KEY := Text(DEMO_TOKEN)])
    ensures SameExcept(a.secure, r.next.secure, {USER_TOKEN_KEY, USER_DATA_KEY})
  {
    if email == DEMO_EMAIL && password == DEMO_PASSWORD then
      var user := DemoUser(email);
      if f == FailsAt(0) then Answer(false, a)
      else
        var withToken := a.secure[USER_TOKEN_KEY := Text(DEMO_TOKEN)];
        if f == FailsAt(1) then Answer(false, a.(secure := withToken))
        else Answer(true, StoreState(Session(Some(user), true, false), withToken[USER_DATA_KEY := UserJson(user)]))
    else
      Answer(false, a)
  }

  /** `signup`: no check on the inputs at all; it succeeds whenever both writes succeed. */
  function SignupStep(a: StoreState, email: string, password: string, name: string, stamp: string, f: Fault): (r: Answer)
    ensures r.ok <==> Survives(f, 2)
    ensures r.ok ==> r.next.session == Session(Some(User(stamp, email, name)), true, false)
    ensures r.ok ==> USER_TOKEN_KEY in r.next.secure && r.next.secure[USER_TOKEN_KEY] == Text(TOKEN_PREFIX + stamp)
    ensures r.ok ==> USER_DATA_KEY in r.next.secure && r.next.secure[USER_DATA_KEY] == UserJson(User(stamp, email, name))
    ensures !r.ok ==> r.next.session == a.session
    ensures f == FailsAt(0) ==> r.next == a
    ensures f == FailsAt(1) ==> r.next == a.(secure := a.secure[USER_TOKEN_KEY := Text(TOKEN_PREFIX + stamp)])
    ensures SameExcept(a.secure, r.next.secure, {USER_TOKEN_KEY, USER_DATA_KEY})
  {
    var user := User(stamp, email, name);
    if f == FailsAt(0) then Answer(false, a)
    else
      var withToken := a.secure[USER_TOKEN_KEY := Text(TOKEN_PREFIX + user.id)];
      if f == FailsAt(1) then Answer(false, a.(secure := withToken))
      else Answer(true, StoreState(Session(Some(user), true, false), withToken[USER_DATA_KEY := UserJson(user)]))
  }

  /** `logout`: both keys deleted and the session signed out; on a fault the session fields stay as they were. */
  function LogoutStep(a: StoreState, f: Fault): (r: StoreState)
    ensures Survives(f, 2) ==> r.session == SIGNED_OUT
    ensures Survives(f, 2) ==> USER_TOKEN_KEY !in r.secure && USER_DATA_KEY !in r.secure
    ensures !Survives(f, 2) ==> r.session == a.session
    ensures Survives(f, 1) ==> USER_TOKEN_KEY !in r.secure
    ensures f == FailsAt(0) ==> r == a
    ensures f == FailsAt(1) ==> r == a.(secure := a.secure - {USER_TOKEN_KEY})
    ensures SameExcept(a.secure, r.secure, {USER_TOKEN_KEY, USER_DATA_KEY})
  {
    if f == FailsAt(0) then a
    else
      var noToken := a.secure - {USER_TOKEN_KEY};
      if f == FailsAt(1) then a.(secure := noToken)
      else StoreState(SIGNED_OUT, noToken - {USER_DATA_KEY})
  }

  /**
   * `checkAuthStatus`: reads both keys; signed in with the stored user when
   * both are truthy and the user data parses, signed out otherwise (including
   * every fault). The secure store is only read.
   */
  function CheckStep(a: StoreState, f: Fault): (r: StoreState)
    ensures r.secure == a.secure
    ensures !r.session.isLoading
    ensures r.session.isAuthenticated <==> Survives(f, 2) && HasStoredSession(a.secure)
    ensures r.session.isAuthenticated ==> r.session.user == Some(a.secure[USER_DATA_KEY].user)
    ensures !r.session.isAuthenticated ==> r.session == SIGNED_OUT
  {
    if !Survives(f, 2) then a.(session := SIGNED_OUT)
    else
      var token := if USER_TOKEN_KEY in a.secure then Some(a.secure[USER_TOKEN_KEY]) else None;
      var userData := if USER_DATA_KEY in a.secure then Some(a.secure[USER_DATA_KEY]) else None;
      if token.Some? && Truthy(token.value) && userData.Some? && Truthy(userData.value) then
        match userData.value
        case UserJson(user) => a.(session := Session(Some(user), true, false))
        case Text(_) => a.(session := SIGNED_OUT)   // JSON.parse throws; the catch signs out
      else
        a.(session := SIGNED_OUT)
  }

  // ---------------------------------------------------------------------------
  // Properties relating several operations
  // ---------------------------------------------------------------------------

  /** The password plays no part in `signup`. */
  lemma SignupIgnoresPassword(a: StoreState, email: string, p1: string, p2: string, name: string, stamp: string, f: Fault)
    ensures SignupStep(a, email, p1, name, stamp, f) == SignupStep(a, email, p2, name, stamp, f)
  {
  }

  /** What a successful `login` stores, a later `checkAuthStatus` restores: the same session. */
  lemma LoginThenCheckRestores(a: StoreState, email: string, password: string, f: Fault)
    requires LoginStep(a, email, password, f).ok
    ensures CheckStep(LoginStep(a, email, password, f).next, NoFault) == LoginStep(a, email, password, f).next
  {
  }

  /** What a successful `signup` stores, a later `checkAuthStatus` restores: the same session. */
  lemma SignupThenCheckRestores(a: StoreState, email: string, password: string, name: string, stamp: string, f: Fault)
    requires SignupStep(a, email, password, name, stamp, f).ok
    ensures CheckStep(SignupStep(a, email, password, name, stamp, f).next, NoFault) == SignupStep(a, email, password, name, stamp, f).next
  {
  }

  /** After a complete `logout`, `checkAuthStatus` finds no session. */
  lemma LogoutThenCheckSignedOut(a: StoreState, f: Fault)
    requires Survives(f, 2)
    ensures CheckStep(LogoutStep(a, f), NoFault) == LogoutStep(a, f)
    ensures CheckStep(LogoutStep(a, f), NoFault).session == SIGNED_OUT
  {
  }

  /** A second `checkAuthStatus` changes nothing. */
  lemma CheckIdempotent(a: StoreState, f: Fault, g: Fault)
    requires Survives(f, 2) && Survives(g, 2)
    ensures CheckStep(CheckStep(a, f), g) == CheckStep(a, f)
  {
  }

  // ---------------------------------------------------------------------------
  // Arbitrary operation sequences
  // ---------------------------------------------------------------------------

  datatype AuthOp =
    | Login(email: string, password: string, fault: Fault)
    | Signup(email: string, password: string, name: string, stamp: string, fault: Fault)
    | Logout(fault: Fault)
    | CheckStatus(fault: Fault)

  function Apply(a: StoreState, op: AuthOp): StoreState {
    match op
    case Login(email, password, f) => LoginStep(a, email, password, f).next
    case Signup(email, password, name, stamp, f) => SignupStep(a, email, password, name, stamp, f).next
    case Logout(f) => LogoutStep(a, f)
    case CheckStatus(f) => CheckStep(a, f)
  }

  function Run(a: StoreState, ops: seq<AuthOp>): StoreState
    decreases |ops|
  {
    if ops == [] then a else Run(Apply(a, ops[0]), ops[1..])
  }

  lemma StepKeepsCoherent(a: StoreState, op: AuthOp)
    requires Coherent(a.session)
    ensures Coherent(Apply(a, op).session)
    ensures !a.session.isLoading ==> !Apply(a, op).session.isLoading
  {
  }

  /**
   * From any coherent state, every sequence of operations keeps
   * `isAuthenticated` equal to "a user is set", and once loading has finished
   * it never starts again.
   */
  lemma {:induction false} RunKeepsCoherent(a: StoreState, ops: seq<AuthOp>)
    requires Coherent(a.session)
    ensures Coherent(Run(a, ops).session)
    ensures !a.session.isLoading ==> !Run(a, ops).session.isLoading
    decreases |ops|
  {
    if ops != [] {
      StepKeepsCoherent(a, ops[0]);
      RunKeepsCoherent(Apply(a, ops[0]), ops[1..]);
    }
  }

  /** The user-data key, when present, holds what this store writes there: a serialized user. */
  predicate OwnData(secure: map<string, Stored>) {
    USER_DATA_KEY in secure ==> secure[USER_DATA_KEY].UserJson?
  }

  lemma StepKeepsOwnData(a: StoreState, op: AuthOp)
    requires OwnData(a.secure)
    ensures OwnData(Apply(a, op).secure)
  {
  }

  /** No sequence of operations puts anything but a serialized user under the user-data key. */
  lemma {:induction false} RunKeepsOwnData(a: StoreState, ops: seq<AuthOp>)
    requires OwnData(a.secure)
    ensures OwnData(Run(a, ops).secure)
    decreases |ops|
  {
    if ops != [] {
      StepKeepsOwnData(a, ops[0]);
      RunKeepsOwnData(Apply(a, ops[0]), ops[1..]);
    }
  }

  /**
   * Every state reachable from the initial session (`user` null, not
   * authenticated, loading) over a secure store holding only what this store
   * writes is coherent, and the secure store keeps holding only that.
   */
  lemma RunFromInitial(secure: map<string, Stored>, ops: seq<AuthOp>)
    requires OwnData(secure)
    ensures Coherent(Run(StoreState(INITIAL_SESSION, secure), ops).session)
    ensures OwnData(Run(StoreState(INITIAL_SESSION, secure), ops).secure)
  {
    RunKeepsCoherent(StoreState(INITIAL_SESSION, secure), ops);
    RunKeepsOwnData(StoreState(INITIAL_SESSION, secure), ops);
  }

  /**
   * Nothing is rolled back after a fault, so a stale session can come back:
   * signed in as `u`, a `logout` whose second delete throws keeps `u`'s data;
   * after a restart, a demo `login` whose second write throws returns false
   * but has stored a token; `checkAuthStatus` then signs in as `u`.
   */
  lemma StaleSessionAfterPartialWrites(session: Session, secure: map<string, Stored>, u: User)
    requires USER_DATA_KEY in secure && secure[USER_DATA_KEY] == UserJson(u)
    ensures var afterLogout := LogoutStep(StoreState(session, secure), FailsAt(1));
      var login := LoginStep(StoreState(INITIAL_SESSION, afterLogout.secure), DEMO_EMAIL, DEMO_PASSWORD, FailsAt(1));
      && afterLogout.session == session
      && !login.ok
      && CheckStep(login.next, NoFault).session == Session(Some(u), true, false)
  {
  }

  // ---------------------------------------------------------------------------
  // The store objects
  // ---------------------------------------------------------------------------

  /** The device's secure key/value store; every call may throw. */
  class SecureStore {
    var entries: map<string, Stored>

    constructor (entries: map<string, Stored>)
      ensures this.entries == entries
    {
      this.entries := entries;
    }

    /** `setItemAsync(key, value)` as call number `call` of an operation with fault `f`. */
    method SetItem(key: string, value: Stored, f: Fault, call: nat) returns (thrown: bool)
      modifies this
      ensures thrown <==> f == FailsAt(call)
      ensures entries == if thrown then old(entries) else old(entries)[key := value]
    {
      thrown := f == FailsAt(call);
      if !thrown {
        entries := entries[key := value];
      }
    }

    /** `deleteItemAsync(key)`; deleting a missing key is not an error. */
    method DeleteItem(key: string, f: Fault, call: nat) returns (thrown: bool)
      modifies this
      ensures thrown <==> f == FailsAt(call)
      ensures entries == if thrown then old(entries) else old(entries) - {key}
    {
      thrown := f == FailsAt(call);
      if !thrown {
        entries := entries - {key};
      }
    }

    /** `getItemAsync(key)`: the stored value, or none when the key is absent. */
    method GetItem(key: string, f: Fault, call: nat) returns (thrown: bool, value: Option<Stored>)
      ensures thrown <==> f == FailsAt(call)
      ensures !thrown ==> (value.Some? <==> key in entries)
      ensures !thrown && key in entries ==> value == Some(entries[key])
    {
      thrown := f == FailsAt(call);
      value := if key in entries then Some(entries[key]) else None;
    }
  }

  /** The zustand auth store, driving a secure store. */
  class AuthStore {
    var user: Option<User>
    var isAuthenticated: bool
    var isLoading: bool
    const store: SecureStore

    function Model(): StoreState
      reads this, store
    {
      StoreState(Session(user, isAuthenticated, isLoading), store.entries)
    }

    constructor (store: SecureStore)
      ensures this.store == store
      ensures Model() == StoreState(INITIAL_SESSION, store.entries)
    {
      user := None;
      isAuthenticated := false;
      isLoading := true;
      this.store := store;
    }

    method Login(email: string, password: string, f: Fault) returns (ok: bool)
      modifies this, store
      ensures Answer(ok, Model()) == LoginStep(old(Model()), email, password, f)
    {
      if email == DEMO_EMAIL && password == DEMO_PASSWORD {
        var u := User(DEMO_USER_ID, email, DEMO_USER_NAME);
        var thrown := store.SetItem(USER_TOKEN_KEY, Text(DEMO_TOKEN), f, 0);
        if thrown {
          return false;
        }
        thrown := store.SetItem(USER_DATA_KEY, UserJson(u), f, 1);
        if thrown {
          return false;
        }
        user, isAuthenticated, isLoading := Some(u), true, false;
        return true;
      }
      return false;
    }

    /** `stamp` is the decimal clock reading the source uses as the new user's id. */
    method Signup(email: string, password: string, name: string, stamp: string, f: Fault) returns (ok: bool)
      modifies this, store
      ensures Answer(ok, Model()) == SignupStep(old(Model()), email, password, name, stamp, f)
    {
      var u := User(stamp, email, name);
      var thrown := store.SetItem(USER_TOKEN_KEY, Text(TOKEN_PREFIX + u.id), f, 0);
      if thrown {
        return false;
      }
      thrown := store.SetItem(USER_DATA_KEY, UserJson(u), f, 1);
      if thrown {
        return false;
      }
      user, isAuthenticated, isLoading := Some(u), true, false;
      return true;
    }

    method Logout(f: Fault)
      modifies this, store
      ensures Model() == LogoutStep(old(Model()), f)
    {
      var thrown := store.DeleteItem(USER_TOKEN_KEY, f, 0);
      if thrown {
        return;
      }
      thrown := store.DeleteItem(USER_DATA_KEY, f, 1);
      if thrown {
        return;
      }
      user, isAuthenticated, isLoading := None, false, false;
    }

    method CheckAuthStatus(f: Fault)
      modifies this
      ensures Model() == CheckStep(old(Model()), f)
    {
      var thrown, token := store.GetItem(USER_TOKEN_KEY, f, 0);
      if thrown {
        user, isAuthenticated, isLoading := None, false, false;
        return;
      }
      var userData;
      thrown, userData := store.GetItem(USER_DATA_KEY, f, 1);
      if thrown {
        user, isAuthenticated, isLoading := None, false, false;
        return;
      }
      if token.Some? && Truthy(token.value) && userData.Some? && Truthy(userData.value) {
        match userData.value {
          case UserJson(u) =>
            user, isAuthenticated, isLoading := Some(u), true, false;
          case Text(_) =>
            // JSON.parse rejects the text; the catch signs out
            user, isAuthenticated, isLoading := None, false, false;
        }
      } else {
        user, isAuthenticated, isLoading := None, false, false;
      }
    }
  }
}
