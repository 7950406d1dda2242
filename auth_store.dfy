/**
 * The session cache (src/stores/authStore.ts): an anonymous or authenticated
 * session whose token and user id are persisted under two fixed keys of the
 * browser's key-value storage, modelled as a map the store owns.
 *
 * Propagating the actor to the other stores starts with `eventStore.setActor`,
 * which the Event store does not export (eventStore.ts:110-126).  That call
 * throws a TypeError: in `login` it lands in the catch (authStore.ts:57-58)
 * after the token, user id, email and storage are already written, so the
 * Duty store's `setActor` and `loadMyEvents` are never reached; in
 * `loadFromStorage` the empty catch swallows it.  No other store is changed.
 */
module Auth {
  import opened Wrappers
  import opened Api

  const TokenKey: string := "crewcall_token"
  const UserIdKey: string := "crewcall_userId"
  const LoginFailed: string := "Login failed"
  const LogInFailed: string := "Log In Failed"
  const RegistrationFailed: string := "Registration failed"
  const AccountCreated: string := "Account created, please log in"

  /** `localStorage.getItem(key)` as `if (x)` sees it: a present, non-empty value. */
  function Stored(storage: map<string, string>, key: string): (r: Option<string>)
    ensures r.Some? <==> key in storage && storage[key] != ""
    ensures r.Some? ==> r.value == storage[key]
  {
    if key in storage && storage[key] != "" then Some(storage[key]) else None
  }

  /** Writing a non-empty value makes it read back; removing a key makes it
      read as absent; writing or removing one key leaves the others as they read. */
  lemma StoredRoundTrip(m: map<string, string>, k: string, k2: string, v: string)
    ensures v != "" ==> Stored(m[k := v], k) == Some(v)
    ensures Stored(m - {k}, k) == None
    ensures k != k2 ==> Stored(m[k := v], k2) == Stored(m, k2) && Stored(m - {k}, k2) == Stored(m, k2)
  {
  }

  /** The body of a `login` reply; "" stands for a missing field. */
  datatype LoginData = LoginData(token: string, userId: string, error: string)

  /** The body of a `createAccount` reply; "" stands for a missing field. */
  datatype RegisterData = RegisterData(created: Scalar, message: string, error: string)

  class AuthStore {
    var token: Option<string>
    var userId: Option<string>
    var email: string
    var loading: bool
    var error: Option<string>
    var success: Option<string>
    /** The browser's key-value storage. */
    var storage: map<string, string>

    /** The session is what a restart would restore from storage. */
    predicate Valid()
      reads this
    {
      token == Stored(storage, TokenKey) && userId == Stored(storage, UserIdKey)
    }

    /** `!!token.value`. */
    predicate IsAuthed()
      reads this
      ensures IsAuthed() ==> token.Some?
    {
      token.Some? && token.value != ""
    }

    /** The store runs loadFromStorage when it is created. */
    constructor(persisted: map<string, string>)
      ensures Valid() && storage == persisted
      ensures token == Stored(persisted, TokenKey) && userId == Stored(persisted, UserIdKey)
      ensures email == "" && !loading && error == None && success == None
    {
      token, userId, email := None, None, "";
      loading, error, success := false, None, None;
      storage := persisted;
      new;
      var _ := LoadFromStorage();
    }

    /**
     * loadFromStorage: each of token and user id is restored on its own when
     * its key holds a value; only when both do is propagation attempted,
     * which throws at `eventStore.setActor` into the empty catch.
     */
    method LoadFromStorage() returns (propagationAttempted: bool)
      modifies this`token, this`userId
      ensures token == if Stored(storage, TokenKey).Some? then Stored(storage, TokenKey) else old(token)
      ensures userId == if Stored(storage, UserIdKey).Some? then Stored(storage, UserIdKey) else old(userId)
      ensures propagationAttempted <==> Stored(storage, TokenKey).Some? && Stored(storage, UserIdKey).Some?
    {
      var t, u := Stored(storage, TokenKey), Stored(storage, UserIdKey);
      if t.Some? { token := t; }
      if u.Some? { userId := u; }
      propagationAttempted := t.Some? && u.Some?;
    }

    /**
     * login: a transport error, an error in the body, or a body without both
     * token and user id leaves the session and storage as they were.  With
     * both, the session is authenticated and persisted; then the propagation
     * step throws and `error` ends as "Login failed".
     */
    method Login(emailInput: string, password: string, reply: ApiResponse<LoginData>)
      returns (propagationAttempted: bool, sent: seq<Call>)
      requires Valid()
      modifies this`token, this`userId, this`email, this`loading, this`error, this`success, this`storage
      ensures Valid() && !loading && success == None && sent == [Call.Login(emailInput, password)]
      ensures propagationAttempted <==>
        reply.Data? && reply.value.error == "" && reply.value.token != "" && reply.value.userId != ""
      ensures reply.Failure? ==>
        error == Some(reply.message) && token == old(token) && userId == old(userId)
        && email == old(email) && storage == old(storage)
      ensures reply.Data? && reply.value.error != "" ==>
        error == Some(reply.value.error) && token == old(token) && userId == old(userId)
        && email == old(email) && storage == old(storage)
      ensures reply.Data? && reply.value.error == "" && (reply.value.token == "" || reply.value.userId == "") ==>
        error == Some(LogInFailed) && token == old(token) && userId == old(userId)
        && email == old(email) && storage == old(storage)
      ensures reply.Data? && reply.value.error == "" && reply.value.token != "" && reply.value.userId != "" ==>
        && token == Some(reply.value.token) && userId == Some(reply.value.userId) && email == emailInput
        && storage == old(storage)[TokenKey := reply.value.token][UserIdKey := reply.value.userId]
        && IsAuthed()
        && error == Some(LoginFailed)
    {
      loading, error, success := true, None, None;
      sent := [Call.Login(emailInput, password)];
      propagationAttempted := false;
      if reply.Failure? {
        error, loading := Some(reply.message), false;
        return;
      }
      var data := reply.value;
      if data.error != "" {
        error, loading := Some(data.error), false;
        return;
      }
      if data.token != "" && data.userId != "" {
        token, userId, email := Some(data.token), Some(data.userId), emailInput;
        storage := storage[TokenKey := data.token][UserIdKey := data.userId];
        // Propagation: `eventStore.setActor` is not a function, so the call
        // throws and the catch records the generic message.
        propagationAttempted := true;
        error := Some(LoginFailed);
      } else {
        error := Some(LogInFailed);
      }
      loading := false;
    }

    /**
     * register: succeeds exactly when there is no error and the body marks
     * the account created; then `success` holds the server's message or the
     * default one.  The session is never touched.
     */
    method Register(emailInput: string, password: string, reply: ApiResponse<RegisterData>)
      returns (created: bool, sent: seq<Call>)
      requires Valid()
      modifies this`email, this`loading, this`error, this`success
      ensures Valid() && !loading && sent == [CreateAccount(emailInput, password)]
      ensures created <==> reply.Data? && reply.value.error == "" && Truthy(reply.value.created)
      ensures created ==>
        error == None && email == emailInput
        && success == Some(if reply.value.message != "" then reply.value.message else AccountCreated)
      ensures !created ==> success == None && email == old(email)
      ensures reply.Failure? ==> error == Some(reply.message)
      ensures reply.Data? && reply.value.error != "" ==> error == Some(reply.value.error)
      ensures reply.Data? && reply.value.error == "" && !Truthy(reply.value.created) ==> error == Some(RegistrationFailed)
    {
      loading, error, success := true, None, None;
      sent := [CreateAccount(emailInput, password)];
      if reply.Failure? {
        error, loading, created := Some(reply.message), false, false;
        return;
      }
      var data := reply.value;
      if data.error != "" {
        error, loading, created := Some(data.error), false, false;
        return;
      }
      if Truthy(data.created) {
        success := Some(if data.message != "" then data.message else AccountCreated);
        email := emailInput;
        created := true;
      } else {
        error := Some(RegistrationFailed);
        created := false;
      }
      loading := false;
    }

    /** logout: the session and both persisted keys are cleared; `email` and
        the other stores are left as they are. */
    method Logout()
      requires Valid()
      modifies this`token, this`userId, this`storage
      ensures Valid() && !IsAuthed()
      ensures token == None && userId == None && storage == old(storage) - {TokenKey, UserIdKey}
    {
      token, userId := None, None;
      storage := storage - {TokenKey, UserIdKey};
    }
  }

  /** `isAuthed` holds exactly when there is a token: a kept session never holds an empty one. */
  lemma AuthedExactlyWithToken(s: AuthStore)
    requires s.Valid()
    ensures s.IsAuthed() <==> s.token.Some?
  {
  }
}
