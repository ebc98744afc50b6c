/** The session store behind `useAuth`: the signed-in admin (`user`, null
    when signed out), a loading flag for the startup check, and the
    'exhiibot_user' entry of browser storage that every service reads its
    token from. */
module AuthContext {
  import opened Common
  import opened Json

  /** The reply of `authAPI.verifyOTP`, in its declared shape */
  datatype VerifyReply = VerifyReply(user: map<string, Json>, token: string)

  /** `{ ...response.user, token: response.token }`: the user's fields with
      the token written over any field of the same name */
  function UserWithToken(reply: VerifyReply): (record: Json)
    ensures record.JObj? && record.fields.Keys == reply.user.Keys + {"token"}
    ensures record.fields["token"] == JStr(reply.token)
    ensures forall k :: k in reply.user && k != "token" ==> record.fields[k] == reply.user[k]
  {
    JObj(reply.user["token" := JStr(reply.token)])
  }

  const OutsideProvider: string := "useAuth must be used within an AuthProvider"

  class AuthSession {
    /** JNull is `null` */
    var user: Json
    var isLoading: bool
    /** `localStorage` */
    var storage: Storage

    /** The `useState` initial values, over the storage found at start */
    constructor (storage: Storage)
      ensures user == JNull && isLoading && this.storage == storage
    {
      user := JNull;
      isLoading := true;
      this.storage := storage;
    }

    /** `!!user` */
    predicate IsAuthenticated()
      reads this
    {
      Truthy(user)
    }

    /** The startup effect: a stored non-empty value that parses becomes the
        user; one that does not parse is removed; loading ends either way */
    method Restore(codec: Codec)
      modifies this
      ensures !isLoading
      ensures StoredRecord(old(storage), codec).Some? ==>
                user == StoredRecord(old(storage), codec).value && storage == old(storage)
      ensures UserKey in old(storage) && old(storage)[UserKey] != "" &&
              codec.parse(old(storage)[UserKey]).None? ==>
                user == old(user) && storage == old(storage) - {UserKey}
      ensures (UserKey !in old(storage) || old(storage)[UserKey] == "") ==>
                user == old(user) && storage == old(storage)
    {
      var savedUser := Lookup(storage, UserKey);
      if savedUser.Some? && savedUser.value != "" {
        match codec.parse(savedUser.value) {
          case Some(parsed) => user := parsed;
          case None => storage := storage - {UserKey};
        }
      }
      isLoading := false;
    }

    /** `login`: the call's result passes through; no state changes */
    method Login(outcome: Result<Json>) returns (r: Result<()>)
      ensures r.Err? <==> outcome.Err?
      ensures outcome.Err? ==> r.message == outcome.message
    {
      r := if outcome.Ok? then Ok(()) else Err(outcome.message);
    }

    /** `resendOTP`: like `login` */
    method ResendOtp(outcome: Result<Json>) returns (r: Result<()>)
      ensures r.Err? <==> outcome.Err?
      ensures outcome.Err? ==> r.message == outcome.message
    {
      r := if outcome.Ok? then Ok(()) else Err(outcome.message);
    }

    /** `verifyOTP`: when the call throws nothing changes (the call comes
        before every update); otherwise the user is the reply's user and the
        storage entry holds that user together with the token */
    method VerifyOtp(codec: Codec, outcome: Result<VerifyReply>) returns (r: Result<()>)
      modifies this
      ensures r.Err? <==> outcome.Err?
      ensures outcome.Err? ==> r.message == outcome.message
      ensures outcome.Err? ==> user == old(user) && storage == old(storage)
      ensures outcome.Ok? ==> user == JObj(outcome.value.user)
      ensures outcome.Ok? ==> storage == old(storage)[UserKey := codec.stringify(UserWithToken(outcome.value))]
      ensures isLoading == old(isLoading)
    {
      match outcome {
        case Err(message) =>
          r := Err(message);
        case Ok(reply) =>
          user := JObj(reply.user);
          storage := storage[UserKey := codec.stringify(UserWithToken(reply))];
          r := Ok(());
      }
    }

    method Logout()
      modifies this
      ensures user == JNull && !IsAuthenticated()
      ensures storage == old(storage) - {UserKey}
      ensures isLoading == old(isLoading)
    {
      user := JNull;
      storage := storage - {UserKey};
    }
  }

  /** `useAuth`: throws outside a provider */
  function UseAuth(context: Option<AuthSession>): (r: Result<AuthSession>)
    ensures context.None? <==> r.Err?
    ensures r.Err? ==> r.message == OutsideProvider
    ensures context.Some? ==> r == Ok(context.value)
  {
    match context
    case None => Err(OutsideProvider)
    case Some(session) => Ok(session)
  }

  /** After a successful verification every service reads back exactly the
      returned token, and a later start-up restores the user with the token
      field added */
  lemma VerifiedSessionReadBack(st: Storage, codec: Codec, reply: VerifyReply)
    requires Lawful(codec)
    ensures GetAuthToken(st[UserKey := codec.stringify(UserWithToken(reply))], codec) == reply.token
    ensures StoredRecord(st[UserKey := codec.stringify(UserWithToken(reply))], codec) ==
            Some(UserWithToken(reply))
  {
    StoredTokenReadBack(st, codec, reply.user["token" := JStr(reply.token)], reply.token);
  }

  /** A verified session counts as signed in; after logout no service sends a token */
  lemma VerifyThenLogout(st: Storage, codec: Codec, reply: VerifyReply)
    ensures Truthy(JObj(reply.user))
    ensures GetAuthToken(st[UserKey := codec.stringify(UserWithToken(reply))] - {UserKey}, codec) == ""
  {
    RemovedTokenIsEmpty(st[UserKey := codec.stringify(UserWithToken(reply))], codec);
  }

  /** A stored `null` parses, so startup keeps it, yet nobody is signed in */
  lemma StoredNullIsSignedOut(st: Storage, codec: Codec)
    requires UserKey in st && st[UserKey] != "" && codec.parse(st[UserKey]) == Some(JNull)
    ensures StoredRecord(st, codec) == Some(JNull) && !Truthy(JNull)
  {
  }
}
