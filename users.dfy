/** Looking up the chat user under `user:<id>`, or classifying a new one by
    the Indi account behind the phone number and storing it for the
    session. */
module Users {
  import opened Text
  import opened UserModel
  import opened KeyValue

  /** The creditor or enterprise account the Indi API returns for a phone
      number: its name and whether it is an enterprise. */
  datatype Account = Account(name: string, isEnterprise: bool)

  /** `User.model_validate_json` on the text under the user key: a stored
      user decodes to itself; the JSON of another record has none of the
      user's fields, so every field takes its default; text that is not JSON
      fails validation. */
  function DecodeUser(b: Blob): (r: Outcome<User>)
    ensures r.Raised? <==> b.Corrupt?
  {
    match b
    case UserBlob(u) => Ok(u)
    case Corrupt(_) => Raised("ValidationError: invalid JSON")
    case _ => Ok(DefaultUser)
  }

  /** The classification a user holds together: an enterprise is an Indi
      user, its `is_enterprise` flag and its type agree, and only an Indi
      user has a type other than ANONYMOUS. */
  predicate Consistent(u: User) {
    && u.typeUser.Typed?
    && (u.isEnterprise <==> u.typeUser == Typed(Enterprise))
    && (u.isIndiUser <==> u.typeUser != Typed(Anonymous))
  }

  /** The user `get_or_create_user` builds from the account (None when the
      lookup was skipped or found nothing). */
  function NewUser(userId: string, account: Option<Account>, sessionId: string): (u: User)
    ensures Consistent(u)
    ensures u.userId == userId && u.currentSessionId == sessionId
    ensures u.isIndiUser <==> account.Some?
    ensures u.isEnterprise <==> account.Some? && account.value.isEnterprise
    ensures u.name == if account.Some? then account.value.name else "Unknown"
  {
    var isEnterprise := account.Some? && account.value.isEnterprise;
    var typeUser := if isEnterprise then Enterprise else if account.Some? then Acreetor else Anonymous;
    User(userId, if account.Some? then account.value.name else "Unknown", account.Some?, isEnterprise,
         Typed(typeUser), sessionId)
  }

  /** The account lookup as `get_or_create_user` sees it: skipped when the
      user is forced anonymous; an empty phone number is rejected by the
      provider before any request. */
  function AccountFor(userId: string, forceAnonymous: bool, found: Option<Account>): (r: Outcome<Option<Account>>)
    ensures forceAnonymous ==> r == Ok(None)
    ensures r.Raised? <==> !forceAnonymous && userId == ""
    ensures !forceAnonymous && userId != "" ==> r == Ok(found)
  {
    if forceAnonymous then Ok(None)
    else if userId == "" then Raised("ValueError: user_phone must be a non-empty string")
    else Ok(found)
  }

  /** `get_or_create_user` on the store: `found` is what the Indi API answers
      for the phone number, `sessionId` the fresh uuid and `ttl` the session
      buffer time. */
  function UserSpec(data: map<string, Entry>, userId: string, forceAnonymous: bool, found: Option<Account>,
                    sessionId: string, ttl: nat): (r: (Outcome<User>, map<string, Entry>))
    // a call that raises writes nothing; the one write is the new user,
    // under its key, with the session expiry
    ensures r.0.Raised? ==> r.1 == data
    ensures r.1 != data ==> r.0.Ok? && r.1 == data[UserKey(userId) := Entry(UserBlob(r.0.value), Some(ttl))]
  {
    var key := UserKey(userId);
    var stored := if key in data then Some(data[key].blob) else None;
    if Present(stored) then (DecodeUser(stored.value), data)
    else
      match AccountFor(userId, forceAnonymous, found)
      case Raised(e) => (Raised(e), data)
      case Ok(account) =>
        var u := NewUser(userId, account, sessionId);
        (Ok(u), data[key := Entry(UserBlob(u), Some(ttl))])
  }

  /** A stored user is returned as it is: neither the forced-anonymous flag
      nor the account matters, and nothing is written. */
  lemma StoredUserWins(data: map<string, Entry>, userId: string, f1: bool, a1: Option<Account>, s1: string,
                       t1: nat, f2: bool, a2: Option<Account>, s2: string, t2: nat)
    requires UserKey(userId) in data && Present(Some(data[UserKey(userId)].blob))
    ensures UserSpec(data, userId, f1, a1, s1, t1) == UserSpec(data, userId, f2, a2, s2, t2)
    ensures UserSpec(data, userId, f1, a1, s1, t1).1 == data
    ensures data[UserKey(userId)].blob.UserBlob? ==> UserSpec(data, userId, f1, a1, s1, t1).0 == Ok(data[UserKey(userId)].blob.user)
  {
  }

  /** A new user is classified by the account: ENTERPRISE for an enterprise
      account, ACREETOR for any other, ANONYMOUS without one or when forced
      anonymous; it is stored under its key with the session expiry, and
      no other key changes. */
  lemma NewUserClassified(data: map<string, Entry>, userId: string, forceAnonymous: bool, found: Option<Account>,
                          sessionId: string, ttl: nat)
    requires !(UserKey(userId) in data && Present(Some(data[UserKey(userId)].blob)))
    requires forceAnonymous || userId != ""
    ensures var (r, d) := UserSpec(data, userId, forceAnonymous, found, sessionId, ttl);
            && r.Ok? && Consistent(r.value) && r.value.userId == userId
            && GetType(r.value) == (if forceAnonymous || found.None? then "anonymous"
                                    else if found.value.isEnterprise then "enterprise" else "acreetor")
            && (forceAnonymous ==> !r.value.isIndiUser && r.value.name == "Unknown")
            && d == data[UserKey(userId) := Entry(UserBlob(r.value), Some(ttl))]
  {
  }

  /** Asking again for a user that was just returned gives the same user
      and writes nothing, whatever the second call's arguments. */
  lemma GetOrCreateStable(data: map<string, Entry>, userId: string, forceAnonymous: bool, found: Option<Account>,
                          sessionId: string, ttl: nat, f2: bool, a2: Option<Account>, s2: string, t2: nat)
    requires UserSpec(data, userId, forceAnonymous, found, sessionId, ttl).0.Ok?
    ensures var (r, d) := UserSpec(data, userId, forceAnonymous, found, sessionId, ttl);
            UserSpec(d, userId, f2, a2, s2, t2) == (r, d)
  {
  }

  class UserService {
    const store: Store
    /** `SESSION_BUFFER_WAIT_TIME`, read when the service is built. */
    const sessionBufferTime: nat

    constructor(store: Store, sessionBufferTime: nat)
      ensures this.store == store && this.sessionBufferTime == sessionBufferTime
    {
      this.store := store;
      this.sessionBufferTime := sessionBufferTime;
    }

    /** `get_or_create_user`, with the account lookup's answer and the new
        session id given. */
    method GetOrCreateUser(userId: string, forceAnonymous: bool, found: Option<Account>, sessionId: string)
      returns (r: Outcome<User>)
      modifies store
      ensures (r, store.data) == UserSpec(old(store.data), userId, forceAnonymous, found, sessionId, sessionBufferTime)
    {
      var stored := store.Get(UserKey(userId));
      if Present(stored) {
        return DecodeUser(stored.value);
      }
      var account: Option<Account> := None;
      if !forceAnonymous {
        if userId == "" {
          return Raised("ValueError: user_phone must be a non-empty string");
        }
        account := found;
      }
      var isEnterprise := if account.Some? then account.value.isEnterprise else false;
      var typeUser: UserType;
      if isEnterprise {
        typeUser := Enterprise;
      } else if account.Some? {
        typeUser := Acreetor;
      } else {
        typeUser := Anonymous;
      }
      var user := User(userId, if account.Some? then account.value.name else "Unknown", account.Some?,
                       isEnterprise, Typed(typeUser), sessionId);
      store.Set(UserKey(userId), UserBlob(user), Some(sessionBufferTime));
      return Ok(user);
    }
  }
}
