/** The account store of the manager (`account_manager.ts`): the `users`
    and `auth_tokens` tables with their AUTOINCREMENT counters, and the
    module-level handle `db` as a flag. SHA-256 is a function fixed when the
    store is made; the random token and the clock are inputs. */
module AccountManager {
  import opened Wrappers
  import opened Tables

  /** A row of `users`. */
  datatype UserRow = UserRow(id: int, email: string, passwordHash: string)

  /** A row of `auth_tokens`; `expirationDate` is in epoch milliseconds. */
  datatype TokenRow = TokenRow(id: int, user_id: int, token: string, expirationDate: int)

  /** The `User` class the module hands out: no password hash. */
  datatype User = User(id: int, email: string)

  /** `User.fromRow`. */
  function UserFromRow(row: UserRow): (u: User)
    ensures u.id == row.id && u.email == row.email
  {
    User(row.id, row.email)
  }

  /** No two users share an email, and ids increase below the counter. */
  ghost predicate UsersValid(users: seq<UserRow>, nextId: int) {
    && (forall i, j :: 0 <= i < j < |users| ==> users[i].email != users[j].email && users[i].id < users[j].id)
    && (forall r :: r in users ==> r.id < nextId)
  }

  /** `SELECT * FROM users WHERE email = ? AND passwordHash = ?`. */
  function FindByCredentials(users: seq<UserRow>, email: string, digest: string): (found: Option<UserRow>)
    ensures found.None? <==> forall r :: r in users ==> !(r.email == email && r.passwordHash == digest)
    ensures found.Some? ==> found.value in users && found.value.email == email && found.value.passwordHash == digest
  {
    FirstWhere(users, (r: UserRow) => r.email == email && r.passwordHash == digest)
  }

  /** `DELETE FROM auth_tokens WHERE expirationDate < now`. */
  function Unexpired(tokens: seq<TokenRow>, now: int): (kept: seq<TokenRow>)
    ensures forall t :: t in kept <==> t in tokens && now <= t.expirationDate
  {
    Filter(tokens, (t: TokenRow) => !(t.expirationDate < now))
  }

  /** The user a token names: its first token row, then the user row with
      that row's `user_id`; undefined when either is missing. */
  function Resolve(users: seq<UserRow>, tokens: seq<TokenRow>, token: string): (u: Option<User>)
    ensures (forall t :: t in tokens ==> t.token != token) ==> u.None?
    ensures u.Some? ==> exists t, r :: t in tokens && t.token == token && r in users && r.id == t.user_id && u.value == UserFromRow(r)
  {
    match FirstWhere(tokens, (t: TokenRow) => t.token == token)
    case None => None
    case Some(t) =>
      match FirstWhere(users, (r: UserRow) => r.id == t.user_id)
      case None => None
      case Some(r) => Some(UserFromRow(r))
  }

  /** A token whose every row has expired resolves to no one once the purge
      has run. */
  lemma ExpiredTokenNeverResolves(users: seq<UserRow>, tokens: seq<TokenRow>, token: string, now: int)
    requires forall t :: t in tokens && t.token == token ==> t.expirationDate < now
    ensures Resolve(users, Unexpired(tokens, now), token).None?
  {
  }

  /** A token row whose user row is gone resolves to no one. */
  lemma MissingUserRowResolvesToNoOne(users: seq<UserRow>, tokens: seq<TokenRow>, token: string)
    requires forall t :: t in tokens && t.token == token ==> forall r :: r in users ==> r.id != t.user_id
    ensures Resolve(users, tokens, token).None?
  {
  }

  lemma {:induction false} FirstWhereSkipsRejected<T(!new)>(a: seq<T>, b: seq<T>, accept: T -> bool)
    requires forall x :: x in a ==> !accept(x)
    ensures FirstWhere(a + b, accept) == FirstWhere(b, accept)
  {
    if a == [] {
      assert a + b == b;
    } else {
      assert (a + b)[0] == a[0] && a[0] in a;
      assert (a + b)[1..] == a[1..] + b;
      FirstWhereSkipsRejected(a[1..], b, accept);
    }
  }

  /** A freshly issued token that has not yet expired resolves to the user
      it was issued for. */
  lemma IssuedTokenResolves(users: seq<UserRow>, nextUserId: int, tokens: seq<TokenRow>, row: UserRow,
                            tokenId: int, token: string, expiration: int, now: int)
    requires UsersValid(users, nextUserId) && row in users
    requires forall t :: t in tokens ==> t.token != token
    requires now <= expiration
    ensures Resolve(users, Unexpired(tokens + [TokenRow(tokenId, row.id, token, expiration)], now), token)
      == Some(UserFromRow(row))
  {
    var issued := TokenRow(tokenId, row.id, token, expiration);
    var keep := (t: TokenRow) => !(t.expirationDate < now);
    FilterAppend(tokens, [issued], keep);
    assert Filter([issued], keep) == [issued];
    var live := Unexpired(tokens + [issued], now);
    assert live == Unexpired(tokens, now) + [issued];
    FirstWhereSkipsRejected(Unexpired(tokens, now), [issued], (t: TokenRow) => t.token == token);
    var found := FirstWhere(users, (r: UserRow) => r.id == row.id);
    assert found.Some?;
    var i :| 0 <= i < |users| && users[i] == found.value;
    var j :| 0 <= j < |users| && users[j] == row;
    assert users[i].id == users[j].id;
    assert i == j;
  }

  /** A user just registered can log in with the same password: the
      credentials query finds exactly the new row. */
  lemma RegisteredUserIsFound(users: seq<UserRow>, nextUserId: int, email: string, digest: string)
    requires UsersValid(users, nextUserId)
    requires forall r :: r in users ==> r.email != email
    ensures FindByCredentials(users + [UserRow(nextUserId, email, digest)], email, digest)
      == Some(UserRow(nextUserId, email, digest))
  {
    FirstWhereSkipsRejected(users, [UserRow(nextUserId, email, digest)],
      (r: UserRow) => r.email == email && r.passwordHash == digest);
  }

  /** How `createUser` settles: `undefined` without a handle, `false` for
      a taken email, `true` once the row is written, or a rejected promise
      when the INSERT statement fails. */
  datatype CreateOutcome = NoHandle | EmailTaken | UserInserted | InsertFailed

  /** The INSERT pastes the email between single quotes into the SQL text
      (only the SELECT before it binds the email as a parameter). A quote
      in the email ends that literal early, and the statement is
      malformed. */
  predicate BreaksInsert(email: string) {
    '\'' in email
  }

  class AccountStore {
    /** `getPasswordHash`: the base64 SHA-256 digest of a password. */
    const hash: string -> string
    /** `db !== undefined` */
    var isOpen: bool
    var users: seq<UserRow>
    var tokens: seq<TokenRow>
    var nextUserId: int
    var nextTokenId: int

    ghost predicate Valid()
      reads this
    {
      UsersValid(users, nextUserId)
    }

    constructor (hash: string -> string)
      ensures Valid() && this.hash == hash && !isOpen
      ensures users == [] && tokens == [] && nextUserId == 1 && nextTokenId == 1
    {
      this.hash := hash;
      isOpen := false;
      users, tokens := [], [];
      nextUserId, nextTokenId := 1, 1;
    }

    /** `openDatabase`: returns at once when a handle exists; otherwise
        opens one (the tables persist, so no row changes). */
    method OpenDatabase()
      modifies this`isOpen
      ensures isOpen
    {
      if isOpen {
        return;
      }
      isOpen := true;
    }

    /** `closeDatabase`: closes the handle and unsets it. Without a handle
        `db.close()` throws and the promise rejects (`closed` is false);
        the handle stays unset either way. */
    method CloseDatabase() returns (closed: bool)
      modifies this`isOpen
      ensures !isOpen
      ensures closed == old(isOpen)
    {
      closed := isOpen;
      isOpen := false;
    }

    /** `createUser(email, password)`: undefined without a handle; false
        when the email is taken; otherwise the INSERT, which writes one new
        row with the password's digest and resolves to true, unless the
        email breaks the statement it is pasted into, when the promise
        rejects and nothing is written. */
    method CreateUser(email: string, password: string) returns (created: CreateOutcome)
      requires Valid()
      modifies this`users, this`nextUserId
      ensures Valid()
      ensures created.NoHandle? <==> !isOpen
      ensures isOpen ==> (created.EmailTaken? <==> exists r :: r in old(users) && r.email == email)
      ensures created.InsertFailed? <==>
        isOpen && BreaksInsert(email) && !exists r :: r in old(users) && r.email == email
      ensures !created.UserInserted? ==> users == old(users) && nextUserId == old(nextUserId)
      ensures created.UserInserted? ==>
        users == old(users) + [UserRow(old(nextUserId), email, hash(password))] && nextUserId == old(nextUserId) + 1
    {
      if !isOpen {
        return NoHandle;
      }
      var digest := hash(password);
      var existing := FirstWhere(users, (r: UserRow) => r.email == email);
      if existing.Some? {
        return EmailTaken;
      }
      if BreaksInsert(email) {
        return InsertFailed;
      }
      users := users + [UserRow(nextUserId, email, digest)];
      nextUserId := nextUserId + 1;
      created := UserInserted;
    }

    /** `generateAuthToken(email, password)`: undefined without a handle or
        without a user matching both the email and the password's digest;
        otherwise one new token row for that user, and `[token,
        expiration]`. `freshToken` is the random token and `expiration` the
        time seven days on. */
    method GenerateAuthToken(email: string, password: string, freshToken: string, expiration: int)
      returns (issued: Option<(string, int)>)
      modifies this`tokens, this`nextTokenId
      ensures issued.None? <==> !isOpen || FindByCredentials(users, email, hash(password)).None?
      ensures issued.None? ==> tokens == old(tokens) && nextTokenId == old(nextTokenId)
      ensures issued.Some? ==>
        issued.value == (freshToken, expiration)
        && tokens == old(tokens) + [TokenRow(old(nextTokenId), FindByCredentials(users, email, hash(password)).value.id, freshToken, expiration)]
        && nextTokenId == old(nextTokenId) + 1
    {
      if !isOpen {
        return None;
      }
      var row := FindByCredentials(users, email, hash(password));
      if row.None? {
        return None;
      }
      tokens := tokens + [TokenRow(nextTokenId, row.value.id, freshToken, expiration)];
      nextTokenId := nextTokenId + 1;
      issued := Some((freshToken, expiration));
    }

    /** `getUser(authToken)`: undefined without a handle; otherwise the
        expired tokens are purged first, then the token is resolved. */
    method GetUser(token: string, now: int) returns (user: Option<User>)
      modifies this`tokens
      ensures !isOpen ==> user.None? && tokens == old(tokens)
      ensures isOpen ==> tokens == Unexpired(old(tokens), now) && user == Resolve(users, tokens, token)
    {
      if !isOpen {
        return None;
      }
      tokens := Unexpired(tokens, now);
      user := Resolve(users, tokens, token);
    }
  }
}
