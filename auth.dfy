/**
 * The HTTP entry point: `/ws` authenticates a returning user before the upgrade,
 * `/register` stores a new user and then upgrades.
 *
 * The users collection is a sequence of documents; a single-document query returns
 * the first match. Password derivation (PBKDF2 over SHA-512/256, 100000 rounds,
 * 32 bytes) is the parameter `derive`; the fresh id, the random salt and whether the
 * insert succeeds are parameters too.
 */
module Auth {
  import opened Wrappers
  import opened Ids
  import opened DbModels

  /** The parts of a request the entry point reads: its path and its basic-auth pair. */
  datatype Request = Request(path: string, credentials: Option<(string, string)>)

  /**
   * What the entry point did: the status it wrote (if any), whether it went on to
   * upgrade the connection, and the user document it inserted (if any).
   */
  datatype Response =
    | Response(status: Option<int>, upgrade: bool, inserted: Option<User>)
    | Panicked   // FindUser was given neither an id nor a username

  datatype FindResult = Found(doc: User) | NotFound | FindPanic

  /** The first document satisfying `p`. */
  function FirstMatch(users: seq<User>, p: User -> bool): (r: Option<User>)
    ensures r.Some? ==> r.value in users && p(r.value)
    ensures r.None? <==> forall u :: u in users ==> !p(u)
  {
    if users == [] then None
    else if p(users[0]) then Some(users[0])
    else FirstMatch(users[1..], p)
  }

  /**
   * FindUser: by id when the id is set, else by username when that is set; with
   * neither it panics. On a miss the caller's record is left as it was.
   */
  function FindUser(u: User, users: seq<User>): (r: FindResult)
    ensures r == FindPanic <==> u.userId == NilObjectId && u.username == ""
    ensures u.userId != NilObjectId ==>
      (r.NotFound? <==> forall v :: v in users ==> v.userId != u.userId)
    ensures u.userId != NilObjectId && r.Found? ==> r.doc in users && r.doc.userId == u.userId
    ensures u.userId == NilObjectId && u.username != "" ==>
      (r.NotFound? <==> forall v :: v in users ==> v.username != u.username)
    ensures u.userId == NilObjectId && r.Found? ==> r.doc in users && r.doc.username == u.username
  {
    if u.userId != NilObjectId then
      var m := FirstMatch(users, (v: User) => v.userId == u.userId);
      if m.Some? then Found(m.value) else NotFound
    else if u.username != "" then
      var m := FirstMatch(users, (v: User) => v.username == u.username);
      if m.Some? then Found(m.value) else NotFound
    else FindPanic
  }

  /** HandleFunc, one request. */
  function HandleRequest(req: Request, users: seq<User>, derive: (string, seq<byte>) -> seq<byte>,
                         freshId: ObjectId, salt: seq<byte>, insertOk: bool): (r: Response)
    ensures req.path != "/ws" && req.path != "/register" ==> r == Response(None, false, None)
    ensures req.credentials.None? && req.path == "/ws" ==> r == Response(Some(401), false, None)
    ensures req.credentials.None? && req.path == "/register" ==> r == Response(Some(400), false, None)
    ensures r.Response? && r.upgrade ==> req.credentials.Some?
    ensures r.Response? && r.inserted.Some? ==>
      && req.path == "/register" && insertOk
      && r.inserted.value == User(freshId, req.credentials.value.0, derive(req.credentials.value.1, salt), salt)
  {
    if req.path == "/ws" then
      if req.credentials.None? then Response(Some(401), false, None)
      else
        var (username, password) := req.credentials.value;
        var u := NamedUser(username);
        var f := FindUser(u, users);
        if f.FindPanic? then Panicked
        else
          var loaded := if f.Found? then f.doc else u;
          if derive(password, loaded.salt) != loaded.password then Response(Some(401), false, None)
          else Response(None, true, None)
    else if req.path == "/register" then
      if req.credentials.None? then Response(Some(400), false, None)
      else
        var (username, password) := req.credentials.value;
        var u := NamedUser(username).(userId := freshId);
        var f := FindUser(u, users);
        if f.FindPanic? then Panicked
        else if f.Found? then Response(Some(401), false, None)
        else
          var stored := u.(salt := salt, password := derive(password, salt));
          if !insertOk then Response(Some(500), true, None)
          else Response(None, true, Some(stored))
    else Response(None, false, None)
  }

  /** The derivation always yields 32 bytes. */
  ghost predicate DerivesKeys(derive: (string, seq<byte>) -> seq<byte>)
  {
    forall pw, s :: |derive(pw, s)| == 32
  }

  /**
   * `/ws` upgrades exactly when the username is non-empty and the first stored user of
   * that name has a password digest equal to the derivation of the given password with
   * that user's salt. An unknown user is always refused, since an empty digest never
   * equals a 32-byte key.
   */
  lemma WsUpgradeIffPasswordMatches(username: string, password: string, users: seq<User>,
      derive: (string, seq<byte>) -> seq<byte>, freshId: ObjectId, salt: seq<byte>, insertOk: bool)
    requires DerivesKeys(derive)
    ensures var r := HandleRequest(Request("/ws", Some((username, password))), users, derive, freshId, salt, insertOk);
      var m := FirstMatch(users, (v: User) => v.username == username);
      && (r == Panicked <==> username == "")
      && (r == Response(None, true, None) <==>
            username != "" && m.Some? && derive(password, m.value.salt) == m.value.password)
      && (username != "" && m.None? ==> r == Response(Some(401), false, None))
  {
  }

  /**
   * `/register` looks the new user up by the fresh id it has just assigned, never by
   * username: it refuses exactly when some stored user already has that id, and
   * otherwise stores the user even when the username is taken.
   */
  lemma RegisterChecksOnlyTheFreshId(username: string, password: string, users: seq<User>,
      derive: (string, seq<byte>) -> seq<byte>, freshId: ObjectId, salt: seq<byte>)
    requires freshId != NilObjectId
    ensures var r := HandleRequest(Request("/register", Some((username, password))), users, derive, freshId, salt, true);
      && (r == Response(Some(401), false, None) <==> exists v :: v in users && v.userId == freshId)
      && ((forall v :: v in users ==> v.userId != freshId) ==>
            r == Response(None, true, Some(User(freshId, username, derive(password, salt), salt))))
  {
  }

  /** A failed insert writes 500 and the upgrade is still attempted. */
  lemma RegisterInsertFailureStillUpgrades(username: string, password: string, users: seq<User>,
      derive: (string, seq<byte>) -> seq<byte>, freshId: ObjectId, salt: seq<byte>)
    requires freshId != NilObjectId
    requires forall v :: v in users ==> v.userId != freshId
    ensures HandleRequest(Request("/register", Some((username, password))), users, derive, freshId, salt, false)
      == Response(Some(500), true, None)
  {
  }

  /**
   * One concrete instance of `RegisterChecksOnlyTheFreshId`: a username that is already
   * taken is registered a second time, under a new id.
   */
  lemma DuplicateUsernameIsRegistered(derive: (string, seq<byte>) -> seq<byte>, salt: seq<byte>)
    ensures var existing := User([1, 0, 0, 0, 0, 0, 0, 0, 0, 0, 0, 0], "alice", [], []);
      var newId: ObjectId := [2, 0, 0, 0, 0, 0, 0, 0, 0, 0, 0, 0];
      HandleRequest(Request("/register", Some(("alice", "pw"))), [existing], derive, newId, salt, true).inserted.Some?
  {
    var existing := User([1, 0, 0, 0, 0, 0, 0, 0, 0, 0, 0, 0], "alice", [], []);
    var newId: ObjectId := [2, 0, 0, 0, 0, 0, 0, 0, 0, 0, 0, 0];
    RegisterChecksOnlyTheFreshId("alice", "pw", [existing], derive, newId, salt);
    assert existing.userId != newId by { assert existing.userId[0] != newId[0]; }
  }
}
