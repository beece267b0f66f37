/** The two HTTP handlers of internal/handlers/user.go, `SignIn` (POST /login) and
    `RefreshTokens` (POST /refresh-tokens), as transitions of the user store that end in a
    written response, a returned error or a run-time panic.

    Each handler is a method of `Handler` that changes the store it wraps; the pure functions
    `SignInStep` and `RefreshStep` say what each method computes, and the lemmas below state the
    properties of the two flows about those functions. Everything the handlers take from
    outside the store (the clock, the seeded generator, bcrypt, the JWT signer and the failures
    of the Mongo driver) is gathered in `Env`. */
module Handlers {
  import opened Wrappers
  import opened Encoding
  import Json
  import opened AppErrors
  import opened Domain
  import opened Repository
  import opened Services

  const RefreshCookieName := "refresh-token"

  /** `time.Hour * 24 * 60`, in seconds: the lifetime of a stored session. */
  const SessionTtl := 5184000

  /** The Content-Type header both handlers set, spelled as the code spells it. */
  const ContentType := "aplication/json"

  /** `requestForSignIn`, once decoded from the body. */
  datatype SignInRequest = SignInRequest(guid: string, fingerPrint: string)

  /** `requestForRefreshTokens`, once decoded from the body. */
  datatype RefreshRequest = RefreshRequest(fingerPrint: string)

  /** The fields of `http.Cookie` the handlers set. */
  datatype Cookie = Cookie(name: string, value: string, expires: int, httpOnly: bool)

  /** What a handler writes: two headers, one cookie and the body. */
  datatype Response = Response(contentType: string, authorization: string, cookie: Cookie, body: string)

  /** How a handler ends: a written response, an error returned to the middleware, or a panic. */
  datatype Outcome = Written(response: Response) | Failed(error: GoError) | Panicked(reason: string)

  /** bcrypt at `MinCost`: `hash` is `GenerateFromPassword` (the hash text or an error),
      `compare` is `CompareHashAndPassword(hash, password)` (nil when they match). */
  datatype Hasher = Hasher(hash: seq<byte> -> (string, Option<GoError>), compare: (string, seq<byte>) -> Option<GoError>)

  /** A password checks against every hash made from it. */
  ghost predicate Sound(h: Hasher) {
    forall p :: h.hash(p).1.None? ==> h.compare(h.hash(p).0, p).None?
  }

  /** Failures of the Mongo driver: `lookup` for `FindOne` in `GetByGUID`, `aggregate` for
      `Aggregate` in `GetByFingerPrint`, `delete` for `UpdateOne` in `DeleteSession`, `push`
      for `FindOneAndUpdate` in `CreateSession`. */
  datatype Faults = Faults(lookup: Option<GoError>, aggregate: Option<GoError>, delete: Option<GoError>, push: Option<GoError>)

  /** The environment of one request: `now` is the Unix second every `time.Now()` of the
      request reads, `src` the generator behind `CreateRefreshToken`. */
  datatype Env = Env(now: int, src: Int63Source, hasher: Hasher, sign: Signer, faults: Faults)

  const NoFaults := Faults(None, None, None, None)

  // ------------------------------------------------------------------
  // Shared pieces
  // ------------------------------------------------------------------

  /** The raw refresh token of a request, as the bytes `[]byte(token)` gives. */
  function RawToken(env: Env): seq<byte> {
    Utf8(RefreshTokenFor(env.src, env.now))
  }

  /** The session both handlers store: created now, expiring 60 days later. */
  function NewSession(fingerPrint: string, hashed: string, now: int): Session {
    Session(fingerPrint, hashed, now + SessionTtl, now)
  }

  /** `json.Marshal(tokensResponse{...})`. */
  function TokensBody(accessToken: string, refreshToken: string): string {
    Json.Object([("AccessToken", accessToken), ("RefreshToken", refreshToken)])
  }

  function Respond(jwt: string, b64: string, expires: int): Response {
    Response(ContentType, "Bearer " + jwt, Cookie(RefreshCookieName, b64, expires, true), TokensBody(jwt, b64))
  }

  /** The header, the cookie and the body agree: the bearer token is the body's
      `AccessToken`, the HttpOnly refresh-token cookie carries the body's `RefreshToken`. */
  predicate Consistent(r: Response) {
    && r.contentType == ContentType
    && r.cookie.name == RefreshCookieName && r.cookie.httpOnly
    && |r.authorization| >= 7 && r.authorization[..7] == "Bearer "
    && Json.ParseObject(r.body) == Some([("AccessToken", r.authorization[7..]), ("RefreshToken", r.cookie.value)])
  }

  lemma RespondConsistent(jwt: string, b64: string, expires: int)
    ensures Consistent(Respond(jwt, b64, expires))
  {
    var r := Respond(jwt, b64, expires);
    assert r.authorization[7..] == jwt;
    Json.ObjectRoundTrip([("AccessToken", jwt), ("RefreshToken", b64)]);
  }

  /** The session both handlers store for `fingerPrint` once the new raw token is hashed. */
  function IssuedSession(fingerPrint: string, env: Env): Session {
    NewSession(fingerPrint, env.hasher.hash(RawToken(env)).0, env.now)
  }

  // ------------------------------------------------------------------
  // Sign-in
  // ------------------------------------------------------------------

  /** What `SignIn` does to the store and how it ends. */
  function SignInStep(docs: seq<Document>, req: SignInRequest, env: Env): (Outcome, seq<Document>) {
    match GetByGUID(docs, req.guid, env.faults.lookup)
    case Err(e) => (Failed(e), docs)
    case Panic(p) => (Panicked(p), docs)
    case Ok(u) => IssueStep(docs, u, req.fingerPrint, env)
  }

  /** The rest of `SignIn` once the user `u` is loaded: sign the access token, hash the raw
      refresh token, replace `u`'s in-memory session list by the new session, store it, and
      write the response. */
  function IssueStep(docs: seq<Document>, u: User, fingerPrint: string, env: Env): (Outcome, seq<Document>) {
    var (jwt, jerr) := CreateJwtToken(u, env.now, env.sign);
    if jerr.Some? then (Failed(jerr.value), docs)
    else
      var (hashed, herr) := env.hasher.hash(RawToken(env));
      if herr.Some? then (Failed(herr.value), docs)
      else
        var user := u.(sessions := [NewSession(fingerPrint, hashed, env.now)]);
        var (err, docs') := CreateSessionStep(docs, user, env.faults.push);
        if err.Some? then (Failed(err.value), docs')
        else (Written(Respond(jwt, Base64Encode(RawToken(env)), user.sessions[0].expiresAt)), docs')
  }

  /** A failed user lookup is returned as it is, before anything is stored or written. */
  lemma SignInLookupFailure(docs: seq<Document>, req: SignInRequest, env: Env)
    requires GetByGUID(docs, req.guid, env.faults.lookup).Err?
    ensures SignInStep(docs, req, env) == (Failed(GetByGUID(docs, req.guid, env.faults.lookup).error), docs)
  {
  }

  /** When the lookup of a valid GUID fails inside the driver, `GetByGUID` hands back the zero
      User with no error; the handler goes on and `CreateSession` rejects the empty GUID, so the
      request fails with `ErrInvalidHex` (or an earlier signing or hashing error), and nothing
      is stored or written. */
  lemma SignInLookupFault(docs: seq<Document>, req: SignInRequest, env: Env)
    requires ParseObjectId(req.guid).Some? && env.faults.lookup.Some?
    ensures SignInStep(docs, req, env).1 == docs
    ensures SignInStep(docs, req, env).0.Failed?
    ensures CreateJwtToken(ZeroUser, env.now, env.sign).1.None? && env.hasher.hash(RawToken(env)).1.None? ==>
      SignInStep(docs, req, env).0 == Failed(InvalidHex)
  {
    assert ParseObjectId("").None?;
  }

  /** A sign-in that writes a response found the user's document, and sets the cookie to
      expire with the new session. Unless the push failed, the user's stored sessions become
      the old list plus the new session at the end: earlier sessions, also those with the same
      fingerprint, stay, and no other document changes. */
  lemma SignInAppends(docs: seq<Document>, req: SignInRequest, env: Env)
    requires SignInStep(docs, req, env).0.Written?
    ensures ParseObjectId(req.guid).Some? && env.faults.lookup.None?
    ensures exists i :: 0 <= i < |docs| && docs[i].id == Oid(ParseObjectId(req.guid).value)
    ensures SignInStep(docs, req, env).0.response.cookie.expires == env.now + SessionTtl
    ensures env.faults.push.None? ==>
      SignInStep(docs, req, env).1 == Push(docs, Oid(ParseObjectId(req.guid).value), IssuedSession(req.fingerPrint, env))
    ensures env.faults.push.Some? ==> SignInStep(docs, req, env).1 == docs
  {
    var oid := ParseObjectId(req.guid).value;
    var u := GetByGUID(docs, req.guid, env.faults.lookup).value;
    var d :| d in docs && d.id == Oid(oid) && u == UserOf(d);
    ObjectIdHexRoundTrip(oid);
    assert ParseObjectId(u.guid) == Some(oid);
  }

  /** When the push fails, `CreateSession` still reports success: the client receives fresh
      tokens although no session was stored. */
  lemma SignInPushFaultStillWrites(docs: seq<Document>, req: SignInRequest, env: Env, d: Document)
    requires d in docs && d.id.Oid? && req.guid == d.id.oid
    requires env.faults.lookup.None? && env.faults.push.Some?
    requires env.sign(AccessTokenFor(UserOf(d), env.now)).1.None?
    requires env.hasher.hash(RawToken(env)).1.None?
    requires UniqueIds(docs)
    ensures SignInStep(docs, req, env).0.Written?
    ensures SignInStep(docs, req, env).1 == docs
  {
    ObjectIdHexRoundTrip(d.id.oid);
    SignInFindsDocument(docs, d);
  }

  /** With unique ids, looking a document up by its own ObjectID finds that document. */
  lemma SignInFindsDocument(docs: seq<Document>, d: Document)
    requires d in docs && d.id.Oid? && UniqueIds(docs)
    ensures GetByGUID(docs, d.id.oid, None) == Ok(UserOf(d))
  {
    ObjectIdHexRoundTrip(d.id.oid);
    var r := GetByGUID(docs, d.id.oid, None);
    assert r.Ok?;
    var e :| e in docs && e.id == Oid(d.id.oid) && r.value == UserOf(e);
    var i :| 0 <= i < |docs| && docs[i] == d;
    var j :| 0 <= j < |docs| && docs[j] == e;
    assert i == j;
  }

  /** A sign-in that writes a response loaded a user and wrote what `IssueStep` writes: the signed
      token for that user and the new raw token, with the new session's expiry. */
  lemma SignInWritten(docs: seq<Document>, req: SignInRequest, env: Env)
    requires SignInStep(docs, req, env).0.Written?
    ensures GetByGUID(docs, req.guid, env.faults.lookup).Ok?
    ensures SignInStep(docs, req, env) == IssueStep(docs, GetByGUID(docs, req.guid, env.faults.lookup).value, req.fingerPrint, env)
    ensures SignInStep(docs, req, env).0.response ==
      Respond(CreateJwtToken(GetByGUID(docs, req.guid, env.faults.lookup).value, env.now, env.sign).0,
              Base64Encode(RawToken(env)), env.now + SessionTtl)
  {
    var u := GetByGUID(docs, req.guid, env.faults.lookup).value;
    IssueWritten(docs, u, req.fingerPrint, env);
  }

  /** What `IssueStep` writes when it writes a response. */
  lemma IssueWritten(docs: seq<Document>, u: User, fingerPrint: string, env: Env)
    requires IssueStep(docs, u, fingerPrint, env).0.Written?
    ensures CreateJwtToken(u, env.now, env.sign).1.None? && env.hasher.hash(RawToken(env)).1.None?
    ensures IssueStep(docs, u, fingerPrint, env).0.response ==
      Respond(CreateJwtToken(u, env.now, env.sign).0, Base64Encode(RawToken(env)), env.now + SessionTtl)
  {
  }

  /** The response of a sign-in carries the same access token in the header and the body, and
      the same refresh token in the cookie and the body. */
  lemma SignInConsistent(docs: seq<Document>, req: SignInRequest, env: Env)
    requires SignInStep(docs, req, env).0.Written?
    ensures Consistent(SignInStep(docs, req, env).0.response)
  {
    SignInWritten(docs, req, env);
    var u := GetByGUID(docs, req.guid, env.faults.lookup).value;
    RespondConsistent(CreateJwtToken(u, env.now, env.sign).0, Base64Encode(RawToken(env)), env.now + SessionTtl);
  }

  /** The sign-in cookie decodes back to the raw token, which checks against the hash of the
      stored session. */
  lemma SignInCookieDecodes(docs: seq<Document>, req: SignInRequest, env: Env)
    requires SignInStep(docs, req, env).0.Written?
    ensures Base64Decode(SignInStep(docs, req, env).0.response.cookie.value) == Decoded(RawToken(env))
    ensures Sound(env.hasher) ==> env.hasher.compare(IssuedSession(req.fingerPrint, env).refreshToken, RawToken(env)).None?
  {
    Base64RoundTrip(RawToken(env), 0);
  }

  // ------------------------------------------------------------------
  // Refresh
  // ------------------------------------------------------------------

  /** What `RefreshTokens` does to the store and how it ends; `cookie` is the value of the
      request's refresh-token cookie, if it has one. A lookup error would leave the zero User,
      whose `Sessions[0]` panics. */
  function RefreshStep(docs: seq<Document>, req: RefreshRequest, cookie: Option<string>, env: Env): (Outcome, seq<Document>) {
    if cookie.None? then (Failed(Errorf("Cookie not found")), docs)
    else match Base64Decode(cookie.value)
      case CorruptAt(k) => (Failed(CorruptInput(k)), docs)
      case Decoded(presented) =>
        match GetByFingerPrint(docs, req.fingerPrint, env.faults.aggregate)
        case Panic(p) => (Panicked(p), docs)
        case Err(_) => (Panicked(IndexZeroOutOfRange), docs)
        case Ok(u) =>
          if u.sessions == [] then (Panicked(IndexZeroOutOfRange), docs)
          else if env.hasher.compare(u.sessions[0].refreshToken, presented).Some? then
            (Failed(env.hasher.compare(u.sessions[0].refreshToken, presented).value), docs)
          else ReissueStep(docs, u, env)
  }

  /** The rest of `RefreshTokens` once the presented token checked against `u`'s session:
      hash a new raw token, sign a new access token, delete the old sessions (ignoring a
      failure), store the new session, and write the response with the old session's expiry. */
  function ReissueStep(docs: seq<Document>, u: User, env: Env): (Outcome, seq<Document>)
    requires u.sessions != []
  {
    var (hashed, herr) := env.hasher.hash(RawToken(env));
    if herr.Some? then (Failed(herr.value), docs)
    else
      var (jwt, jerr) := CreateJwtToken(u, env.now, env.sign);
      if jerr.Some? then (Failed(jerr.value), docs)
      else
        var (err, docs') := Rotate(docs, u, NewSession(u.sessions[0].fingerPrint, hashed, env.now), env.faults);
        if err.Some? then (Failed(err.value), docs')
        else (Written(Respond(jwt, Base64Encode(RawToken(env)), u.sessions[|u.sessions| - 1].expiresAt)), docs')
  }

  /** `DeleteSession(u)`, whose error is dropped, then `CreateSession` of `u` with its session
      list replaced by `session`. */
  function Rotate(docs: seq<Document>, u: User, session: Session, faults: Faults): (Option<GoError>, seq<Document>)
    requires u.sessions != []
  {
    CreateSessionStep(DeleteSessionStep(docs, u, faults.delete).1, u.(sessions := [session]), faults.push)
  }

  /** A refresh that writes a response got through every check before `ReissueStep`. */
  lemma RefreshWritten(docs: seq<Document>, req: RefreshRequest, cookie: Option<string>, env: Env)
    requires RefreshStep(docs, req, cookie, env).0.Written?
    ensures cookie.Some? && Base64Decode(cookie.value).Decoded?
    ensures env.faults.aggregate.None? && docs != []
    ensures GetByFingerPrint(docs, req.fingerPrint, None).Ok?
    ensures GetByFingerPrint(docs, req.fingerPrint, None).value.sessions != []
    ensures env.hasher.compare(GetByFingerPrint(docs, req.fingerPrint, None).value.sessions[0].refreshToken,
                               Base64Decode(cookie.value).bytes).None?
    ensures RefreshStep(docs, req, cookie, env) == ReissueStep(docs, GetByFingerPrint(docs, req.fingerPrint, None).value, env)
  {
  }

  /** What `ReissueStep` writes when it writes a response, and what it stores. */
  lemma ReissueWritten(docs: seq<Document>, u: User, env: Env)
    requires u.sessions != [] && ReissueStep(docs, u, env).0.Written?
    ensures env.hasher.hash(RawToken(env)).1.None? && CreateJwtToken(u, env.now, env.sign).1.None?
    ensures ReissueStep(docs, u, env).0.response ==
      Respond(CreateJwtToken(u, env.now, env.sign).0, Base64Encode(RawToken(env)), u.sessions[|u.sessions| - 1].expiresAt)
    ensures ReissueStep(docs, u, env).1 ==
      Rotate(docs, u, NewSession(u.sessions[0].fingerPrint, env.hasher.hash(RawToken(env)).0, env.now), env.faults).1
  {
    var (hashed, herr) := env.hasher.hash(RawToken(env));
    assert herr.None?;
    var (jwt, jerr) := CreateJwtToken(u, env.now, env.sign);
    assert jerr.None?;
    var rotated := Rotate(docs, u, NewSession(u.sessions[0].fingerPrint, hashed, env.now), env.faults);
    assert rotated.0.None?;
    assert ReissueStep(docs, u, env) ==
      (Written(Respond(jwt, Base64Encode(RawToken(env)), u.sessions[|u.sessions| - 1].expiresAt)), rotated.1);
  }

  /** A missing cookie and a cookie that is not padded standard base64 both fail before the
      store is read. */
  lemma RefreshCookieFailures(docs: seq<Document>, req: RefreshRequest, cookie: Option<string>, env: Env)
    ensures cookie.None? ==> RefreshStep(docs, req, cookie, env) == (Failed(Errorf("Cookie not found")), docs)
    ensures cookie.None? ==> ErrorText(RefreshStep(docs, req, cookie, env).0.error) == "Cookie not found"
    ensures cookie.Some? && Base64Decode(cookie.value).CorruptAt? ==>
      RefreshStep(docs, req, cookie, env) == (Failed(CorruptInput(Base64Decode(cookie.value).offset)), docs)
  {
    SprintfPlain("Cookie not found");
  }

  /** Only the first document of the collection can be refreshed: a failed aggregate, an empty
      collection, or a first document without a session of the requested fingerprint all
      panic, whatever the other documents hold. */
  lemma RefreshOnlyFirstDocument(docs: seq<Document>, req: RefreshRequest, cookie: string, env: Env)
    requires Base64Decode(cookie).Decoded?
    ensures env.faults.aggregate.Some? ==>
      RefreshStep(docs, req, Some(cookie), env) == (Panicked(NilDereference), docs)
    ensures env.faults.aggregate.None? && docs == [] ==>
      RefreshStep(docs, req, Some(cookie), env) == (Panicked(IndexZeroOutOfRange), docs)
    ensures (env.faults.aggregate.None? && docs != [] &&
             forall s :: s in docs[0].sessions ==> s.fingerPrint != req.fingerPrint) ==>
      RefreshStep(docs, req, Some(cookie), env) == (Panicked(IndexZeroOutOfRange), docs)
  {
  }

  /** The session the refresh compares against: the first of the first document's sessions
      with the requested fingerprint. */
  function Matched(docs: seq<Document>, fp: string): Session
    requires docs != [] && exists s :: s in docs[0].sessions && s.fingerPrint == fp
  {
    FirstWithFingerprint(docs[0].sessions, fp)[0]
  }

  /** A presented token that does not check against the matched session's hash fails with
      bcrypt's error and changes nothing. */
  lemma RefreshMismatch(docs: seq<Document>, req: RefreshRequest, cookie: string, env: Env)
    requires Base64Decode(cookie).Decoded? && env.faults.aggregate.None?
    requires docs != [] && exists s :: s in docs[0].sessions && s.fingerPrint == req.fingerPrint
    requires env.hasher.compare(Matched(docs, req.fingerPrint).refreshToken, Base64Decode(cookie).bytes).Some?
    ensures RefreshStep(docs, req, Some(cookie), env) ==
      (Failed(env.hasher.compare(Matched(docs, req.fingerPrint).refreshToken, Base64Decode(cookie).bytes).value), docs)
  {
  }

  /** A refresh that writes a response matched a session of the first document whose hash
      checks against the presented token, and the new cookie expires when that old session
      does, not when the new one does. */
  lemma RefreshCookieExpiry(docs: seq<Document>, req: RefreshRequest, cookie: Option<string>, env: Env)
    requires RefreshStep(docs, req, cookie, env).0.Written?
    ensures cookie.Some? && Base64Decode(cookie.value).Decoded?
    ensures docs != [] && exists s :: s in docs[0].sessions && s.fingerPrint == req.fingerPrint
    ensures env.hasher.compare(Matched(docs, req.fingerPrint).refreshToken, Base64Decode(cookie.value).bytes).None?
    ensures RefreshStep(docs, req, cookie, env).0.response.cookie.expires == Matched(docs, req.fingerPrint).expiresAt
  {
  }

  /** The response of a refresh carries the same access token in the header and the body, and
      the same refresh token in the cookie and the body; the cookie decodes to the new raw
      token. */
  lemma RefreshConsistent(docs: seq<Document>, req: RefreshRequest, cookie: Option<string>, env: Env)
    requires RefreshStep(docs, req, cookie, env).0.Written?
    ensures Consistent(RefreshStep(docs, req, cookie, env).0.response)
    ensures Base64Decode(RefreshStep(docs, req, cookie, env).0.response.cookie.value) == Decoded(RawToken(env))
  {
    RefreshWritten(docs, req, cookie, env);
    var u := GetByFingerPrint(docs, req.fingerPrint, None).value;
    ReissueWritten(docs, u, env);
    RespondConsistent(CreateJwtToken(u, env.now, env.sign).0, Base64Encode(RawToken(env)), u.sessions[|u.sessions| - 1].expiresAt);
    Base64RoundTrip(RawToken(env), 0);
  }

  /** A session list after the rotation for fingerprint `fp`: its sessions removed when the
      delete went through, and `s` appended when the push did. */
  function RotatedSessions(ss: seq<Session>, fp: string, s: Session, deleted: bool, pushed: bool): seq<Session> {
    (if deleted then RemoveFingerprint(ss, fp) else ss) + (if pushed then [s] else [])
  }

  /** Rotation. When the first document has an ObjectID and the refresh writes a response:
      every session of that document with the requested fingerprint is removed (unless the
      delete failed, which is ignored) and one new session with that fingerprint and the new
      hash is appended (unless the push failed, which is reported as success); the sessions of
      every other fingerprint keep their order and contents; no other document changes. */
  lemma RefreshRotates(docs: seq<Document>, req: RefreshRequest, cookie: Option<string>, env: Env)
    requires RefreshStep(docs, req, cookie, env).0.Written?
    requires docs != [] && docs[0].id.Oid? && UniqueIds(docs)
    ensures |RefreshStep(docs, req, cookie, env).1| == |docs|
    ensures forall i :: 1 <= i < |docs| ==> RefreshStep(docs, req, cookie, env).1[i] == docs[i]
    ensures RefreshStep(docs, req, cookie, env).1[0] == docs[0].(sessions :=
      RotatedSessions(docs[0].sessions, req.fingerPrint, IssuedSession(req.fingerPrint, env),
                      env.faults.delete.None?, env.faults.push.None?))
    ensures env.faults.delete.None? ==>
      WithFingerprint(RefreshStep(docs, req, cookie, env).1[0].sessions, req.fingerPrint) ==
      (if env.faults.push.None? then [IssuedSession(req.fingerPrint, env)] else [])
    ensures forall g :: g != req.fingerPrint ==>
      WithFingerprint(RefreshStep(docs, req, cookie, env).1[0].sessions, g) == WithFingerprint(docs[0].sessions, g)
  {
    RefreshRotatesDocuments(docs, req, cookie, env);
    RotationKeepsOthers(docs[0].sessions, IssuedSession(req.fingerPrint, env),
                        env.faults.delete.None?, env.faults.push.None?);
  }

  lemma RefreshRotatesDocuments(docs: seq<Document>, req: RefreshRequest, cookie: Option<string>, env: Env)
    requires RefreshStep(docs, req, cookie, env).0.Written?
    requires docs != [] && docs[0].id.Oid? && UniqueIds(docs)
    ensures |RefreshStep(docs, req, cookie, env).1| == |docs|
    ensures forall i :: 1 <= i < |docs| ==> RefreshStep(docs, req, cookie, env).1[i] == docs[i]
    ensures RefreshStep(docs, req, cookie, env).1[0] == docs[0].(sessions :=
      RotatedSessions(docs[0].sessions, req.fingerPrint, IssuedSession(req.fingerPrint, env),
                      env.faults.delete.None?, env.faults.push.None?))
  {
    var fp := req.fingerPrint;
    RefreshWritten(docs, req, cookie, env);
    var u := GetByFingerPrint(docs, fp, None).value;
    ReissueWritten(docs, u, env);
    assert u.sessions[0].fingerPrint == fp by {
      assert u.sessions[0] in u.sessions;
    }
    var s := IssuedSession(fp, env);
    assert s == NewSession(u.sessions[0].fingerPrint, env.hasher.hash(RawToken(env)).0, env.now);
    RotateEffect(docs, u, s, env.faults);
  }

  /** After the rotation, `s` is the only session of its fingerprint when the delete and the
      push went through, and there is none when only the delete did; every other
      fingerprint's sessions are as before, in order. */
  lemma RotationKeepsOthers(ss: seq<Session>, s: Session, deleted: bool, pushed: bool)
    ensures deleted ==>
      WithFingerprint(RotatedSessions(ss, s.fingerPrint, s, deleted, pushed), s.fingerPrint) == (if pushed then [s] else [])
    ensures forall g :: g != s.fingerPrint ==>
      WithFingerprint(RotatedSessions(ss, s.fingerPrint, s, deleted, pushed), g) == WithFingerprint(ss, g)
  {
    var fp := s.fingerPrint;
    var kept := if deleted then RemoveFingerprint(ss, fp) else ss;
    var added := if pushed then [s] else [];
    forall g | g != fp
      ensures WithFingerprint(kept + added, g) == WithFingerprint(ss, g)
    {
      WithFingerprintAppend(kept, added, g);
      RemoveFingerprintKeepsOthers(ss, fp, g);
    }
    if deleted {
      WithFingerprintAppend(kept, added, fp);
      RemoveFingerprintKeepsOthers(ss, fp, fp);
    }
  }

  /** `Rotate` on the first document, when it has an ObjectID: it always reports success; the
      old sessions of the fingerprint go (unless the delete failed), the new session is
      appended (unless the push failed), and nothing else changes. */
  lemma RotateEffect(docs: seq<Document>, u: User, s: Session, faults: Faults)
    requires u.sessions != [] && docs != [] && docs[0].id.Oid? && UniqueIds(docs)
    requires u.guid == docs[0].id.oid
    ensures Rotate(docs, u, s, faults).0 == None
    ensures |Rotate(docs, u, s, faults).1| == |docs|
    ensures forall i :: 1 <= i < |docs| ==> Rotate(docs, u, s, faults).1[i] == docs[i]
    ensures Rotate(docs, u, s, faults).1[0] == docs[0].(sessions :=
      RotatedSessions(docs[0].sessions, u.sessions[0].fingerPrint, s, faults.delete.None?, faults.push.None?))
  {
    var oid := docs[0].id.oid;
    ObjectIdHexRoundTrip(oid);
    forall i | 1 <= i < |docs| ensures docs[i].id != Oid(oid) {
      assert docs[0].id != docs[i].id;
    }
    var docs1 := DeleteSessionStep(docs, u, faults.delete).1;
    assert |docs1| == |docs|;
    assert forall i :: 0 <= i < |docs| ==> docs1[i].id == docs[i].id;
    if faults.push.Some? {
      assert docs[0].sessions + [] == docs[0].sessions;
      assert RemoveFingerprint(docs[0].sessions, u.sessions[0].fingerPrint) + [] ==
             RemoveFingerprint(docs[0].sessions, u.sessions[0].fingerPrint);
    }
  }

  /** The conditions under which a refresh succeeds. None of them involves the matched
      session's `ExpiresAt`: an expired session refreshes like a live one. */
  lemma RefreshSucceeds(docs: seq<Document>, req: RefreshRequest, cookie: string, env: Env)
    requires Base64Decode(cookie).Decoded? && env.faults.aggregate.None?
    requires docs != [] && docs[0].id.Oid?
    requires exists s :: s in docs[0].sessions && s.fingerPrint == req.fingerPrint
    requires env.hasher.compare(Matched(docs, req.fingerPrint).refreshToken, Base64Decode(cookie).bytes).None?
    requires env.hasher.hash(RawToken(env)).1.None?
    requires env.sign(AccessTokenFor(GetByFingerPrint(docs, req.fingerPrint, None).value, env.now)).1.None?
    ensures RefreshStep(docs, req, Some(cookie), env).0.Written?
  {
    var u := GetByFingerPrint(docs, req.fingerPrint, None).value;
    ObjectIdHexRoundTrip(docs[0].id.oid);
    assert ParseObjectId(u.guid).Some?;
  }

  /** When the push fails, the refresh still writes fresh tokens: the old sessions of the
      fingerprint are gone (unless the delete failed too) and no new session was stored, so
      the new cookie matches nothing. */
  lemma RefreshPushFaultStillWrites(docs: seq<Document>, req: RefreshRequest, cookie: string, env: Env)
    requires Base64Decode(cookie).Decoded? && env.faults.aggregate.None? && env.faults.push.Some?
    requires docs != [] && docs[0].id.Oid? && UniqueIds(docs)
    requires exists s :: s in docs[0].sessions && s.fingerPrint == req.fingerPrint
    requires env.hasher.compare(Matched(docs, req.fingerPrint).refreshToken, Base64Decode(cookie).bytes).None?
    requires env.hasher.hash(RawToken(env)).1.None?
    requires env.sign(AccessTokenFor(GetByFingerPrint(docs, req.fingerPrint, None).value, env.now)).1.None?
    ensures RefreshStep(docs, req, Some(cookie), env).0.Written?
    ensures RefreshStep(docs, req, Some(cookie), env).1[0] == docs[0].(sessions :=
      if env.faults.delete.None? then RemoveFingerprint(docs[0].sessions, req.fingerPrint) else docs[0].sessions)
    ensures env.faults.delete.None? ==>
      WithFingerprint(RefreshStep(docs, req, Some(cookie), env).1[0].sessions, req.fingerPrint) == []
  {
    RefreshSucceeds(docs, req, cookie, env);
    RefreshRotatesDocuments(docs, req, Some(cookie), env);
    UnpushedRotation(docs[0].sessions, req.fingerPrint, IssuedSession(req.fingerPrint, env), env.faults.delete.None?);
  }

  /** Without the push, the rotation only removes the fingerprint's sessions, if the delete
      went through. */
  lemma UnpushedRotation(ss: seq<Session>, fp: string, s: Session, deleted: bool)
    ensures RotatedSessions(ss, fp, s, deleted, false) == if deleted then RemoveFingerprint(ss, fp) else ss
    ensures deleted ==> WithFingerprint(RotatedSessions(ss, fp, s, deleted, false), fp) == []
  {
    var kept := if deleted then RemoveFingerprint(ss, fp) else ss;
    assert kept + [] == kept;
    RemoveFingerprintKeepsOthers(ss, fp, fp);
  }

  /** Two refreshes, or a sign-in and a refresh, in the same Unix second hand out the same
      raw refresh token. */
  lemma SameSecondSameToken(docs: seq<Document>, req: SignInRequest, docs': seq<Document>,
                            req': RefreshRequest, cookie: Option<string>, env: Env, env': Env)
    requires SignInStep(docs, req, env).0.Written? && RefreshStep(docs', req', cookie, env').0.Written?
    requires env.now == env'.now && env.src == env'.src
    ensures SignInStep(docs, req, env).0.response.cookie.value == RefreshStep(docs', req', cookie, env').0.response.cookie.value
    ensures Base64Decode(RefreshStep(docs', req', cookie, env').0.response.cookie.value) == Decoded(RawToken(env))
  {
    SignInWritten(docs, req, env);
    RefreshWritten(docs', req', cookie, env');
    ReissueWritten(docs', GetByFingerPrint(docs', req'.fingerPrint, None).value, env');
    assert RawToken(env) == RawToken(env');
    Base64RoundTrip(RawToken(env), 0);
  }

  /** Sign-in followed by a refresh with the cookie it set succeeds, when the user's document
      comes first in the collection and held no session with that fingerprint before, and no
      collaborator fails. */
  lemma SignInThenRefresh(docs: seq<Document>, req: SignInRequest, env: Env, env': Env)
    requires docs != [] && docs[0].id.Oid? && req.guid == docs[0].id.oid && UniqueIds(docs)
    requires forall s :: s in docs[0].sessions ==> s.fingerPrint != req.fingerPrint
    requires env.faults == NoFaults && env'.faults == NoFaults
    requires Sound(env.hasher) && env'.hasher == env.hasher
    requires SignInStep(docs, req, env).0.Written?
    requires env'.hasher.hash(RawToken(env')).1.None?
    requires env'.sign(AccessTokenFor(User(req.guid, docs[0].username, [IssuedSession(req.fingerPrint, env)]), env'.now)).1.None?
    ensures RefreshStep(SignInStep(docs, req, env).1, RefreshRequest(req.fingerPrint),
                        Some(SignInStep(docs, req, env).0.response.cookie.value), env').0.Written?
  {
    var fp := req.fingerPrint;
    var s := IssuedSession(req.fingerPrint, env);
    var after := SignInStep(docs, req, env).1;
    var cookie := SignInStep(docs, req, env).0.response.cookie.value;
    SignInAppends(docs, req, env);
    SignInCookieDecodes(docs, req, env);
    ObjectIdHexRoundTrip(docs[0].id.oid);
    assert after == Push(docs, docs[0].id, s);
    assert after[0] == docs[0].(sessions := docs[0].sessions + [s]);
    FirstOfAppended(docs[0].sessions, s);
    assert Matched(after, fp) == s;
    assert GetByFingerPrint(after, fp, None).value == User(req.guid, docs[0].username, [s]);
    RefreshSucceeds(after, RefreshRequest(fp), cookie, env');
  }

  /** A repeated sign-in with a fingerprint the first document already holds does not change
      which session the refresh compares against: the oldest one stays first. So a refresh with
      the new cookie fails whenever the new raw token does not check against that old hash. */
  lemma RepeatSignInKeepsOldestMatch(docs: seq<Document>, req: SignInRequest, env: Env, env': Env)
    requires SignInStep(docs, req, env).0.Written?
    requires docs != [] && exists t :: t in docs[0].sessions && t.fingerPrint == req.fingerPrint
    ensures GetByFingerPrint(SignInStep(docs, req, env).1, req.fingerPrint, None) ==
            GetByFingerPrint(docs, req.fingerPrint, None)
    ensures env'.faults.aggregate.None? &&
            env'.hasher.compare(Matched(docs, req.fingerPrint).refreshToken, RawToken(env)).Some? ==>
      RefreshStep(SignInStep(docs, req, env).1, RefreshRequest(req.fingerPrint),
                  Some(SignInStep(docs, req, env).0.response.cookie.value), env').0.Failed?
  {
    var after := SignInStep(docs, req, env).1;
    SignInAppends(docs, req, env);
    SignInCookieDecodes(docs, req, env);
    if env.faults.push.None? {
      FirstMatchSurvivesPush(docs, Oid(ParseObjectId(req.guid).value), IssuedSession(req.fingerPrint, env), req.fingerPrint);
    }
  }

  /** Appending a session to a list without its fingerprint makes it the first one found. */
  lemma FirstOfAppended(ss: seq<Session>, s: Session)
    requires forall t :: t in ss ==> t.fingerPrint != s.fingerPrint
    ensures FirstWithFingerprint(ss + [s], s.fingerPrint) == [s]
  {
    var t := ss + [s];
    forall j | 0 <= j < |ss| ensures t[j].fingerPrint != s.fingerPrint {
      assert t[j] == ss[j] && ss[j] in ss;
    }
    assert t[|ss|] == s;
    assert FirstIndex(t, s.fingerPrint) == |ss|;
  }

  // ------------------------------------------------------------------
  // The handler object
  // ------------------------------------------------------------------

  /** `handler`: the two HTTP handlers over one user store. */
  class Handler {
    const store: UserStore

    /** `NewUserHandler`. */
    constructor (store: UserStore)
      ensures this.store == store
    {
      this.store := store;
    }

    /** `SignIn`. */
    method SignIn(req: SignInRequest, env: Env) returns (out: Outcome)
      requires store.Valid()
      modifies store
      ensures store.Valid()
      ensures (out, store.docs) == SignInStep(old(store.docs), req, env)
    {
      var found := GetByGUID(store.docs, req.guid, env.faults.lookup);
      if found.Err? {
        return Failed(found.error);
      } else if found.Panic? {
        return Panicked(found.reason);
      }
      out := Issue(found.value, req.fingerPrint, env);
    }

    /** The rest of `SignIn` once the user `u` is loaded, from the new refresh token on. */
    method Issue(u: User, fingerPrint: string, env: Env) returns (out: Outcome)
      requires store.Valid()
      modifies store
      ensures store.Valid()
      ensures (out, store.docs) == IssueStep(old(store.docs), u, fingerPrint, env)
    {
      var user := u;
      var token := CreateRefreshToken(env.now, env.src);
      var (jwt, jerr) := CreateJwtToken(user, env.now, env.sign);
      if jerr.Some? {
        return Failed(jerr.value);
      }
      var (hashed, herr) := env.hasher.hash(Utf8(token));
      if herr.Some? {
        return Failed(herr.value);
      }
      var session := NewSession(fingerPrint, hashed, env.now);
      user := user.(sessions := []);
      user := user.(sessions := user.sessions + [session]);
      assert user == u.(sessions := [session]);
      var err := store.CreateSession(user, env.faults.push);
      if err.Some? {
        return Failed(err.value);
      }
      var b64 := Base64Encode(Utf8(token));
      assert Utf8(token) == RawToken(env);
      out := Written(Respond(jwt, b64, session.expiresAt));
    }

    /** `RefreshTokens`; `cookie` is the value of the request's refresh-token cookie. */
    method RefreshTokens(req: RefreshRequest, cookie: Option<string>, env: Env) returns (out: Outcome)
      requires store.Valid()
      modifies store
      ensures store.Valid()
      ensures (out, store.docs) == RefreshStep(old(store.docs), req, cookie, env)
    {
      if cookie.None? {
        return Failed(Errorf("Cookie not found"));
      }
      var decoded := Base64Decode(cookie.value);
      if decoded.CorruptAt? {
        return Failed(CorruptInput(decoded.offset));
      }
      var found := GetByFingerPrint(store.docs, req.fingerPrint, env.faults.aggregate);
      if found.Panic? {
        return Panicked(found.reason);
      }
      var u := if found.Ok? then found.value else ZeroUser;
      if u.sessions == [] {
        return Panicked(IndexZeroOutOfRange);
      }
      var mismatch := env.hasher.compare(u.sessions[0].refreshToken, decoded.bytes);
      if mismatch.Some? {
        return Failed(mismatch.value);
      }
      out := Reissue(u, env);
    }

    /** The second half of `RefreshTokens`, from the new refresh token on, for the user `u`
        whose session the presented token checked against. */
    method Reissue(u: User, env: Env) returns (out: Outcome)
      requires store.Valid() && u.sessions != []
      modifies store
      ensures store.Valid()
      ensures (out, store.docs) == ReissueStep(old(store.docs), u, env)
    {
      var token := CreateRefreshToken(env.now, env.src);
      var (hashed, herr) := env.hasher.hash(Utf8(token));
      if herr.Some? {
        return Failed(herr.value);
      }
      var b64 := Base64Encode(Utf8(token));
      var expires := u.sessions[|u.sessions| - 1].expiresAt;
      var (jwt, jerr) := CreateJwtToken(u, env.now, env.sign);
      if jerr.Some? {
        return Failed(jerr.value);
      }
      var session := NewSession(u.sessions[0].fingerPrint, hashed, env.now);
      var err := RotateSession(u, session, env.faults);
      if err.Some? {
        return Failed(err.value);
      }
      out := Written(Respond(jwt, b64, expires));
    }

    /** The store calls of `RefreshTokens`: `DeleteSession(u)`, whose error is dropped, then
        `u.Sessions` reset to the one new session and `CreateSession(u)`. */
    method RotateSession(u: User, session: Session, faults: Faults) returns (err: Option<GoError>)
      requires store.Valid() && u.sessions != []
      modifies store
      ensures store.Valid()
      ensures (err, store.docs) == Rotate(old(store.docs), u, session, faults)
    {
      var user := u;
      var ignored := store.DeleteSession(user, faults.delete);
      user := user.(sessions := []);
      user := user.(sessions := user.sessions + [session]);
      err := store.CreateSession(user, faults.push);
    }
  }
}
