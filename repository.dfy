/** The MongoDB user store (internal/repository/user.go) over an in-memory `users`
    collection: a sequence of documents in collection order, each holding one user and its
    ordered sessions. Driver failures are inputs (`fault`), each holding the error the driver
    would have returned. */
module Repository {
  import opened Wrappers
  import opened Encoding
  import opened AppErrors
  import opened Domain

  // ------------------------------------------------------------------
  // ObjectIDs and documents
  // ------------------------------------------------------------------

  predicate IsObjectIdText(s: string) {
    |s| == 24 && forall i :: 0 <= i < |s| ==> IsLowerHexDigit(s[i])
  }

  /** A `primitive.ObjectID`, held as the 24 lower-case hex digits its `Hex()` prints. */
  type ObjectId = s: string | IsObjectIdText(s) witness "000000000000000000000000"

  function ToLowerHex(c: char): (d: char)
    requires IsHexDigit(c)
    ensures IsLowerHexDigit(d) && HexValue(d) == HexValue(c)
  {
    if 'A' <= c <= 'F' then (c as int + 32) as char else c
  }

  /** `primitive.ObjectIDFromHex`: exactly 24 hex digits, of either case, name the ObjectID
      with those digit values; anything else fails with `ObjectIdError`. */
  function ParseObjectId(s: string): (r: Option<ObjectId>)
    ensures r.Some? <==> |s| == 24 && forall i :: 0 <= i < |s| ==> IsHexDigit(s[i])
    ensures r.Some? ==> forall i :: 0 <= i < 24 ==> HexValue(r.value[i]) == HexValue(s[i])
  {
    if |s| == 24 && forall i :: 0 <= i < |s| ==> IsHexDigit(s[i]) then
      var oid: ObjectId := seq(24, i requires 0 <= i < 24 => ToLowerHex(s[i]));
      Some(oid)
    else None
  }

  /** Position of the first byte `encoding/hex` rejects, or `|b|` when there is none. */
  function FirstNonHexByte(b: seq<byte>): (i: nat)
    ensures i <= |b|
    ensures forall j :: 0 <= j < i ==> IsHexDigit(b[j] as char)
    ensures i < |b| ==> !IsHexDigit(b[i] as char)
  {
    if b == [] || !IsHexDigit(b[0] as char) then 0 else 1 + FirstNonHexByte(b[1..])
  }

  /** The error `ObjectIDFromHex` returns for a GUID that does not parse. Its length check
      counts bytes: a text that is not 24 bytes long is `ErrInvalidHex`; otherwise
      `hex.Decode` stops at the first byte that is not a hex digit with `InvalidByteError`. */
  function ObjectIdError(s: string): (e: GoError)
    requires ParseObjectId(s).None?
    ensures e == InvalidHex <==> |Utf8(s)| != 24
    ensures e != InvalidHex ==> e.InvalidByte?
    ensures e.InvalidByte? ==>
      exists i :: 0 <= i < 24 && Utf8(s)[i] == e.b && !IsHexDigit(e.b as char) &&
                  forall j :: 0 <= j < i ==> IsHexDigit(Utf8(s)[j] as char)
  {
    var b := Utf8(s);
    if |b| != 24 then InvalidHex
    else
      NonHexByteExists(s);
      InvalidByte(b[FirstNonHexByte(b)])
  }

  /** A 24-byte text that is not an ObjectID holds a byte that is not a hex digit. */
  lemma NonHexByteExists(s: string)
    requires ParseObjectId(s).None? && |Utf8(s)| == 24
    ensures FirstNonHexByte(Utf8(s)) < 24
  {
    var b := Utf8(s);
    if FirstNonHexByte(b) == 24 {
      forall j | 0 <= j < 24 ensures b[j] < 0x80 {
        assert IsHexDigit(b[j] as char);
      }
      Utf8AsciiBytes(s);
      Utf8Ascii(s);
      forall i | 0 <= i < |s| ensures IsHexDigit(s[i]) {
        assert s[i] == b[i] as char;
      }
      assert false;
    }
  }

  /** A 24-character text with a letter beyond `f` fails on that byte, not on its length. */
  lemma NonHexGuid()
    ensures ParseObjectId("zzzzzzzzzzzzzzzzzzzzzzzz").None?
    ensures ObjectIdError("zzzzzzzzzzzzzzzzzzzzzzzz") == InvalidByte('z' as int)
  {
    var s := "zzzzzzzzzzzzzzzzzzzzzzzz";
    assert !IsHexDigit(s[0]);
    Utf8Ascii(s);
    assert FirstNonHexByte(Utf8(s)) == 0;
  }

  /** An ObjectID's `Hex()` text parses back to that ObjectID. */
  lemma ObjectIdHexRoundTrip(oid: ObjectId)
    ensures ParseObjectId(oid) == Some(oid)
  {
    var r := ParseObjectId(oid);
    assert r.Some?;
    assert r.value == oid by {
      forall i | 0 <= i < 24 ensures r.value[i] == oid[i] {
        assert IsLowerHexDigit(oid[i]);
      }
    }
  }

  /** A document's `_id`: an ObjectID, or the string a caller put in `GUID` before `Create`. */
  datatype DocId = Oid(oid: ObjectId) | TextId(text: string)

  /** One document of the `users` collection. */
  datatype Document = Document(id: DocId, username: string, sessions: seq<Session>)

  /** The `GUID` a document decodes to: the driver writes an ObjectID `_id` as its hex text. */
  function IdText(id: DocId): string {
    match id
    case Oid(o) => o
    case TextId(t) => t
  }

  function UserOf(d: Document): User {
    User(IdText(d.id), d.username, d.sessions)
  }

  /** The `_id` index: no two documents share an id. */
  predicate UniqueIds(docs: seq<Document>) {
    forall i, j :: 0 <= i < j < |docs| ==> docs[i].id != docs[j].id
  }

  /** The first document with the given `_id`. */
  function Find(docs: seq<Document>, id: DocId): (r: Option<Document>)
    ensures r.Some? ==> r.value in docs && r.value.id == id
    ensures r.None? ==> forall d :: d in docs ==> d.id != id
  {
    if docs == [] then None
    else if docs[0].id == id then Some(docs[0])
    else Find(docs[1..], id)
  }

  const DuplicateKey := External("E11000 duplicate key error collection: users index: _id_")

  // ------------------------------------------------------------------
  // Read-only queries
  // ------------------------------------------------------------------

  /** `GetByGUID`: a GUID that is not an ObjectID fails before any lookup; a missing document is
      `ErrNotFound`; any other lookup failure returns the zero User and the `err` of the hex
      parse, which is nil there; otherwise the stored user. */
  function GetByGUID(docs: seq<Document>, guid: string, fault: Option<GoError>): (r: Result<User>)
    ensures ParseObjectId(guid).None? ==> r == Err(ObjectIdError(guid))
    ensures ParseObjectId(guid).Some? && fault.Some? ==> r == Ok(ZeroUser)
    ensures ParseObjectId(guid).Some? && fault.None? ==>
      && (r.Ok? <==> exists d :: d in docs && d.id == Oid(ParseObjectId(guid).value))
      && (r.Ok? ==> exists d :: d in docs && d.id == Oid(ParseObjectId(guid).value) && r.value == UserOf(d))
      && (!r.Ok? ==> r == Err(App(ErrNotFound())))
  {
    match ParseObjectId(guid)
    case None => Err(ObjectIdError(guid))
    case Some(oid) =>
      if fault.Some? then Ok(ZeroUser)
      else match Find(docs, Oid(oid))
        case None => Err(App(ErrNotFound()))
        case Some(d) => Ok(UserOf(d))
  }

  /** Position of the first session with fingerprint `fp`, or `|ss|` when there is none. */
  function FirstIndex(ss: seq<Session>, fp: string): (i: nat)
    ensures i <= |ss|
    ensures forall j :: 0 <= j < i ==> ss[j].fingerPrint != fp
    ensures i < |ss| ==> ss[i].fingerPrint == fp
  {
    if ss == [] || ss[0].fingerPrint == fp then 0 else 1 + FirstIndex(ss[1..], fp)
  }

  /** The `$filter` of `GetByFingerPrint` (fingerprint equality, `limit: 1`): the first session
      with `fp`, if there is one. */
  function FirstWithFingerprint(ss: seq<Session>, fp: string): (r: seq<Session>)
    ensures |r| <= 1
    ensures forall s :: s in r ==> s in ss && s.fingerPrint == fp
    ensures r == [] <==> forall s :: s in ss ==> s.fingerPrint != fp
    ensures r != [] ==>
      exists i :: 0 <= i < |ss| && r == [ss[i]] && ss[i].fingerPrint == fp &&
                  forall j :: 0 <= j < i ==> ss[j].fingerPrint != fp
  {
    var i := FirstIndex(ss, fp);
    if i < |ss| then [ss[i]] else []
  }

  /** Appending to a list that already holds a session with `fp` does not change which one
      the filter keeps: the oldest stays first. */
  lemma FirstWithFingerprintAppend(ss: seq<Session>, s: Session, fp: string)
    requires exists t :: t in ss && t.fingerPrint == fp
    ensures FirstWithFingerprint(ss + [s], fp) == FirstWithFingerprint(ss, fp)
  {
    var i := FirstIndex(ss, fp);
    var t :| t in ss && t.fingerPrint == fp;
    assert i < |ss|;
    var k := FirstIndex(ss + [s], fp);
    forall j | 0 <= j < i ensures (ss + [s])[j].fingerPrint != fp {
      assert (ss + [s])[j] == ss[j];
    }
    assert (ss + [s])[i] == ss[i];
  }

  /** The `$project` stage: id, username and the filtered sessions. */
  function Project(d: Document, fp: string): User {
    User(IdText(d.id), d.username, FirstWithFingerprint(d.sessions, fp))
  }

  /** `GetByFingerPrint`: the pipeline has no `$match`, so the answer is the first document of
      the collection, whether or not it holds a session with `fp`. A failed `Aggregate` leaves a
      nil cursor whose `Err()` panics; an empty collection makes `results[0]` panic. */
  function GetByFingerPrint(docs: seq<Document>, fp: string, fault: Option<GoError>): (r: Result<User>)
    ensures fault.Some? ==> r == Panic(NilDereference)
    ensures fault.None? && docs == [] ==> r == Panic(IndexZeroOutOfRange)
    ensures fault.None? && docs != [] ==>
      && r.Ok?
      && r.value.guid == IdText(docs[0].id)
      && r.value.username == docs[0].username
      && |r.value.sessions| <= 1
      && (forall s :: s in r.value.sessions ==> s in docs[0].sessions && s.fingerPrint == fp)
      && (r.value.sessions == [] <==> forall s :: s in docs[0].sessions ==> s.fingerPrint != fp)
      && r.value.sessions == FirstWithFingerprint(docs[0].sessions, fp)
  {
    if fault.Some? then Panic(NilDereference)
    else if docs == [] then Panic(IndexZeroOutOfRange)
    else Ok(Project(docs[0], fp))
  }

  // ------------------------------------------------------------------
  // Updates
  // ------------------------------------------------------------------

  /** `$pull: {sessions: {fingerprint: fp}}` on one session list. */
  function RemoveFingerprint(ss: seq<Session>, fp: string): (r: seq<Session>)
    ensures forall s :: s in r <==> s in ss && s.fingerPrint != fp
  {
    if ss == [] then []
    else if ss[0].fingerPrint == fp then RemoveFingerprint(ss[1..], fp)
    else [ss[0]] + RemoveFingerprint(ss[1..], fp)
  }

  /** `$pull` works session by session: it keeps the order of everything it does not remove. */
  lemma {:induction false} RemoveFingerprintAppend(a: seq<Session>, b: seq<Session>, fp: string)
    ensures RemoveFingerprint(a + b, fp) == RemoveFingerprint(a, fp) + RemoveFingerprint(b, fp)
  {
    if a == [] {
      assert a + b == b;
    } else {
      var ab := a + b;
      assert ab[0] == a[0] && ab[1..] == a[1..] + b;
      RemoveFingerprintAppend(a[1..], b, fp);
      if a[0].fingerPrint != fp {
        calc {
          RemoveFingerprint(ab, fp);
          [a[0]] + RemoveFingerprint(a[1..] + b, fp);
          [a[0]] + (RemoveFingerprint(a[1..], fp) + RemoveFingerprint(b, fp));
          ([a[0]] + RemoveFingerprint(a[1..], fp)) + RemoveFingerprint(b, fp);
        }
      }
    }
  }

  /** The sessions with fingerprint `fp`, in order. */
  function WithFingerprint(ss: seq<Session>, fp: string): seq<Session> {
    if ss == [] then []
    else if ss[0].fingerPrint == fp then [ss[0]] + WithFingerprint(ss[1..], fp)
    else WithFingerprint(ss[1..], fp)
  }

  lemma {:induction false} WithFingerprintAppend(a: seq<Session>, b: seq<Session>, fp: string)
    ensures WithFingerprint(a + b, fp) == WithFingerprint(a, fp) + WithFingerprint(b, fp)
  {
    if a == [] {
      assert a + b == b;
    } else {
      WithFingerprintAppend(a[1..], b, fp);
      assert (a + b)[1..] == a[1..] + b;
      assert (a + b)[0] == a[0];
    }
  }

  /** `$pull` by one fingerprint leaves the sessions of every other fingerprint as they were,
      in the same order, and no session of the pulled one. */
  lemma {:induction false} RemoveFingerprintKeepsOthers(ss: seq<Session>, fp: string, other: string)
    ensures WithFingerprint(RemoveFingerprint(ss, fp), fp) == []
    ensures other != fp ==> WithFingerprint(RemoveFingerprint(ss, fp), other) == WithFingerprint(ss, other)
  {
    if ss != [] {
      RemoveFingerprintKeepsOthers(ss[1..], fp, other);
      if ss[0].fingerPrint != fp {
        WithFingerprintAppend([ss[0]], RemoveFingerprint(ss[1..], fp), fp);
        WithFingerprintAppend([ss[0]], RemoveFingerprint(ss[1..], fp), other);
      }
    }
  }

  /** Applies `$pull` by fingerprint to the document with `_id` equal to `id`. */
  function Pull(docs: seq<Document>, id: DocId, fp: string): seq<Document> {
    seq(|docs|, i requires 0 <= i < |docs| =>
      if docs[i].id == id then docs[i].(sessions := RemoveFingerprint(docs[i].sessions, fp)) else docs[i])
  }

  /** Applies `$push` of `s` to the document with `_id` equal to `id`. */
  function Push(docs: seq<Document>, id: DocId, s: Session): seq<Document> {
    seq(|docs|, i requires 0 <= i < |docs| =>
      if docs[i].id == id then docs[i].(sessions := docs[i].sessions + [s]) else docs[i])
  }

  /** `DeleteSession`: a GUID that is not an ObjectID or a failed update is reported and changes nothing;
      otherwise every session whose fingerprint is that of `user.Sessions[0]` leaves the
      document with the user's id, and no other document changes. An unknown id is no error.
      The debug log reads `user.Sessions[0]`, so callers pass a non-empty list. */
  function DeleteSessionStep(docs: seq<Document>, user: User, fault: Option<GoError>): (r: (Option<GoError>, seq<Document>))
    requires |user.sessions| > 0
    ensures ParseObjectId(user.guid).None? ==> r.0 == Some(ObjectIdError(user.guid))
    ensures ParseObjectId(user.guid).Some? ==> r.0 == fault
    ensures r.0.Some? ==> r.1 == docs
    ensures r.0.None? ==> |r.1| == |docs| && forall i :: 0 <= i < |docs| ==>
      if docs[i].id == Oid(ParseObjectId(user.guid).value)
      then r.1[i] == docs[i].(sessions := RemoveFingerprint(docs[i].sessions, user.sessions[0].fingerPrint))
      else r.1[i] == docs[i]
  {
    match ParseObjectId(user.guid)
    case None => (Some(ObjectIdError(user.guid)), docs)
    case Some(oid) =>
      if fault.Some? then (fault, docs)
      else (None, Pull(docs, Oid(oid), user.sessions[0].fingerPrint))
  }

  /** `CreateSession`: reports an error only for a GUID that is not an ObjectID. Otherwise it returns nil,
      also when the update fails or matches no document (it returns the nil `err` of the hex
      parse); when the update goes through, the last of `user.Sessions` is appended to that
      user's stored sessions and no other document changes. */
  function CreateSessionStep(docs: seq<Document>, user: User, fault: Option<GoError>): (r: (Option<GoError>, seq<Document>))
    requires |user.sessions| > 0
    ensures r.0.Some? <==> ParseObjectId(user.guid).None?
    ensures r.0.Some? ==> r.0 == Some(ObjectIdError(user.guid))
    ensures ParseObjectId(user.guid).None? || fault.Some? ==> r.1 == docs
    ensures ParseObjectId(user.guid).Some? && fault.None? ==> |r.1| == |docs| && forall i :: 0 <= i < |docs| ==>
      if docs[i].id == Oid(ParseObjectId(user.guid).value)
      then r.1[i] == docs[i].(sessions := docs[i].sessions + [user.sessions[|user.sessions| - 1]])
      else r.1[i] == docs[i]
  {
    match ParseObjectId(user.guid)
    case None => (Some(ObjectIdError(user.guid)), docs)
    case Some(oid) =>
      if fault.Some? then (None, docs)
      else (None, Push(docs, Oid(oid), user.sessions[|user.sessions| - 1]))
  }

  /** The `_id` `InsertOne` gives a user: a fresh ObjectID when `GUID` is empty (`omitempty`),
      otherwise the `GUID` string itself. */
  function KeyFor(user: User, generated: ObjectId): DocId {
    if user.guid == "" then Oid(generated) else TextId(user.guid)
  }

  /** `Create`: inserts the user at the end of the collection unless the driver fails or the
      `_id` is taken. The hex id comes back only for a generated ObjectID; a string `_id` is
      stored but `""` is returned with a nil error. */
  function CreateStep(docs: seq<Document>, user: User, generated: ObjectId, fault: Option<GoError>)
    : (r: (string, Option<GoError>, seq<Document>))
    ensures r.1.None? <==> fault.None? && Find(docs, KeyFor(user, generated)).None?
    ensures r.1.Some? ==> r.0 == "" && r.2 == docs
    ensures r.1.None? ==> r.2 == docs + [Document(KeyFor(user, generated), user.username, user.sessions)]
    ensures r.1.None? ==> r.0 == (if user.guid == "" then generated else "")
    ensures UniqueIds(docs) ==> UniqueIds(r.2)
  {
    var key := KeyFor(user, generated);
    if fault.Some? then ("", fault, docs)
    else if Find(docs, key).Some? then ("", Some(DuplicateKey), docs)
    else (if key.Oid? then key.oid else "", None, docs + [Document(key, user.username, user.sessions)])
  }

  lemma PullKeepsIds(docs: seq<Document>, id: DocId, fp: string)
    ensures |Pull(docs, id, fp)| == |docs|
    ensures forall i :: 0 <= i < |docs| ==> Pull(docs, id, fp)[i].id == docs[i].id
    ensures UniqueIds(docs) ==> UniqueIds(Pull(docs, id, fp))
  {
  }

  /** When the first document already holds a session with `fp`, a `$push` to any document
      leaves the answer of the fingerprint lookup as it was. */
  lemma FirstMatchSurvivesPush(docs: seq<Document>, id: DocId, s: Session, fp: string)
    requires docs != [] && exists t :: t in docs[0].sessions && t.fingerPrint == fp
    ensures GetByFingerPrint(Push(docs, id, s), fp, None) == GetByFingerPrint(docs, fp, None)
  {
    if docs[0].id == id {
      FirstWithFingerprintAppend(docs[0].sessions, s, fp);
    }
  }

  lemma PushKeepsIds(docs: seq<Document>, id: DocId, s: Session)
    ensures |Push(docs, id, s)| == |docs|
    ensures forall i :: 0 <= i < |docs| ==> Push(docs, id, s)[i].id == docs[i].id
    ensures UniqueIds(docs) ==> UniqueIds(Push(docs, id, s))
  {
  }

  // ------------------------------------------------------------------
  // The store object
  // ------------------------------------------------------------------

  /** `repository.DB` over the `users` collection. */
  class UserStore {
    var docs: seq<Document>

    ghost predicate Valid()
      reads this
    {
      UniqueIds(docs)
    }

    /** `NewUserStorage`, over a collection that already holds `initial`. */
    constructor (initial: seq<Document>)
      requires UniqueIds(initial)
      ensures Valid() && docs == initial
    {
      docs := initial;
    }

    /** `Create` (`InsertOne`). */
    method Create(user: User, generated: ObjectId, fault: Option<GoError>) returns (id: string, err: Option<GoError>)
      requires Valid()
      modifies this
      ensures Valid()
      ensures (id, err, docs) == CreateStep(old(docs), user, generated, fault)
    {
      var key := KeyFor(user, generated);
      if fault.Some? {
        return "", fault;
      }
      if Find(docs, key).Some? {
        return "", Some(DuplicateKey);
      }
      docs := docs + [Document(key, user.username, user.sessions)];
      if key.Oid? {
        return key.oid, None;
      }
      return "", None;
    }

    /** `DeleteSession` (`UpdateOne` with `$pull`). */
    method DeleteSession(user: User, fault: Option<GoError>) returns (err: Option<GoError>)
      requires Valid() && |user.sessions| > 0
      modifies this
      ensures Valid()
      ensures (err, docs) == DeleteSessionStep(old(docs), user, fault)
    {
      var oid := ParseObjectId(user.guid);
      if oid.None? {
        return Some(ObjectIdError(user.guid));
      }
      if fault.Some? {
        return fault;
      }
      PullKeepsIds(docs, Oid(oid.value), user.sessions[0].fingerPrint);
      docs := Pull(docs, Oid(oid.value), user.sessions[0].fingerPrint);
      return None;
    }

    /** `CreateSession` (`FindOneAndUpdate` with `$push`). */
    method CreateSession(user: User, fault: Option<GoError>) returns (err: Option<GoError>)
      requires Valid() && |user.sessions| > 0
      modifies this
      ensures Valid()
      ensures (err, docs) == CreateSessionStep(old(docs), user, fault)
    {
      var oid := ParseObjectId(user.guid);
      if oid.None? {
        return Some(ObjectIdError(user.guid));
      }
      if fault.None? {
        PushKeepsIds(docs, Oid(oid.value), user.sessions[|user.sessions| - 1]);
        docs := Push(docs, Oid(oid.value), user.sessions[|user.sessions| - 1]);
      }
      return None;
    }
  }
}
