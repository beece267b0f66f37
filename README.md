# Authentication service: sessions, sign-in and refresh-token rotation

A Dafny model of the core of a small Go authentication service. The service keeps users
in a MongoDB `users` collection. Each user document holds an ordered list of sessions:
a client fingerprint, the bcrypt hash of a refresh token, and creation and expiry times.

Two HTTP handlers work on that store:

- `SignIn` looks a user up by GUID and issues a JWT access token and a random refresh
  token. It stores a new session and sets the refresh token in a cookie.
- `RefreshTokens` reads the cookie and finds a session by fingerprint. It checks the
  token against the stored hash and rotates the session.

The model also covers:

- the token helpers: the claims of the JWT, and the `%x` rendering of 32 seeded random bytes;
- the application error record;
- the choice of Mongo URI and credential in `NewClient`.

Modules, one per source file or library the core relies on:

| module | file | models |
|---|---|---|
| `Wrappers` | wrappers.dfy | `Option` |
| `Encoding` | encoding.dfy | `%x` on a byte slice, `base64.StdEncoding` encode and decode, `[]byte(s)` |
| `Json` | json.dfy | `json.Marshal` of a struct of strings, with a reader for the round trip |
| `AppErrors` | apperror.dfy | `apperror.AppError`, `fmt.Errorf` without operands, Go error values |
| `Domain` | domain.dfy | `domain.User`, `domain.Session` |
| `Repository` | repository.dfy | the user store: ObjectIDs, queries, `$pull`/`$push`/`InsertOne`, the `UserStore` class |
| `Services` | services.dfy | `CreateJwtToken`, `(*Rand).Read`, `CreateRefreshToken` |
| `Handlers` | handlers.dfy | `SignIn`, `RefreshTokens`, the `Handler` class |
| `MongoClient` | mongodb.dfy | URI and credential selection in `NewClient` |

Each handler and each store mutation has two parts:

- a pure function that says what it does (`SignInStep`, `RefreshStep`, `DeleteSessionStep`, ...);
- a method on a class that changes the store in place and is proved equal to that function.

The lemmas state the properties of the flows about the functions. Times are Unix seconds.

Everything outside the store is a parameter of the request's `Env`:

- the clock (`now`);
- the seeded `math/rand` source;
- bcrypt, as a `hash` and a `compare` function, with `Sound` as the hypothesis that a
  password checks against its own hash;
- the JWT signer;
- the failures of each Mongo driver call.

A Go panic is an outcome of its own (`Panicked`), carrying the runtime's message.

The model follows the code where it departs from the intended design:

- sign-in appends a session and keeps the older ones;
- the refresh token is rotated by a delete followed by a separate insert, and a failed
  delete is ignored;
- refresh never looks at `ExpiresAt`;
- the refresh cookie expires with the old session;
- the fingerprint lookup has no match stage, so it reads only the first document of the
  collection;
- `CreateSession` reports success when the update fails;
- the JWT is signed before the session is stored.

## Model

| member | source | states |
|---|---|---|
| `Encoding.HexRoundTrip` | internal/services/user.go:35 | `%x` output reads back as the buffer it was printed from |
| `Encoding.HexInjective` | internal/services/user.go:35 | distinct buffers print as distinct hex strings |
| `Encoding.HexStringLayout` | internal/services/user.go:35 | every character is a lower-case hex digit; byte k sits at positions 2k and 2k+1, high nibble first |
| `Encoding.Base64Encode` | internal/handlers/user.go:102 | the encoding of n bytes has 4·⌈n/3⌉ characters |
| `Encoding.Base64Alphabet` | internal/handlers/user.go:175 | the encoding uses only the standard alphabet and `=` |
| `Encoding.Base64DecodeFrom` | internal/handlers/user.go:153-156 | a corrupt input is reported at an offset inside the input |
| `Encoding.Base64RoundTrip` | internal/handlers/user.go:153 | decoding the standard encoding of any bytes gives those bytes back |
| `Encoding.Utf8Ascii` | internal/handlers/user.go:82 | `[]byte(s)` of an ASCII string is one byte per character, each the character's code |
| `Json.ObjectRoundTrip` | internal/handlers/user.go:113-116 | what `json.Marshal` writes for a struct of strings reads back as exactly its fields, in order, escaping included |
| `AppErrors.SprintfPlain` | internal/apperror/error.go:34 | `fmt.Errorf(message)` prints `message` unchanged when it holds no `%` |
| `AppErrors.NewAppErrorFields` | internal/apperror/error.go:32-38 | `Error()` is the message; `Unwrap()` prints the message read as a format; the developer message is kept; the `err` argument makes no difference |
| `AppErrors.SystemErrorFields` | internal/apperror/error.go:40-42 | message "Internal system error", and the cause's text as the developer message |
| `AppErrors.ErrNotFoundFields` | internal/apperror/error.go:9 | message "Not Found", a wrapped error with that text, and an empty developer message |
| `AppErrors.MarshalFields` | internal/apperror/error.go:25-31 | the JSON holds exactly `message` and `developerMessage`, in that order, and does not depend on `Err` |
| `Repository.ParseObjectId` | internal/repository/user.go:43 | succeeds exactly on 24 hex digits of either case, and keeps each digit's value |
| `Repository.ObjectIdError` | internal/repository/user.go:43-46 | a GUID that is not 24 bytes long gives `ErrInvalidHex`; a 24-byte GUID that does not parse gives `InvalidByteError` for its first byte that is not a hex digit |
| `Repository.NonHexGuid` | internal/repository/user.go:43-46 | twenty-four `z`s fail on the first `z`, not with `ErrInvalidHex` |
| `Encoding.Utf8AsciiBytes` | internal/repository/user.go:43 | a string whose bytes are all ASCII is an ASCII string, so 24 hex bytes are 24 hex characters |
| `AppErrors.InvalidByteTexts` | internal/repository/user.go:43-46 | `InvalidByteError` prints `encoding/hex: invalid byte: ` and the byte as `%#U`, with the character only when it is printable |
| `Repository.ObjectIdHexRoundTrip` | internal/repository/user.go:34 | the `Hex()` text of an ObjectID parses back to it |
| `Repository.Find` | internal/repository/user.go:50 | a document found has the id; when none is found, no document has it |
| `Repository.GetByGUID` | internal/repository/user.go:41-67 | a GUID that is not an ObjectID fails with `ObjectIdError` before any lookup; a missing document gives `ErrNotFound`; any other lookup failure gives the zero User and no error; otherwise the stored user |
| `Repository.FirstIndex` | internal/repository/user.go:117-125 | the position of the first session with the fingerprint: none before it matches, it matches unless it is the end |
| `Repository.FirstWithFingerprint` | internal/repository/user.go:115-128 | at most one session; empty exactly when no session has the fingerprint; otherwise the session at the first position holding the fingerprint |
| `Repository.FirstWithFingerprintAppend` | internal/repository/user.go:97 | when the list already holds the fingerprint, appending a session does not change which one is kept |
| `Repository.FirstMatchSurvivesPush` | internal/repository/user.go:97 | when the first document already holds the fingerprint, a `$push` to any document leaves the fingerprint lookup's answer as it was |
| `Repository.GetByFingerPrint` | internal/repository/user.go:107-153 | a failed aggregate panics on the nil cursor; an empty collection panics on `results[0]`; otherwise the first document, whether or not it matches, with its sessions filtered to the first one with the fingerprint |
| `Repository.RemoveFingerprint` | internal/repository/user.go:76 | a session stays exactly when it was there and has another fingerprint |
| `Repository.RemoveFingerprintAppend` | internal/repository/user.go:76 | `$pull` distributes over concatenation, so it keeps every remaining session in its place in the order |
| `Repository.WithFingerprintAppend` | internal/repository/user.go:97 | selecting one fingerprint's sessions distributes over appending |
| `Repository.RemoveFingerprintKeepsOthers` | internal/repository/user.go:76 | `$pull` leaves no session of the fingerprint and every other fingerprint's sessions as they were, in order |
| `Repository.DeleteSessionStep` | internal/repository/user.go:69-83 | a GUID that is not an ObjectID (with `ObjectIdError`) or a failed update is reported and changes nothing; otherwise only the user's document changes, losing every session with the fingerprint of `Sessions[0]`; an unknown id is no error |
| `Repository.CreateSessionStep` | internal/repository/user.go:85-105 | an error, `ObjectIdError`, exactly when the GUID is not an ObjectID; a failed update returns nil and changes nothing; otherwise the last of `Sessions` is appended to the user's document only |
| `Repository.CreateStep` | internal/repository/user.go:24-39 | inserted at the end unless the driver fails or the `_id` is taken; the hex id comes back only for a generated ObjectID, `""` for a string `_id`; unique ids are kept |
| `Repository.PullKeepsIds` | internal/repository/user.go:76 | `$pull` keeps the number of documents, their ids and their uniqueness |
| `Repository.PushKeepsIds` | internal/repository/user.go:97 | `$push` keeps the number of documents, their ids and their uniqueness |
| `Repository.UserStore.constructor` | internal/repository/user.go:16-22 | a store over a collection with unique ids |
| `Repository.UserStore.Create` | internal/repository/user.go:24-39 | the new state and results are those of `CreateStep`; ids stay unique |
| `Repository.UserStore.DeleteSession` | internal/repository/user.go:69-83 | the new state and result are those of `DeleteSessionStep`; ids stay unique |
| `Repository.UserStore.CreateSession` | internal/repository/user.go:85-105 | the new state and result are those of `CreateSessionStep`; ids stay unique |
| `Services.AccessTokenFor` | internal/services/user.go:14-20 | HS512, `sub` is the user's GUID, `iat` is now, `exp` is `iat` plus 24 hours |
| `Services.CreateJwtToken` | internal/services/user.go:13-26 | the signer's token for those claims, or `""` and the signer's error |
| `Services.AccessTokenWindow` | internal/services/user.go:16-17 | the claims are accepted during exactly the 24 hours from issue |
| `Services.RandomBytes` | internal/services/user.go:30 | n bytes, byte i taken from the (i div 7)-th `Int63()` value |
| `Services.Read` | internal/services/user.go:30 | fills the buffer in place with the generator's bytes, seven per `Int63()` value, lowest first; always `len(p)` and a nil error |
| `Services.CreateRefreshToken` | internal/services/user.go:28-36 | the `%x` text of 32 bytes from a generator seeded with the current second |
| `Services.RefreshTokenShape` | internal/services/user.go:35 | 64 lower-case hex digits, two per byte, in order |
| `Services.RefreshTokenDeterminesBytes` | internal/services/user.go:35 | equal tokens come from equal buffers |
| `Services.CreateTwoRefreshTokens` | internal/services/user.go:30 | two calls in the same second return the same token |
| `Handlers.RespondConsistent` | internal/handlers/user.go:113-127 | the bearer token is the body's `AccessToken`, the HttpOnly refresh-token cookie is the body's `RefreshToken`, Content-Type is "aplication/json" |
| `Handlers.SignInLookupFailure` | internal/handlers/user.go:65-68 | a failed lookup is returned as is, with nothing stored or written |
| `Handlers.SignInLookupFault` | internal/handlers/user.go:65-100 | a driver failure in the lookup leads, through the zero User, to `ErrInvalidHex` from `CreateSession`: nothing stored or written |
| `Handlers.SignInAppends` | internal/handlers/user.go:88-111 | a written sign-in found the user; the cookie expires with the new session; unless the push failed, the store is the `$push` of the new session onto the user's document, so all older sessions stay; a failed push stores nothing |
| `Handlers.SignInPushFaultStillWrites` | internal/handlers/user.go:97-127 | when the push fails, tokens are still written although no session was stored |
| `Handlers.SignInFindsDocument` | internal/repository/user.go:47-57 | with unique ids, a lookup by a document's own ObjectID finds that document |
| `Handlers.SignInWritten` | internal/handlers/user.go:65-127 | a written sign-in loaded the user and writes its token, the encoded new raw token and the new session's expiry |
| `Handlers.IssueWritten` | internal/handlers/user.go:72-127 | a written response means signing and hashing succeeded, and it is built from those results |
| `Handlers.SignInConsistent` | internal/handlers/user.go:102-127 | the header, cookie and body of a sign-in agree |
| `Handlers.SignInCookieDecodes` | internal/handlers/user.go:102 | the cookie decodes to the raw token, which checks against the stored hash |
| `Handlers.RefreshWritten` | internal/handlers/user.go:142-167 | a written refresh had a cookie that decodes, a first document with a session of the fingerprint, and a token that checks |
| `Handlers.ReissueWritten` | internal/handlers/user.go:170-221 | a written refresh response is built from the new token and the old session's expiry, and stores the rotation |
| `Handlers.RefreshCookieFailures` | internal/handlers/user.go:142-156 | no cookie gives "Cookie not found", and a cookie that is not base64 gives the decoder's error, both before the store is read |
| `Handlers.RefreshOnlyFirstDocument` | internal/handlers/user.go:159-164 | a failed aggregate, an empty collection, or a first document without the fingerprint all panic |
| `Handlers.RefreshMismatch` | internal/handlers/user.go:164-167 | a token that does not check against the matched session fails with bcrypt's error and changes nothing |
| `Handlers.RefreshCookieExpiry` | internal/handlers/user.go:178-183 | the new cookie expires when the matched old session does |
| `Handlers.RefreshConsistent` | internal/handlers/user.go:175-221 | the header, cookie and body of a refresh agree; the cookie decodes to the new raw token |
| `Handlers.RefreshRotates` | internal/handlers/user.go:191-207 | only the first document changes; the fingerprint's old sessions go (or stay, when the delete failed) and the new session is appended (or not, when the push failed); the new session is its fingerprint's only one, or there is none; other fingerprints are unchanged |
| `Handlers.RefreshRotatesDocuments` | internal/handlers/user.go:197-207 | only the first document changes; its sessions lose the fingerprint unless the delete failed, and gain the new session unless the push failed |
| `Handlers.RotateEffect` | internal/handlers/user.go:197-207 | delete then push on the first document always reports success and changes that document alone, as each call's fault allows |
| `Handlers.RotationKeepsOthers` | internal/handlers/user.go:197-204 | after the rotation the new session is its fingerprint's only one, or there is none when the push failed; other fingerprints' sessions are unchanged |
| `Handlers.RefreshSucceeds` | internal/handlers/user.go:133-224 | a refresh writes a response when its checks pass, whether or not the store calls fail; no check looks at `ExpiresAt` |
| `Handlers.RefreshPushFaultStillWrites` | internal/handlers/user.go:197-221 | when the push fails, fresh tokens are still written, the old sessions of the fingerprint are gone unless the delete failed too, and none is stored in their place |
| `Handlers.SameSecondSameToken` | internal/handlers/user.go:170 | a sign-in and a refresh in the same second issue the same raw refresh token |
| `Handlers.SignInThenRefresh` | internal/handlers/user.go:57-224 | refreshing with the cookie of a sign-in succeeds when the user's document is the first and held no session of that fingerprint |
| `Handlers.RepeatSignInKeepsOldestMatch` | internal/handlers/user.go:88-97 | a repeated sign-in with a fingerprint the first document already holds leaves the oldest session as the one a refresh checks; the new cookie is then rejected unless it checks against that old hash |
| `Handlers.FirstOfAppended` | internal/repository/user.go:115-128 | a session appended to a list without its fingerprint is the first one found |
| `Handlers.Handler.constructor` | internal/handlers/user.go:31-36 | the handler wraps the given store |
| `Handlers.Handler.SignIn` | internal/handlers/user.go:57-130 | changes the store and ends as `SignInStep` says; ids stay unique |
| `Handlers.Handler.Issue` | internal/handlers/user.go:72-127 | the part of `SignIn` after the lookup, as `IssueStep` says; ids stay unique |
| `Handlers.Handler.RefreshTokens` | internal/handlers/user.go:133-224 | changes the store and ends as `RefreshStep` says; ids stay unique |
| `Handlers.Handler.Reissue` | internal/handlers/user.go:169-224 | the part of `RefreshTokens` after the token check, as `ReissueStep` says |
| `Handlers.Handler.RotateSession` | internal/handlers/user.go:197-207 | the delete, whose error is dropped, then the push of the one new session, as `Rotate` says; ids stay unique |
| `MongoClient.ClientOptionsFor` | pkg/client/mongodb/mongodb.go:11-32 | the URI is `mongodb://` and ends with `host:port`; nothing comes between them without credentials; otherwise the username, `:`, the password and `@` come between them, unescaped; a credential is set exactly when the username or the password is non-empty |
| `MongoClient.CredentialFields` | pkg/client/mongodb/mongodb.go:23-31 | the credential carries the username and the password; the auth source is `authDB`, or the database when `authDB` is empty |
| `MongoClient.UriUserInfo` | pkg/client/mongodb/mongodb.go:14-20 | when host and port hold no `@`, the URI holds one exactly in auth mode |
| `MongoClient.UriNotEscaped` | pkg/client/mongodb/mongodb.go:18 | username and password go into the URI unescaped, so two different credentials can share one URI |

## Left out

- Request decoding, routing, logging and the response writer are not modelled. The request
  is given decoded, and the response is a record. The error middleware that renders a
  returned error is not part of this model.
- bcrypt is the `Hasher` parameter. Salting, cost and timing are not modelled; `Sound` is
  assumed where a proof needs a token to check against its own hash.
- JWT encoding and HMAC-SHA512 signing are the `Signer` parameter. The configuration that
  supplies the secret is not part of this model.
- `math/rand` is the `Int63Source` parameter. Its generator algorithm is not modelled.
- `time.Now` is one `now` per request, in Unix seconds. Sub-second precision and the
  monotonic clock are not modelled.
- Failures of the Mongo driver are inputs (`Faults`), not derived from a server. Failures of
  `Decode` in `GetByGUID` and of `cursor.All` in `GetByFingerPrint` are not modelled. The
  JSON round trip at the end of `GetByGUID` is taken as lossless.
- Repository.UserStore.Create: the real store writes a nil session list as BSON null, because
  the `sessions` tag's option is spelled " omitempty" and is not recognised. A later `$push`
  on that document then fails, and `CreateSession` reports success. The model stores an
  empty list instead.
- Repository.UserStore.Create: the driver's duplicate-key error is a fixed text.
- Encoding.Base64DecodeFrom: Go's decoder skips `\r` and `\n` inside the input; the model
  does not, since cookie values cannot hold them.
- AppErrors.Sprintf: the `*` width and `[n]` argument-index forms of `fmt` are not modelled.
- Json.EscapeChar: backspace and form feed are escaped as `\u0008` and `\u000c`, as Go
  releases before 1.22 do; later releases write `\b` and `\f`.
- The "Server error" branch of `RefreshTokens` is not modelled: `r.Cookie` only fails with
  `ErrNoCookie`.
- The error branches after `json.Marshal` (in both handlers and in `Marshal`) are not
  modelled: marshalling a struct of strings cannot fail.
- The print branch of `CreateRefreshToken` is not modelled: `(*Rand).Read` never fails.
- Concurrent requests are not modelled: the code has no synchronisation.
- Connecting and pinging in `NewClient`, the configuration loader, application start-up and
  `main` are not modelled.
