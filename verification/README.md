# Saved-messages HTTP façade: login, request authentication and media rules

This project models the parts of a small HTTP service that have decision logic of their own. The
service sits in front of a messaging-platform client library. It logs a user in with a phone number
and a one-time code, issues a bearer token, and lets the holder of that token read, send and
download messages in the platform's "saved messages" chat.

The model covers:

- **The two-phase login** (`src/api/controllers/authController.js`). `startAuth` asks the platform to
  send a code to the phone number stripped of non-digits. It then stores a pending record under a
  fresh `sessionId`. `verifyCode` accepts only an existing pending record. It signs in, issues a
  token over `{sessionString, phoneNumber, sessionId}` and marks the record verified. The records form
  a class `Auth.AuthController` whose map field `sessions` the two methods update. Each method is
  proved equal to a step function (`StartAuthStep`, `VerifyCodeStep`). Those functions carry the
  promised properties in their contracts.
- **The login record** (`src/models/Session.js`): required fields, defaults, the unique `sessionId`
  and the 24-hour TTL index.
- **Request authentication** (`src/api/middleware/auth.js`). The token is the `Authorization` header
  with the first `"Bearer "` removed, a bearer-token scheme in the style of section 2.1 of RFC 6750.
  Failures are mapped to 401 or 500 by error name. A pending record is reused, or else the session is
  rebuilt from the token. The session is attached before `next` runs, exactly once.
- **The error handler** (`src/api/middleware/errorHandler.js`). It is a sequence of overriding
  assignments. It is proved equal to a rule-priority definition.
- **Media rules** (`src/api/controllers/messageController.js`, `src/fileManager.js`): media kind, MIME
  type, media info, the `getMessages` listing with `mediaOnly`/`count`/`hasMore`, the `sendMessage`
  guard, file extensions, the download file name and where the download lands on disk, and the
  media filter and upload listing.

Everything outside the service is a parameter. This covers the platform client (`connect`,
`sendCode`, `signInUser`, `sendMessage`, `getMessages`, `downloadMedia`, each an oracle in
`Telegram.Client`), `jwt.sign` and `jwt.verify`, `uuidv4` (a `freshId` argument), `Date.now` (a
`now` argument), base64 encoding, `fs.readdir`, whether `fs.writeFile` fails, and environment
variables. The `jwt.sign` and `fs.writeFile` oracles may fail. Calls made on the platform
are returned as a trace `seq<Call>`. That is how "the code goes to the stripped number" and "nothing
is sent" are stated.

Some behaviours of the code worth knowing, all modelled as the code has them:

- `startAuth` answers with the default status 200.
- `phoneCodeHash` is optional in the schema. `verifyCode` reads the stored hash but never uses it.
- A failed reconnection in the middleware goes to its catch block: 500 "Authentication failed" unless the error is named `JsonWebTokenError` or `TokenExpiredError`.
- A failure of `connect`, `sendCode`, `signInUser` or `jwt.sign` is handed to the error handler, and
  the login record is left as it was.

## Model

| member | source | states |
|---|---|---|
| `Js.IndexOf` | src/api/middleware/auth.js:8 | the index found is an occurrence of the pattern with none before it, and none means no occurrence at all |
| `Js.ReplaceFirst` | src/api/middleware/auth.js:8 | with no occurrence the string is unchanged; otherwise the text before the first occurrence is kept, that occurrence alone is replaced (the replacement taken literally, holding no `$` pattern; the code passes `""`), and the rest is kept |
| `Js.ReplaceFirstPrefix` | src/api/middleware/auth.js:8 | removing the first occurrence never lengthens the string, and removes exactly the prefix when the string starts with the pattern |
| `Js.ReplaceFirstAtStart` | src/api/middleware/auth.js:8 | replacing the first `p` in `p + t` gives `t`, even when `t` holds `p` again (string `replace` touches the first match only) |
| `Js.ReplaceFirstAbsent` | src/api/middleware/auth.js:8 | a header without `"Bearer "` is left as it is |
| `Js.ReplaceFirstShortens` | src/api/middleware/auth.js:8 | when the pattern occurs, exactly its length is removed |
| `Js.StripNonDigits` | src/api/controllers/authController.js:33 | the result holds only digits, keeps every digit of the input and adds nothing |
| `Js.StripNonDigitsAppend` | src/api/controllers/authController.js:33 | digits are kept in input order (stripping distributes over concatenation) |
| `Js.StripNonDigitsOfDigits` | src/api/controllers/authController.js:33 | a string of digits is unchanged |
| `Js.StripNonDigitsIdempotent` | src/api/controllers/authController.js:33 | stripping twice is stripping once |
| `Js.DecimalString` | src/fileManager.js:81-83 | the timestamp's text is a non-empty run of digits with no leading zero (only the number 0 is written `0`) |
| `Js.DecimalRoundTrip` | src/fileManager.js:81-83 | reading the timestamp's text back gives the timestamp |
| `Js.DecimalStringInjective` | src/fileManager.js:81-83 | distinct timestamps have distinct texts |
| `Telegram.WithMedia` | src/fileManager.js:49 | the filter keeps only messages with media, keeps every one of them, and invents none |
| `Telegram.WithMediaAppend` | src/api/controllers/messageController.js:15 | the filter preserves order: it distributes over concatenation |
| `Telegram.WithMediaKeepsAll` | src/api/controllers/messageController.js:13-16 | when every message has media the list is unchanged |
| `Sessions.Build` | src/models/Session.js:3-27 | creation succeeds iff `sessionId`, `phoneNumber` and `sessionString` are non-empty; `timestamp` defaults to now, `isPending` to false, `phoneCodeHash` stays optional |
| `Sessions.Create` | src/models/Session.js:4-8 | an insert succeeds iff the document is valid and its `sessionId` is not taken; it adds exactly that record and keeps ids unique |
| `Sessions.FindPending` | src/api/controllers/authController.js:204-206 | a record is found iff it exists and is pending; verified records are never returned |
| `Sessions.SweepExpired` | src/models/Session.js:30 | after the TTL monitor runs, exactly the records at most 86400 s old remain, unchanged |
| `Sessions.ExpiryIgnoresPending` | src/models/Session.js:30 | expiry does not depend on the pending flag and comes 86400000 ms after `timestamp` |
| `Jwt.ExpiresIn` | src/api/controllers/authController.js:137 | the token lifetime is `JWT_EXPIRES_IN` when set and non-empty, else "24h"; never empty |
| `Auth.PasswordOrEmpty` | src/api/controllers/authController.js:113 | the password handed to sign-in is the given one when non-empty, else `""` |
| `Auth.StartAuthStep` | src/api/controllers/authController.js:10-62 | a missing or empty number gives 400, no call and no record; otherwise a connect, and after a successful connect exactly one `sendCode` with the digits-only number; a failed connect or `sendCode` is passed on with its own error, an id that is empty or taken fails validation or the unique index; the code is sent and recorded iff connect and `sendCode` succeed and the record is valid with a fresh id, and then exactly one pending record is added under that id with the unstripped number and the returned hash, and the reply carries the id and `nextStep: "verify"`; any failure leaves the records unchanged |
| `Auth.VerifyCodeStep` | src/api/controllers/authController.js:65-163 | missing id or code gives 400; 404 iff no pending record has that id; for a pending record: connect on the stored session, then sign-in with the stored phone number, the code and `password` or `""`, then `jwt.sign`; each failure is passed on with its own error and leaves the record pending; success iff all three succeed, and then only that record changes, to not pending with the client's new session string, and the reply carries the token signed over `{sessionString, phoneNumber, sessionId}` with `JWT_EXPIRES_IN` or `"24h"` |
| `Auth.SecondVerifyNotFound` | src/api/controllers/authController.js:75-81 | after a successful verify, a second verify of the same id returns 404 and changes nothing |
| `Auth.StartThenVerifySignsInStoredNumber` | src/api/controllers/authController.js:91-114 | a verify after a start signs in with the number as first given, unstripped, and the defaulted password |
| `Auth.AuthController.StartAuth` | src/api/controllers/authController.js:10-62 | the method's reply, calls and new records are those of `StartAuthStep`; ids stay unique and no record is lost or returns to pending |
| `Auth.AuthController.VerifyCode` | src/api/controllers/authController.js:65-163 | the method's reply, calls and new records are those of `VerifyCodeStep`; ids stay unique and no record is lost or returns to pending |
| `Auth.AuthController.GetSession` | src/api/controllers/authController.js:204-206 | returns the record iff it exists and is pending |
| `Auth.AuthController.ExpireSessions` | src/models/Session.js:30 | the records become those the TTL sweep keeps |
| `AuthMiddleware.BearerToken` | src/api/middleware/auth.js:8 | no header gives no token; a header starting with `"Bearer "` gives what follows it; the token is never longer than the header |
| `AuthMiddleware.CatchReply` | src/api/middleware/auth.js:49-66 | `JsonWebTokenError` gives 401 "Invalid token", `TokenExpiredError` 401 "Token expired", any other error 500 "Authentication failed" |
| `AuthMiddleware.Decide` | src/api/middleware/auth.js:6-67 | no token iff 401 "Access token is required"; a refused token gets the reply its error names; an attached session always carries the token's `sessionId`; a pending record for that id is reused, otherwise the session is rebuilt from the token's string and phone number; denial after verification iff no pending record and the reconnect fails |
| `AuthMiddleware.BearerTokenCases` | src/api/middleware/auth.js:8 | `"Bearer " + t` yields `t`; a header without the scheme word is used whole |
| `AuthMiddleware.SchemeWithoutTokenRefused` | src/api/middleware/auth.js:8-14 | the header `"Bearer "` alone is refused with 401 "Access token is required" |
| `AuthMiddleware.IssuedTokenRebuildsSession` | src/api/middleware/auth.js:17-46 | a token from a successful verify authenticates by rebuilding the session (its record is no longer pending), with the stored phone number and the verified id |
| `AuthMiddleware.Authenticate` | src/api/middleware/auth.js:42-48 | on denial the status and error are sent and `next` is not called; on success the session is attached, then `next` is called exactly once and sees it |
| `ErrorHandler.Respond` | src/api/middleware/errorHandler.js:2-38 | a JWT error wins over everything (401), then an oversized upload (413), then a platform `errorMessage` (400), else `err.status` or 500 with `err.message` or "Internal server error"; the stack appears only in development |
| `ErrorHandler.HandleError` | src/api/middleware/errorHandler.js:2-38 | the step-by-step overriding assignments give exactly the priority-ordered `Respond` |
| `ErrorHandler.PlainErrorIs500` | src/api/middleware/errorHandler.js:6-9 | an error with only a name and message becomes a 500 with that message and no stack outside development |
| `ErrorHandler.StatusOr500` | src/api/middleware/errorHandler.js:8 | a present non-zero `err.status` is kept, otherwise 500; never 0 |
| `Messages.MediaType` | src/api/controllers/messageController.js:172-182 | "photo" iff a photo; otherwise "video", "audio" or "image" iff the document's MIME type has that prefix; "document" for any other document; "unknown" iff neither |
| `Messages.MimeType` | src/api/controllers/messageController.js:185-191 | "image/jpeg" for a photo, a document's non-empty MIME type, else "application/octet-stream"; never empty |
| `Messages.FirstNamed` | src/api/controllers/messageController.js:206-207 | the attribute found is the first with a non-empty `fileName` |
| `Messages.FileName` | src/api/controllers/messageController.js:206-207 | a file name is reported iff some attribute has a non-empty `fileName`, and it is never empty |
| `Messages.GetMediaInfo` | src/api/controllers/messageController.js:193-212 | `null` iff neither photo nor document; a photo's size count or 0; a document's type, size and the file name of its first attribute with a non-empty one |
| `Messages.FileNameIsFirstNamed` | src/api/controllers/messageController.js:206-207 | the reported file name is that of the first attribute with a non-empty name |
| `Messages.PhotoDataUrl` | src/api/controllers/messageController.js:24-46 | a photo whose thumbnail download yields a buffer gets `"data:image/jpeg;base64,"` followed by the buffer's base64 text; a failed download, a download that yields no buffer, or a non-photo gets none; an empty buffer still gets a URL |
| `Messages.JpegDataUrl` | src/api/controllers/messageController.js:33-35 | the URL assembled from `"data:"`, the photo MIME type and `";base64,"` is the JPEG `data:` prefix followed by the encoded text |
| `Messages.Format` | src/api/controllers/messageController.js:48-57 | an entry keeps the message's id and date, `text` or `""`, has media, the media type and media info of its media, the photo's `data:` URL if any (base64 only for photos), and no file path |
| `Messages.FormatMessage` | src/api/controllers/messageController.js:19-58 | the `map` callback produces exactly the entry `Format` describes and downloads a thumbnail iff the message has a photo |
| `Messages.FormatAll` | src/api/controllers/messageController.js:18-59 | one entry per shown message, in order, each as `Format` describes; the thumbnail downloads are `PhotoDownloads` of the shown messages |
| `Messages.PhotoDownloadsAreThumbnails` | src/api/controllers/messageController.js:24-29 | the listing downloads only thumbnails (`thumb: 0`) of photos, one for every shown photo, and none when no shown message has a photo |
| `Messages.Shown` | src/api/controllers/messageController.js:13-16 | without `mediaOnly === "true"` every fetched message is shown; with it only messages with media, all of them; nothing is invented |
| `Messages.GetMessages` | src/api/controllers/messageController.js:3-69 | one fetch first; a failed fetch is passed on and nothing else is called; otherwise the listing formats, in order, all fetched messages or those with media when `mediaOnly` is "true", then one thumbnail download per shown photo in listing order; `count` is the listing length and `hasMore` holds iff the number fetched equals the parsed limit |
| `Messages.SendMessageStep` | src/api/controllers/messageController.js:124-150 | an absent or empty text gives 400 and sends nothing; otherwise exactly that text is sent once, a success replies with the platform's id and date and the text, and a failure is passed on with its error |
| `Files.FileExtensionAsWrittenInheritsMembers` | src/fileManager.js:102-111 | as written, a document with MIME type "toString" gets an inherited function instead of ".bin" |
| `Files.FileExtensionAsWritten` | src/fileManager.js:98-119 | as written, the lookup yields an inherited `Object.prototype` member exactly for a document whose MIME type is such a key and not in the table; any string it yields is one of the eight extensions |
| `Files.GetFileExtension` | src/fileManager.js:98-119 | always one of the eight extensions; a document by the 7-entry table or ".bin", taking precedence over a photo; a photo ".jpg"; anything else ".bin" |
| `Files.AsWrittenAgreesOffPrototypeKeys` | src/fileManager.js:111 | the as-written lookup and the corrected one agree on every MIME type that does not name an inherited member |
| `Files.DefaultFileName` | src/fileManager.js:79-84 | the default name is `downloaded_`, then digits that read back to the time and carry no leading zero, then the message's extension; it is a plain name |
| `Files.DefaultNamesDistinct` | src/fileManager.js:81-83 | default names made at different times differ |
| `Files.SplitJoin` | src/fileManager.js:86 | the parts of `dir + "/" + name` are the parts of `dir` followed by those of `name` |
| `Files.WalkAppend` | src/fileManager.js:86 | following two runs of path parts is following the first and then the second |
| `Files.Join` | src/fileManager.js:86 | the joined path names what following the name's parts (with `..` going up) from the directory reaches |
| `Files.PlainNameStaysInside` | src/fileManager.js:86 | a name without separators that is not `.` or `..` names an entry directly inside the directory it is joined to |
| `Files.DownloadNameAsWritten` | src/fileManager.js:79-84 | as written, a non-empty custom name is used whatever it holds, else the default name (built with the corrected extension) |
| `Files.CustomNameEscapesDownloads` | src/fileManager.js:79-86 | as written, the custom name `../x` joined to the downloads directory `/d` names `/x`, outside that directory |
| `Files.DownloadName` | src/fileManager.js:79-86 | the name written under is always plain: the custom name when it is a plain name, else the default name; joined to any directory it names an entry directly inside it |
| `Files.DownloadNameAgreesOnPlainNames` | src/fileManager.js:79-84 | the corrected name and the name as written coincide whenever no custom name is given or the custom name is plain |
| `Files.FileSystem.WriteFile` | src/fileManager.js:87 | a write refused with an error changes no file; otherwise exactly that path gets the data |
| `Files.FileManager.constructor` | src/fileManager.js:6-11 | the client is kept and the directories are `uploads` and `downloads` under the base directory |
| `Files.FileManager.GetFilesFromSavedMessages` | src/fileManager.js:41-57 | the result is the fetched messages that have media, in fetched order (`WithMedia`), all of them and no others; the limit defaults to 10; a failed fetch is passed on |
| `Files.FileManager.UploadPaths` | src/fileManager.js:125 | one path per name, in order, each the name under the upload directory |
| `Files.FileManager.ListUploadFiles` | src/fileManager.js:122-130 | one joined path per directory entry, same count and order; `[]` when listing fails |
| `Files.FileManager.DownloadMediaFromMessage` | src/fileManager.js:60-95 | no media: no download and no write; a failed download or write is passed on and nothing is written; a missing or empty buffer: nothing written; otherwise the buffer is written under `DownloadName` in the downloads directory and that path returned, and the path names an entry directly inside the downloads directory |

## Left out

- `logout` (src/api/controllers/authController.js:186-201): it reads `this.activeSessions`, which is never initialised, so it always fails.
- `getMessage` (src/api/controllers/messageController.js:72-121) is not modelled. It answers 404 "Message not found" when the fetch for the id is empty (lines 81-85), and it builds a `data:` URL from the full download rather than a thumbnail, with `getMimeType` choosing the type; that is the only use of `getMimeType`'s document branch (lines 91-98).
- `getMe`, `deleteMessage`, `sendFileToSavedMessages`, `displayMessageInfo` and `initializeDirs`: they pass a request through to the platform, the disk or the console and have no rule of their own.
- The `onError` callback given to `signInUser` (src/api/controllers/authController.js:115-122) is not modelled. The library calls it on sign-in errors, and it answers `{sessionId, message: err, user: {phoneNumber}}` from inside the sign-in call, which can race with the normal response. Sign-in is modelled as one result, and only a failure that `signInUser` throws is modelled; it goes to the error handler.
- Messages.GetMessages: its precondition asks every shown message to have media. Without `mediaOnly === "true"`, the listing is therefore modelled only when every fetched message has media; in the code a single text-only message makes the listing fail at src/api/controllers/messageController.js:24 (reading `photo` of undefined), and the error goes to the error handler.
- Files.DownloadNameAsWritten: its default name uses the corrected extension `GetFileExtension`. For a MIME type naming an inherited member the code builds the name from that member's string form (such as `function toString() { [native code] }`), which the model does not reproduce; that discrepancy is the extension finding below.
- Two crash paths are excluded by preconditions, not modelled: `getMessages` reading `msg.media.photo` for a message without media, and `getMediaType` calling `startsWith` on a missing `mimeType`.
- `deleteFile` in src/api/controllers/fileController.js is not part of this model. Its containment check (lines 230-233) compares the joined, still relative `filePath` with the resolved, absolute base directory. It appears to refuse every request, but that depends on path resolution the model cannot see.
- The rest of fileController.js (multer storage and `fs` reads), the console menu and prompt login (src/main.js, src/auth.js), configuration reads (src/config.js), and the server, routes, helmet, CORS, rate limiting and database connection are framework I/O.
- JSON body fields are strings or absent. A number or other value sent for `phoneNumber`, `code` or `text` is not modelled.
- `parseInt` of the query strings is not modelled. `GetMessages` takes the parsed limit (none for NaN) and the parsed offset.
- `path.join` is modelled as joining with `/`; where the joined path leads is modelled separately (`Files.Resolve`), for absolute directories. The string `path.join` returns is not normalised in the model (repeated separators and `..` stay in the text).
- Cryptography, base64 encoding, UUID generation and the clock are oracles or arguments. The model does not show that tokens are unforgeable or that ids are random.
- Database failures other than a failed validation or a duplicate `sessionId` are not modelled. Error messages of the document store are stand-ins; only their names matter to the handlers.
- Spreading a stored document into `req.telegramSession` is modelled as copying the record's fields. The library's document wrapper and its internal properties are not modelled.
- The TTL monitor runs on its own schedule. The model has an explicit sweep at a given time.
- Concurrent `verifyCode` calls for one id (last write wins) are out of scope.
- Files.FileManager.DownloadMediaFromMessage: follows the corrected naming of the finding below, so a custom name that is not a plain file name is replaced by the default name. As written, the source writes wherever the request's `fileName` leads, also outside the downloads directory (src/api/controllers/fileController.js:120,139-142 passes it in unchecked).
- Files.FileSystem.WriteFile: whether a write fails is an oracle of the path (`writeError`). The directory creation that `initializeDirs` starts without awaiting it (src/fileManager.js:10) is not modelled, so a write racing it is only one of the failures the oracle may report.
- `jwt.sign` is an oracle that may fail (no `JWT_SECRET` set, say); which inputs make it fail is not modelled.

## Findings

| source | as written | input that shows it | evidently intended | confidence | as-written member | corrected member |
|---|---|---|---|---|---|---|
| src/fileManager.js:79-86 | `path.join(this.downloadsDir, fileName)` with the caller's `fileName` used as given; `downloadFile` passes the request body's `fileName` straight in. A name holding `..` leads out of the downloads directory, so a client chooses where on the disk the download is written. | the request's `fileName` `"../x"` with downloads directory `/d`: the file goes to `/x` | the file is written directly inside the downloads directory whatever name is asked for | high; not executed | `Files.CustomNameEscapesDownloads` | `Files.DownloadName` |
| src/fileManager.js:102-111 | `mimeToExt[mimeType] \|\| ".bin"` looks the key up through the object literal's prototype chain. A MIME type naming an `Object.prototype` member yields that member, which is truthy and not an extension. | a document whose `mimeType` is `"toString"` (or `"constructor"`, `"__proto__"`, ...) | ".bin" for every MIME type outside the seven-entry table | high; not executed | `Files.FileExtensionAsWrittenInheritsMembers` | `Files.GetFileExtension` |
