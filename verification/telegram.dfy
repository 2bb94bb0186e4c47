/** The messaging-platform client as the saved-messages service sees it: the shapes of the objects
    it returns, the calls the service makes on it (as a trace), and the client itself as a set of
    oracles. */
module Telegram {
  import opened Js

  type Buffer = seq<bv8>

  /** A document attribute; only `fileName` is read. */
  datatype Attribute = Attribute(fileName: Option<string>)

  /** One entry of a photo's `sizes` list. */
  datatype PhotoSize = PhotoSize(sizeType: string)

  datatype Photo = Photo(sizes: Option<seq<PhotoSize>>)

  datatype Document = Document(mimeType: Option<string>, size: int, attributes: Option<seq<Attribute>>)

  /** `msg.media`: at most the photo and document parts are read. */
  datatype Media = Media(photo: Option<Photo>, document: Option<Document>)

  datatype Message = Message(id: int, date: int, text: Option<string>, media: Option<Media>)

  /** What `sendCode` yields: the phone-code hash, and the session string the client saves afterwards. */
  datatype SentCode = SentCode(phoneCodeHash: string, savedSession: string)

  /** The arguments of `signInUser`: the client's restored session and the three credentials. */
  datatype SignInRequest = SignInRequest(sessionString: string, phoneNumber: string, phoneCode: string, password: string)

  datatype User = User(id: int)

  /** What a successful `signInUser` yields: the user, and the session string the client saves afterwards. */
  datatype SignedIn = SignedIn(user: User, savedSession: string)

  datatype SentMessage = SentMessage(id: int, date: int)

  /** Calls made on the platform, in the order made. */
  datatype Call =
    | Connect(sessionString: string)
    | SendCode(phoneNumber: string)
    | SignIn(request: SignInRequest)
    | SendText(text: string)
    | FetchMessages(limit: Option<int>, offsetId: int)
    | DownloadMedia(media: Media, thumb: Option<nat>)

  /** The client's answers. `connect` yields the error it throws, if any; `downloadMedia` yields
      `None` for a `null`/`undefined` buffer. */
  datatype Client = Client(
    connect: string -> Option<JsError>,
    sendCode: string -> Result<SentCode, JsError>,
    signIn: SignInRequest -> Result<SignedIn, JsError>,
    sendMessage: string -> Result<SentMessage, JsError>,
    getMessages: (Option<int>, int) -> Result<seq<Message>, JsError>,
    downloadMedia: (Media, Option<nat>) -> Result<Option<Buffer>, JsError>)

  /** `messages.filter((msg) => msg.media)`. */
  function WithMedia(s: seq<Message>): (r: seq<Message>)
    ensures |r| <= |s|
    ensures forall i :: 0 <= i < |r| ==> r[i].media.Some?
    ensures forall i :: 0 <= i < |s| && s[i].media.Some? ==> s[i] in r
    ensures forall m :: m in r ==> m in s
  {
    if s == [] then []
    else
      var rest := WithMedia(s[1..]);
      assert forall i :: 1 <= i < |s| ==> s[i] == s[1..][i - 1];
      if s[0].media.Some? then [s[0]] + rest else rest
  }

  /** The filter keeps the original order: it distributes over concatenation. */
  lemma {:induction false} WithMediaAppend(a: seq<Message>, b: seq<Message>)
    ensures WithMedia(a + b) == WithMedia(a) + WithMedia(b)
  {
    if a == [] {
      assert a + b == b;
    } else {
      assert (a + b)[1..] == a[1..] + b;
      WithMediaAppend(a[1..], b);
    }
  }

  /** When every message has media, nothing is dropped. */
  lemma {:induction false} WithMediaKeepsAll(s: seq<Message>)
    requires forall i :: 0 <= i < |s| ==> s[i].media.Some?
    ensures WithMedia(s) == s
  {
    if s != [] {
      WithMediaKeepsAll(s[1..]);
    }
  }
}

/** The bearer token's payload and issuing defaults (the signing itself is the library's). */
module Jwt {
  import opened Js

  datatype TokenPayload = TokenPayload(sessionString: string, phoneNumber: string, sessionId: string)

  const DefaultExpiresIn: string := "24h"

  /** `process.env.JWT_EXPIRES_IN || "24h"`. */
  function ExpiresIn(env: Option<string>): (r: string)
    ensures r != ""
    ensures Truthy(env) ==> r == env.value
    ensures !Truthy(env) ==> r == DefaultExpiresIn
  {
    OrElse(env, DefaultExpiresIn)
  }
}
