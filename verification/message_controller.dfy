/** The message endpoints' own logic: classifying media, the listing of saved messages with
    `mediaOnly`, `count` and `hasMore`, and the text guard of `sendMessage`. */
module Messages {
  import opened Js
  import opened Telegram

  /** The document's MIME type is present and starts with `prefix`. */
  predicate DocumentMimeStarts(media: Media, prefix: string) {
    media.document.Some? && media.document.value.mimeType.Some? &&
    StartsWith(media.document.value.mimeType.value, prefix)
  }

  /** `getMediaType` reads a document's `mimeType` without a guard; it must be there when reached. */
  predicate MediaTypeDefined(media: Media) {
    media.photo.None? && media.document.Some? ==> media.document.value.mimeType.Some?
  }

  /** `getMediaType(media)`: photo first, then a document by MIME prefix, else "unknown". */
  function MediaType(media: Media): (r: string)
    requires MediaTypeDefined(media)
    ensures r == "photo" <==> media.photo.Some?
    ensures r == "video" <==> media.photo.None? && DocumentMimeStarts(media, "video/")
    ensures r == "audio" <==> media.photo.None? && DocumentMimeStarts(media, "audio/")
    ensures r == "image" <==> media.photo.None? && DocumentMimeStarts(media, "image/")
    ensures r == "document" <==>
              && media.photo.None? && media.document.Some?
              && !DocumentMimeStarts(media, "video/") && !DocumentMimeStarts(media, "audio/")
              && !DocumentMimeStarts(media, "image/")
    ensures r == "unknown" <==> media.photo.None? && media.document.None?
  {
    if media.photo.Some? then "photo"
    else if media.document.Some? then
      var mimeType := media.document.value.mimeType.value;
      if StartsWith(mimeType, "video/") then "video"
      else if StartsWith(mimeType, "audio/") then "audio"
      else if StartsWith(mimeType, "image/") then "image"
      else "document"
    else "unknown"
  }

  /** `getMimeType(media)`: the MIME type announced in a `data:` URL; never empty. */
  function MimeType(media: Media): (r: string)
    ensures r != ""
    ensures media.photo.Some? ==> r == "image/jpeg"
    ensures media.photo.None? && media.document.Some? && Truthy(media.document.value.mimeType) ==>
              r == media.document.value.mimeType.value
    ensures media.photo.None? && (media.document.None? || !Truthy(media.document.value.mimeType)) ==>
              r == "application/octet-stream"
  {
    if media.photo.Some? then "image/jpeg"
    else if media.document.Some? && Truthy(media.document.value.mimeType) then media.document.value.mimeType.value
    else "application/octet-stream"
  }

  datatype MediaInfo =
    | PhotoInfo(sizes: nat)
    | DocumentInfo(mimeType: Option<string>, size: int, fileName: Option<string>)

  /** `attrs.find((attr) => attr.fileName)`: the index of the first attribute with a non-empty name. */
  function FirstNamed(attrs: seq<Attribute>, from: nat): (r: Option<nat>)
    decreases |attrs| - from
    ensures r.Some? ==> from <= r.value < |attrs| && Truthy(attrs[r.value].fileName)
    ensures r.Some? ==> forall j :: from <= j < r.value ==> !Truthy(attrs[j].fileName)
    ensures r.None? ==> forall j :: from <= j < |attrs| ==> !Truthy(attrs[j].fileName)
  {
    if from >= |attrs| then None
    else if Truthy(attrs[from].fileName) then Some(from)
    else FirstNamed(attrs, from + 1)
  }

  /** `attributes?.find((attr) => attr.fileName)?.fileName`. */
  function FileName(attributes: Option<seq<Attribute>>): (r: Option<string>)
    ensures r.Some? ==> r.value != ""
    ensures r.None? <==> attributes.None? || forall j :: 0 <= j < |attributes.value| ==> !Truthy(attributes.value[j].fileName)
  {
    match attributes
    case None => None
    case Some(attrs) =>
      match FirstNamed(attrs, 0)
      case None => None
      case Some(i) => attrs[i].fileName
  }

  /** `getMediaInfo(media)`: a photo's size count, a document's type, size and first file name,
      `null` for anything else. */
  function GetMediaInfo(media: Media): (r: Option<MediaInfo>)
    ensures r.None? <==> media.photo.None? && media.document.None?
    ensures media.photo.Some? ==>
              r == Some(PhotoInfo(if media.photo.value.sizes.Some? then |media.photo.value.sizes.value| else 0))
    ensures media.photo.None? && media.document.Some? ==>
              && r.Some? && r.value.DocumentInfo?
              && r.value.mimeType == media.document.value.mimeType
              && r.value.size == media.document.value.size
              && r.value.fileName == FileName(media.document.value.attributes)
              && (r.value.fileName.Some? ==> r.value.fileName.value != "")
  {
    if media.photo.Some? then
      var sizes := media.photo.value.sizes;
      Some(PhotoInfo(if sizes.Some? then |sizes.value| else 0))
    else if media.document.Some? then
      var doc := media.document.value;
      Some(DocumentInfo(doc.mimeType, doc.size, FileName(doc.attributes)))
    else None
  }

  /** The file name reported for a document is the first non-empty `fileName` among its attributes. */
  lemma FileNameIsFirstNamed(attrs: seq<Attribute>, i: nat)
    requires i < |attrs| && Truthy(attrs[i].fileName)
    requires forall j :: 0 <= j < i ==> !Truthy(attrs[j].fileName)
    ensures FileName(Some(attrs)) == attrs[i].fileName
  {
  }

  /** One entry of the listing. */
  datatype FormattedMessage = FormattedMessage(
    id: int,
    date: int,
    text: string,
    hasMedia: bool,
    mediaType: Option<string>,
    mediaInfo: Option<MediaInfo>,
    mediaBase64: Option<string>,
    mediaPath: Option<string>)

  /** The listing shows these messages: all fetched, or those with media when `mediaOnly` is "true". */
  function Shown(fetched: seq<Message>, mediaOnly: Option<string>): (r: seq<Message>)
    ensures mediaOnly != Some("true") ==> r == fetched
    ensures mediaOnly == Some("true") ==> forall i :: 0 <= i < |r| ==> r[i].media.Some?
    ensures mediaOnly == Some("true") ==> forall i :: 0 <= i < |fetched| && fetched[i].media.Some? ==> fetched[i] in r
    ensures forall m :: m in r ==> m in fetched
  {
    if mediaOnly == Some("true") then WithMedia(fetched) else fetched
  }

  /** The listing dereferences `msg.media` and classifies it; every shown message must allow that. */
  predicate Formattable(m: Message) {
    m.media.Some? && MediaTypeDefined(m.media.value)
  }

  /** A photo's `data:` URL, built piece by piece, is the JPEG prefix followed by the encoded text. */
  lemma JpegDataUrl(encoded: string)
    ensures "data:" + "image/jpeg" + ";base64," + encoded == "data:image/jpeg;base64," + encoded
  {
  }

  /** The `data:` URL of a photo's first thumbnail, or `null` when the download fails or yields nothing. */
  function PhotoDataUrl(client: Client, base64: Buffer -> string, media: Media): (r: Option<string>)
    ensures r.Some? ==> media.photo.Some? && StartsWith(r.value, "data:image/jpeg;base64,")
    // a photo whose thumbnail download yields a buffer gets that buffer's base64 text as a JPEG `data:` URL
    ensures media.photo.Some? ==>
              match client.downloadMedia(media, Some(0))
              case Ok(Some(buffer)) => r == Some("data:image/jpeg;base64," + base64(buffer))
              case _ => r == None
    ensures media.photo.None? ==> r == None
  {
    if media.photo.None? then None
    else
      match client.downloadMedia(media, Some(0))
      case Err(_) => None
      case Ok(None) => None
      case Ok(Some(buffer)) =>
        JpegDataUrl(base64(buffer));
        var url := "data:" + MimeType(media) + ";base64," + base64(buffer);
        assert url[..|"data:image/jpeg;base64,"|] == "data:image/jpeg;base64,";
        Some(url)
  }

  /** The body of the `map` callback for one message. */
  function Format(client: Client, base64: Buffer -> string, m: Message): (r: FormattedMessage)
    requires Formattable(m)
    ensures r.hasMedia && r.mediaType.Some? && r.mediaInfo.Some? == (r.mediaType != Some("unknown"))
    ensures r.mediaBase64.Some? ==> m.media.value.photo.Some? && StartsWith(r.mediaBase64.value, "data:image/jpeg;base64,")
    ensures r.mediaPath.None?
    ensures r.id == m.id && r.date == m.date && r.text == OrElse(m.text, "")
    ensures r.mediaType == Some(MediaType(m.media.value)) && r.mediaInfo == GetMediaInfo(m.media.value)
    ensures r.mediaBase64 == PhotoDataUrl(client, base64, m.media.value)
  {
    FormattedMessage(m.id, m.date, OrElse(m.text, ""), true, Some(MediaType(m.media.value)),
                     GetMediaInfo(m.media.value), PhotoDataUrl(client, base64, m.media.value), None)
  }

  /** The message's media has a photo part. */
  predicate HasPhoto(m: Message) {
    m.media.Some? && m.media.value.photo.Some?
  }

  /** The thumbnail downloads the listing starts: one per shown photo, in listing order. */
  function PhotoDownloads(shown: seq<Message>): (r: seq<Call>)
    ensures |r| <= |shown|
  {
    if shown == [] then []
    else
      var init, last := shown[..|shown| - 1], shown[|shown| - 1];
      PhotoDownloads(init) + (if HasPhoto(last) then [DownloadMedia(last.media.value, Some(0))] else [])
  }

  /** The listing downloads a thumbnail of every shown photo and of nothing else. */
  lemma {:induction false} PhotoDownloadsAreThumbnails(shown: seq<Message>)
    ensures forall c :: c in PhotoDownloads(shown) ==> c.DownloadMedia? && c.thumb == Some(0) && c.media.photo.Some?
    ensures forall i :: 0 <= i < |shown| && HasPhoto(shown[i]) ==>
              DownloadMedia(shown[i].media.value, Some(0)) in PhotoDownloads(shown)
    ensures (forall i :: 0 <= i < |shown| ==> !HasPhoto(shown[i])) ==> PhotoDownloads(shown) == []
  {
    if shown != [] {
      var init := shown[..|shown| - 1];
      PhotoDownloadsAreThumbnails(init);
      assert forall i :: 0 <= i < |init| ==> init[i] == shown[i];
    }
  }

  /** Extending the listed prefix by one message adds that message's download, if it is a photo. */
  lemma PhotoDownloadsStep(shown: seq<Message>, i: nat)
    requires i < |shown|
    ensures PhotoDownloads(shown[..i + 1]) ==
              PhotoDownloads(shown[..i]) + (if HasPhoto(shown[i]) then [DownloadMedia(shown[i].media.value, Some(0))] else [])
  {
    assert shown[..i + 1][..i] == shown[..i];
  }

  /** The `map` callback for one message: the thumbnail download of a photo, then the entry. */
  method FormatMessage(client: Client, base64: Buffer -> string, msg: Message)
    returns (formatted: FormattedMessage, downloads: seq<Call>)
    requires Formattable(msg)
    ensures formatted == Format(client, base64, msg)
    ensures downloads == if HasPhoto(msg) then [DownloadMedia(msg.media.value, Some(0))] else []
  {
    downloads := [];
    var mediaBase64: Option<string> := None;
    if msg.media.value.photo.Some? {
      downloads := [DownloadMedia(msg.media.value, Some(0))];
      var download := client.downloadMedia(msg.media.value, Some(0));
      if download.Ok? && download.value.Some? {
        JpegDataUrl(base64(download.value.value));
        mediaBase64 := Some("data:" + MimeType(msg.media.value) + ";base64," + base64(download.value.value));
      }
    }
    formatted := FormattedMessage(msg.id, msg.date, OrElse(msg.text, ""), true,
                                  Some(MediaType(msg.media.value)), GetMediaInfo(msg.media.value),
                                  mediaBase64, None);
  }

  /** `Promise.all(filteredMessages.map(...))`: each message formatted in turn, its thumbnail download
      (for a photo) started in listing order. */
  method FormatAll(client: Client, base64: Buffer -> string, shown: seq<Message>)
    returns (formatted: seq<FormattedMessage>, downloads: seq<Call>)
    requires forall m :: m in shown ==> Formattable(m)
    ensures |formatted| == |shown|
    ensures forall k :: 0 <= k < |shown| ==> formatted[k] == Format(client, base64, shown[k])
    ensures downloads == PhotoDownloads(shown)
  {
    formatted, downloads := [], [];
    var i := 0;
    while i < |shown|
      invariant 0 <= i <= |shown|
      invariant |formatted| == i
      invariant forall k :: 0 <= k < i ==> formatted[k] == Format(client, base64, shown[k])
      invariant downloads == PhotoDownloads(shown[..i])
    {
      PhotoDownloadsStep(shown, i);
      var msg := shown[i];
      assert Formattable(msg) by { assert msg in shown; }
      var entry, started := FormatMessage(client, base64, msg);
      downloads := downloads + started;
      ghost var before := formatted;
      formatted := formatted + [entry];
      assert forall k :: 0 <= k < i ==> formatted[k] == before[k];
      i := i + 1;
    }
    assert shown[..i] == shown;
  }

  datatype MessagesPage = MessagesPage(messages: seq<FormattedMessage>, count: nat, hasMore: bool)

  /** `getMessages(req, res, next)` with `limit` already through `parseInt` (`None` for NaN; an absent
      query parameter parses to 10); `offset` likewise, with NaN read as 0. */
  method GetMessages(client: Client, base64: Buffer -> string, limit: Option<int>, offset: int, mediaOnly: Option<string>)
    returns (reply: Result<MessagesPage, JsError>, calls: seq<Call>)
    requires client.getMessages(limit, offset).Ok? ==>
               forall m :: m in Shown(client.getMessages(limit, offset).value, mediaOnly) ==> Formattable(m)
    // one fetch; a failed fetch is passed on and nothing else is called
    ensures |calls| >= 1 && calls[0] == FetchMessages(limit, offset)
    ensures client.getMessages(limit, offset).Err? ==>
              reply == Err(client.getMessages(limit, offset).error) && calls == [FetchMessages(limit, offset)]
    ensures client.getMessages(limit, offset).Ok? ==>
              var fetched := client.getMessages(limit, offset).value;
              var shown := Shown(fetched, mediaOnly);
              && reply.Ok?
              && |reply.value.messages| == |shown| == reply.value.count
              && (forall i :: 0 <= i < |shown| ==> reply.value.messages[i] == Format(client, base64, shown[i]))
              && (reply.value.hasMore <==> limit == Some(|fetched|))
              // then one thumbnail download per shown photo, in listing order
              && calls == [FetchMessages(limit, offset)] + PhotoDownloads(shown)
  {
    calls := [FetchMessages(limit, offset)];
    var fetchResult := client.getMessages(limit, offset);
    if fetchResult.Err? {
      return Err(fetchResult.error), calls;
    }
    var messages := fetchResult.value;
    var filteredMessages := messages;
    if mediaOnly == Some("true") {
      filteredMessages := WithMedia(messages);
    }
    assert filteredMessages == Shown(messages, mediaOnly);
    var formattedMessages, downloads := FormatAll(client, base64, filteredMessages);
    calls := calls + downloads;
    var hasMore := limit.Some? && |messages| == limit.value;
    reply := Ok(MessagesPage(formattedMessages, |formattedMessages|, hasMore));
  }

  datatype SendReply =
    | SendRejected(status: int, error: string)
    | MessageSent(message: string, id: int, date: int, text: string)
    | SendFailed(cause: JsError)

  /** `sendMessage(req, res, next)`: an absent or empty text is refused before anything is sent. */
  function SendMessageStep(client: Client, text: Option<string>): (r: (SendReply, seq<Call>))
    ensures !Truthy(text) <==> r.0 == SendRejected(400, "Message text is required")
    ensures !Truthy(text) ==> r.1 == []
    ensures Truthy(text) ==> r.1 == [SendText(text.value)]
    ensures r.0.MessageSent? ==> r.0.text == text.value && client.sendMessage(text.value).Ok?
    // a sent text is confirmed with the platform's id and date; a refused one is passed on
    ensures Truthy(text) ==>
              match client.sendMessage(text.value)
              case Ok(sent) => r.0 == MessageSent("Message sent successfully", sent.id, sent.date, text.value)
              case Err(e) => r.0 == SendFailed(e)
  {
    if !Truthy(text) then (SendRejected(400, "Message text is required"), [])
    else
      match client.sendMessage(text.value)
      case Err(e) => (SendFailed(e), [SendText(text.value)])
      case Ok(sent) => (MessageSent("Message sent successfully", sent.id, sent.date, text.value), [SendText(text.value)])
  }
}
