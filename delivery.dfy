/**
 * How a downloaded file is handed to each chat platform: the Telegram send
 * call chosen by mode and size, and the WhatsApp document message.
 */
module Delivery {
  import opened Args

  /** The three Telegram send calls. */
  datatype SendKind = AudioSend | VideoSend | DocumentSend

  /** One Telegram send call: which call, the attached file's name and the caption. */
  datatype Attachment = Attachment(kind: SendKind, fileName: string, caption: string)

  /**
   * The Telegram send call: audio for mp3; for video a document when the bot
   * does not use a self-hosted API server and the file is larger than the
   * upload limit, a video otherwise. Each call is chosen exactly in its own case.
   */
  function TelegramSendKind(mode: Mode, selfHostedApi: bool, size: int, uploadLimit: int): (k: SendKind)
    ensures k == AudioSend <==> mode == Mp3
    ensures k == DocumentSend <==> mode == Video && !selfHostedApi && size > uploadLimit
    ensures k == VideoSend <==> mode == Video && (selfHostedApi || size <= uploadLimit)
  {
    match mode
    case Mp3 => AudioSend
    case Video => if !selfHostedApi && size > uploadLimit then DocumentSend else VideoSend
  }

  /** The caption each send call carries. */
  function Caption(kind: SendKind): string
  {
    match kind
    case AudioSend => "Downloaded MP3"
    case DocumentSend => "Video too large \U{2013} sent as document"
    case VideoSend => "Downloaded via yt-dlp"
  }

  /** Each send call has a caption of its own: the caption tells which call was made. */
  lemma CaptionNamesCall(k1: SendKind, k2: SendKind)
    ensures Caption(k1) == Caption(k2) <==> k1 == k2
  {
    if k1 != k2 {
      assert Caption(k1)[0] != Caption(k2)[0] || |Caption(k1)| != |Caption(k2)|;
    }
  }

  function TelegramAttachment(mode: Mode, selfHostedApi: bool, size: int, uploadLimit: int, fileName: string): Attachment
  {
    var kind := TelegramSendKind(mode, selfHostedApi, size, uploadLimit);
    Attachment(kind, fileName, Caption(kind))
  }

  /** A video exactly at the limit is still sent as a video. */
  lemma SizeAtLimitIsVideo(selfHostedApi: bool, uploadLimit: int)
    ensures TelegramSendKind(Video, selfHostedApi, uploadLimit, uploadLimit) == VideoSend
  {
  }

  /** The WhatsApp document message: what the model keeps of it. */
  datatype Document = Document(mimetype: string, fileLength: nat, fileName: string, caption: string)

  /** The MIME type of the document: it names the mode. */
  function MimeType(mode: Mode): (r: string)
    ensures r == "audio/mpeg" <==> mode == Mp3
    ensures r == "video/mp4" <==> mode == Video
  {
    match mode
    case Mp3 => "audio/mpeg"
    case Video => assert "video/mp4"[0] != "audio/mpeg"[0]; "video/mp4"
  }

  /**
   * The document sent on WhatsApp for the downloaded bytes: the MIME type of
   * the mode, the number of bytes read, and the file name as name and caption.
   */
  function WhatsAppDocument(mode: Mode, fileName: string, data: seq<bv8>): (d: Document)
    ensures d.mimetype == "audio/mpeg" <==> mode == Mp3
    ensures d.mimetype == "video/mp4" <==> mode == Video
    ensures d.fileLength == |data| && d.fileName == fileName && d.caption == fileName
  {
    Document(MimeType(mode), |data|, fileName, fileName)
  }

  /** `p` without its trailing slashes. */
  function TrimTrailingSlashes(p: string): (r: string)
    ensures |r| <= |p| && r == p[..|r|]
    ensures r == [] || r[|r| - 1] != '/'
  {
    if p != [] && p[|p| - 1] == '/' then TrimTrailingSlashes(p[..|p| - 1]) else p
  }

  /** The index of the last slash of `p`, or -1 when it has none. */
  function LastSlash(p: string): (r: int)
    ensures -1 <= r < |p|
    ensures r >= 0 ==> p[r] == '/'
    ensures forall j :: r < j < |p| ==> p[j] != '/'
  {
    if p == [] then -1
    else if p[|p| - 1] == '/' then |p| - 1
    else LastSlash(p[..|p| - 1])
  }

  /** Go's `filepath.Base` on a slash-separated path: its last element. */
  function Base(p: string): (r: string)
    ensures r != []
    ensures '/' in r ==> r == "/"
  {
    if p == [] then "."
    else
      var q := TrimTrailingSlashes(p);
      var last := q[LastSlash(q) + 1..];
      if last == [] then "/" else last
  }

  /** The base of a name joined under a directory is the name (the inverse of the join). */
  lemma BaseOfJoin(dir: string, name: string)
    requires name != [] && '/' !in name
    ensures Base(dir + "/" + name) == name
  {
    var p := dir + "/" + name;
    assert p[|p| - 1] == name[|name| - 1];
    assert TrimTrailingSlashes(p) == p;
    assert p[|dir|] == '/';
    assert p[|dir| + 1..] == name;
  }
}
