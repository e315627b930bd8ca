/**
 * The two download handlers, one per chat platform, as the sequence of calls
 * they make. The downloader's run, the file search and the platform calls'
 * results are inputs; the handlers' step-by-step progress with its early
 * returns is a method per platform, specified by a function of those inputs.
 */
module Handlers {
  import opened Wrappers
  import opened Args
  import opened Commands
  import opened Delivery
  import opened Status

  /**
   * What the downloader process does: start error, the stdout lines the line
   * scanner yields (it gives up at a line over 64 KiB), wait error and captured stderr.
   */
  datatype Process = Process(startError: Option<string>, lines: seq<string>, waitError: Option<string>, stderr: string)

  /** Everything a Telegram request depends on besides its mode. */
  datatype TelegramWorld = TelegramWorld(
    args: seq<string>,        // the command's arguments; args[0] is the command itself
    messageId: string,        // the command message's id, as written into file names
    process: Process,
    glob: seq<string>,        // the files matching the request's name prefix
    fileSize: int,            // the size of the first match
    selfHostedApi: bool,
    uploadLimit: int,
    sendError: Option<string> // the result of the send call
  )

  /** Everything a WhatsApp request depends on besides its mode and its fields. */
  datatype WhatsAppWorld = WhatsAppWorld(
    messageId: string,
    statusError: Option<string>,  // the result of sending the status message
    process: Process,
    glob: seq<string>,            // the files in the request's directory
    read: Result<seq<bv8>>,       // reading the first of them
    uploadError: Option<string>,  // the media upload
    sendError: Option<string>     // sending the document message
  )

  /** The Telegram handler's calls and the error it returns. */
  datatype TelegramOutcome = TelegramOutcome(trace: Trace, returned: Option<string>)

  const UsageText := "Usage: /ytdlp <url> or /ytdlpmp3 <url>"
  const TelegramInitialStatus := "Downloading\U{2026} 0%"
  const WhatsAppInitialStatus := "Downloading... 0%"
  const TelegramUploading := "Uploading\U{2026}"
  const WhatsAppUploading := "Uploading..."
  const FileNotFound := "File not found."

  function TelegramDownloadFailed(stderr: string): string
  {
    "Download failed.\n" + stderr
  }

  function WhatsAppStartFailed(err: string): string
  {
    "Download failed to start: " + err
  }

  function WhatsAppDownloadFailed(err: string, stderr: string): string
  {
    "Download failed: " + err + "\n" + stderr
  }

  function WhatsAppReadFailed(err: string): string
  {
    "Failed to read downloaded file: " + err
  }

  function WhatsAppUploadFailed(err: string): string
  {
    "Failed to upload media: " + err
  }

  /** The status message followed by the start of the downloader. */
  function Started(initialStatus: string, ytArgs: seq<string>): Trace
  {
    [Post(initialStatus, true), Spawn(ytArgs)]
  }

  /** The calls up to the end of the download: status, start, and one edit per qualifying line. */
  function TelegramDownload(mode: Mode, w: TelegramWorld): Trace
    requires |w.args| >= 2
  {
    Started(TelegramInitialStatus, YtArgs(mode, TelegramTemplate(w.messageId), w.args[1]))
    + ProgressEdits(w.process.lines, TelegramProgressPrefix)
  }

  /** The Telegram calls after the download ends, and the error the handler returns. */
  function TelegramFinish(mode: Mode, w: TelegramWorld): TelegramOutcome
  {
    if w.process.waitError.Some? then TelegramOutcome([Edit(TelegramDownloadFailed(w.process.stderr))], None)
    else if w.glob == [] then TelegramOutcome([Edit(FileNotFound)], None)
    else
      var attachment := TelegramAttachment(mode, w.selfHostedApi, w.fileSize, w.uploadLimit, Base(w.glob[0]));
      TelegramOutcome([Edit(TelegramUploading), TelegramSend(attachment), Delete],
                      if mode == Mp3 then w.sendError else None)
  }

  /**
   * The Telegram handler for a mode, as a function of what the world does.
   * It returns an error exactly when the downloader fails to start, or when
   * the mp3 send of a downloaded file fails.
   */
  function TelegramRun(mode: Mode, w: TelegramWorld): (r: TelegramOutcome)
    ensures r.returned.Some? <==>
      |w.args| >= 2 &&
      (w.process.startError.Some? ||
       (mode == Mp3 && w.process.waitError.None? && w.glob != [] && w.sendError.Some?))
    ensures r.trace != [] && (r.trace[0].Reply? <==> |w.args| < 2)
  {
    if |w.args| < 2 then TelegramOutcome([Reply(UsageText)], None)
    else if w.process.startError.Some? then
      TelegramOutcome(Started(TelegramInitialStatus, YtArgs(mode, TelegramTemplate(w.messageId), w.args[1])),
                      w.process.startError)
    else
      var finish := TelegramFinish(mode, w);
      TelegramOutcome(TelegramDownload(mode, w) + finish.trace, finish.returned)
  }

  /** The calls up to the end of the download on WhatsApp. */
  function WhatsAppDownload(mode: Mode, args: seq<string>, w: WhatsAppWorld): Trace
    requires |args| >= 2
  {
    Started(WhatsAppInitialStatus, YtArgs(mode, WhatsAppTemplate(w.messageId), args[1]))
    + ProgressEdits(w.process.lines, WhatsAppProgressPrefix)
  }

  /** The WhatsApp calls after the download ends. */
  function WhatsAppFinish(mode: Mode, w: WhatsAppWorld): Trace
  {
    if w.process.waitError.Some? then [Edit(WhatsAppDownloadFailed(w.process.waitError.value, w.process.stderr))]
    else if w.glob == [] then [Edit(FileNotFound)]
    else if w.read.Failure? then [Edit(WhatsAppReadFailed(w.read.error))]
    else [Edit(WhatsAppUploading), Upload(|w.read.value|)] + WhatsAppDeliver(mode, w)
  }

  /** The WhatsApp calls after the upload of a file that was read. */
  function WhatsAppDeliver(mode: Mode, w: WhatsAppWorld): Trace
    requires w.glob != [] && w.read.Success?
  {
    if w.uploadError.Some? then [Edit(WhatsAppUploadFailed(w.uploadError.value))]
    else
      [WhatsAppSend(WhatsAppDocument(mode, Base(w.glob[0]), w.read.value))]
      + (if w.sendError.Some? then [] else [Revoke])
  }

  /**
   * The WhatsApp handler for a mode and the command's fields. Its first call
   * is the usage reply when the URL is missing, the status post otherwise.
   */
  function WhatsAppRun(mode: Mode, args: seq<string>, w: WhatsAppWorld): (r: Trace)
    ensures r != []
    ensures r[0].Reply? <==> |args| < 2
    ensures r[0].Post? <==> |args| >= 2
  {
    if |args| < 2 then [Reply(UsageText)]
    else if w.statusError.Some? then [Post(WhatsAppInitialStatus, false)]
    else if w.process.startError.Some? then
      Started(WhatsAppInitialStatus, YtArgs(mode, WhatsAppTemplate(w.messageId), args[1]))
      + [Edit(WhatsAppStartFailed(w.process.startError.value))]
    else WhatsAppDownload(mode, args, w) + WhatsAppFinish(mode, w)
  }

  /** The Telegram handler: its calls in order, with the early returns of the source. */
  method HandleTelegram(mode: Mode, w: TelegramWorld) returns (trace: Trace, returned: Option<string>)
    ensures TelegramOutcome(trace, returned) == TelegramRun(mode, w)
  {
    if |w.args| < 2 {
      return [Reply(UsageText)], None;
    }
    var url := w.args[1];
    trace := [Post(TelegramInitialStatus, true)];
    var ytArgs := YtArgs(mode, TelegramTemplate(w.messageId), url);
    trace := trace + [Spawn(ytArgs)];
    if w.process.startError.Some? {
      return trace, w.process.startError;
    }
    var edits := ReadProgress(w.process.lines, TelegramProgressPrefix);
    trace := trace + edits;
    assert trace == TelegramDownload(mode, w);
    var rest;
    rest, returned := FinishTelegram(mode, w);
    trace := trace + rest;
  }

  /** The second half of the Telegram handler, once the downloader has exited. */
  method FinishTelegram(mode: Mode, w: TelegramWorld) returns (trace: Trace, returned: Option<string>)
    ensures TelegramOutcome(trace, returned) == TelegramFinish(mode, w)
  {
    if w.process.waitError.Some? {
      return [Edit(TelegramDownloadFailed(w.process.stderr))], None;
    }
    if |w.glob| == 0 {
      return [Edit(FileNotFound)], None;
    }
    var filePath := w.glob[0];
    trace := [Edit(TelegramUploading)];
    if mode == Mp3 {
      trace := trace + [TelegramSend(Attachment(AudioSend, Base(filePath), Caption(AudioSend)))];
      trace := trace + [Delete];
      return trace, w.sendError;
    }
    if !w.selfHostedApi && w.fileSize > w.uploadLimit {
      trace := trace + [TelegramSend(Attachment(DocumentSend, Base(filePath), Caption(DocumentSend)))];
    } else {
      trace := trace + [TelegramSend(Attachment(VideoSend, Base(filePath), Caption(VideoSend)))];
    }
    trace := trace + [Delete];
    returned := None;
  }

  /** The WhatsApp handler: its calls in order, with the early returns of the source. */
  method HandleWhatsApp(mode: Mode, args: seq<string>, w: WhatsAppWorld) returns (trace: Trace)
    ensures trace == WhatsAppRun(mode, args, w)
  {
    if |args| < 2 {
      return [Reply(UsageText)];
    }
    var url := args[1];
    if w.statusError.Some? {
      return [Post(WhatsAppInitialStatus, false)];
    }
    trace := [Post(WhatsAppInitialStatus, true)];
    var ytArgs := YtArgs(mode, WhatsAppTemplate(w.messageId), url);
    trace := trace + [Spawn(ytArgs)];
    if w.process.startError.Some? {
      trace := trace + [Edit(WhatsAppStartFailed(w.process.startError.value))];
      return;
    }
    var edits := ReadProgress(w.process.lines, WhatsAppProgressPrefix);
    trace := trace + edits;
    assert trace == WhatsAppDownload(mode, args, w);
    var rest := FinishWhatsApp(mode, w);
    trace := trace + rest;
  }

  /** The second half of the WhatsApp handler, once the downloader has exited. */
  method FinishWhatsApp(mode: Mode, w: WhatsAppWorld) returns (trace: Trace)
    ensures trace == WhatsAppFinish(mode, w)
  {
    if w.process.waitError.Some? {
      return [Edit(WhatsAppDownloadFailed(w.process.waitError.value, w.process.stderr))];
    }
    if |w.glob| == 0 {
      return [Edit(FileNotFound)];
    }
    var fileName := Base(w.glob[0]);
    if w.read.Failure? {
      return [Edit(WhatsAppReadFailed(w.read.error))];
    }
    var fileData := w.read.value;
    trace := [Edit(WhatsAppUploading)];
    trace := trace + [Upload(|fileData|)];
    if w.uploadError.Some? {
      trace := trace + [Edit(WhatsAppUploadFailed(w.uploadError.value))];
      return;
    }
    var mimeType := "video/mp4";
    if mode == Mp3 {
      mimeType := "audio/mpeg";
    }
    trace := trace + [WhatsAppSend(Document(mimeType, |fileData|, fileName, fileName))];
    if w.sendError.None? {
      trace := trace + [Revoke];
    }
  }

  /**
   * The WhatsApp message handler: a message that is not a download command
   * causes no call at all; a command runs the download handler with its fields.
   */
  method OnWhatsAppMessage(extendedText: string, conversation: string, w: WhatsAppWorld) returns (trace: Trace)
    ensures Dispatch(extendedText, conversation).None? ==> trace == []
    ensures Dispatch(extendedText, conversation).Some? ==>
              var (mode, parts) := Dispatch(extendedText, conversation).value;
              trace == WhatsAppRun(mode, parts, w)
  {
    var text := MessageText(extendedText, conversation);
    if text == "" {
      return [];
    }
    var parts := Fields(text);
    if |parts| == 0 {
      return [];
    }
    var command := ToLower(parts[0]);
    if command == VideoCommand {
      trace := HandleWhatsApp(Video, parts, w);
    } else if command == Mp3Command {
      trace := HandleWhatsApp(Mp3, parts, w);
    } else {
      trace := [];
    }
  }
}
