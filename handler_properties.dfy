/**
 * What the handlers promise, proved on their specifying functions: one status
 * message per request, the downloader started with the mode's profile, one
 * edit per progress line, every failure before the send shown and never
 * followed by a send (Telegram: wait failure, missing file; WhatsApp: start,
 * wait, missing file, read, upload), a failed send not shown, the uploading
 * notice before any send, and the status
 * message removed exactly when Telegram made a send (whatever it returned),
 * or when WhatsApp's document send succeeded.
 */
module HandlerProperties {
  import opened Wrappers
  import opened Args
  import opened Delivery
  import opened Status
  import opened Handlers

  /** The status message is the only Post, and it comes first. */
  predicate PostOnlyFirst(t: Trace)
  {
    forall i :: 0 < i < |t| ==> !t[i].Post?
  }

  lemma PostOnlyFirstAppend(a: Trace, b: Trace)
    requires PostOnlyFirst(a) && |a| >= 1 && NoPost(b)
    ensures PostOnlyFirst(a + b)
  {
    forall i | 0 < i < |a + b| ensures !(a + b)[i].Post? {
      if i >= |a| {
        assert (a + b)[i] == b[i - |a|];
      } else {
        assert (a + b)[i] == a[i];
      }
    }
  }

  /** The middle part of a three-part trace. */
  lemma MiddleOf(a: Trace, b: Trace, c: Trace)
    ensures |(a + b) + c| >= |a| + |b| && ((a + b) + c)[|a|..|a| + |b|] == b
  {
    var t := (a + b) + c;
    forall k | 0 <= k < |b| ensures t[|a|..|a| + |b|][k] == b[k] {
      assert t[|a| + k] == b[k];
    }
  }

  /** The failure a started Telegram download shows, if any (a start failure shows none). */
  function TelegramFailure(w: TelegramWorld): Option<string>
  {
    if w.process.waitError.Some? then Some(TelegramDownloadFailed(w.process.stderr))
    else if w.glob == [] then Some(FileNotFound)
    else None
  }

  /** The failure a WhatsApp download with a status message shows, if any, in the order the source checks them. */
  function WhatsAppFailure(w: WhatsAppWorld): Option<string>
  {
    if w.process.startError.Some? then Some(WhatsAppStartFailed(w.process.startError.value))
    else if w.process.waitError.Some? then Some(WhatsAppDownloadFailed(w.process.waitError.value, w.process.stderr))
    else if w.glob == [] then Some(FileNotFound)
    else if w.read.Failure? then Some(WhatsAppReadFailed(w.read.error))
    else if w.uploadError.Some? then Some(WhatsAppUploadFailed(w.uploadError.value))
    else None
  }

  lemma NoSendAppend(a: Trace, b: Trace)
    ensures NoSend(a + b) <==> NoSend(a) && NoSend(b)
  {
    if NoSend(a) && NoSend(b) {
      forall i | 0 <= i < |a + b| ensures !(a + b)[i].IsSend() {
        if i >= |a| {
          assert (a + b)[i] == b[i - |a|];
        }
      }
    }
    if NoSend(a + b) {
      forall i | 0 <= i < |a| ensures !a[i].IsSend() {
        assert (a + b)[i] == a[i];
      }
      forall i | 0 <= i < |b| ensures !b[i].IsSend() {
        assert (a + b)[|a| + i] == b[i];
      }
    }
  }

  /** The calls of a started download: the status, the start, then edits only. */
  lemma {:induction false} DownloadFacts(initial: string, ytArgs: seq<string>, edits: Trace)
    requires AllEdits(edits)
    ensures var d := Started(initial, ytArgs) + edits;
      |d| >= 2 && d[0] == Post(initial, true) && d[1] == Spawn(ytArgs) &&
      NoSend(d) && PostOnlyFirst(d) && StatusAfter(d).Some?
  {
    var head := Started(initial, ytArgs);
    var d := head + edits;
    StatusAfterSnoc([], Post(initial, true));
    assert [Post(initial, true)] == [] + [Post(initial, true)];
    StatusAfterSnoc([Post(initial, true)], Spawn(ytArgs));
    assert head == [Post(initial, true)] + [Spawn(ytArgs)];
    EditsKeepStatus(head, edits);
    forall i | 0 < i < |d| ensures !d[i].Post? && !d[i].IsSend() {
      if i >= 2 {
        assert d[i] == edits[i - 2];
      }
    }
  }

  lemma TelegramDownloadFacts(mode: Mode, w: TelegramWorld)
    requires |w.args| >= 2
    ensures var d := TelegramDownload(mode, w);
      |d| >= 2 && d[0] == Post(TelegramInitialStatus, true) &&
      d[1] == Spawn(YtArgs(mode, TelegramTemplate(w.messageId), w.args[1])) &&
      NoSend(d) && PostOnlyFirst(d) && StatusAfter(d).Some?
  {
    DownloadFacts(TelegramInitialStatus, YtArgs(mode, TelegramTemplate(w.messageId), w.args[1]),
                  ProgressEdits(w.process.lines, TelegramProgressPrefix));
  }

  lemma WhatsAppDownloadFacts(mode: Mode, args: seq<string>, w: WhatsAppWorld)
    requires |args| >= 2
    ensures var d := WhatsAppDownload(mode, args, w);
      |d| >= 2 && d[0] == Post(WhatsAppInitialStatus, true) &&
      d[1] == Spawn(YtArgs(mode, WhatsAppTemplate(w.messageId), args[1])) &&
      NoSend(d) && PostOnlyFirst(d) && StatusAfter(d).Some?
  {
    DownloadFacts(WhatsAppInitialStatus, YtArgs(mode, WhatsAppTemplate(w.messageId), args[1]),
                  ProgressEdits(w.process.lines, WhatsAppProgressPrefix));
  }

  /** A Telegram command with fewer than two arguments only gets the usage reply. */
  lemma TelegramUsage(mode: Mode, w: TelegramWorld)
    requires |w.args| < 2
    ensures TelegramRun(mode, w) == TelegramOutcome([Reply(UsageText)], None)
  {
  }

  /**
   * A Telegram request posts exactly one status message, first, and starts
   * the downloader with the mode's profile, the request's template and the URL.
   */
  lemma TelegramStartsDownload(mode: Mode, w: TelegramWorld)
    requires |w.args| >= 2
    ensures var t := TelegramRun(mode, w).trace;
      |t| >= 2 && t[0] == Post(TelegramInitialStatus, true) && PostOnlyFirst(t) &&
      t[1] == Spawn(YtArgs(mode, TelegramTemplate(w.messageId), w.args[1]))
  {
    var ytArgs := YtArgs(mode, TelegramTemplate(w.messageId), w.args[1]);
    var t := TelegramRun(mode, w).trace;
    if w.process.startError.Some? {
      DownloadFacts(TelegramInitialStatus, ytArgs, []);
      assert t == Started(TelegramInitialStatus, ytArgs) + [];
    } else {
      var d := TelegramDownload(mode, w);
      var f := TelegramFinish(mode, w).trace;
      TelegramDownloadFacts(mode, w);
      assert NoPost(f);
      PostOnlyFirstAppend(d, f);
      assert t == d + f;
      assert t[0] == d[0] && t[1] == d[1];
    }
  }

  /** A Telegram start failure returns the error and leaves the status untouched: no edit, no send. */
  lemma TelegramStartFailure(mode: Mode, w: TelegramWorld)
    requires |w.args| >= 2 && w.process.startError.Some?
    ensures var r := TelegramRun(mode, w);
      r.returned == w.process.startError && NoSend(r.trace) &&
      (forall i :: 0 <= i < |r.trace| ==> !r.trace[i].Edit?) &&
      StatusAfter(r.trace) == Some(TelegramInitialStatus)
  {
    var ytArgs := YtArgs(mode, TelegramTemplate(w.messageId), w.args[1]);
    DownloadFacts(TelegramInitialStatus, ytArgs, []);
    var t := TelegramRun(mode, w).trace;
    assert t == Started(TelegramInitialStatus, ytArgs) + [];
    StatusAfterSnoc([], Post(TelegramInitialStatus, true));
    assert [Post(TelegramInitialStatus, true)] == [] + [Post(TelegramInitialStatus, true)];
    StatusAfterSnoc([Post(TelegramInitialStatus, true)], Spawn(ytArgs));
    assert t == [Post(TelegramInitialStatus, true)] + [Spawn(ytArgs)];
  }

  /** Once started, the Telegram handler issues exactly the progress edits, right after the start. */
  lemma TelegramProgressFollowsStart(mode: Mode, w: TelegramWorld)
    requires |w.args| >= 2 && w.process.startError.None?
    ensures var t := TelegramRun(mode, w).trace;
      var edits := ProgressEdits(w.process.lines, TelegramProgressPrefix);
      |t| >= 2 + |edits| && t[2..2 + |edits|] == edits
  {
    var head := Started(TelegramInitialStatus, YtArgs(mode, TelegramTemplate(w.messageId), w.args[1]));
    MiddleOf(head, ProgressEdits(w.process.lines, TelegramProgressPrefix), TelegramFinish(mode, w).trace);
  }

  /**
   * A wait failure or an empty file list rewrites the status with its reason,
   * returns no error, and never reaches a send.
   */
  lemma TelegramFailureShown(mode: Mode, w: TelegramWorld)
    requires |w.args| >= 2 && w.process.startError.None? && TelegramFailure(w).Some?
    ensures var r := TelegramRun(mode, w);
      NoSend(r.trace) && r.returned == None &&
      r.trace[|r.trace| - 1] == Edit(TelegramFailure(w).value) &&
      StatusAfter(r.trace) == TelegramFailure(w)
  {
    var d := TelegramDownload(mode, w);
    TelegramDownloadFacts(mode, w);
    var e := Edit(TelegramFailure(w).value);
    assert TelegramFinish(mode, w) == TelegramOutcome([e], None);
    assert TelegramRun(mode, w).trace == d + [e];
    NoSendAppend(d, [e]);
    StatusAfterSnoc(d, e);
  }

  /** The delivery of a downloaded file on Telegram. */
  predicate TelegramDownloaded(w: TelegramWorld)
  {
    |w.args| >= 2 && w.process.startError.None? && TelegramFailure(w).None?
  }

  /**
   * A downloaded file is sent once, by the call the mode and size choose,
   * right after the uploading notice; the status is then deleted whatever
   * the send's result, and only an mp3 send's error is returned.
   */
  lemma TelegramDelivers(mode: Mode, w: TelegramWorld)
    requires TelegramDownloaded(w)
    ensures var r := TelegramRun(mode, w); var t := r.trace;
      |t| >= 5 &&
      t[|t| - 3] == Edit(TelegramUploading) &&
      t[|t| - 2] == TelegramSend(TelegramAttachment(mode, w.selfHostedApi, w.fileSize, w.uploadLimit, Base(w.glob[0]))) &&
      t[|t| - 1] == Delete &&
      (forall i :: 0 <= i < |t| && t[i].IsSend() ==> i == |t| - 2) &&
      StatusAfter(t) == None &&
      r.returned == (if mode == Mp3 then w.sendError else None)
  {
    var d := TelegramDownload(mode, w);
    TelegramDownloadFacts(mode, w);
    var send := TelegramSend(TelegramAttachment(mode, w.selfHostedApi, w.fileSize, w.uploadLimit, Base(w.glob[0])));
    var tail := [Edit(TelegramUploading), send, Delete];
    var t := TelegramRun(mode, w).trace;
    assert t == d + tail by { TelegramRunDelivered(mode, w); }
    SendOnceAt(d, tail);
    StatusAfterSnoc(d + tail[..2], Delete);
    assert t == (d + tail[..2]) + [Delete];
  }

  lemma TelegramRunDelivered(mode: Mode, w: TelegramWorld)
    requires TelegramDownloaded(w)
    ensures var send := TelegramSend(TelegramAttachment(mode, w.selfHostedApi, w.fileSize, w.uploadLimit, Base(w.glob[0])));
      TelegramRun(mode, w) == TelegramOutcome(TelegramDownload(mode, w) + [Edit(TelegramUploading), send, Delete],
                                              if mode == Mp3 then w.sendError else None)
  {
  }

  /** A trace without sends followed by a three-call tail whose only send is the middle one. */
  lemma SendOnceAt(d: Trace, tail: Trace)
    requires NoSend(d) && |tail| == 3 && !tail[0].IsSend() && !tail[2].IsSend()
    ensures forall i :: 0 <= i < |d + tail| && (d + tail)[i].IsSend() ==> i == |d| + 1
  {
    forall i | 0 <= i < |d + tail| && (d + tail)[i].IsSend() ensures i == |d| + 1 {
      if i >= |d| {
        assert (d + tail)[i] == tail[i - |d|];
      }
    }
  }

  /** On Telegram the uploading notice immediately precedes every send. */
  lemma TelegramUploadingBeforeSend(mode: Mode, w: TelegramWorld)
    ensures var t := TelegramRun(mode, w).trace;
      forall i :: 0 <= i < |t| && t[i].IsSend() ==> i >= 1 && t[i - 1] == Edit(TelegramUploading)
  {
    var t := TelegramRun(mode, w).trace;
    if |w.args| >= 2 {
      if w.process.startError.Some? {
        TelegramStartFailure(mode, w);
      } else if TelegramFailure(w).Some? {
        TelegramFailureShown(mode, w);
      } else {
        TelegramDelivers(mode, w);
      }
    }
  }

  /** On Telegram the status message is gone at the end exactly when a send call was made. */
  lemma TelegramStatusRemovedIffSent(mode: Mode, w: TelegramWorld)
    requires |w.args| >= 2
    ensures var t := TelegramRun(mode, w).trace;
      StatusAfter(t) == None <==> !NoSend(t)
  {
    var t := TelegramRun(mode, w).trace;
    if w.process.startError.Some? {
      TelegramStartFailure(mode, w);
    } else if TelegramFailure(w).Some? {
      TelegramFailureShown(mode, w);
    } else {
      TelegramDelivers(mode, w);
      assert t[|t| - 2].IsSend();
    }
  }

  /**
   * A video one byte over the limit without a self-hosted server is sent as
   * a document and not as a video; at the limit it is sent as a video.
   */
  lemma TelegramOversizedVideo(w: TelegramWorld)
    requires TelegramDownloaded(w) && !w.selfHostedApi
    ensures var t := TelegramRun(Video, w).trace;
      w.fileSize == w.uploadLimit + 1 ==> t[|t| - 2].attachment.kind == DocumentSend
    ensures var t := TelegramRun(Video, w).trace;
      w.fileSize == w.uploadLimit ==> t[|t| - 2].attachment.kind == VideoSend
  {
    TelegramDelivers(Video, w);
  }

  /** A WhatsApp command with fewer than two fields only gets the usage reply. */
  lemma WhatsAppUsage(mode: Mode, args: seq<string>, w: WhatsAppWorld)
    requires |args| < 2
    ensures WhatsAppRun(mode, args, w) == [Reply(UsageText)]
  {
  }

  /** When the status message cannot be sent, the WhatsApp handler stops: no download is started. */
  lemma WhatsAppStatusFailure(mode: Mode, args: seq<string>, w: WhatsAppWorld)
    requires |args| >= 2 && w.statusError.Some?
    ensures var t := WhatsAppRun(mode, args, w);
      |t| == 1 && t[0] == Post(WhatsAppInitialStatus, false) && StatusAfter(t) == None
  {
    var t := WhatsAppRun(mode, args, w);
    StatusAfterSnoc([], t[0]);
    assert t == [] + [t[0]];
  }

  /** After the download nothing posts a second status message. */
  lemma WhatsAppFinishNoPost(mode: Mode, w: WhatsAppWorld)
    ensures NoPost(WhatsAppFinish(mode, w))
  {
    if w.process.waitError.None? && w.glob != [] && w.read.Success? {
      var deliver := WhatsAppDeliver(mode, w);
      assert NoPost(deliver);
      var f := WhatsAppFinish(mode, w);
      assert f == [Edit(WhatsAppUploading), Upload(|w.read.value|)] + deliver;
      forall i | 0 <= i < |f| ensures !f[i].Post? {
        if i >= 2 {
          assert f[i] == deliver[i - 2];
        }
      }
    }
  }

  /**
   * A WhatsApp request whose status message was sent posts no other one, and
   * starts the downloader with the same profile as Telegram, in the request's
   * own directory.
   */
  lemma WhatsAppStartsDownload(mode: Mode, args: seq<string>, w: WhatsAppWorld)
    requires |args| >= 2 && w.statusError.None?
    ensures var t := WhatsAppRun(mode, args, w);
      |t| >= 2 && t[0] == Post(WhatsAppInitialStatus, true) && PostOnlyFirst(t) &&
      t[1] == Spawn(YtArgs(mode, WhatsAppTemplate(w.messageId), args[1]))
  {
    var ytArgs := YtArgs(mode, WhatsAppTemplate(w.messageId), args[1]);
    var t := WhatsAppRun(mode, args, w);
    if w.process.startError.Some? {
      DownloadFacts(WhatsAppInitialStatus, ytArgs, [Edit(WhatsAppStartFailed(w.process.startError.value))]);
    } else {
      var d := WhatsAppDownload(mode, args, w);
      var f := WhatsAppFinish(mode, w);
      WhatsAppDownloadFacts(mode, args, w);
      WhatsAppFinishNoPost(mode, w);
      PostOnlyFirstAppend(d, f);
      assert t == d + f;
      assert t[0] == d[0] && t[1] == d[1];
    }
  }

  /** Once started, the WhatsApp handler issues exactly the progress edits, right after the start. */
  lemma WhatsAppProgressFollowsStart(mode: Mode, args: seq<string>, w: WhatsAppWorld)
    requires |args| >= 2 && w.statusError.None? && w.process.startError.None?
    ensures var t := WhatsAppRun(mode, args, w);
      var edits := ProgressEdits(w.process.lines, WhatsAppProgressPrefix);
      |t| >= 2 + |edits| && t[2..2 + |edits|] == edits
  {
    var head := Started(WhatsAppInitialStatus, YtArgs(mode, WhatsAppTemplate(w.messageId), args[1]));
    MiddleOf(head, ProgressEdits(w.process.lines, WhatsAppProgressPrefix), WhatsAppFinish(mode, w));
  }

  /** The calls a WhatsApp request makes before its failure notice. */
  function WhatsAppBeforeFailure(mode: Mode, args: seq<string>, w: WhatsAppWorld): Trace
    requires |args| >= 2
  {
    if w.process.startError.Some? then Started(WhatsAppInitialStatus, YtArgs(mode, WhatsAppTemplate(w.messageId), args[1]))
    else if w.process.waitError.Some? || w.glob == [] || w.read.Failure? then WhatsAppDownload(mode, args, w)
    else WhatsAppDownload(mode, args, w) + [Edit(WhatsAppUploading), Upload(|w.read.value|)]
  }

  /** Before a failure notice the status message exists and nothing was sent. */
  lemma WhatsAppBeforeFailureFacts(mode: Mode, args: seq<string>, w: WhatsAppWorld)
    requires |args| >= 2
    ensures var before := WhatsAppBeforeFailure(mode, args, w);
      NoSend(before) && StatusAfter(before).Some?
  {
    var ytArgs := YtArgs(mode, WhatsAppTemplate(w.messageId), args[1]);
    if w.process.startError.Some? {
      DownloadFacts(WhatsAppInitialStatus, ytArgs, []);
      assert Started(WhatsAppInitialStatus, ytArgs) + [] == Started(WhatsAppInitialStatus, ytArgs);
    } else {
      var d := WhatsAppDownload(mode, args, w);
      WhatsAppDownloadFacts(mode, args, w);
      if !(w.process.waitError.Some? || w.glob == [] || w.read.Failure?) {
        var e, u := Edit(WhatsAppUploading), Upload(|w.read.value|);
        NoSendAppend(d, [e, u]);
        StatusAfterSnoc(d, e);
        assert d + [e, u] == (d + [e]) + [u];
        StatusAfterSnoc(d + [e], u);
      }
    }
  }

  /**
   * Every WhatsApp failure after the status message (start, wait, no file,
   * read, upload) rewrites the status with its reason and never reaches a send.
   */
  lemma WhatsAppFailureShown(mode: Mode, args: seq<string>, w: WhatsAppWorld)
    requires |args| >= 2 && w.statusError.None? && WhatsAppFailure(w).Some?
    ensures var t := WhatsAppRun(mode, args, w);
      NoSend(t) && t[|t| - 1] == Edit(WhatsAppFailure(w).value) &&
      StatusAfter(t) == WhatsAppFailure(w)
  {
    var before := WhatsAppBeforeFailure(mode, args, w);
    var e := Edit(WhatsAppFailure(w).value);
    WhatsAppRunFailure(mode, args, w);
    WhatsAppBeforeFailureFacts(mode, args, w);
    NoSendAppend(before, [e]);
    StatusAfterSnoc(before, e);
  }

  lemma WhatsAppRunFailure(mode: Mode, args: seq<string>, w: WhatsAppWorld)
    requires |args| >= 2 && w.statusError.None? && WhatsAppFailure(w).Some?
    ensures WhatsAppRun(mode, args, w) == WhatsAppBeforeFailure(mode, args, w) + [Edit(WhatsAppFailure(w).value)]
  {
    if w.process.startError.None? && w.process.waitError.None? && w.glob != [] && w.read.Success? {
      var e := Edit(WhatsAppFailure(w).value);
      var d := WhatsAppDownload(mode, args, w);
      var up := [Edit(WhatsAppUploading), Upload(|w.read.value|)];
      assert WhatsAppDeliver(mode, w) == [e];
      assert WhatsAppRun(mode, args, w) == d + (up + [e]);
      assert d + (up + [e]) == (d + up) + [e];
    }
  }

  /**
   * A WhatsApp file read and uploaded is sent once, as a document with the
   * mode's MIME type and the byte count, after the uploading notice and the
   * upload; the status is revoked exactly when the send succeeded, and
   * otherwise stays at the uploading notice.
   */
  lemma WhatsAppDelivers(mode: Mode, args: seq<string>, w: WhatsAppWorld)
    requires |args| >= 2 && w.statusError.None? && WhatsAppFailure(w).None?
    ensures var t := WhatsAppRun(mode, args, w); var data := w.read.value;
      var k := if w.sendError.None? then |t| - 2 else |t| - 1;
      |t| >= 5 && 2 <= k &&
      t[k - 2] == Edit(WhatsAppUploading) && t[k - 1] == Upload(|data|) &&
      t[k] == WhatsAppSend(WhatsAppDocument(mode, Base(w.glob[0]), data)) &&
      (forall i :: 0 <= i < |t| && t[i].IsSend() ==> i == k) &&
      (t[|t| - 1] == Revoke <==> w.sendError.None?) &&
      StatusAfter(t) == (if w.sendError.None? then None else Some(WhatsAppUploading))
  {
    var t := WhatsAppRun(mode, args, w);
    var sent := WhatsAppSent(mode, args, w);
    WhatsAppSentFacts(mode, args, w);
    WhatsAppRunSent(mode, args, w);
    if w.sendError.None? {
      assert t == sent + [Revoke];
      NoSendAppend(sent, [Revoke]);
      StatusAfterSnoc(sent, Revoke);
      forall i | 0 <= i < |t| && t[i].IsSend() ensures i == |sent| - 1 {
        if i < |sent| {
          assert t[i] == sent[i];
        }
      }
    } else {
      assert t == sent;
    }
  }

  /** The calls of a delivered WhatsApp request up to and including the document send. */
  function WhatsAppSent(mode: Mode, args: seq<string>, w: WhatsAppWorld): Trace
    requires |args| >= 2 && w.read.Success? && |w.glob| > 0
  {
    WhatsAppDownload(mode, args, w) +
      [Edit(WhatsAppUploading), Upload(|w.read.value|), WhatsAppSend(WhatsAppDocument(mode, Base(w.glob[0]), w.read.value))]
  }

  /** A delivered request's calls are those up to the send, then the revoke when the send succeeded. */
  lemma WhatsAppRunSent(mode: Mode, args: seq<string>, w: WhatsAppWorld)
    requires |args| >= 2 && w.statusError.None? && WhatsAppFailure(w).None?
    ensures WhatsAppRun(mode, args, w) ==
      WhatsAppSent(mode, args, w) + (if w.sendError.Some? then [] else [Revoke])
  {
    var d := WhatsAppDownload(mode, args, w);
    var up := [Edit(WhatsAppUploading), Upload(|w.read.value|)];
    var send := [WhatsAppSend(WhatsAppDocument(mode, Base(w.glob[0]), w.read.value))];
    var r: Trace := if w.sendError.Some? then [] else [Revoke];
    assert WhatsAppDeliver(mode, w) == send + r;
    assert WhatsAppRun(mode, args, w) == d + (up + (send + r));
    assert d + (up + (send + r)) == (d + (up + send)) + r;
    assert up + send == [Edit(WhatsAppUploading), Upload(|w.read.value|), WhatsAppSend(WhatsAppDocument(mode, Base(w.glob[0]), w.read.value))];
  }

  lemma WhatsAppSentFacts(mode: Mode, args: seq<string>, w: WhatsAppWorld)
    requires |args| >= 2 && w.read.Success? && |w.glob| > 0
    ensures var sent := WhatsAppSent(mode, args, w);
      |sent| >= 5 && sent[|sent| - 1].IsSend() &&
      (forall i :: 0 <= i < |sent| - 1 ==> !sent[i].IsSend()) &&
      StatusAfter(sent) == Some(WhatsAppUploading)
  {
    var d := WhatsAppDownload(mode, args, w);
    WhatsAppDownloadFacts(mode, args, w);
    var sent := WhatsAppSent(mode, args, w);
    var tail := sent[|d|..];
    assert sent == d + tail;
    assert tail[0] == Edit(WhatsAppUploading) && tail[1].Upload? && tail[2].IsSend() && |tail| == 3;
    SentOnceAtEnd(d, tail);
    UploadingStays(d, tail);
  }

  /** Calls without a send, then a last call that is one. */
  lemma SentOnceAtEnd(d: Trace, tail: Trace)
    requires NoSend(d) && |tail| == 3 && !tail[0].IsSend() && !tail[1].IsSend() && tail[2].IsSend()
    ensures var t := d + tail; t[|t| - 1].IsSend() && forall i :: 0 <= i < |t| - 1 ==> !t[i].IsSend()
  {
    var t := d + tail;
    forall i | 0 <= i < |t| - 1 ensures !t[i].IsSend() {
      if i < |d| {
        assert t[i] == d[i];
      }
    }
  }

  /** The uploading notice on a standing status stays through the upload and the send. */
  lemma UploadingStays(d: Trace, tail: Trace)
    requires StatusAfter(d).Some? && |tail| == 3
    requires tail[0] == Edit(WhatsAppUploading) && tail[1].Upload? && tail[2].WhatsAppSend?
    ensures StatusAfter(d + tail) == Some(WhatsAppUploading)
  {
    assert d + tail == ((d + [tail[0]]) + [tail[1]]) + [tail[2]];
    StatusAfterSnoc(d, tail[0]);
    StatusAfterSnoc(d + [tail[0]], tail[1]);
    StatusAfterSnoc((d + [tail[0]]) + [tail[1]], tail[2]);
  }

  /** On WhatsApp the uploading notice and the upload precede every send. */
  lemma WhatsAppUploadBeforeSend(mode: Mode, args: seq<string>, w: WhatsAppWorld)
    ensures var t := WhatsAppRun(mode, args, w);
      forall i :: 0 <= i < |t| && t[i].IsSend() ==>
        i >= 2 && t[i - 2] == Edit(WhatsAppUploading) && t[i - 1].Upload?
  {
    if |args| >= 2 && w.statusError.None? {
      if WhatsAppFailure(w).Some? {
        WhatsAppFailureShown(mode, args, w);
      } else {
        WhatsAppDelivers(mode, args, w);
      }
    }
  }

  /**
   * On WhatsApp the status message is gone at the end exactly when it was
   * never sent, or the document was sent successfully.
   */
  lemma WhatsAppStatusRemovedIff(mode: Mode, args: seq<string>, w: WhatsAppWorld)
    requires |args| >= 2
    ensures var t := WhatsAppRun(mode, args, w);
      StatusAfter(t) == None <==> w.statusError.Some? || (!NoSend(t) && w.sendError.None?)
  {
    var t := WhatsAppRun(mode, args, w);
    if w.statusError.Some? {
      WhatsAppStatusFailure(mode, args, w);
    } else if WhatsAppFailure(w).Some? {
      WhatsAppFailureShown(mode, args, w);
    } else {
      WhatsAppDelivers(mode, args, w);
      var k := if w.sendError.None? then |t| - 2 else |t| - 1;
      assert t[k].IsSend();
    }
  }
}
