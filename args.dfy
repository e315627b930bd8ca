/**
 * The downloader's argument vectors. Both chat platforms build the same
 * vector for a mode, an output template and a URL; only the template differs.
 */
module Args {

  /** The two download modes the handlers are invoked with. */
  datatype Mode = Video | Mp3

  /** The argument vector passed to the downloader executable. */
  function YtArgs(mode: Mode, template: string, url: string): (r: seq<string>)
    ensures |r| == (if mode == Mp3 then 7 else 8)
    ensures r[|r| - 1] == url && r[|r| - 2] == template && r[|r| - 3] == "-o"
  {
    match mode
    case Mp3 =>
      ["-x", "--audio-format", "mp3", "--newline", "-o", template, url]
    case Video =>
      ["-f", "bestvideo[ext=mp4]+bestaudio[ext=m4a]/best",
       "--merge-output-format", "mp4", "--newline", "-o", template, url]
  }

  /** The output template of a Telegram request, keyed by the command's message id. */
  function TelegramTemplate(messageId: string): (r: string)
    ensures |r| == |messageId| + 19 && r[11..11 + |messageId|] == messageId
  {
    "temp/ytdlp_" + messageId + ".%(ext)s"
  }

  /** The per-request directory of a WhatsApp request, keyed by the message id. */
  function WhatsAppTempDir(messageId: string): (r: string)
    ensures |r| == |messageId| + 8 && r[8..] == messageId
  {
    "temp/wa_" + messageId
  }

  /** The output template of a WhatsApp request: the title inside the request's directory. */
  function WhatsAppTemplate(messageId: string): (r: string)
    ensures var dir := WhatsAppTempDir(messageId);
      |r| > |dir| && r[..|dir| + 1] == dir + "/" && '/' !in r[|dir| + 1..]
  {
    WhatsAppTempDir(messageId) + "/%(title)s.%(ext)s"
  }

  /**
   * What every vector carries: the URL as the last argument, the
   * line-per-update flag, and `-o` immediately followed by the template,
   * with the URL and the template in positions of their own.
   */
  lemma CommonArguments(mode: Mode, template: string, url: string)
    ensures var a := YtArgs(mode, template, url);
      |a| >= 4 && a[|a| - 1] == url && a[|a| - 2] == template &&
      a[|a| - 3] == "-o" && a[|a| - 4] == "--newline"
  {
  }

  /** The audio profile: extract the audio track and encode it as mp3. */
  lemma Mp3Profile(template: string, url: string)
    ensures var a := YtArgs(Mp3, template, url);
      |a| == 7 && a[..3] == ["-x", "--audio-format", "mp3"]
  {
  }

  /** The video profile: best mp4 video plus best m4a audio (or best overall), merged into mp4. */
  lemma VideoProfile(template: string, url: string)
    ensures var a := YtArgs(Video, template, url);
      |a| == 8 &&
      a[..4] == ["-f", "bestvideo[ext=mp4]+bestaudio[ext=m4a]/best", "--merge-output-format", "mp4"]
  {
  }

  /**
   * For the same mode and URL, two templates give vectors of the same length
   * that differ at most in the template's own position.
   */
  lemma OnlyTemplateDiffers(mode: Mode, t1: string, t2: string, url: string)
    ensures var a := YtArgs(mode, t1, url); var b := YtArgs(mode, t2, url);
      |a| == |b| && a[|a| - 2] == t1 && b[|b| - 2] == t2 &&
      forall i :: 0 <= i < |a| && i != |a| - 2 ==> a[i] == b[i]
  {
  }

  /** Distinct messages get distinct Telegram output templates. */
  lemma TelegramTemplateInjective(id1: string, id2: string)
    ensures TelegramTemplate(id1) == TelegramTemplate(id2) ==> id1 == id2
  {
    if TelegramTemplate(id1) == TelegramTemplate(id2) {
      assert |id1| == |id2|;
    }
  }

  /** Distinct messages get distinct WhatsApp directories. */
  lemma WhatsAppTempDirInjective(id1: string, id2: string)
    ensures WhatsAppTempDir(id1) == WhatsAppTempDir(id2) ==> id1 == id2
  {
  }
}
