# yt-dlp download commands of watgbridge, modelled in Dafny

watgbridge bridges Telegram and WhatsApp chats. Its `ytdlp` module adds two
download commands on both sides: `/ytdlp <url>` downloads a video and
`/ytdlpmp3 <url>` downloads the audio track as mp3. Each request goes through
the same steps. The handler posts a status message, starts the `yt-dlp`
executable with an argument vector fixed per mode, and rewrites the status
with a percentage token taken from each qualifying stdout line. When the
process exits, it finds the downloaded file and sends it back: on Telegram as
audio, video or document, on WhatsApp always as a document.

The status message is not always cleaned up. On Telegram it is deleted
exactly when a send was made, whatever the send returned; an mp3 send's error
is returned after the delete. When the downloader cannot be started, Telegram
returns the error and leaves the status at `Downloading… 0%`. Failures after
the start (the downloader's exit status, a missing file) rewrite the status
with their reason. On WhatsApp the status is revoked only after a successful
send; after a failed send it stays at `Uploading...`. A start, wait,
missing-file, read or upload failure rewrites it with its reason. When the
status message itself cannot be posted, the WhatsApp request ends there with
nothing else done.

The project models:

- `progress.dfy` (module `Progress`): the progress-token scan. A line yields
  the three characters that end at its first `%`, provided that `%` has at
  least two characters before it. Line characters stand for the bytes Go
  indexes.
- `args.dfy` (module `Args`): the downloader's argument vectors per mode, and
  the output templates of both platforms.
- `commands.dfy` (module `Commands`): the WhatsApp command recognition. It
  chooses the message text, splits it as Go's `strings.Fields` does (over
  Unicode white space), lower-cases the first field and dispatches.
- `delivery.dfy` (module `Delivery`): the Telegram send call chosen by mode,
  size and server kind; the WhatsApp document's MIME type, length, name and
  caption; and `filepath.Base` on slash-separated paths.
- `status.dfy` (module `Status`): the calls a handler makes, as a trace of
  events; the progress reader as a loop over the stdout lines; and the status
  message each trace leaves in the chat.
- `handlers.dfy` (module `Handlers`): both handlers as methods that build the
  trace step by step, with the source's early returns. Each handler is split
  into the part up to the downloader's exit and the part after it. Each method
  is proved equal to a specification function of its inputs: the downloader's
  start error, its stdout lines, its wait error and stderr, the file list, and
  the results of the platform calls.
- `handler_properties.dfy` (module `HandlerProperties`): what the handlers
  promise, proved on those functions. One status message comes first. The
  downloader starts with the mode's profile. One edit is issued per qualifying
  line. Every failure before the send is shown in the status and never
  followed by a send: on Telegram the wait failure and the missing file, on
  WhatsApp the start, wait, missing-file, read and upload failures. A failed
  send is not shown: Telegram deletes the status and returns the error (mp3)
  or drops it (video), and WhatsApp leaves the status at `Uploading...`. The
  uploading notice precedes every send. On Telegram the status is deleted
  exactly when a send was made, whatever the send returned; on WhatsApp it is
  revoked exactly when the document send succeeded.

## Model

| member | source | states |
|---|---|---|
| Progress.IndexOf | modules/ytdlp.go:137 | `strings.Index` on one character: -1 exactly when the character is absent, otherwise an index holding it with no earlier occurrence |
| Progress.ProgressToken | modules/ytdlp.go:136-138 | a token, when a line yields one, is three characters long and ends in `%` |
| Progress.ProgressTokenIff | modules/ytdlp.go:136-138 | a line yields a token if and only if its first `%` is at index 2 or later, and the token is then the line from two before that `%` through the `%` |
| Progress.NoPercentNoToken | modules/ytdlp.go:136 | a line without `%` yields nothing |
| Progress.ProgressTokenAtFirstPercent | modules/ytdlp.go:137-138 | when the first `%` is at index i >= 2 the token is `line[i-2..i+1]` |
| Progress.EarlyFirstPercentHidesLater | modules/ytdlp.go:137 | a first `%` at index 0 or 1 hides every later `%`: the line yields nothing whatever follows |
| Progress.TokenOfPrefix | modules/ytdlp.go:136-138 | text without `%` of length >= 2 followed by `%` yields its last two characters and the `%`, whatever comes after |
| Progress.DecimalPercentageToken | modules/ytdlp.go:137-138 | a percentage with one decimal digit yields only the point, the digit and `%` |
| Args.YtArgs | modules/ytdlp.go:103-118 | the vector has seven arguments for mp3 and eight for video, and ends with `-o`, the template and the URL |
| Args.TelegramTemplate | modules/ytdlp.go:98-99 | the Telegram template holds the message id at a fixed position, so the id can be read back from it |
| Args.TelegramTemplateInjective | modules/ytdlp.go:98-99 | distinct message ids give distinct templates |
| Args.WhatsAppTempDir | modules/ytdlp.go:240 | the WhatsApp directory holds the message id after a fixed prefix |
| Args.WhatsAppTempDirInjective | modules/ytdlp.go:240 | distinct messages get distinct directories |
| Args.WhatsAppTemplate | modules/ytdlp.go:245 | the WhatsApp template is a file name directly inside the request's directory: the directory, one slash, then no further slash |
| Args.CommonArguments | modules/ytdlp.go:103-118 | in both modes the URL is last, preceded by the template, `-o` and `--newline` |
| Args.Mp3Profile | modules/ytdlp.go:103-110 | the mp3 vector has seven arguments and starts with `-x --audio-format mp3` |
| Args.VideoProfile | modules/ytdlp.go:111-118 | the video vector has eight arguments and starts with the mp4/m4a format selection and `--merge-output-format mp4` |
| Args.OnlyTemplateDiffers | modules/ytdlp.go:248-264 | for one mode and URL, two templates give vectors of equal length that differ only in the template position |
| Commands.Fields | modules/ytdlp.go:63 | a text has no fields exactly when it is all white space |
| Commands.FieldsOfSpaced | modules/ytdlp.go:63 | fields separated by non-empty runs of white space, with any white space before and after, come back exactly: the fields are the maximal runs of non-space characters |
| Commands.FieldsAreFields | modules/ytdlp.go:63 | every field of `strings.Fields` is non-empty and holds no white space |
| Commands.FieldsKeepText | modules/ytdlp.go:63 | the fields joined together are the text with its white space removed |
| Commands.FieldsOfJoin | modules/ytdlp.go:63 | splitting fields joined by single spaces gives back the same fields |
| Commands.ToLower | modules/ytdlp.go:67 | lower-casing keeps the length and lowers each character on its own |
| Commands.LowerSpellings | modules/ytdlp.go:67 | a word lowers to a text without upper-case letters exactly when it has the same length and each character is that text's character or, for a lower-case letter, its upper-case form |
| Commands.VideoCommandSpellings | modules/ytdlp.go:67-69 | the first fields that select video are exactly `/` followed by `ytdlp` with each letter in either case |
| Commands.Mp3CommandSpellings | modules/ytdlp.go:67-71 | the first fields that select mp3 are exactly `/`, `ytdlpmp` with each letter in either case, and `3` |
| Commands.MessageText | modules/ytdlp.go:52-57 | the text is one of the two message texts, and it is empty exactly when both are |
| Commands.Dispatch | modules/ytdlp.go:53-73 | a dispatched command carries exactly the message's fields, and there is at least one |
| Commands.DispatchIff | modules/ytdlp.go:63-73 | video is chosen if and only if the lowered first field is `/ytdlp`, mp3 if and only if it is `/ytdlpmp3`, nothing otherwise or for no fields |
| Commands.ExtendedTextWins | modules/ytdlp.go:53-57 | a non-empty extended text makes the plain conversation text irrelevant |
| Commands.BlankMessageIgnored | modules/ytdlp.go:59-66 | an empty or all-white-space text is never dispatched |
| Commands.DispatchCommandLine | modules/ytdlp.go:63-73 | `<word> <url>` dispatches on the lowered word alone, with fields `[word, url]` |
| Delivery.TelegramSendKind | modules/ytdlp.go:176-215 | audio exactly for mp3; a document exactly for a video over the limit without a self-hosted server; a video otherwise |
| Delivery.SizeAtLimitIsVideo | modules/ytdlp.go:192 | a video of exactly the limit is sent as a video |
| Delivery.CaptionNamesCall | modules/ytdlp.go:184-212 | the three send calls carry three different captions, so the caption tells which call was made |
| Delivery.MimeType | modules/ytdlp.go:326-329 | the MIME type is `audio/mpeg` exactly for mp3 and `video/mp4` exactly for video |
| Delivery.WhatsAppDocument | modules/ytdlp.go:331-341 | the MIME type is `audio/mpeg` exactly for mp3 and `video/mp4` exactly for video; the length is the number of bytes read; name and caption are the file name |
| Delivery.Base | modules/ytdlp.go:308 | `filepath.Base` is never empty and contains a slash only when it is `/` |
| Delivery.BaseOfJoin | modules/ytdlp.go:301-308 | the base of a name placed under a directory is that name |
| Status.ReadProgress | modules/ytdlp.go:132-146 | the reader loop issues exactly the progress edits of its lines, in order |
| Status.ProgressEditsShowTokens | modules/ytdlp.go:134-145 | one edit per qualifying line, in line order, each showing the prefix and that line's token |
| Status.NonQualifyingLinesSilent | modules/ytdlp.go:136-137 | lines that yield no token cause no edit |
| Status.ProgressEditsAppend | modules/ytdlp.go:281-292 | the edits of consecutive stretches of output are consecutive |
| Status.ProgressEdits | modules/ytdlp.go:134-145 | the progress reader only ever edits the status message, at most once per line |
| Status.NoPostNoStatus | modules/ytdlp.go:93 | without a status post there is no status message to edit, delete or revoke, whatever else is called |
| Handlers.TelegramRun | modules/ytdlp.go:78-219 | the handler returns an error exactly when the downloader fails to start or an mp3 send fails; its first call is the usage reply exactly when the URL is missing |
| Handlers.WhatsAppRun | modules/ytdlp.go:221-369 | the handler always makes a call: the usage reply exactly when the URL is missing, the status post otherwise |
| Handlers.HandleTelegram | modules/ytdlp.go:78-219 | the Telegram handler's calls and returned error are those of its specification `TelegramRun` |
| Handlers.FinishTelegram | modules/ytdlp.go:148-218 | the Telegram calls after the downloader's exit are those of `TelegramFinish` |
| Handlers.HandleWhatsApp | modules/ytdlp.go:221-369 | the WhatsApp handler's calls are those of its specification `WhatsAppRun` |
| Handlers.FinishWhatsApp | modules/ytdlp.go:295-368 | the WhatsApp calls after the downloader's exit are those of `WhatsAppFinish` |
| Handlers.OnWhatsAppMessage | modules/ytdlp.go:46-74 | a message that is not a download command causes no call; a command runs the download handler with its fields |
| HandlerProperties.TelegramUsage | modules/ytdlp.go:84-87 | fewer than two arguments: only the usage reply, no error |
| HandlerProperties.TelegramStartsDownload | modules/ytdlp.go:93-121 | the status message is posted first and is the only one; the second call starts the downloader with the mode's vector, the request's template and the URL |
| HandlerProperties.TelegramStartFailure | modules/ytdlp.go:127-129 | a start failure returns that error, makes no edit and no send, and leaves the initial status |
| HandlerProperties.TelegramProgressFollowsStart | modules/ytdlp.go:132-146 | right after the start come exactly the progress edits |
| HandlerProperties.TelegramFailureShown | modules/ytdlp.go:148-162 | a wait failure or an empty file list ends with the status rewritten to its reason, no send and no error |
| HandlerProperties.TelegramDelivers | modules/ytdlp.go:164-218 | a found file is sent once, by the chosen call, right after `Uploading…`; the status is then deleted whatever the send returned; only an mp3 send's error is returned |
| HandlerProperties.TelegramUploadingBeforeSend | modules/ytdlp.go:171-215 | every send immediately follows the `Uploading…` edit |
| HandlerProperties.TelegramStatusRemovedIffSent | modules/ytdlp.go:187-217 | after a request with a URL the status message is gone exactly when a send was made |
| HandlerProperties.TelegramOversizedVideo | modules/ytdlp.go:192-215 | without a self-hosted server, a video one byte over the limit goes as a document and one at the limit as a video |
| HandlerProperties.WhatsAppUsage | modules/ytdlp.go:226-229 | fewer than two fields: only the usage reply |
| HandlerProperties.WhatsAppStatusFailure | modules/ytdlp.go:233-237 | when the status message cannot be sent, nothing else happens |
| HandlerProperties.WhatsAppStartsDownload | modules/ytdlp.go:233-266 | the status message is posted first and is the only one; the second call starts the downloader with the mode's vector in the request's directory |
| HandlerProperties.WhatsAppProgressFollowsStart | modules/ytdlp.go:279-293 | right after the start come exactly the progress edits |
| HandlerProperties.WhatsAppFailureShown | modules/ytdlp.go:272-324 | a start, wait, no-file, read or upload failure ends with the status rewritten to its message, and nothing is sent |
| HandlerProperties.WhatsAppDelivers | modules/ytdlp.go:317-368 | a read and uploaded file is sent once as the mode's document, after `Uploading...` and the upload; the status is revoked exactly when the send succeeded, otherwise it stays at `Uploading...` |
| HandlerProperties.WhatsAppUploadBeforeSend | modules/ytdlp.go:317-349 | every send follows the `Uploading...` edit and the upload |
| HandlerProperties.WhatsAppStatusRemovedIff | modules/ytdlp.go:349-368 | the status message is absent at the end exactly when it was never sent, or the document was sent successfully |

## Left out

- The process itself is not modelled: `exec.Command`, the pipes, `Start` and `Wait`. Its outcome is an input: the start error, the stdout lines, the wait error and the stderr text.
- Handlers.HandleTelegram: the progress reader runs as a goroutine that races with `cmd.Wait`. In the source a late progress edit may land after the failure or `Uploading…` edit. Lines may also be lost, because `Wait` closes the pipe while the reader may still be reading. The model applies the edits of all lines before the wait result.
- Handlers.HandleWhatsApp: the same race and the same possible loss of lines; the model orders all progress edits first.
- The stdout lines of a `Process` stand for the lines `bufio.Scanner` yields. The scanner stops at the first line longer than 64 KiB and yields nothing after it; the model does not compute that cut-off. After the cut-off nothing reads stdout any more, so the downloader can block on a full pipe and `cmd.Wait` (lines 148 and 295) never returns: the handler hangs. The model always gives the process a wait outcome and does not capture that hang.
- Handlers.HandleTelegram: the authorization check at the top of the handler (lines 79-81) is not modelled; the model handles authorized updates only.
- Handlers.HandleTelegram: the source ignores the status reply's error (line 93) and then uses the message. The model assumes the reply succeeds.
- Handlers.HandleTelegram: the `Stat` and `Open` errors (lines 167-168) are ignored by the source, and the model takes the file size as an input. When `Stat` fails, `info` is nil and `info.Size()` at line 192 panics in video mode without a self-hosted server (not for mp3, which returns before it, nor with a self-hosted server, where the `!cfg.Telegram.SelfHostedAPI` test short-circuits). The model does not model that panic.
- The filesystem is not modelled: `MkdirAll`, `Glob` and its ordering, `Remove`/`RemoveAll` and `ReadFile`. The file list and the read result are inputs, and the first listed file is taken.
- The platform SDK calls are not modelled (gotgbot, whatsmeow, the media upload, protobuf construction). They appear as trace events, with the results the handlers check given as inputs. The results of edits, deletes and the revoke are ignored by the source and are not modelled: `StatusAfter` lets every edit, delete and revoke take effect. A failed delete or revoke leaves the status message in the chat, so the lemmas about the status at the end (the `StatusRemoved` and `FailureShown` lemmas) describe the calls the handler makes, not what the chat finally shows.
- File names are not isolated between requests. Telegram message ids are unique only within one chat, so requests from two chats with the same id write the same `temp/ytdlp_<id>.%(ext)s` (lines 98-99). The Telegram glob `temp/ytdlp_<id>*` (line 156) matches by prefix, so request 12 also matches `temp/ytdlp_123.mp4`, whether it comes from another request or was left behind by a failed one (the wait-failure and no-file paths remove nothing). The model takes the file list as an input and does not capture either collision.
- The WhatsApp document's upload fields (URL, direct path, keys, hashes) and its quoted-message context are not modelled; the model keeps the MIME type, length, name and caption.
- Command registration (lines 27-44) and gotgbot's argument splitting are not modelled. The Telegram handler takes its mode and its argument list as inputs.
- `utils.UploadSizeLimit`, the configuration, the executable path and the logger are not part of this model; the limit and the self-hosted flag are inputs.
- Commands.ToLower: lowers ASCII letters only, while Go's `strings.ToLower` lowers all of Unicode. No non-ASCII character lowers to a letter of `/ytdlp` or `/ytdlpmp3`, so the dispatch decision is the same; the lowered text is not.
- Commands.Dispatch: the text is a sequence of Unicode characters, while Go scans UTF-8 bytes. Invalid UTF-8 is not modelled.
- Progress edit texts (`Status.EditFor`): an edit joins a prefix written as Unicode characters (`Downloading…` with U+2026) to a token whose characters stand for the bytes Go slices, so one string mixes the two encodings; the model does not encode the prefix to UTF-8 bytes.
- Handlers.OnWhatsAppMessage: only message events are modelled. The source's type assertion on the event (lines 47-50) ignores every other event kind, which causes no call.
- Delivery.Base: handles slash-separated paths only, as on Unix; other path separators are not modelled.
- Message ids are taken as the strings written into file names; Go's number formatting of the Telegram id is not modelled.
