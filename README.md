# Multi-Platform Video Evidence Collector, modelled in Dafny

This project models the decision logic of the WinForms video downloader in
`VideoDownloader.cs` (the `MainForm` and `PasswordManager` classes). The
modelled pieces are:

- **Platform detection** (`Platforms`). `DetectPlatform` lower-cases the
  host of the URL and walks an ordered chain of host-substring tests. URI
  parsing is a parameter `hostOf`, which returns `None` for a URL that
  `new Uri` rejects.
- **yt-dlp argument construction** (`Arguments`). `DownloadVideo` builds
  the argument list step by step: the quoted URL, the `-o` template, the
  quality profile, the subtitle and metadata flags, at most one credential
  pair, the per-platform policy and the fixed tail. The list is then joined
  by single spaces.
- **Progress handling** (`Progress`). `ProcessYtDlpOutput` and the stdout
  and stderr handlers log every non-empty line. A line can move the progress bar
  (truncated, capped at 100) or become the status. `double.TryParse` is a
  parameter `parse`.
- **The credential wrapper** (`Vault`). `PasswordManager.EncryptString` and
  `DecryptString` are modelled over foreign UTF-8, Base64 and DPAPI calls.
  Their laws are stated as the predicate `Lawful`.
- **Settings** (`Settings`). `SaveSettings` writes sixteen `key=value`
  lines. `LoadSettings` reads them into a dictionary and applies the keys in
  a fixed order until a `bool.Parse` fails. `ClearCredentials` empties the
  login fields. These are methods of the class `SettingsPanel`, proved
  against pure specification functions.
- **The download queue** (`Queue`). The add button, `AddToQueue`,
  `ProcessQueue` and its `while` loop, the clear-queue button and the
  history row of `AddToHistory` are modelled. The class `DownloadQueue`
  holds the queue, the flag, the URL box and the history. Each method is
  proved equal to the specification functions `Click` and `Drain`. The
  environment is a value `Env`:
  - how each job ends (an exit code, or `yt-dlp.exe` missing);
  - each job's evidence folder and completion time;
  - the clicks and keystrokes the user makes while the drain awaits.
- **Evidence** (`Evidence`). This covers the downloaded-file filter, the
  SHA-256 hash rendering of `GenerateFileHash` and the lines of
  `GenerateEvidenceReport`. The digest, file metadata and environment
  names are inputs.

`Text` holds the .NET string helpers the source calls (`Contains`,
`IndexOf`, `Trim`, `ToLower`, `Replace`, `EndsWith`, `string.Join`,
`Path.Combine`, `Path.GetFileName`), all compared character by character.
`Wrappers` holds `Option` and `byte`.

Behaviours of the code worth knowing, which the model follows:

- `DetectPlatform` returns `""`, not an "unknown" label, for a blank or
  unparseable URL.
- A host containing `xnxx.com` is labelled Twitter/X, never as an adult
  site, because the `x.com` test comes first.
- A negative progress number is not clamped to 0. The progress bar setter
  throws, which the model calls `BarFault`.
- A missing `yt-dlp.exe` throws out of `ProcessQueue`. No history row is
  written and `isProcessingQueue` stays set.
- The two drop-down lists use `DropDownList` style. Assigning a value that
  is not one of their items leaves them unchanged, so a loaded quality or
  browser is applied only when it is an item.
- The history row and the evidence report read the URL box, not the job's
  URL.

## Model

| member | source | states |
|---|---|---|
| Text.IndexOf | VideoDownloader.cs:981-982 | the result is -1 exactly when the character is absent; otherwise it indexes the character and nothing before it is that character |
| Text.ContainsIff | VideoDownloader.cs:605-662 | `Contains` holds exactly when the pattern occurs at some index |
| Text.OccursImpliesContains | VideoDownloader.cs:605-662 | an occurrence at any index makes `Contains` hold |
| Text.ContainedCharsOccur | VideoDownloader.cs:605-662 | every character of a contained pattern occurs in the text |
| Text.ToLower | VideoDownloader.cs:601 | same length; each character is mapped by ASCII lower-casing |
| Text.ToLowerIdempotent | VideoDownloader.cs:601 | lower-casing twice equals lower-casing once |
| Text.ToLowerAppend | VideoDownloader.cs:601 | lower-casing distributes over concatenation |
| Text.TrimBy | VideoDownloader.cs:985 | the result is a slice that starts after the leading dropped characters, every character after it is dropped, and neither of its ends is a dropped character |
| Text.TrimByUnchanged | VideoDownloader.cs:985 | text with nothing to drop at either end is returned unchanged |
| Text.TrimByMargins | VideoDownloader.cs:985 | everything trimmed off either end of a piece of a longer text is a dropped character |
| Text.RemoveAll | VideoDownloader.cs:820 | the result holds no `c`, and holds exactly the other characters of the input |
| Text.RemoveAllAbsent | VideoDownloader.cs:820 | text without `c` comes back unchanged |
| Text.RemoveAllAppend | VideoDownloader.cs:820 | removal distributes over concatenation |
| Text.Join | VideoDownloader.cs:897 | joining nothing gives ""; otherwise the result starts with the first piece and ends with the last |
| Text.JoinHead | VideoDownloader.cs:897 | with two or more pieces the separator follows the first piece |
| Text.JoinAppend | VideoDownloader.cs:897 | joining one more piece appends one separator and that piece, so every piece appears once, in order, with one separator between neighbours |
| Text.PathCombine | VideoDownloader.cs:789 | the combined path starts with the folder and ends with the name |
| Text.FileName | VideoDownloader.cs:1011 | the file name is a suffix of the path, holds no directory or volume separator, and reaches back to the last one (or to the start of the path) |
| Platforms.NameInjective | VideoDownloader.cs:605-671 | platform labels are non-empty and distinct |
| Platforms.MatchesIff | VideoDownloader.cs:605-662 | one `||` row matches exactly when one of its patterns occurs in the domain |
| Platforms.FirstMatchSpec | VideoDownloader.cs:605-671 | the chain returns the platform of the first matching row |
| Platforms.FirstMatchNone | VideoDownloader.cs:667-671 | with no matching row the chain ends at the unknown platform |
| Platforms.FirstMatchAtOrBefore | VideoDownloader.cs:605-671 | once row `i` matches, the result comes from row `i` or an earlier one |
| Platforms.Label | VideoDownloader.cs:595-681 | the label is "" exactly when nothing was detected |
| Platforms.DetectPlatform | VideoDownloader.cs:589-683 | the result is "" exactly for a blank URL or one that `new Uri` rejects |
| Platforms.DetectDependsOnHostOnly | VideoDownloader.cs:600-601 | two parsed URLs whose hosts agree after lower-casing get the same label, whatever their scheme, path or query |
| Platforms.DetectIsTableLookup | VideoDownloader.cs:600-675 | for a parsed URL the label is that of the first row matching the lower-cased host |
| Platforms.DetectUnknown | VideoDownloader.cs:667-675 | a parsed host matching no row is labelled "Unknown Platform" |
| Platforms.XnxxNeverAdult | VideoDownloader.cs:620-662 | a host containing "xnxx.com" is never classified as an adult site, because the "x.com" test comes first |
| Arguments.OutputTemplate | VideoDownloader.cs:786-788 | the template ends with `%(title)s_%(id)s.%(ext)s`, and starts with the stamp and `_` exactly when timestamping is on |
| Arguments.BuildArguments | VideoDownloader.cs:782-890 | the appended list equals the argument vector of the request for the platform detected from its URL |
| Arguments.AppendQuality | VideoDownloader.cs:792-823 | the `switch` appends exactly the quality profile's flags |
| Arguments.AppendOptions | VideoDownloader.cs:826-836 | appends the subtitle pair only when subtitles are on, then the metadata pair only when metadata is on |
| Arguments.AppendCredentials | VideoDownloader.cs:841-855 | the label-based chain appends exactly the credential flags of the detected platform |
| Arguments.AppendPlatformPolicy | VideoDownloader.cs:857-880 | the label-based chain appends exactly the policy flags of the detected platform |
| Arguments.AppendTail | VideoDownloader.cs:882-890 | appends user agent, referer, `--newline` and `--no-colors`, in that order |
| Arguments.LabelsIdentify | VideoDownloader.cs:839 | comparing the returned label with a platform's name is the same as comparing platforms |
| Arguments.VectorFrame | VideoDownloader.cs:783-890 | every vector opens with the quoted URL and the `-o` argument, has the quality flags at index 2, and ends with the four tail flags |
| Arguments.CommandLineStart | VideoDownloader.cs:897 | the command line starts with the quoted URL, a space and the `-o` argument |
| Arguments.CommandLineEnd | VideoDownloader.cs:890-897 | the command line ends with `--no-colors` |
| Arguments.HeightProfile | VideoDownloader.cs:819-822 | any text other than the five named profiles gives one `-f "best[height<=H]"` flag whose H is that text with every `p` removed |
| Arguments.ResolutionProfile | VideoDownloader.cs:820-821 | a list entry such as `720p` gives the height limit with its digits |
| Arguments.CredentialPolicy | VideoDownloader.cs:841-855 | zero or two credential flags; two exactly when the platform is Instagram, Facebook or LinkedIn and both its fields are non-empty; `-u`/`-p` for Instagram, `--username`/`--password` otherwise |
| Arguments.PlatformPolicy | VideoDownloader.cs:857-880 | the four branches are exclusive: cookies only for TikTok, Pinterest and CapCut with cookies on; forced mp3 only for Spotify and SoundCloud without an audio profile; `--no-check-certificate` only for Telegram; nothing otherwise |
| Arguments.CookieFlagIn | VideoDownloader.cs:858-865 | with cookies on, a cookie platform's vector holds the cookie flag |
| Arguments.YouTubeAt720 | VideoDownloader.cs:605-608 | a YouTube host is labelled "YouTube", and `720p` puts `-f "best[height<=720]"` right after the head |
| Arguments.TikTokHost | VideoDownloader.cs:605-629 | `www.tiktok.com` is classified as TikTok: no earlier row occurs in it |
| Arguments.TikTokWithCookies | VideoDownloader.cs:858-865 | a TikTok URL with cookies on passes the lower-cased selected browser, or `chrome` when none is selected |
| Progress.LogLine | VideoDownloader.cs:1002 | a log line starts with the bracketed time and ends with the message |
| Progress.AddToLog | VideoDownloader.cs:1000-1003 | exactly one line is appended after the old lines, ending with the message; bar and status are untouched |
| Progress.PercentToken | VideoDownloader.cs:981-985 | a token exists exactly when the line has a space and a `%`, does not start with a space, and the first space comes before the first `%` |
| Progress.TokenInLine | VideoDownloader.cs:981-985 | the token holds no `%`, does not start with a space, and occurs in the line |
| Progress.TokenIsTrimmedSlice | VideoDownloader.cs:981-985 | the token is the slice of the line from the first space up to the first `%`, less the white space at both ends, and only white space lies between it and those two marks |
| Progress.Truncate | VideoDownloader.cs:988 | the `(int)` cast truncates toward zero for both signs |
| Progress.Percent | VideoDownloader.cs:988 | the value is at most 100; it is 100 for inputs of 100 or more, the truncation otherwise, and negative exactly for inputs at or below -1 |
| Progress.OnError | VideoDownloader.cs:926-931 | an empty stderr line changes nothing; any other line is logged with an `Error: ` prefix |
| Progress.AlwaysLogged | VideoDownloader.cs:976 | every processed line is appended to the log |
| Progress.ProgressRule | VideoDownloader.cs:979-990 | the bar moves to the capped, truncated number exactly when the line is readable; otherwise it keeps its value |
| Progress.StatusRule | VideoDownloader.cs:994-997 | a line becomes the status exactly when it contains `ETA` |
| Progress.BarStaysInRange | VideoDownloader.cs:988 | a bar within 0..100 stays within it; the setter throws exactly for a parsed number at or below -1, and then bar and status keep their values |
| Progress.Replay | VideoDownloader.cs:918-924 | every non-empty line of a stream is logged, in order, with nothing else added to the log, even after a line whose bar assignment throws; the bar stays within 0..100 |
| Progress.ReplayAppend | VideoDownloader.cs:918-924 | each line is its own callback: replaying a stream equals replaying its first part and then the rest |
| Progress.QuietLinesKeepBar | VideoDownloader.cs:979-990 | lines with no readable progress leave the bar where it was |
| Vault.DecryptAfterEncrypt | VideoDownloader.cs:1358-1396 | decrypting the stored text gives the input back, for empty input and whenever `Protect` succeeded |
| Vault.EncryptShape | VideoDownloader.cs:1358-1376 | the stored text is empty exactly for empty input; protected text is pure Base64; when protection fails the plaintext is stored |
| Vault.DecryptFailure | VideoDownloader.cs:1378-1396 | non-empty text that is not Base64, or that `Unprotect` rejects, decrypts to "" |
| Settings.KeyOfName | VideoDownloader.cs:1035-1050 | every key text reads back as its own key |
| Settings.KeyNameInjective | VideoDownloader.cs:1035-1050 | the sixteen key texts are distinct |
| Settings.KeyNameChars | VideoDownloader.cs:1035-1050 | no key text holds `=` or a line break |
| Settings.KeysCover | VideoDownloader.cs:1033-1050 | every key is listed exactly once in the fixed order |
| Settings.ParseBoolText | VideoDownloader.cs:1043-1049 | `bool.Parse` reads back what `ToString` wrote, and rejects "" |
| Settings.SavedLines | VideoDownloader.cs:1058-1061 | one `key=value` line per key, in key order |
| Settings.ReadAllLines | VideoDownloader.cs:1079 | no line read holds a line break |
| Settings.ReadWritten | VideoDownloader.cs:1056-1079 | lines written with `WriteLine` read back unchanged when none holds a line break |
| Settings.WriteLinesAppend | VideoDownloader.cs:1058-1061 | writing one more line appends it and its line end |
| Settings.SplitAtFirst | VideoDownloader.cs:1081-1083 | there is a split exactly when the line has `=`; the key part holds no `=`, and key, `=` and value rebuild the line |
| Settings.SplitJoin | VideoDownloader.cs:1060-1083 | a key without `=` splits back from its line, and the value keeps any `=` it holds |
| Settings.ParseEntriesLookup | VideoDownloader.cs:1078-1084 | the dictionary holds a key exactly when some line splits to it, with the value of the last such line |
| Settings.ApplyKey | VideoDownloader.cs:1086-1121 | a step fails exactly for a check-box key whose value `bool.Parse` rejects |
| Settings.ApplyKeyFrame | VideoDownloader.cs:1086-1121 | applying one key changes no field of another key |
| Settings.ApplyKeepsValid | VideoDownloader.cs:1100-1115 | loading never leaves a drop-down list on a value outside its items |
| Settings.ApplySaved | VideoDownloader.cs:1035-1121 | a saved value, read back by its own key, restores its field |
| Settings.StoredPasswordSingle | VideoDownloader.cs:1036-1040 | a stored password holds no line break |
| Settings.SavedLineSingle | VideoDownloader.cs:1060 | every saved line is a single line when the text fields hold no break |
| Settings.SavedEntry | VideoDownloader.cs:1058-1084 | the dictionary read from a saved file maps every key to its saved text |
| Settings.LoadAfterSave | VideoDownloader.cs:1031-1128 | loading the saved file restores every field, whatever the controls held before, when no text field holds a line break and each password was protected |
| Settings.BadBoolStops | VideoDownloader.cs:1102-1128 | the first unparsable check-box value stops the load: the keys before it stay applied and none after it is |
| Settings.LoadStopsIff | VideoDownloader.cs:1102-1128 | the load stops early exactly when some present check-box value does not parse |
| Settings.AbsentKeyKept | VideoDownloader.cs:1086-1121 | a key missing from the file leaves its field as it was |
| Settings.SettingsPanel.constructor | VideoDownloader.cs:169-475 | the controls start with empty logins, the first quality and browser items, the download options off and the three evidence options on |
| Settings.SettingsPanel.SaveSettings | VideoDownloader.cs:1031-1062 | the text written is the saved lines, each ended by `\r\n` |
| Settings.SettingsPanel.LoadSettings | VideoDownloader.cs:1067-1128 | the controls and the outcome are those of the load function, and the drop-down lists stay on their items |
| Settings.SettingsPanel.ApplyEntry | VideoDownloader.cs:1086-1121 | one `ContainsKey` step: fields and success as the step function gives them, nothing changed on failure |
| Settings.SettingsPanel.SetCheckBox | VideoDownloader.cs:1102-1121 | a check box assignment changes that box alone |
| Settings.SettingsPanel.SetDownloadOption | VideoDownloader.cs:1102-1109 | the subtitles, metadata, timestamp or cookies box takes the value |
| Settings.SettingsPanel.SetEvidenceOption | VideoDownloader.cs:1116-1121 | the screenshot, hash or report box takes the value |
| Settings.SettingsPanel.SetTextBox | VideoDownloader.cs:1086-1115 | a text, password or list assignment as the step function gives it |
| Settings.SettingsPanel.SetLogin | VideoDownloader.cs:1086-1095 | a user name or e-mail box takes the value |
| Settings.SettingsPanel.SetPassword | VideoDownloader.cs:1088-1097 | a password box takes the decrypted value |
| Settings.SettingsPanel.SetDownloadText | VideoDownloader.cs:1098-1115 | the output folder takes the value; quality and browser only one of their items |
| Settings.SettingsPanel.ClearCredentials | VideoDownloader.cs:1131-1148 | once confirmed, the six login fields are empty and the file is gone, and nothing else changes; unconfirmed, nothing changes |
| Queue.React | VideoDownloader.cs:685-695 | a user action keeps history, trace, flag and counters; adds at most one pending URL |
| Queue.ReactAll | VideoDownloader.cs:685-695 | the actions of one wait keep history, trace and flag, and no actions change nothing |
| Queue.Entry | VideoDownloader.cs:1005-1015 | the row has the host and completion time; status "Success" with the evidence folder for exit code 0, otherwise "Failed" with empty location and name; the name ends the location |
| Queue.StartJob | VideoDownloader.cs:723-727 | the head URL is dequeued into the trace; with no user action the rest stays pending and the box shows the URL, or is empty once the add button's clear ran |
| Queue.PauseStep | VideoDownloader.cs:730-731 | the pause is traced; with no user action pending URLs and box are unchanged |
| Queue.JobStep | VideoDownloader.cs:721-731 | one pass adds at most one history row and keeps the rows before it; a pass that throws adds none |
| Queue.Drain | VideoDownloader.cs:716-737 | the drain keeps earlier history rows, and ends with the flag cleared only with nothing pending |
| Queue.JobStepTrace | VideoDownloader.cs:723-731 | a pass traces its download, then possibly the pause |
| Queue.DrainPausesFollowJobs | VideoDownloader.cs:721-732 | the three-second delay only ever comes straight after a download |
| Queue.ReactKeepsPending | VideoDownloader.cs:685-699 | any action but the clear button keeps the pending URLs where they are, adding at most one behind them |
| Queue.ReactAllKeepsPending | VideoDownloader.cs:685-699 | the actions of one wait, without the clear button, keep the pending URLs as a prefix of the new pending list |
| Queue.StartJobKeepsOrder | VideoDownloader.cs:723-727 | starting a job moves the head URL into the downloads and only adds URLs behind the rest |
| Queue.PauseStepKeepsOrder | VideoDownloader.cs:730-731 | the pause downloads nothing and only adds URLs behind the pending ones |
| Queue.JobStepKeepsOrder | VideoDownloader.cs:721-731 | a pass never reorders the queue: the URLs downloaded, then those pending, stay a prefix of what follows the pass |
| Queue.DrainKeepsOrder | VideoDownloader.cs:716-733 | for every schedule of typing and adding during the drain (no clear button), in either history mode and also when the drain throws, the URLs downloaded and then pending before stay a prefix of those after: a URL added mid-drain waits behind every URL already queued |
| Queue.QuietPass | VideoDownloader.cs:721-731 | a quiet pass whose URL parses dequeues it, records its row with its host, and pauses only when more URLs wait |
| Queue.JobStepRecorded | VideoDownloader.cs:945-971 | a pass whose recorded URL parses appends its row and goes on |
| Queue.JobStepHalts | VideoDownloader.cs:1005-1026 | a missing binary or an unparseable recorded URL throws right after the download |
| Queue.DrainNext | VideoDownloader.cs:721-732 | a pass that reaches the loop test continues the drain from its state |
| Queue.DrainHalts | VideoDownloader.cs:716-737 | a pass that throws ends the drain there, flag still set |
| Queue.CorrectedDrainsInOrder | VideoDownloader.cs:716-737 | with recording from the job's URL and no user action: every pending URL is downloaded in queue order with one history row carrying its host, and the flag is cleared |
| Queue.FirstQueuedJobUnrecorded | VideoDownloader.cs:685-727 | as written: the first URL queued from an idle form is downloaded but gets no history row, and the flag stays set |
| Queue.StuckAfterHalt | VideoDownloader.cs:697-704 | with the flag set, the add button only appends and clears the box; no drain starts |
| Queue.CorrectedRecordsFirstJob | VideoDownloader.cs:685-737 | with recording from the job's URL, the first queued URL gets its row and the drain ends |
| Queue.ClickFromIdle | VideoDownloader.cs:685-704 | from an idle form the add button drains the one URL of the box |
| Queue.MissingBinaryHalts | VideoDownloader.cs:1017-1026 | a missing `yt-dlp.exe` stops the drain with no history row and the flag set |
| Queue.DownloadQueue.constructor | VideoDownloader.cs:48-49 | the queue starts empty and idle |
| Queue.DownloadQueue.ClearQueue | VideoDownloader.cs:275 | the clear button drops the pending URLs and changes nothing else |
| Queue.DownloadQueue.AddToQueueClicked | VideoDownloader.cs:685-704 | the new state is the click specification; while a drain runs it only queues the box and clears it |
| Queue.DownloadQueue.Perform | VideoDownloader.cs:685-695 | a user action as the reaction function gives it |
| Queue.DownloadQueue.PerformAll | VideoDownloader.cs:685-695 | the actions of one wait, in order |
| Queue.DownloadQueue.StartNext | VideoDownloader.cs:723-727 | dequeue, show and download while the user acts, as `StartJob` |
| Queue.DownloadQueue.PauseBetween | VideoDownloader.cs:730-731 | the delay while the user acts, as `PauseStep` |
| Queue.DownloadQueue.RecordAndPause | VideoDownloader.cs:963-969 | the history row is appended, then the pause happens when URLs remain |
| Queue.DownloadQueue.RunPass | VideoDownloader.cs:721-731 | one loop pass reaches the state of `JobStep`, and reports a throw exactly when the pass throws |
| Queue.DownloadQueue.ProcessQueue | VideoDownloader.cs:716-737 | the loop ends in the state `Drain` gives for the flag set |
| Evidence.DownloadedFiles | VideoDownloader.cs:953-955 | every kept path is a download, and no more paths are kept than listed |
| Evidence.DownloadedFilesMembers | VideoDownloader.cs:953-955 | a path is kept exactly when it is listed and does not end in `.json`, `.png` or `.txt` |
| Evidence.DownloadedFilesAppend | VideoDownloader.cs:953-955 | the filter keeps the listing's order |
| Evidence.ReportPath | VideoDownloader.cs:1276 | the report path ends with `evidence_report_<stamp>.txt` |
| Evidence.ReportNotADownload | VideoDownloader.cs:1276 | the report file is never counted as a download |
| Evidence.Hex | VideoDownloader.cs:1264 | two digits per byte; lower-case digits when not upper-case |
| Evidence.ParseHexRoundTrip | VideoDownloader.cs:1264 | lower-case hexadecimal text reads back as its bytes |
| Evidence.HashTextIsLowerHex | VideoDownloader.cs:1263-1264 | the rendered hash is the lower-case hexadecimal of the digest, with no dashes, and reads back as the digest |
| Evidence.FileHashFailsOnlyOnError | VideoDownloader.cs:1255-1271 | the result is "Error generating hash" exactly when hashing throws; otherwise it reads back as the digest |
| Evidence.FileBlockHash | VideoDownloader.cs:1303-1313 | a file's block holds its hash line exactly when hashing is on |
| Evidence.Present | VideoDownloader.cs:1301 | a file is kept exactly when it is listed and still exists |
| Evidence.FilesSectionHashes | VideoDownloader.cs:1299-1315 | one hash line per existing file when hashing is on, none when it is off |
| Evidence.FrontLayout | VideoDownloader.cs:1282-1298 | where the first three headings stand; the opening lines hold no hash line |
| Evidence.BackLayout | VideoDownloader.cs:1317-1342 | where the last four headings and the end marker stand; the closing lines hold no hash line |
| Evidence.ReportSectionOrder | VideoDownloader.cs:1282-1342 | the seven headings appear in their fixed order, and the report ends with the end marker |
| Evidence.ReportHashes | VideoDownloader.cs:1299-1315 | the report holds one hash line per existing download when hashing is on, none otherwise |
| Evidence.SuccessReport | VideoDownloader.cs:951-960 | a report is written exactly when the report option is on |
| Evidence.HashesOnlyInReport | VideoDownloader.cs:951-960 | hash lines appear only inside a report with hashing on; every existing download gets one; never more than the downloads |
| Evidence.WriteFilesSection | VideoDownloader.cs:1299-1315 | the loop writes the file blocks, with one hash line per existing file when hashing is on |

## Left out

- The window layout, controls, colours, message boxes, `UpdateQueueDisplay` and the `BeginInvoke` marshalling are UI with no decision logic.
- Process launching, output streaming and `WaitForExit` are left out. The exit code is an input (`Env.run`), and each output line is handled on its own (`Progress.Replay`).
- The screenshot capture, `FindBrowserExecutable` and `FindChromeExecutable` are browser process I/O.
- Directory creation and file deletion are file-system I/O. The settings file is a value; `None` means it does not exist.
- The existence check in `GetYtDlpPath` is modelled only as the `BinaryMissing` outcome of a job.
- `DateTime.Now`, `Environment.UserName`, `MachineName` and `OSVersion` are strings passed in.
- SHA-256, DPAPI, UTF-8 and Base64 are foreign calls. They are parameters; their laws are stated in `Vault.Lawful`.
- `double.TryParse` is the parameter `parse`. NaN, infinities and doubles too large for `int` are not modelled.
- File sizes, the megabyte figure and file times arrive already formatted. Whether a file exists is given per file.
- `DownloadButton_Click` is not modelled. It runs the same `DownloadVideo` without the queue and catches its exceptions.
- The status label and the final `progressBar.Value = 100` after a download are not modelled. Nor are the two log lines `DownloadVideo` writes before running yt-dlp.
- The "Queue processing completed!" log line and the re-enabled download button are not modelled.
- The log line written when the evidence report cannot be saved is not modelled.
- Queue.StartJob: the user's actions during a download's wait are applied before the drain stops for a missing `yt-dlp.exe`. With the screenshot option on (the default) and a browser found, `DownloadVideo` first awaits the screenshot (VideoDownloader.cs:778, 1177) and only then throws (908, 1025), so the user can act at that wait and the model is exact. With the screenshot off or no browser found, the throw comes before any await, and the model over-approximates by allowing actions that cannot happen then.
- Settings.SettingsPanel.SaveSettings: a browser list with no selection, which `SaveSettings` writes as "Chrome", is not represented. The form always selects an item.
- Settings.ParseBool: `bool.Parse` is modelled with ASCII case folding only.
- Text.ToLower: only ASCII letters are lower-cased.
- Settings.SettingsPanel.SetDownloadText: a loaded quality value that differs from a list item only in case is not applied. Assigning the drop-down list's `Text` property would select that item, because the lookup ignores case. The browser value is looked up with `Items.IndexOf`, which is exact, as modelled.
- Text.FileName, Text.PathCombine: `:` counts as a separator wherever it appears, as in .NET Framework. .NET Core recognises it only as part of a drive root such as `C:`. The two differ only for paths with a `:` past the drive, which the downloader does not build.
- Text.IndexOf, Text.EndsWith: .NET compares `IndexOf(string)` and `EndsWith(string)` by the current culture. The model compares character by character, which agrees for the ASCII text the downloader passes.
- Progress.Replay: the exception a faulting callback throws goes to the application's unhandled-exception handler, which is not modelled. The line stays logged, bar and status keep their values, and the later callbacks run.
- Queue.Drain: the schedule of user actions is finite, and the queue is drained once it is used up.

## Findings

| source | as written | input that shows it | evidently intended | confidence | as-written member | corrected member |
|---|---|---|---|---|---|---|
| VideoDownloader.cs:685-695, 963, 969, 1007 | `AddToQueueButton_Click` clears the URL box while the first download of a new drain is awaited. `AddToHistory` then parses the box, `new Uri("")` throws inside the `async void` `ProcessQueue`, and the drain stops with `isProcessingQueue` still true. | idle form, box `https://youtu.be/x`, add button clicked, no key pressed during the download | the history row is built from the job's own URL, and the drain goes on and clears the flag | not executed | Queue.FirstQueuedJobUnrecorded | Queue.CorrectedDrainsInOrder |
