/**
 * What a successful download leaves behind: the downloaded-file filter,
 * the SHA-256 hash rendering of `GenerateFileHash` and the text of
 * `GenerateEvidenceReport`. File metadata, clock readings and the
 * environment's names arrive as strings already formatted; the digest is
 * the hashing call's result, `None` when it throws.
 */
module Evidence {
  import opened Wrappers
  import opened Text
  import Platforms

  /* ---------- the downloaded-file filter ---------- */

  /**
   * A file of the evidence folder counts as downloaded unless its name ends
   * in `.json` (metadata), `.png` (screenshots) or `.txt` (reports and logs).
   */
  predicate IsDownload(path: string)
  {
    !EndsWith(path, ".json") && !EndsWith(path, ".png") && !EndsWith(path, ".txt")
  }

  /** The `Where` over the folder listing, kept in listing order. */
  function DownloadedFiles(paths: seq<string>): (r: seq<string>)
    ensures |r| <= |paths|
    ensures forall k :: 0 <= k < |r| ==> IsDownload(r[k])
    decreases |paths|
  {
    if paths == [] then []
    else (if IsDownload(paths[0]) then [paths[0]] else []) + DownloadedFiles(paths[1..])
  }

  /** A path is kept exactly when it is listed and is a download. */
  lemma {:induction false} DownloadedFilesMembers(paths: seq<string>, x: string)
    ensures x in DownloadedFiles(paths) <==> x in paths && IsDownload(x)
    decreases |paths|
  {
    if paths != [] {
      DownloadedFilesMembers(paths[1..], x);
      assert paths == [paths[0]] + paths[1..];
    }
  }

  /** The filter works piece by piece, so it keeps the listing's order. */
  lemma {:induction false} DownloadedFilesAppend(a: seq<string>, b: seq<string>)
    ensures DownloadedFiles(a + b) == DownloadedFiles(a) + DownloadedFiles(b)
    decreases |a|
  {
    if a == [] {
      assert a + b == b;
    } else {
      assert (a + b)[0] == a[0];
      assert (a + b)[1..] == a[1..] + b;
      DownloadedFilesAppend(a[1..], b);
    }
  }

  /** The report file is never listed as a download, whatever the folder and stamp. */
  lemma ReportNotADownload(folder: string, stamp: string)
    ensures !IsDownload(ReportPath(folder, stamp))
  {
    var name := "evidence_report_" + stamp + ".txt";
    var p := ReportPath(folder, stamp);
    assert name[|name| - 4..] == ".txt";
    assert p[|p| - 4..] == name[|name| - 4..];
  }

  /** Where the report is written: `evidence_report_<yyyyMMdd_HHmmss>.txt` in the evidence folder. */
  function ReportPath(folder: string, stamp: string): (r: string)
    ensures EndsWith(r, "evidence_report_" + stamp + ".txt")
  {
    PathCombine(folder, "evidence_report_" + stamp + ".txt")
  }

  /* ---------- hash rendering ---------- */

  /** One hexadecimal digit, upper- or lower-case. */
  function HexDigit(n: nat, upper: bool): (c: char)
    requires n < 16
  {
    if n < 10 then (48 + n) as char
    else if upper then (55 + n) as char
    else (87 + n) as char
  }

  /** A lower-case hexadecimal digit. */
  predicate IsLowerHexDigit(c: char)
  {
    ('0' <= c <= '9') || ('a' <= c <= 'f')
  }

  /** The value of a lower-case hexadecimal digit. */
  function DigitValue(c: char): (n: nat)
    requires IsLowerHexDigit(c)
    ensures n < 16 && HexDigit(n, false) == c
  {
    if c <= '9' then c as int - 48 else c as int - 87
  }

  /** One byte as `BitConverter` writes it: two upper-case digits. */
  function ByteText(b: byte): string
  {
    [HexDigit(b as nat / 16, true), HexDigit(b as nat % 16, true)]
  }

  /** `BitConverter.ToString(hash)`: the bytes' pairs joined by dashes. */
  function BitConverterText(bytes: seq<byte>): string
  {
    Join(seq(|bytes|, k requires 0 <= k < |bytes| => ByteText(bytes[k])), "-")
  }

  /** `GenerateFileHash` on success: dashes removed, then lower-cased. */
  function HashText(bytes: seq<byte>): string
  {
    ToLower(RemoveAll(BitConverterText(bytes), '-'))
  }

  /** Two digits per byte, most significant first, no separators. */
  function Hex(bytes: seq<byte>, upper: bool): (r: string)
    ensures |r| == 2 * |bytes|
    ensures !upper ==> forall k :: 0 <= k < |r| ==> IsLowerHexDigit(r[k])
    decreases |bytes|
  {
    if bytes == [] then []
    else [HexDigit(bytes[0] as nat / 16, upper), HexDigit(bytes[0] as nat % 16, upper)] + Hex(bytes[1..], upper)
  }

  /** Reading lower-case hexadecimal text back into bytes; `None` for an odd length or a non-digit. */
  function ParseHex(s: string): (r: Option<seq<byte>>)
    ensures r.Some? ==> 2 * |r.value| == |s|
    decreases |s|
  {
    if s == [] then Some([])
    else if |s| == 1 || !IsLowerHexDigit(s[0]) || !IsLowerHexDigit(s[1]) then None
    else
      match ParseHex(s[2..])
      case None => None
      case Some(rest) => Some([(DigitValue(s[0]) * 16 + DigitValue(s[1])) as byte] + rest)
  }

  /** Lower-case hexadecimal text reads back as the bytes it was made from. */
  lemma {:induction false} ParseHexRoundTrip(bytes: seq<byte>)
    ensures ParseHex(Hex(bytes, false)) == Some(bytes)
    decreases |bytes|
  {
    if bytes != [] {
      var b := bytes[0] as nat;
      var s := Hex(bytes, false);
      assert s[2..] == Hex(bytes[1..], false);
      ParseHexRoundTrip(bytes[1..]);
      assert DigitValue(s[0]) == b / 16 && DigitValue(s[1]) == b % 16 by {
        HexDigitInjective(DigitValue(s[0]), b / 16);
        HexDigitInjective(DigitValue(s[1]), b % 16);
      }
      assert (b / 16 * 16 + b % 16) as byte == bytes[0];
      assert [bytes[0]] + bytes[1..] == bytes;
    }
  }

  /** Different values give different lower-case digits. */
  lemma HexDigitInjective(m: nat, n: nat)
    requires m < 16 && n < 16 && HexDigit(m, false) == HexDigit(n, false)
    ensures m == n
  {
  }

  /** Lower-casing a `BitConverter` digit gives the lower-case digit. */
  lemma LowerHexDigit(n: nat)
    requires n < 16
    ensures LowerChar(HexDigit(n, true)) == HexDigit(n, false)
  {
  }

  /** The upper-case digits, lower-cased, are the lower-case digits. */
  lemma {:induction false} ToLowerHex(bytes: seq<byte>)
    ensures ToLower(Hex(bytes, true)) == Hex(bytes, false)
    decreases |bytes|
  {
    if bytes != [] {
      var head := [HexDigit(bytes[0] as nat / 16, true), HexDigit(bytes[0] as nat % 16, true)];
      ToLowerAppend(head, Hex(bytes[1..], true));
      ToLowerHex(bytes[1..]);
      LowerHexDigit(bytes[0] as nat / 16);
      LowerHexDigit(bytes[0] as nat % 16);
      assert ToLower(head) == [HexDigit(bytes[0] as nat / 16, false), HexDigit(bytes[0] as nat % 16, false)];
    }
  }

  /** Removing the dashes from `BitConverter` text leaves the upper-case digits. */
  lemma {:induction false} UndashedIsHex(bytes: seq<byte>)
    ensures RemoveAll(BitConverterText(bytes), '-') == Hex(bytes, true)
    decreases |bytes|
  {
    var pairs := seq(|bytes|, k requires 0 <= k < |bytes| => ByteText(bytes[k]));
    if |bytes| == 1 {
      assert BitConverterText(bytes) == ByteText(bytes[0]);
      RemoveAllAbsent(ByteText(bytes[0]), '-');
      assert Hex(bytes[1..], true) == [];
    } else if |bytes| > 1 {
      var rest := seq(|bytes[1..]|, k requires 0 <= k < |bytes[1..]| => ByteText(bytes[1..][k]));
      assert pairs[1..] == rest;
      assert BitConverterText(bytes) == ByteText(bytes[0]) + "-" + BitConverterText(bytes[1..]);
      RemoveAllAppend(ByteText(bytes[0]) + "-", BitConverterText(bytes[1..]), '-');
      RemoveAllAppend(ByteText(bytes[0]), "-", '-');
      RemoveAllAbsent(ByteText(bytes[0]), '-');
      assert RemoveAll("-", '-') == [];
      UndashedIsHex(bytes[1..]);
    }
  }

  /**
   * The rendered hash is the lower-case hexadecimal text of the digest: two
   * digits per byte, no separators, and it reads back as the digest.
   */
  lemma HashTextIsLowerHex(bytes: seq<byte>)
    ensures HashText(bytes) == Hex(bytes, false)
    ensures |HashText(bytes)| == 2 * |bytes|
    ensures ParseHex(HashText(bytes)) == Some(bytes)
  {
    UndashedIsHex(bytes);
    ToLowerHex(bytes);
    ParseHexRoundTrip(bytes);
  }

  /** What `GenerateFileHash` returns when opening or hashing the file throws. */
  const HashFailure: string := "Error generating hash"

  /** `GenerateFileHash`: the rendered digest, or the failure text. */
  function FileHash(digest: Option<seq<byte>>): string
  {
    match digest
    case None => HashFailure
    case Some(bytes) => HashText(bytes)
  }

  /** The failure text is never a rendered digest, so a reader can always tell the two apart. */
  lemma FileHashFailsOnlyOnError(digest: Option<seq<byte>>)
    ensures FileHash(digest) == HashFailure <==> digest.None?
    ensures digest.Some? ==> ParseHex(FileHash(digest)) == Some(digest.value)
  {
    if digest.Some? {
      HashTextIsLowerHex(digest.value);
      assert |HashFailure| == 21;
    }
  }

  /* ---------- the evidence report ---------- */

  /**
   * What the report needs to know about one downloaded path: whether it
   * still exists, its size in bytes and in megabytes, creation and
   * modification texts as formatted, and the digest (`None` when hashing
   * throws).
   */
  datatype FileFacts = FileFacts(path: string, present: bool, size: string, megabytes: string,
                                 created: string, modified: string, digest: Option<seq<byte>>)

  /** The line that carries a file's hash. */
  predicate IsHashLine(line: string)
  {
    StartsWith(line, "SHA256 Hash: ")
  }

  /** How many hash lines some report text holds. */
  function HashLines(lines: seq<string>): (n: nat)
    ensures n <= |lines|
  {
    if lines == [] then 0 else HashLines(lines[..|lines| - 1]) + (if IsHashLine(lines[|lines| - 1]) then 1 else 0)
  }

  /** Hash lines add up over concatenated text. */
  lemma {:induction false} HashLinesAppend(a: seq<string>, b: seq<string>)
    ensures HashLines(a + b) == HashLines(a) + HashLines(b)
    decreases |b|
  {
    if b == [] {
      assert a + b == a;
    } else {
      assert (a + b)[..|a + b| - 1] == a + b[..|b| - 1];
      HashLinesAppend(a, b[..|b| - 1]);
    }
  }

  /** Text whose lines never start with the hash label has no hash line. */
  lemma NoHashLines(lines: seq<string>)
    requires forall k :: 0 <= k < |lines| ==> |lines[k]| < 2 || lines[k][0] != 'S' || lines[k][1] != 'H'
    ensures HashLines(lines) == 0
  {
    if lines != [] {
      NoHashLines(lines[..|lines| - 1]);
      var last := lines[|lines| - 1];
      if |last| >= 13 {
        assert last[..13][0] == last[0] && last[..13][1] == last[1];
      }
    }
  }

  /** The block written for one file that still exists. */
  function FileBlock(f: FileFacts, hashOn: bool): seq<string>
  {
    ["Filename: " + FileName(f.path), "Size: " + f.size + " bytes (" + f.megabytes + " MB)", "Created: " + f.created, "Modified: " + f.modified]
      + (if hashOn then ["SHA256 Hash: " + FileHash(f.digest)] else []) + [""]
  }

  /** A block holds the file's hash line exactly when hashing is on. */
  lemma FileBlockHash(f: FileFacts, hashOn: bool)
    ensures HashLines(FileBlock(f, hashOn)) == (if hashOn then 1 else 0)
    ensures hashOn ==> |FileBlock(f, hashOn)| == 6 && FileBlock(f, hashOn)[4] == "SHA256 Hash: " + FileHash(f.digest)
  {
    var head := ["Filename: " + FileName(f.path), "Size: " + f.size + " bytes (" + f.megabytes + " MB)", "Created: " + f.created,
                 "Modified: " + f.modified];
    var hash := if hashOn then ["SHA256 Hash: " + FileHash(f.digest)] else [];
    NoHashLines(head);
    NoHashLines([""]);
    HashLinesAppend(head, hash);
    HashLinesAppend(head + hash, [""]);
    assert hashOn ==> ("SHA256 Hash: " + FileHash(f.digest))[..13] == "SHA256 Hash: ";
    assert HashLines(hash) == (if hashOn then 1 else 0) by {
      assert hashOn ==> hash[..0] == [];
    }
    assert FileBlock(f, hashOn) == head + hash + [""];
  }

  /** The files that still exist, in listing order. */
  function Present(files: seq<FileFacts>): (r: seq<FileFacts>)
    ensures |r| <= |files|
    ensures forall k :: 0 <= k < |r| ==> r[k].present
    ensures forall f :: f in r <==> f in files && f.present
  {
    if files == [] then []
    else Present(files[..|files| - 1]) + (if files[|files| - 1].present then [files[|files| - 1]] else [])
  }

  /** The `foreach` over the downloaded files: a block for every file that still exists. */
  function FilesSection(files: seq<FileFacts>, hashOn: bool): seq<string>
  {
    if files == [] then []
    else
      var last := files[|files| - 1];
      FilesSection(files[..|files| - 1], hashOn) + (if last.present then FileBlock(last, hashOn) else [])
  }

  /**
   * One hash line per existing file when hashing is on, none when it is off;
   * files that vanished since the listing get no block.
   */
  lemma {:induction false} FilesSectionHashes(files: seq<FileFacts>, hashOn: bool)
    ensures HashLines(FilesSection(files, hashOn)) == (if hashOn then |Present(files)| else 0)
    decreases |files|
  {
    if files != [] {
      var last := files[|files| - 1];
      FilesSectionHashes(files[..|files| - 1], hashOn);
      var block := if last.present then FileBlock(last, hashOn) else [];
      HashLinesAppend(FilesSection(files[..|files| - 1], hashOn), block);
      if last.present {
        FileBlockHash(last, hashOn);
      } else {
        assert HashLines(block) == 0;
      }
    }
  }

  /** Everything the report prints, as the environment and the form supply it. */
  datatype ReportInput = ReportInput(
    url: string, hostOf: string -> Option<string>, folder: string,
    generated: string, collected: string, user: string, machine: string, os: string,
    quality: string, subtitles: bool, metadata: bool, timestamp: bool, cookies: bool,
    ytDlpPath: string, files: seq<FileFacts>, hashOn: bool)

  /** `bool.ToString()`. */
  function BoolName(b: bool): string
  {
    if b then "True" else "False"
  }

  /** The title block with the collector's machine. */
  function HeaderSection(r: ReportInput): seq<string>
  {
    ["DIGITAL EVIDENCE COLLECTION REPORT", "==================================",
     "Report Generated: " + r.generated, "Collector: " + r.user, "Computer: " + r.machine,
     "Operating System: " + r.os, ""]
  }

  /** The source URL, its platform label and the evidence folder. */
  function CollectionSection(r: ReportInput): seq<string>
  {
    ["COLLECTION DETAILS:", "Source URL: " + r.url, "Platform: " + Platforms.DetectPlatform(r.url, r.hostOf),
     "Collection Time: " + r.collected, "Evidence Folder: " + r.folder, ""]
  }

  /** The form's options at the time of the report. */
  function SettingsSection(r: ReportInput): seq<string>
  {
    ["COLLECTION SETTINGS:", "- Quality: " + r.quality, "- Subtitles Downloaded: " + BoolName(r.subtitles),
     "- Metadata Saved: " + BoolName(r.metadata), "- Timestamp Added: " + BoolName(r.timestamp),
     "- Browser Cookies Used: " + BoolName(r.cookies), ""]
  }

  /** The tool and version lines. */
  function TechnicalSection(r: ReportInput): seq<string>
  {
    ["TECHNICAL INFORMATION:", "- yt-dlp Path: " + r.ytDlpPath,
     "- Application Version: " + "Multi-Platform Video Downloader v1.0",
     "- Evidence Collected Using Automated Process", ""]
  }

  /**
   * The fixed custody and verification text and the end marker (the longer
   * lines are written in two pieces, which the verifier reads character by
   * character more readily).
   */
  const ClosingSection: seq<string> := [
    "CHAIN OF CUSTODY:", "- Files downloaded directly " + "from source platform",
    "- No modifications made " + "to downloaded content", "- All timestamps in local system time",
    "- Digital chain of custody maintained", "",
    "VERIFICATION:", "To verify file integrity, compare " + "the SHA256 hashes listed above",
    "with independently calculated " + "hashes of the files.", "", "--- END OF REPORT ---"]

  /** The sections before the file blocks, ending with the files heading. */
  function Front(r: ReportInput): seq<string>
  {
    HeaderSection(r) + CollectionSection(r) + ["DOWNLOADED FILES:", "-----------------"]
  }

  /** The sections after the file blocks. */
  function Back(r: ReportInput): seq<string>
  {
    SettingsSection(r) + TechnicalSection(r) + ClosingSection
  }

  /** The report's lines, section after section. */
  function Report(r: ReportInput): seq<string>
  {
    Front(r) + FilesSection(r.files, r.hashOn) + Back(r)
  }

  /** Where the first three headings stand; no line there starts with the hash label. */
  lemma FrontLayout(r: ReportInput)
    ensures var f := Front(r);
      |f| == 15 && f[0] == Headings[0] && f[7] == Headings[1] && f[13] == Headings[2]
    ensures HashLines(Front(r)) == 0
  {
    NoHashLines(Front(r));
  }

  /** The settings block: its heading first, no hash line. */
  lemma SettingsLayout(r: ReportInput)
    ensures var b := SettingsSection(r); |b| == 7 && b[0] == Headings[3] && HashLines(b) == 0
  {
    NoHashLines(SettingsSection(r));
  }

  /** The technical block: its heading first, no hash line. */
  lemma TechnicalLayout(r: ReportInput)
    ensures var b := TechnicalSection(r); |b| == 5 && b[0] == Headings[4] && HashLines(b) == 0
  {
    NoHashLines(TechnicalSection(r));
  }

  /** The closing block: two headings and the end marker, no hash line. */
  lemma ClosingLayout()
    ensures var b := ClosingSection;
      |b| == 11 && b[0] == Headings[5] && b[6] == Headings[6] && b[10] == "--- END OF REPORT ---"
      && HashLines(b) == 0
  {
    NoHashLines(ClosingSection);
  }

  /** Where the last four headings stand; no line there starts with the hash label. */
  lemma BackLayout(r: ReportInput)
    ensures var b := Back(r);
      |b| == 23 && b[0] == Headings[3] && b[7] == Headings[4] && b[12] == Headings[5] && b[18] == Headings[6]
      && b[22] == "--- END OF REPORT ---"
    ensures HashLines(Back(r)) == 0
  {
    var s, t, c := SettingsSection(r), TechnicalSection(r), ClosingSection;
    SettingsLayout(r);
    TechnicalLayout(r);
    ClosingLayout();
    HashLinesAppend(s, t);
    HashLinesAppend(s + t, c);
    var b := Back(r);
    assert b == s + t + c;
    assert b[0] == s[0] && b[7] == t[0] && b[12] == c[0] && b[18] == c[6] && b[22] == c[10];
  }

  /** The section headings, in the order the report prints them. */
  const Headings: seq<string> := [
    "DIGITAL EVIDENCE COLLECTION REPORT", "COLLECTION DETAILS:", "DOWNLOADED FILES:",
    "COLLECTION SETTINGS:", "TECHNICAL INFORMATION:", "CHAIN OF CUSTODY:", "VERIFICATION:"]

  /**
   * The headings stand in the report in their fixed order, at positions that
   * only the number of file lines moves, and the report ends with the end
   * marker.
   */
  lemma ReportSectionOrder(r: ReportInput) returns (pos: seq<nat>)
    ensures |pos| == |Headings|
    ensures forall k :: 0 <= k < |pos| - 1 ==> pos[k] < pos[k + 1]
    ensures forall k :: 0 <= k < |pos| ==> pos[k] < |Report(r)| && Report(r)[pos[k]] == Headings[k]
    ensures Report(r)[|Report(r)| - 1] == "--- END OF REPORT ---"
  {
    FrontLayout(r);
    BackLayout(r);
    pos := PlaceHeadings(Front(r), FilesSection(r.files, r.hashOn), Back(r));
  }

  /** Helper: the heading positions in any file section placed between the two fixed parts. */
  lemma PlaceHeadings(front: seq<string>, files: seq<string>, back: seq<string>) returns (pos: seq<nat>)
    requires |front| == 15 && front[0] == Headings[0] && front[7] == Headings[1] && front[13] == Headings[2]
    requires |back| == 23 && back[0] == Headings[3] && back[7] == Headings[4] && back[12] == Headings[5]
    requires back[18] == Headings[6] && back[22] == "--- END OF REPORT ---"
    ensures |pos| == |Headings|
    ensures forall k :: 0 <= k < |pos| - 1 ==> pos[k] < pos[k + 1]
    ensures forall k :: 0 <= k < |pos| ==> pos[k] < |front + files + back| && (front + files + back)[pos[k]] == Headings[k]
    ensures (front + files + back)[|front + files + back| - 1] == "--- END OF REPORT ---"
  {
    var n := |files|;
    var report := front + files + back;
    pos := [0, 7, 13, 15 + n, 22 + n, 27 + n, 33 + n];
    forall k | 0 <= k < |pos|
      ensures pos[k] < |report| && report[pos[k]] == Headings[k]
    {
      if k >= 3 {
        assert report[pos[k]] == back[pos[k] - 15 - n];
      } else {
        assert report[pos[k]] == front[pos[k]];
      }
    }
    assert report[|report| - 1] == back[22];
  }

  /**
   * The report holds one hash line per downloaded file that still exists
   * when the hash option is on, and none when it is off.
   */
  lemma ReportHashes(r: ReportInput)
    ensures HashLines(Report(r)) == (if r.hashOn then |Present(r.files)| else 0)
  {
    var files := FilesSection(r.files, r.hashOn);
    FrontLayout(r);
    BackLayout(r);
    FilesSectionHashes(r.files, r.hashOn);
    HashLinesAppend(Front(r), files);
    HashLinesAppend(Front(r) + files, Back(r));
  }

  /**
   * What a successful download writes beside the files: the report, only
   * when the report option is on, over the downloads of the folder listing
   * in listing order (`stat` describes each path).
   */
  function SuccessReport(reportOn: bool, listing: seq<string>, stat: string -> FileFacts,
                         base: ReportInput): (r: Option<seq<string>>)
    ensures r.Some? <==> reportOn
  {
    if !reportOn then None
    else Some(Report(base.(files := Described(DownloadedFiles(listing), stat))))
  }

  /** The facts of each path, in order. */
  function Described(paths: seq<string>, stat: string -> FileFacts): (r: seq<FileFacts>)
    ensures |r| == |paths| && forall k :: 0 <= k < |r| ==> r[k] == stat(paths[k])
  {
    seq(|paths|, k requires 0 <= k < |paths| => stat(paths[k]))
  }

  /**
   * Hashes appear only inside the report and only when both the report and
   * the hash options are on; with both on, every download that still exists
   * gets its hash line.
   */
  lemma HashesOnlyInReport(reportOn: bool, listing: seq<string>, stat: string -> FileFacts, base: ReportInput)
    ensures var out := SuccessReport(reportOn, listing, stat, base);
      && (out.Some? && HashLines(out.value) > 0 ==> reportOn && base.hashOn)
      && (out.Some? ==> HashLines(out.value) <= |DownloadedFiles(listing)|)
      && (out.Some? && base.hashOn ==>
            HashLines(out.value) == |Present(Described(DownloadedFiles(listing), stat))|)
  {
    if reportOn {
      ReportHashes(base.(files := Described(DownloadedFiles(listing), stat)));
    }
  }

  /**
   * `GenerateEvidenceReport`'s loop over the files: appends a block for
   * every file that still exists.
   */
  method WriteFilesSection(files: seq<FileFacts>, hashOn: bool) returns (lines: seq<string>)
    ensures lines == FilesSection(files, hashOn)
    ensures HashLines(lines) == (if hashOn then |Present(files)| else 0)
  {
    lines := [];
    for i := 0 to |files|
      invariant lines == FilesSection(files[..i], hashOn)
    {
      assert files[..i + 1][..i] == files[..i];
      if files[i].present {
        lines := lines + FileBlock(files[i], hashOn);
      }
    }
    assert files[..|files|] == files;
    FilesSectionHashes(files, hashOn);
  }
}
