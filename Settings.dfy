/**
 * The settings tab: `SaveSettings` writes sixteen `key=value` lines,
 * `LoadSettings` reads them back into the controls, and `ClearCredentials`
 * empties the login fields and deletes the file. The settings file is a
 * value (`None` when it does not exist); the message boxes are left out.
 */
module Settings {
  import opened Wrappers
  import opened Text
  import opened Vault

  /** The items of the browser drop-down list. */
  const BrowserList: seq<string> := ["Chrome", "Firefox", "Edge", "Brave", "Opera", "Safari", "Chromium", "Vivaldi"]

  /** The items of the quality drop-down list. */
  const QualityList: seq<string> := [
    "Best Quality", "1080p", "720p", "480p", "360p",
    "Audio Only (MP3)", "Audio Only (Best Quality)", "Audio Only (128kbps)", "Audio Only (320kbps)"]

  /** The values of the sixteen controls the settings file covers. */
  datatype FormSettings = FormSettings(
    igUsername: string, igPassword: string,
    fbEmail: string, fbPassword: string,
    liEmail: string, liPassword: string,
    outputDir: string, quality: string,
    subtitles: bool, metadata: bool, timestamp: bool, cookies: bool,
    browser: string,
    screenshot: bool, hash: bool, evidenceReport: bool)

  /** One settings key per control. */
  datatype Key =
    | IgUsername | IgPassword | FbEmail | FbPassword | LiEmail | LiPassword
    | OutputDir | Quality | Subtitles | Metadata | Timestamp | Cookies
    | Browser | Screenshot | Hash | EvidenceReport

  /** The keys in the order the file is written and read. */
  const Keys: seq<Key> := [
    IgUsername, IgPassword, FbEmail, FbPassword, LiEmail, LiPassword,
    OutputDir, Quality, Subtitles, Metadata, Timestamp, Cookies,
    Browser, Screenshot, Hash, EvidenceReport]

  /** The key text written in the file. */
  function KeyName(k: Key): string
  {
    match k
    case IgUsername => "ig_username"
    case IgPassword => "ig_password"
    case FbEmail => "fb_email"
    case FbPassword => "fb_password"
    case LiEmail => "li_email"
    case LiPassword => "li_password"
    case OutputDir => "output_dir"
    case Quality => "quality"
    case Subtitles => "subtitles"
    case Metadata => "metadata"
    case Timestamp => "timestamp"
    case Cookies => "cookies"
    case Browser => "browser"
    case Screenshot => "screenshot"
    case Hash => "hash"
    case EvidenceReport => "evidenceReport"
  }

  /** The key a file line names, if it names one. */
  function KeyOf(name: string): Option<Key>
  {
    match name
    case "ig_username" => Some(IgUsername)
    case "ig_password" => Some(IgPassword)
    case "fb_email" => Some(FbEmail)
    case "fb_password" => Some(FbPassword)
    case "li_email" => Some(LiEmail)
    case "li_password" => Some(LiPassword)
    case "output_dir" => Some(OutputDir)
    case "quality" => Some(Quality)
    case "subtitles" => Some(Subtitles)
    case "metadata" => Some(Metadata)
    case "timestamp" => Some(Timestamp)
    case "cookies" => Some(Cookies)
    case "browser" => Some(Browser)
    case "screenshot" => Some(Screenshot)
    case "hash" => Some(Hash)
    case "evidenceReport" => Some(EvidenceReport)
    case _ => None
  }

  /** Every key text names its key back, so key texts are distinct. */
  lemma KeyOfName(k: Key)
    ensures KeyOf(KeyName(k)) == Some(k)
  {
  }

  /** Key texts are distinct. */
  lemma KeyNameInjective(k: Key, l: Key)
    ensures KeyName(k) == KeyName(l) ==> k == l
  {
    KeyOfName(k);
    KeyOfName(l);
  }

  /** A character of a key text: an ASCII letter or `_`. */
  predicate IsKeyChar(ch: char)
  {
    ('a' <= ch <= 'z') || ('A' <= ch <= 'Z') || ch == '_'
  }

  /** A key text holds no `=` nor line break. */
  lemma KeyNameChars(k: Key)
    ensures '=' !in KeyName(k) && SingleLine(KeyName(k))
  {
    if IsBoolKey(k) {
      CheckKeyNameChars(k);
    } else {
      TextKeyNameChars(k);
    }
    assert forall i :: 0 <= i < |KeyName(k)| ==> KeyName(k)[i] != '=';
  }

  /** Helper: the check box key texts are made of key characters. */
  lemma CheckKeyNameChars(k: Key)
    requires IsBoolKey(k)
    ensures forall i :: 0 <= i < |KeyName(k)| ==> IsKeyChar(KeyName(k)[i])
  {
    match k {
      case Subtitles => case Metadata => case Timestamp => case Cookies =>
      case Screenshot => case Hash => case EvidenceReport =>
    }
  }

  /** Helper: the text, password and list key texts are made of key characters. */
  lemma TextKeyNameChars(k: Key)
    requires !IsBoolKey(k)
    ensures forall i :: 0 <= i < |KeyName(k)| ==> IsKeyChar(KeyName(k)[i])
  {
    match k {
      case IgUsername => case IgPassword => case FbEmail => case FbPassword =>
      case LiEmail => case LiPassword => case OutputDir => case Quality => case Browser =>
    }
  }

  /** Every key is listed exactly once. */
  lemma KeysCover(k: Key)
    ensures k in Keys
    ensures forall p, q :: 0 <= p < q < |Keys| ==> Keys[p] != Keys[q]
  {
  }

  /** The keys whose control is a check box, read back with `bool.Parse`. */
  predicate IsBoolKey(k: Key)
  {
    k.Subtitles? || k.Metadata? || k.Timestamp? || k.Cookies? || k.Screenshot? || k.Hash? || k.EvidenceReport?
  }

  /** `bool.ToString()`. */
  function BoolText(b: bool): string
  {
    if b then "True" else "False"
  }

  /** `bool.Parse`: "true" or "false" in any ASCII case, white space and NUL around it allowed. */
  function ParseBool(s: string): (r: Option<bool>)
    ensures r.Some? ==> |s| >= 4
  {
    var t := ToLower(TrimBy(s, c => IsWhiteSpace(c) || c == '\0'));
    if t == "true" then Some(true)
    else if t == "false" then Some(false)
    else None
  }

  /** `bool.Parse` reads back what `bool.ToString()` wrote, and rejects the empty string. */
  lemma ParseBoolText(b: bool)
    ensures ParseBool(BoolText(b)) == Some(b)
    ensures ParseBool("") == None
  {
    var s := BoolText(b);
    TrimByUnchanged(s, c => IsWhiteSpace(c) || c == '\0');
  }

  /** The text written for one key: passwords go through `EncryptString`. */
  function SavedValue(c: Crypto, f: FormSettings, k: Key): string
  {
    match k
    case IgUsername => f.igUsername
    case IgPassword => EncryptString(c, f.igPassword)
    case FbEmail => f.fbEmail
    case FbPassword => EncryptString(c, f.fbPassword)
    case LiEmail => f.liEmail
    case LiPassword => EncryptString(c, f.liPassword)
    case OutputDir => f.outputDir
    case Quality => f.quality
    case Subtitles => BoolText(f.subtitles)
    case Metadata => BoolText(f.metadata)
    case Timestamp => BoolText(f.timestamp)
    case Cookies => BoolText(f.cookies)
    case Browser => f.browser
    case Screenshot => BoolText(f.screenshot)
    case Hash => BoolText(f.hash)
    case EvidenceReport => BoolText(f.evidenceReport)
  }

  /** The line `WriteLine` produces for one entry, without its line break. */
  function EntryLine(c: Crypto, f: FormSettings, k: Key): string
  {
    KeyName(k) + "=" + SavedValue(c, f, k)
  }

  /** The lines of the file, one per key in key order. */
  function SavedLines(c: Crypto, f: FormSettings): (r: seq<string>)
    ensures |r| == |Keys|
    ensures forall i :: 0 <= i < |Keys| ==> r[i] == EntryLine(c, f, Keys[i])
  {
    seq(|Keys|, i requires 0 <= i < |Keys| => EntryLine(c, f, Keys[i]))
  }

  /** Lines each ended by `\r\n`, as `StreamWriter.WriteLine` writes them. */
  function WriteLines(lines: seq<string>): string
  {
    if lines == [] then "" else lines[0] + "\r\n" + WriteLines(lines[1..])
  }

  /** A line break character. */
  predicate IsLineBreak(ch: char)
  {
    ch == '\r' || ch == '\n'
  }

  /** Text with no line break in it. */
  predicate SingleLine(s: string)
  {
    forall i :: 0 <= i < |s| ==> !IsLineBreak(s[i])
  }

  /** The index of the first line break, or the length when there is none. */
  function LineEnd(text: string): (n: nat)
    ensures n <= |text|
    ensures SingleLine(text[..n])
    ensures n < |text| ==> IsLineBreak(text[n])
  {
    if text == [] || IsLineBreak(text[0]) then 0
    else
      var n := 1 + LineEnd(text[1..]);
      assert forall i :: 1 <= i < n ==> text[..n][i] == text[1..][..n - 1][i - 1];
      n
  }

  /**
   * `File.ReadAllLines`: a line ends at `\r\n`, `\n` or `\r`; text after the
   * last break is a final line, and a break at the very end adds no empty line.
   */
  function ReadAllLines(text: string): (r: seq<string>)
    ensures forall i :: 0 <= i < |r| ==> SingleLine(r[i])
    decreases |text|
  {
    if text == [] then []
    else
      var n := LineEnd(text);
      if n == |text| then [text]
      else
        var rest := if text[n] == '\r' && n + 1 < |text| && text[n + 1] == '\n' then text[n + 2..] else text[n + 1..];
        [text[..n]] + ReadAllLines(rest)
  }

  /** Reading back lines written with `\r\n` endings gives the same lines when none holds a break. */
  lemma {:induction false} ReadWritten(lines: seq<string>)
    requires forall i :: 0 <= i < |lines| ==> SingleLine(lines[i])
    ensures ReadAllLines(WriteLines(lines)) == lines
  {
    if lines != [] {
      ReadFirstLine(lines[0], WriteLines(lines[1..]));
      ReadWritten(lines[1..]);
      assert lines == [lines[0]] + lines[1..];
    }
  }

  /** Helper: a line without breaks, ended by `\r\n`, is read as one line. */
  lemma ReadFirstLine(l: string, rest: string)
    requires SingleLine(l)
    ensures ReadAllLines(l + "\r\n" + rest) == [l] + ReadAllLines(rest)
  {
    var text := l + "\r\n" + rest;
    assert forall i :: 0 <= i < |l| ==> text[i] == l[i];
    LineEndAt(text, |l|);
    assert text[..|l|] == l;
    assert text[|l| + 2..] == rest;
  }

  /** Helper: the first break is at `n` when none comes before and one is there. */
  lemma {:induction false} LineEndAt(text: string, n: nat)
    requires n < |text| && IsLineBreak(text[n])
    requires forall i :: 0 <= i < n ==> !IsLineBreak(text[i])
    ensures LineEnd(text) == n
    decreases n
  {
    if n > 0 {
      LineEndAt(text[1..], n - 1);
    }
  }

  /** `line.Split('=', 2)` with two parts: the text before the first `=` and all after it. */
  function SplitAtFirst(line: string): (r: Option<(string, string)>)
    ensures r.None? <==> '=' !in line
    ensures r.Some? ==> '=' !in r.value.0 && line == r.value.0 + "=" + r.value.1
  {
    var i := IndexOf(line, '=');
    if i < 0 then None
    else
      assert line == line[..i] + "=" + line[i + 1..];
      Some((line[..i], line[i + 1..]))
  }

  /** A key without `=` comes back whole, and the value keeps any `=` it holds. */
  lemma SplitJoin(k: string, v: string)
    requires '=' !in k
    ensures SplitAtFirst(k + "=" + v) == Some((k, v))
  {
    var line := k + "=" + v;
    assert line[..|k|] == k;
    assert line[|k| + 1..] == v;
    IndexOfAt(line, '=', |k|);
  }

  /** Helper: the first occurrence is at `j` when `c` is there and not before. */
  lemma IndexOfAt(s: string, c: char, j: nat)
    requires j < |s| && s[j] == c && c !in s[..j]
    ensures IndexOf(s, c) == j
  {
  }

  /** The dictionary `LoadSettings` builds: lines without `=` are skipped, a later key overrides. */
  function ParseEntries(lines: seq<string>): map<string, string>
  {
    if lines == [] then map[]
    else
      var m := ParseEntries(lines[..|lines| - 1]);
      match SplitAtFirst(lines[|lines| - 1])
      case None => m
      case Some(kv) => m[kv.0 := kv.1]
  }

  /** Some line of `lines` splits to key `k`. */
  predicate NamesKey(lines: seq<string>, j: int, k: string)
  {
    0 <= j < |lines| && SplitAtFirst(lines[j]).Some? && SplitAtFirst(lines[j]).value.0 == k
  }

  /**
   * The dictionary holds a key exactly when some line splits to it, and its
   * value comes from the last such line.
   */
  lemma ParseEntriesLookup(lines: seq<string>, k: string)
    ensures k in ParseEntries(lines) <==> exists j :: NamesKey(lines, j, k)
    ensures forall j :: NamesKey(lines, j, k) && (forall q :: j < q < |lines| ==> !NamesKey(lines, q, k))
             ==> ParseEntries(lines)[k] == SplitAtFirst(lines[j]).value.1
  {
    ParseEntriesHas(lines, k);
    forall j | NamesKey(lines, j, k) && (forall q :: j < q < |lines| ==> !NamesKey(lines, q, k))
      ensures ParseEntries(lines)[k] == SplitAtFirst(lines[j]).value.1
    {
      ParseEntriesLast(lines, k, j);
    }
  }

  /** Helper: the dictionary holds the keys some line splits to. */
  lemma {:induction false} ParseEntriesHas(lines: seq<string>, k: string)
    ensures k in ParseEntries(lines) <==> exists j :: NamesKey(lines, j, k)
  {
    if lines != [] {
      var last := |lines| - 1;
      var init := lines[..last];
      ParseEntriesHas(init, k);
      ParseEntriesStep(lines, k);
      NamesKeyInit(lines, init, k);
    }
  }

  /** Helper: a line naming the key is the last line or a line before it. */
  lemma NamesKeyInit(lines: seq<string>, init: seq<string>, k: string)
    requires lines != [] && init == lines[..|lines| - 1]
    ensures (exists j :: NamesKey(lines, j, k)) <==> (exists j :: NamesKey(init, j, k)) || NamesKey(lines, |lines| - 1, k)
  {
    if exists j :: NamesKey(lines, j, k) {
      var j :| NamesKey(lines, j, k);
      if j < |lines| - 1 {
        assert NamesKey(init, j, k);
      }
    }
    if exists j :: NamesKey(init, j, k) {
      var j :| NamesKey(init, j, k);
      assert NamesKey(lines, j, k);
    }
  }

  /** Helper: the last line adds its own key to what the lines before it hold. */
  lemma ParseEntriesStep(lines: seq<string>, k: string)
    requires lines != []
    ensures k in ParseEntries(lines) <==> k in ParseEntries(lines[..|lines| - 1]) || NamesKey(lines, |lines| - 1, k)
  {
  }

  /** Helper: the value comes from the last line naming the key. */
  lemma {:induction false} ParseEntriesLast(lines: seq<string>, k: string, j: int)
    requires NamesKey(lines, j, k) && forall q :: j < q < |lines| ==> !NamesKey(lines, q, k)
    ensures k in ParseEntries(lines) && ParseEntries(lines)[k] == SplitAtFirst(lines[j]).value.1
  {
    var init := lines[..|lines| - 1];
    if j < |lines| - 1 {
      assert NamesKey(init, j, k);
      forall q | j < q < |init| ensures !NamesKey(init, q, k) {
        assert !NamesKey(lines, q, k);
      }
      ParseEntriesLast(init, k, j);
      assert !NamesKey(lines, |lines| - 1, k);
    }
  }

  /**
   * One `if (settings.ContainsKey(key))` step: text boxes take the value,
   * passwords its decryption, the drop-down lists only one of their items,
   * and check boxes `bool.Parse` of it, which fails with `None`.
   */
  function ApplyKey(c: Crypto, k: Key, value: string, f: FormSettings): (r: Option<FormSettings>)
    ensures r.None? <==> IsBoolKey(k) && ParseBool(value).None?
  {
    if IsBoolKey(k) then
      match ParseBool(value)
      case None => None
      case Some(b) => Some(SetCheck(f, k, b))
    else Some(SetText(c, f, k, value))
  }

  /** A check box takes a parsed value. */
  function SetCheck(f: FormSettings, k: Key, b: bool): FormSettings
    requires IsBoolKey(k)
  {
    match k
    case Subtitles => f.(subtitles := b)
    case Metadata => f.(metadata := b)
    case Timestamp => f.(timestamp := b)
    case Cookies => f.(cookies := b)
    case Screenshot => f.(screenshot := b)
    case Hash => f.(hash := b)
    case EvidenceReport => f.(evidenceReport := b)
  }

  /**
   * A text box takes the value, a password box its decryption, a drop-down
   * list the value only when it is one of its items.
   */
  function SetText(c: Crypto, f: FormSettings, k: Key, value: string): FormSettings
    requires !IsBoolKey(k)
  {
    match k
    case IgUsername => f.(igUsername := value)
    case IgPassword => f.(igPassword := DecryptString(c, value))
    case FbEmail => f.(fbEmail := value)
    case FbPassword => f.(fbPassword := DecryptString(c, value))
    case LiEmail => f.(liEmail := value)
    case LiPassword => f.(liPassword := DecryptString(c, value))
    case OutputDir => f.(outputDir := value)
    case Quality => if value in QualityList then f.(quality := value) else f
    case Browser => if value in BrowserList then f.(browser := value) else f
  }

  /** The value behind key `k` matches between two settings. */
  predicate Agrees(g: FormSettings, f: FormSettings, k: Key)
  {
    match k
    case IgUsername => g.igUsername == f.igUsername
    case IgPassword => g.igPassword == f.igPassword
    case FbEmail => g.fbEmail == f.fbEmail
    case FbPassword => g.fbPassword == f.fbPassword
    case LiEmail => g.liEmail == f.liEmail
    case LiPassword => g.liPassword == f.liPassword
    case OutputDir => g.outputDir == f.outputDir
    case Quality => g.quality == f.quality
    case Subtitles => g.subtitles == f.subtitles
    case Metadata => g.metadata == f.metadata
    case Timestamp => g.timestamp == f.timestamp
    case Cookies => g.cookies == f.cookies
    case Browser => g.browser == f.browser
    case Screenshot => g.screenshot == f.screenshot
    case Hash => g.hash == f.hash
    case EvidenceReport => g.evidenceReport == f.evidenceReport
  }

  /** Applying one key changes no field of another key. */
  lemma ApplyKeyFrame(c: Crypto, k: Key, value: string, f: FormSettings, l: Key)
    requires ApplyKey(c, k, value, f).Some? && l != k
    ensures Agrees(ApplyKey(c, k, value, f).value, f, l)
  {
    if IsBoolKey(k) {
      SetCheckFrame(f, k, ParseBool(value).value, l);
    } else {
      SetTextFrame(c, f, k, value, l);
    }
  }

  /** Helper: a check box assignment changes no other key's field. */
  lemma SetCheckFrame(f: FormSettings, k: Key, b: bool, l: Key)
    requires IsBoolKey(k) && l != k
    ensures Agrees(SetCheck(f, k, b), f, l)
  {
  }

  /** Helper: a text assignment changes no other key's field. */
  lemma SetTextFrame(c: Crypto, f: FormSettings, k: Key, value: string, l: Key)
    requires !IsBoolKey(k) && l != k
    ensures Agrees(SetText(c, f, k, value), f, l)
  {
  }

  /** Settings that agree on every key are equal. */
  lemma AgreeAll(g: FormSettings, f: FormSettings)
    requires forall k :: Agrees(g, f, k)
    ensures g == f
  {
    assert Agrees(g, f, IgUsername) && Agrees(g, f, IgPassword) && Agrees(g, f, FbEmail) && Agrees(g, f, FbPassword);
    assert Agrees(g, f, LiEmail) && Agrees(g, f, LiPassword) && Agrees(g, f, OutputDir) && Agrees(g, f, Quality);
    assert Agrees(g, f, Subtitles) && Agrees(g, f, Metadata) && Agrees(g, f, Timestamp) && Agrees(g, f, Cookies);
    assert Agrees(g, f, Browser) && Agrees(g, f, Screenshot) && Agrees(g, f, Hash) && Agrees(g, f, EvidenceReport);
  }

  /**
   * The key-by-key part of `LoadSettings` from position `i` of the key
   * order: absent keys are skipped, and the first failing `bool.Parse` stops
   * it with the fields applied so far kept. The flag says whether all of it ran.
   */
  function ApplyFrom(c: Crypto, m: map<string, string>, f: FormSettings, i: nat): (FormSettings, bool)
    decreases |Keys| - i
  {
    if i >= |Keys| then (f, true)
    else if KeyName(Keys[i]) !in m then ApplyFrom(c, m, f, i + 1)
    else
      match ApplyKey(c, Keys[i], m[KeyName(Keys[i])], f)
      case None => (f, false)
      case Some(g) => ApplyFrom(c, m, g, i + 1)
  }

  /** The result of one load: no file, all applied, or stopped by a bad `bool`. */
  datatype LoadStatus = NoFile | Loaded | BadBool

  /** `LoadSettings` as a function of the file (`None` when it does not exist) and the current fields. */
  function LoadSpec(c: Crypto, f: FormSettings, file: Option<string>): (FormSettings, LoadStatus)
  {
    match file
    case None => (f, NoFile)
    case Some(text) =>
      var (g, ok) := ApplyFrom(c, ParseEntries(ReadAllLines(text)), f, 0);
      (g, if ok then Loaded else BadBool)
  }

  /** The text `SaveSettings` writes. */
  function SavedText(c: Crypto, f: FormSettings): string
  {
    WriteLines(SavedLines(c, f))
  }

  /** The drop-down lists hold one of their items. */
  predicate ValidForm(f: FormSettings)
  {
    f.quality in QualityList && f.browser in BrowserList
  }

  /**
   * Settings the file can carry: no text field holds a line break, and each
   * non-empty password is one that `Protect` accepts.
   */
  predicate Saveable(c: Crypto, f: FormSettings)
  {
    && ValidForm(f)
    && SingleLine(f.igUsername) && SingleLine(f.fbEmail) && SingleLine(f.liEmail) && SingleLine(f.outputDir)
    && (f.igPassword == "" || Protected(c, f.igPassword))
    && (f.fbPassword == "" || Protected(c, f.fbPassword))
    && (f.liPassword == "" || Protected(c, f.liPassword))
  }

  /** Loading never leaves a drop-down list on a value that is not one of its items. */
  lemma ApplyKeepsValid(c: Crypto, m: map<string, string>, f: FormSettings, i: nat)
    requires ValidForm(f)
    ensures ValidForm(ApplyFrom(c, m, f, i).0)
    decreases |Keys| - i
  {
    if i < |Keys| && KeyName(Keys[i]) in m {
      var r := ApplyKey(c, Keys[i], m[KeyName(Keys[i])], f);
      if r.Some? {
        ApplyKeyValid(c, Keys[i], m[KeyName(Keys[i])], f);
        ApplyKeepsValid(c, m, r.value, i + 1);
      }
    } else if i < |Keys| {
      ApplyKeepsValid(c, m, f, i + 1);
    }
  }

  /** Helper: one step keeps the drop-down lists on their items. */
  lemma ApplyKeyValid(c: Crypto, k: Key, value: string, f: FormSettings)
    requires ValidForm(f) && ApplyKey(c, k, value, f).Some?
    ensures ValidForm(ApplyKey(c, k, value, f).value)
  {
  }

  /** A saved value read back by its own key restores the field it came from. */
  lemma ApplySaved(c: Crypto, f: FormSettings, k: Key, g: FormSettings)
    requires Lawful(c) && Saveable(c, f)
    ensures ApplyKey(c, k, SavedValue(c, f, k), g).Some?
    ensures Agrees(ApplyKey(c, k, SavedValue(c, f, k), g).value, f, k)
  {
    if IsBoolKey(k) {
      SavedCheckRestores(c, f, k, g);
    } else {
      SavedTextRestores(c, f, k, g);
      assert ApplyKey(c, k, SavedValue(c, f, k), g) == Some(SetText(c, g, k, SavedValue(c, f, k)));
    }
  }

  /** Helper: a saved check box value parses back to the box's value. */
  lemma SavedCheckRestores(c: Crypto, f: FormSettings, k: Key, g: FormSettings)
    requires IsBoolKey(k)
    ensures ApplyKey(c, k, SavedValue(c, f, k), g) == Some(SetCheck(g, k, CheckValue(f, k)))
  {
    var b := CheckValue(f, k);
    SavedCheckText(c, f, k);
    ParseBoolText(b);
  }

  /** Helper: a check box is saved as `bool.ToString()` of its value. */
  lemma SavedCheckText(c: Crypto, f: FormSettings, k: Key)
    requires IsBoolKey(k)
    ensures SavedValue(c, f, k) == BoolText(CheckValue(f, k))
  {
    match k {
      case Subtitles =>
      case Metadata =>
      case Timestamp =>
      case Cookies =>
      case Screenshot =>
      case Hash =>
      case EvidenceReport =>
    }
  }

  /** Helper: the value of a check box key. */
  function CheckValue(f: FormSettings, k: Key): (b: bool)
    requires IsBoolKey(k)
    ensures Agrees(SetCheck(f, k, b), f, k)
  {
    match k
    case Subtitles => f.subtitles
    case Metadata => f.metadata
    case Timestamp => f.timestamp
    case Cookies => f.cookies
    case Screenshot => f.screenshot
    case Hash => f.hash
    case EvidenceReport => f.evidenceReport
  }

  /** Helper: a saved text, password or list value restores its field. */
  lemma SavedTextRestores(c: Crypto, f: FormSettings, k: Key, g: FormSettings)
    requires Lawful(c) && Saveable(c, f) && !IsBoolKey(k)
    ensures Agrees(SetText(c, g, k, SavedValue(c, f, k)), f, k)
  {
    match k {
      case IgPassword => DecryptAfterEncrypt(c, f.igPassword);
      case FbPassword => DecryptAfterEncrypt(c, f.fbPassword);
      case LiPassword => DecryptAfterEncrypt(c, f.liPassword);
      case _ =>
    }
  }

  /** A concatenation has no line break exactly when neither part has one. */
  lemma SingleLineConcat(a: string, b: string)
    ensures SingleLine(a + b) <==> SingleLine(a) && SingleLine(b)
  {
    assert forall i :: 0 <= i < |a| ==> a[i] == (a + b)[i];
    assert forall i :: 0 <= i < |b| ==> b[i] == (a + b)[|a| + i];
    assert forall i :: |a| <= i < |a + b| ==> (a + b)[i] == b[i - |a|];
  }

  /** Helper: text whose characters all come from a list of single-line strings' characters. */
  lemma ListItemsSingle(v: string)
    requires v in QualityList || v in BrowserList
    ensures SingleLine(v)
  {
    if v in QualityList {
      QualityItemsSingle(v);
    } else {
      BrowserItemsSingle(v);
    }
  }

  /** Helper: the quality items. */
  lemma QualityItemsSingle(v: string)
    requires v in QualityList
    ensures SingleLine(v)
  {
    var i :| 0 <= i < |QualityList| && QualityList[i] == v;
    if i < 5 {
    } else {
    }
  }

  /** Helper: the browser items. */
  lemma BrowserItemsSingle(v: string)
    requires v in BrowserList
    ensures SingleLine(v)
  {
  }

  /** A stored password is Base64 text, so it holds no line break. */
  lemma StoredPasswordSingle(c: Crypto, p: string)
    requires Lawful(c) && (p == "" || Protected(c, p))
    ensures SingleLine(EncryptString(c, p))
  {
    EncryptShape(c, p);
    var e := EncryptString(c, p);
    forall i | 0 <= i < |e| ensures !IsLineBreak(e[i]) {
      assert IsBase64Char(e[i]);
    }
  }

  /** Every saved line is a single line. */
  lemma SavedLineSingle(c: Crypto, f: FormSettings, k: Key)
    requires Lawful(c) && Saveable(c, f)
    ensures SingleLine(EntryLine(c, f, k))
  {
    KeyNameChars(k);
    var v := SavedValue(c, f, k);
    assert SingleLine(v) by {
      match k {
        case IgPassword => StoredPasswordSingle(c, f.igPassword);
        case FbPassword => StoredPasswordSingle(c, f.fbPassword);
        case LiPassword => StoredPasswordSingle(c, f.liPassword);
        case Quality => ListItemsSingle(v);
        case Browser => ListItemsSingle(v);
        case _ =>
      }
    }
    SingleLineConcat(KeyName(k), "=");
    SingleLineConcat(KeyName(k) + "=", v);
  }

  /** Agreement on a key carries over from one setting to the next. */
  lemma AgreesTrans(a: FormSettings, b: FormSettings, f: FormSettings, k: Key)
    requires Agrees(a, b, k) && Agrees(b, f, k)
    ensures Agrees(a, f, k)
  {
  }

  /** The position of each key in the key order. */
  lemma KeyPosition(k: Key) returns (p: nat)
    ensures p < |Keys| && Keys[p] == k
    ensures forall q :: 0 <= q < |Keys| && q != p ==> KeyName(Keys[q]) != KeyName(k)
  {
    KeysCover(k);
    p :| 0 <= p < |Keys| && Keys[p] == k;
    forall q | 0 <= q < |Keys| && q != p
      ensures KeyName(Keys[q]) != KeyName(k)
    {
      KeyNameInjective(Keys[q], k);
    }
  }

  /** Every key appears in the dictionary read from a saved file, with the saved text. */
  lemma SavedEntry(c: Crypto, f: FormSettings, k: Key)
    ensures KeyName(k) in ParseEntries(SavedLines(c, f))
    ensures ParseEntries(SavedLines(c, f))[KeyName(k)] == SavedValue(c, f, k)
  {
    var lines := SavedLines(c, f);
    forall q | 0 <= q < |lines|
      ensures SplitAtFirst(lines[q]) == Some((KeyName(Keys[q]), SavedValue(c, f, Keys[q])))
    {
      KeyNameChars(Keys[q]);
      SplitJoin(KeyName(Keys[q]), SavedValue(c, f, Keys[q]));
    }
    var p := KeyPosition(k);
    ParseEntriesLookup(lines, KeyName(k));
  }

  /**
   * With every key present at its saved value, the key-by-key steps from
   * position `i` complete and restore the saved settings, given that the
   * keys before `i` already hold their saved values.
   */
  lemma {:induction false} ApplyAllSaved(c: Crypto, m: map<string, string>, f: FormSettings, g: FormSettings, i: nat)
    requires Lawful(c) && Saveable(c, f)
    requires forall k :: KeyName(k) in m && m[KeyName(k)] == SavedValue(c, f, k)
    requires i <= |Keys|
    requires forall p :: 0 <= p < i ==> Agrees(g, f, Keys[p])
    ensures ApplyFrom(c, m, g, i) == (f, true)
    decreases |Keys| - i
  {
    if i == |Keys| {
      AllKeysAgree(g, f);
    } else {
      var k := Keys[i];
      assert KeyName(k) in m && m[KeyName(k)] == SavedValue(c, f, k);
      var g' := SavedStep(c, f, g, i);
      ApplyAllSaved(c, m, f, g', i + 1);
    }
  }

  /** Helper: one saved key applied on top of the keys before it. */
  lemma SavedStep(c: Crypto, f: FormSettings, g: FormSettings, i: nat) returns (g': FormSettings)
    requires Lawful(c) && Saveable(c, f)
    requires i < |Keys|
    requires forall p :: 0 <= p < i ==> Agrees(g, f, Keys[p])
    ensures ApplyKey(c, Keys[i], SavedValue(c, f, Keys[i]), g) == Some(g')
    ensures forall p :: 0 <= p < i + 1 ==> Agrees(g', f, Keys[p])
  {
    var k := Keys[i];
    ApplySaved(c, f, k, g);
    g' := ApplyKey(c, k, SavedValue(c, f, k), g).value;
    forall p | 0 <= p < i + 1
      ensures Agrees(g', f, Keys[p])
    {
      if p < i {
        KeysCover(k);
        ApplyKeyFrame(c, k, SavedValue(c, f, k), g, Keys[p]);
        AgreesTrans(g', g, f, Keys[p]);
      }
    }
  }

  /** Helper: agreement on every listed key is equality. */
  lemma AllKeysAgree(g: FormSettings, f: FormSettings)
    requires forall p :: 0 <= p < |Keys| ==> Agrees(g, f, Keys[p])
    ensures g == f
  {
    forall k ensures Agrees(g, f, k) {
      var p := KeyPosition(k);
    }
    AgreeAll(g, f);
  }

  /**
   * Loading the file that saving wrote restores every field, whatever the
   * controls held before, as long as no text field holds a line break and
   * each password was protected.
   */
  lemma LoadAfterSave(c: Crypto, f: FormSettings, before: FormSettings)
    requires Lawful(c) && Saveable(c, f)
    ensures LoadSpec(c, before, Some(SavedText(c, f))) == (f, Loaded)
  {
    var lines := SavedLines(c, f);
    forall i | 0 <= i < |lines| ensures SingleLine(lines[i]) {
      SavedLineSingle(c, f, Keys[i]);
    }
    ReadWritten(lines);
    var m := ParseEntries(lines);
    forall k ensures KeyName(k) in m && m[KeyName(k)] == SavedValue(c, f, k) {
      SavedEntry(c, f, k);
    }
    ApplyAllSaved(c, m, f, before, 0);
  }

  /** Keys from position `j` on. */
  function KeysFrom(j: nat): set<string>
  {
    set p | j <= p < |Keys| :: KeyName(Keys[p])
  }

  /** The dictionary cut down to the keys before position `j`. */
  function Before(m: map<string, string>, j: nat): (r: map<string, string>)
    ensures forall k :: k in r <==> k in m && k !in KeysFrom(j)
  {
    map k | k in m && k !in KeysFrom(j) :: m[k]
  }

  /**
   * `b` holds the keys of `m` before position `j`, with their values, and
   * none from `j` on.
   */
  predicate CutAt(m: map<string, string>, b: map<string, string>, j: nat)
    requires j <= |Keys|
  {
    && (forall p :: 0 <= p < j ==> (KeyName(Keys[p]) in b <==> KeyName(Keys[p]) in m))
    && (forall p :: 0 <= p < j && KeyName(Keys[p]) in b && KeyName(Keys[p]) in m ==> b[KeyName(Keys[p])] == m[KeyName(Keys[p])])
    && (forall p :: j <= p < |Keys| ==> KeyName(Keys[p]) !in b)
  }

  /** Helper: the cut-down dictionary is `m` cut at `j`. */
  lemma BeforeCuts(m: map<string, string>, j: nat)
    requires j <= |Keys|
    ensures CutAt(m, Before(m, j), j)
  {
    forall p | 0 <= p < j
      ensures KeyName(Keys[p]) !in KeysFrom(j)
    {
      EarlierKeyKept(p, j);
    }
    BeforeDropsRest(m, j);
  }

  /** Helper: the cut-down dictionary holds no key from position `j` on. */
  lemma BeforeDropsRest(m: map<string, string>, j: nat)
    ensures forall p :: j <= p < |Keys| ==> KeyName(Keys[p]) !in Before(m, j)
  {
    forall p | j <= p < |Keys| ensures KeyName(Keys[p]) !in Before(m, j) {
      assert KeyName(Keys[p]) in KeysFrom(j);
    }
  }

  /** Helper: a key before position `j` is not among the keys from `j` on. */
  lemma EarlierKeyKept(i: nat, j: nat)
    requires i < j <= |Keys|
    ensures KeyName(Keys[i]) !in KeysFrom(j)
  {
    var p := KeyPosition(Keys[i]);
  }

  /** With no key left from position `i`, the remaining steps change nothing. */
  lemma {:induction false} NoKeysLeft(c: Crypto, m: map<string, string>, f: FormSettings, i: nat)
    requires forall p :: i <= p < |Keys| ==> KeyName(Keys[p]) !in m
    ensures ApplyFrom(c, m, f, i) == (f, true)
    decreases |Keys| - i
  {
    if i < |Keys| {
      NoKeysLeft(c, m, f, i + 1);
    }
  }

  /**
   * A check box value that `bool.Parse` rejects at position `j` stops the
   * load there: the fields end up as the load of the keys before `j` alone
   * leaves them, which runs to its end, so the earlier keys stay applied and
   * none of the later ones is.
   */
  lemma BadBoolStops(c: Crypto, m: map<string, string>, f: FormSettings, i: nat, j: nat)
    requires i <= j < |Keys| && Unparsable(m, j)
    requires forall p :: i <= p < j ==> !Unparsable(m, p)
    ensures ApplyFrom(c, m, f, i) == (ApplyFrom(c, Before(m, j), f, i).0, false)
    ensures ApplyFrom(c, Before(m, j), f, i).1
  {
    BeforeCuts(m, j);
    StopsWithCut(c, m, Before(m, j), f, i, j);
  }

  /** Helper: `BadBoolStops` for any dictionary that is `m` cut at `j`. */
  lemma {:induction false} StopsWithCut(c: Crypto, m: map<string, string>, b: map<string, string>, f: FormSettings, i: nat, j: nat)
    requires i <= j < |Keys| && Unparsable(m, j) && CutAt(m, b, j)
    requires forall p :: i <= p < j ==> !Unparsable(m, p)
    ensures ApplyFrom(c, m, f, i) == (ApplyFrom(c, b, f, i).0, false)
    ensures ApplyFrom(c, b, f, i).1
    decreases j - i
  {
    if i == j {
      StopsAt(c, m, b, f, j);
    } else {
      var g := StepAt(c, m, f, i);
      StepBefore(c, m, b, f, i, j);
      StopsWithCut(c, m, b, g, i + 1, j);
    }
  }

  /** Helper: a present check box value that does not parse stops the load there. */
  lemma StopsAt(c: Crypto, m: map<string, string>, b: map<string, string>, f: FormSettings, j: nat)
    requires j < |Keys| && Unparsable(m, j) && CutAt(m, b, j)
    ensures ApplyFrom(c, m, f, j) == (f, false)
    ensures ApplyFrom(c, b, f, j) == (f, true)
  {
    assert ApplyKey(c, Keys[j], m[KeyName(Keys[j])], f).None?;
    NoKeysLeft(c, b, f, j);
  }

  /** Helper: the fields after the step at position `i` when it applies. */
  function StepAt(c: Crypto, m: map<string, string>, f: FormSettings, i: nat): FormSettings
    requires i < |Keys|
  {
    var name := KeyName(Keys[i]);
    if name in m && ApplyKey(c, Keys[i], m[name], f).Some? then ApplyKey(c, Keys[i], m[name], f).value else f
  }

  /**
   * Helper: before position `j` the whole dictionary and one cut at `j`
   * take the same step, which applies.
   */
  lemma StepBefore(c: Crypto, m: map<string, string>, b: map<string, string>, f: FormSettings, i: nat, j: nat)
    requires i < j <= |Keys| && !Unparsable(m, i) && CutAt(m, b, j)
    ensures ApplyFrom(c, m, f, i) == ApplyFrom(c, m, StepAt(c, m, f, i), i + 1)
    ensures ApplyFrom(c, b, f, i) == ApplyFrom(c, b, StepAt(c, m, f, i), i + 1)
  {
    if KeyName(Keys[i]) in m {
      SameStep(c, m, b, f, i);
    }
  }

  /**
   * Helper: two dictionaries holding the same value for key `i`, which
   * applies, both take the same step there.
   */
  lemma SameStep(c: Crypto, m: map<string, string>, b: map<string, string>, f: FormSettings, i: nat)
    requires i < |Keys| && KeyName(Keys[i]) in m && KeyName(Keys[i]) in b
    requires b[KeyName(Keys[i])] == m[KeyName(Keys[i])]
    requires ApplyKey(c, Keys[i], m[KeyName(Keys[i])], f).Some?
    ensures var g := ApplyKey(c, Keys[i], m[KeyName(Keys[i])], f).value;
      ApplyFrom(c, m, f, i) == ApplyFrom(c, m, g, i + 1) && ApplyFrom(c, b, f, i) == ApplyFrom(c, b, g, i + 1)
  {
  }


  /** The load stops early exactly when some present check box value does not parse. */
  lemma {:induction false} LoadStopsIff(c: Crypto, m: map<string, string>, f: FormSettings, i: nat)
    ensures !ApplyFrom(c, m, f, i).1 <==> exists p :: i <= p < |Keys| && Unparsable(m, p)
    decreases |Keys| - i
  {
    if i < |Keys| {
      var name := KeyName(Keys[i]);
      var next := if name in m && ApplyKey(c, Keys[i], m[name], f).Some? then ApplyKey(c, Keys[i], m[name], f).value else f;
      if name in m && ApplyKey(c, Keys[i], m[name], f).None? {
        assert Unparsable(m, i);
        assert !ApplyFrom(c, m, f, i).1;
      } else {
        assert !Unparsable(m, i);
        assert ApplyFrom(c, m, f, i) == ApplyFrom(c, m, next, i + 1);
        LoadStopsIff(c, m, next, i + 1);
        ExistsFromNext(m, i);
      }
    }
  }

  /** Helper: with no unparsable value at `i`, searching from `i` is searching from `i + 1`. */
  lemma ExistsFromNext(m: map<string, string>, i: nat)
    requires i < |Keys| && !Unparsable(m, i)
    ensures (exists p :: i <= p < |Keys| && Unparsable(m, p)) <==> (exists p :: i + 1 <= p < |Keys| && Unparsable(m, p))
  {
  }

  /** The check box value at position `p` is present and `bool.Parse` rejects it. */
  predicate Unparsable(m: map<string, string>, p: nat)
    requires p < |Keys|
  {
    KeyName(Keys[p]) in m && IsBoolKey(Keys[p]) && ParseBool(m[KeyName(Keys[p])]).None?
  }

  /** A key missing from the file leaves its field as it was. */
  lemma {:induction false} AbsentKeyKept(c: Crypto, m: map<string, string>, f: FormSettings, i: nat, k: Key)
    requires KeyName(k) !in m
    ensures Agrees(ApplyFrom(c, m, f, i).0, f, k)
    decreases |Keys| - i
  {
    if i < |Keys| && KeyName(Keys[i]) in m {
      var r := ApplyKey(c, Keys[i], m[KeyName(Keys[i])], f);
      if r.Some? {
        ApplyKeyFrame(c, Keys[i], m[KeyName(Keys[i])], f, k);
        AbsentKeyKept(c, m, r.value, i + 1, k);
        AgreesTrans(ApplyFrom(c, m, f, i).0, r.value, f, k);
      }
    } else if i < |Keys| {
      AbsentKeyKept(c, m, f, i + 1, k);
    }
  }

  /** Writing one more line appends it with its `\r\n`. */
  lemma {:induction false} WriteLinesAppend(lines: seq<string>, l: string)
    ensures WriteLines(lines + [l]) == WriteLines(lines) + l + "\r\n"
  {
    if lines != [] {
      assert (lines + [l])[1..] == lines[1..] + [l];
      WriteLinesAppend(lines[1..], l);
    } else {
      assert WriteLines([l]) == l + "\r\n" + WriteLines([]);
    }
  }

  /** The controls of the settings tab that the settings file covers. */
  class SettingsPanel {
    var igUsername: string
    var igPassword: string
    var fbEmail: string
    var fbPassword: string
    var liEmail: string
    var liPassword: string
    var outputDir: string
    var quality: string
    var subtitles: bool
    var metadata: bool
    var timestamp: bool
    var cookies: bool
    var browser: string
    var screenshot: bool
    var hash: bool
    var evidenceReport: bool

    /** The values the controls hold. */
    function Snapshot(): FormSettings
      reads this
    {
      FormSettings(igUsername, igPassword, fbEmail, fbPassword, liEmail, liPassword, outputDir, quality,
                   subtitles, metadata, timestamp, cookies, browser, screenshot, hash, evidenceReport)
    }

    /** The drop-down lists show one of their items. */
    predicate Valid()
      reads this
    {
      ValidForm(Snapshot())
    }

    /**
     * The controls as the form builds them: empty logins, the first quality
     * and browser items, the three evidence options checked, and the output
     * folder under the user profile.
     */
    constructor(defaultOutputDir: string)
      ensures Valid()
      ensures Snapshot() == FormSettings("", "", "", "", "", "", defaultOutputDir, "Best Quality",
                                         false, false, false, false, "Chrome", true, true, true)
    {
      igUsername, igPassword, fbEmail, fbPassword, liEmail, liPassword := "", "", "", "", "", "";
      outputDir, quality := defaultOutputDir, "Best Quality";
      subtitles, metadata, timestamp, cookies := false, false, false, false;
      browser := "Chrome";
      screenshot, hash, evidenceReport := true, true, true;
    }

    /** `SaveSettings`: the text written to the settings file, one `key=value` line per key. */
    method SaveSettings(c: Crypto) returns (text: string)
      ensures text == SavedText(c, Snapshot())
    {
      var f := Snapshot();
      var lines := SavedLines(c, f);
      text := "";
      for i := 0 to |Keys|
        invariant text == WriteLines(lines[..i])
      {
        var k := Keys[i];
        var line := KeyName(k) + "=" + SavedValue(c, f, k);
        assert line == lines[i];
        assert lines[..i + 1] == lines[..i] + [line];
        WriteLinesAppend(lines[..i], line);
        text := text + line + "\r\n";
      }
      assert lines[..|Keys|] == lines;
    }

    /**
     * `LoadSettings`: nothing happens without a file; otherwise the lines
     * are read into a dictionary and the keys applied in order until a
     * check box value fails to parse.
     */
    method LoadSettings(c: Crypto, file: Option<string>) returns (status: LoadStatus)
      requires Valid()
      modifies this
      ensures Valid()
      ensures (Snapshot(), status) == LoadSpec(c, old(Snapshot()), file)
    {
      if file.None? {
        return NoFile;
      }
      var lines := ReadAllLines(file.value);
      var settings: map<string, string> := map[];
      for i := 0 to |lines|
        invariant settings == ParseEntries(lines[..i])
      {
        assert lines[..i + 1][..i] == lines[..i];
        match SplitAtFirst(lines[i]) {
          case Some(kv) => settings := settings[kv.0 := kv.1];
          case None =>
        }
      }
      assert lines[..|lines|] == lines;
      ghost var start := Snapshot();
      ApplyKeepsValid(c, settings, start, 0);
      for i := 0 to |Keys|
        invariant Valid()
        invariant ApplyFrom(c, settings, start, 0) == ApplyFrom(c, settings, Snapshot(), i)
      {
        var name := KeyName(Keys[i]);
        if name in settings {
          var ok := ApplyEntry(c, Keys[i], settings[name]);
          if !ok {
            return BadBool;
          }
        }
      }
      return Loaded;
    }

    /** One `if (settings.ContainsKey(key))` step of `LoadSettings`. */
    method ApplyEntry(c: Crypto, k: Key, value: string) returns (ok: bool)
      requires Valid()
      modifies this
      ensures Valid()
      ensures ok == ApplyKey(c, k, value, old(Snapshot())).Some?
      ensures ok ==> Snapshot() == ApplyKey(c, k, value, old(Snapshot())).value
      ensures !ok ==> Snapshot() == old(Snapshot())
    {
      if IsBoolKey(k) {
        var b := ParseBool(value);
        if b.None? {
          return false;
        }
        SetCheckBox(k, b.value);
      } else {
        SetTextBox(c, k, value);
      }
      ApplyKeyValid(c, k, value, old(Snapshot()));
      ok := true;
    }

    /** A check box assignment. */
    method SetCheckBox(k: Key, b: bool)
      requires IsBoolKey(k)
      modifies this
      ensures Snapshot() == SetCheck(old(Snapshot()), k, b)
    {
      if k.Subtitles? || k.Metadata? || k.Timestamp? || k.Cookies? {
        SetDownloadOption(k, b);
      } else {
        SetEvidenceOption(k, b);
      }
    }

    /** A check box of the download options. */
    method SetDownloadOption(k: Key, b: bool)
      requires k.Subtitles? || k.Metadata? || k.Timestamp? || k.Cookies?
      modifies this
      ensures Snapshot() == SetCheck(old(Snapshot()), k, b)
    {
      ghost var after := SetCheck(Snapshot(), k, b);
      match k {
        case Subtitles => subtitles := b;
        case Metadata => metadata := b;
        case Timestamp => timestamp := b;
        case Cookies => cookies := b;
      }
      assert Snapshot() == after;
    }

    /** A check box of the evidence options. */
    method SetEvidenceOption(k: Key, b: bool)
      requires k.Screenshot? || k.Hash? || k.EvidenceReport?
      modifies this
      ensures Snapshot() == SetCheck(old(Snapshot()), k, b)
    {
      ghost var after := SetCheck(Snapshot(), k, b);
      match k {
        case Screenshot => screenshot := b;
        case Hash => hash := b;
        case EvidenceReport => evidenceReport := b;
      }
      assert Snapshot() == after;
    }

    /** A text, password or drop-down list assignment. */
    method SetTextBox(c: Crypto, k: Key, value: string)
      requires !IsBoolKey(k)
      modifies this
      ensures Snapshot() == SetText(c, old(Snapshot()), k, value)
    {
      if k.IgUsername? || k.FbEmail? || k.LiEmail? {
        SetLogin(c, k, value);
      } else if k.IgPassword? || k.FbPassword? || k.LiPassword? {
        SetPassword(c, k, value);
      } else {
        SetDownloadText(c, k, value);
      }
    }

    /** A user name or e-mail box takes the value. */
    method SetLogin(c: Crypto, k: Key, value: string)
      requires k.IgUsername? || k.FbEmail? || k.LiEmail?
      modifies this
      ensures Snapshot() == SetText(c, old(Snapshot()), k, value)
    {
      ghost var after := SetText(c, Snapshot(), k, value);
      match k {
        case IgUsername => igUsername := value;
        case FbEmail => fbEmail := value;
        case LiEmail => liEmail := value;
      }
      assert Snapshot() == after;
    }

    /** A password box takes the decryption of the value. */
    method SetPassword(c: Crypto, k: Key, value: string)
      requires k.IgPassword? || k.FbPassword? || k.LiPassword?
      modifies this
      ensures Snapshot() == SetText(c, old(Snapshot()), k, value)
    {
      ghost var after := SetText(c, Snapshot(), k, value);
      var plain := DecryptString(c, value);
      match k {
        case IgPassword => igPassword := plain;
        case FbPassword => fbPassword := plain;
        case LiPassword => liPassword := plain;
      }
      assert Snapshot() == after;
    }

    /** The output folder takes the value; a drop-down list only one of its items. */
    method SetDownloadText(c: Crypto, k: Key, value: string)
      requires k.OutputDir? || k.Quality? || k.Browser?
      modifies this
      ensures Snapshot() == SetText(c, old(Snapshot()), k, value)
    {
      ghost var after := SetText(c, Snapshot(), k, value);
      match k {
        case OutputDir => outputDir := value;
        case Quality => if value in QualityList { quality := value; }
        case Browser => if value in BrowserList { browser := value; }
      }
      assert Snapshot() == after;
    }

    /**
     * `ClearCredentials`: once confirmed, the six login fields are emptied
     * and the settings file is deleted; the other controls keep their values.
     */
    method ClearCredentials(confirmed: bool, file: Option<string>) returns (after: Option<string>)
      requires Valid()
      modifies this
      ensures Valid()
      ensures !confirmed ==> after == file && Snapshot() == old(Snapshot())
      ensures confirmed ==> after.None? && Snapshot() == old(Snapshot()).(
        igUsername := "", igPassword := "", fbEmail := "", fbPassword := "", liEmail := "", liPassword := "")
    {
      after := file;
      if confirmed {
        igUsername, igPassword := "", "";
        fbEmail, fbPassword := "", "";
        liEmail, liPassword := "", "";
        after := None;
      }
    }
  }
}
