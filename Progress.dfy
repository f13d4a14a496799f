/**
 * How the download tab reacts to yt-dlp's output (`ProcessYtDlpOutput`, the
 * stdout/stderr handlers of `RunYtDlp` and `AddToLog`). The clock reading
 * that prefixes a log line is a parameter, and `double.TryParse` is a
 * parameter `parse` returning the parsed number or `None`.
 */
module Progress {
  import opened Wrappers
  import opened Text

  /** The progress bar value, the status label text and the log lines. */
  datatype View = View(progress: int, status: string, log: seq<string>)

  /**
   * Handling a line either completes, or stops at the progress bar setter,
   * which throws for a negative value; the line is logged in both cases.
   */
  datatype Outcome = Shown(view: View) | BarFault(view: View)

  /** A progress bar value the control accepts. */
  predicate InRange(progress: int)
  {
    0 <= progress <= 100
  }

  /** One line of the log text box: the `HH:mm:ss` time in brackets, then the message. */
  function LogLine(time: string, message: string): (r: string)
    ensures EndsWith(r, message) && StartsWith(r, "[" + time + "] ")
  {
    var r := "[" + time + "] " + message;
    assert r[|r| - |message|..] == message;
    assert r[..|"[" + time + "] "|] == "[" + time + "] ";
    r
  }

  /** `AddToLog`: appends one line and leaves the bar and the status alone. */
  function AddToLog(view: View, time: string, message: string): (r: View)
    ensures r.progress == view.progress && r.status == view.status
    ensures |r.log| == |view.log| + 1 && r.log[..|view.log|] == view.log
    ensures EndsWith(r.log[|view.log|], message)
  {
    view.(log := view.log + [LogLine(time, message)])
  }

  /**
   * The text between the first space and the first `%`, trimmed; `None`
   * unless the first space is after the first character and before the
   * first `%`.
   */
  function PercentToken(line: string): (r: Option<string>)
    ensures r.Some? <==> ' ' in line && '%' in line && line[0] != ' ' && IndexOf(line, ' ') < IndexOf(line, '%')
  {
    var s := IndexOf(line, ' ');
    var e := IndexOf(line, '%');
    if 0 < s && s < e then Some(Trim(line[s..e])) else None
  }

  /**
   * The token holds no `%`, does not start with a space and is a piece of
   * the line.
   */
  lemma TokenInLine(line: string)
    requires PercentToken(line).Some?
    ensures var t := PercentToken(line).value;
      '%' !in t && (|t| > 0 ==> t[0] != ' ') && Contains(line, t)
  {
    var s := IndexOf(line, ' ');
    var e := IndexOf(line, '%');
    var slice := line[s..e];
    var lead := LeadingCount(slice, IsWhiteSpace);
    var t := TrimBy(slice, IsWhiteSpace);
    assert t == slice[lead..][..|t|];
    PieceOfSlice(line, s, e, lead, t);
    PieceLacks(line, e, s + lead, |t|, '%');
    OccursImpliesContains(line, t, s + lead);
  }

  /**
   * `t` is the text of `line` between indexes `s` and `e` less the white
   * space at both of its ends: a slice of the line, with nothing but white
   * space between it and either index.
   */
  predicate TrimmedBetween(line: string, s: int, e: int, t: string)
  {
    && 0 <= s <= e <= |line|
    && var lead := LeadingCount(line[s..e], IsWhiteSpace);
      && s + lead + |t| <= e && t == line[s + lead..s + lead + |t|]
      && (forall k :: s <= k < s + lead ==> IsWhiteSpace(line[k]))
      && (forall k :: s + lead + |t| <= k < e ==> IsWhiteSpace(line[k]))
  }

  /**
   * The token is the text from the first space up to the first `%`, less
   * the white space at both of its ends.
   */
  lemma TokenIsTrimmedSlice(line: string)
    requires PercentToken(line).Some?
    ensures 0 < IndexOf(line, ' ') < IndexOf(line, '%') < |line|
    ensures TrimmedBetween(line, IndexOf(line, ' '), IndexOf(line, '%'), PercentToken(line).value)
  {
    TokenMarks(line);
    TokenIsTrim(line);
    TrimmedPiece(line, IndexOf(line, ' '), IndexOf(line, '%'), PercentToken(line).value);
  }

  /** Helper: trimming the text between two indexes gives the text trimmed between them. */
  lemma TrimmedPiece(line: string, s: nat, e: nat, t: string)
    requires s <= e <= |line| && t == Trim(line[s..e])
    ensures TrimmedBetween(line, s, e, t)
  {
    var slice := line[s..e];
    var lead := LeadingCount(slice, IsWhiteSpace);
    assert t == slice[lead..][..|t|];
    PieceOfSlice(line, s, e, lead, t);
    TrimByMargins(line, s, e, IsWhiteSpace);
  }

  /** Helper: a line with a token has its first space after the start and before its first `%`. */
  lemma TokenMarks(line: string)
    requires PercentToken(line).Some?
    ensures 0 < IndexOf(line, ' ') < IndexOf(line, '%') < |line|
  {
  }

  /** Helper: the token is the trimmed text between the two marks. */
  lemma TokenIsTrim(line: string)
    requires PercentToken(line).Some?
    requires 0 < IndexOf(line, ' ') < IndexOf(line, '%') < |line|
    ensures PercentToken(line).value == Trim(line[IndexOf(line, ' ')..IndexOf(line, '%')])
  {
  }

  /** Helper: a character absent before index `e` is absent from every piece before it. */
  lemma PieceLacks(a: string, e: nat, i: nat, n: nat, ch: char)
    requires i + n <= e <= |a| && ch !in a[..e]
    ensures ch !in a[i..i + n]
  {
    assert a[i..i + n] == a[..e][i..i + n];
  }

  /** The C# `(int)` cast of a real number: truncation toward zero. */
  function Truncate(x: real): (r: int)
    ensures x >= 0.0 ==> 0 <= r && r as real <= x < r as real + 1.0
    ensures x < 0.0 ==> r <= 0 && r as real - 1.0 < x <= r as real
  {
    if x >= 0.0 then x.Floor else -((-x).Floor)
  }

  /** `(int)Math.Min(percent, 100)`. */
  function Percent(v: real): (r: int)
    ensures r <= 100
    ensures v >= 100.0 ==> r == 100
    ensures v < 100.0 ==> Truncate(v) == r
    ensures r < 0 <==> v <= -1.0
  {
    Truncate(if v < 100.0 then v else 100.0)
  }

  /** The number `ProcessYtDlpOutput` reads from a line, when it reads one. */
  function ParsedPercent(line: string, parse: string -> Option<real>): Option<real>
  {
    if Contains(line, "[download]") && Contains(line, "%") then
      match PercentToken(line)
      case None => None
      case Some(token) => parse(token)
    else None
  }

  /** `ProcessYtDlpOutput`: log the line, maybe move the bar, maybe show the line as status. */
  function ProcessOutputLine(view: View, time: string, line: string, parse: string -> Option<real>): Outcome
  {
    var logged := AddToLog(view, time, line);
    var parsed := ParsedPercent(line, parse);
    if parsed.Some? && Percent(parsed.value) < 0 then BarFault(logged)
    else
      var progress := if parsed.Some? then Percent(parsed.value) else view.progress;
      var status := if Contains(line, "ETA") then line else view.status;
      Shown(View(progress, status, logged.log))
  }

  /** The stdout handler: empty lines are dropped, every other line is processed. */
  function OnOutput(view: View, time: string, data: string, parse: string -> Option<real>): Outcome
  {
    if data == "" then Shown(view) else ProcessOutputLine(view, time, data, parse)
  }

  /** The stderr handler: non-empty lines are logged with an `Error: ` prefix. */
  function OnError(view: View, time: string, data: string): (r: View)
    ensures data == "" ==> r == view
    ensures data != "" ==> r == AddToLog(view, time, "Error: " + data)
  {
    if data == "" then view else AddToLog(view, time, "Error: " + data)
  }

  /** Every line is logged, whatever else happens. */
  lemma AlwaysLogged(view: View, time: string, line: string, parse: string -> Option<real>)
    ensures ProcessOutputLine(view, time, line, parse).view.log == view.log + [LogLine(time, line)]
  {
  }

  /**
   * The bar moves exactly when the line contains `[download]` and `%`, its
   * first space comes after the first character and before the first `%`,
   * and the trimmed text between them parses; it then shows the number capped
   * at 100 and truncated. Otherwise the bar keeps its value.
   */
  lemma ProgressRule(view: View, time: string, line: string, parse: string -> Option<real>)
    ensures var out := ProcessOutputLine(view, time, line, parse);
      var readable := Contains(line, "[download]") && Contains(line, "%") && PercentToken(line).Some?
                      && parse(PercentToken(line).value).Some?;
      && (readable && Percent(parse(PercentToken(line).value).value) >= 0 ==>
            out.Shown? && out.view.progress == Percent(parse(PercentToken(line).value).value))
      && (!readable ==> out.Shown? && out.view.progress == view.progress)
  {
  }

  /** The line becomes the status exactly when it contains `ETA` (and the bar setter did not throw). */
  lemma StatusRule(view: View, time: string, line: string, parse: string -> Option<real>)
    ensures var out := ProcessOutputLine(view, time, line, parse);
      out.Shown? ==> (out.view.status == (if Contains(line, "ETA") then line else view.status))
  {
  }

  /**
   * The setter throws only for a number at or below -1: a bar in range stays
   * in range after every completed line.
   */
  lemma BarStaysInRange(view: View, time: string, line: string, parse: string -> Option<real>)
    ensures var out := ProcessOutputLine(view, time, line, parse);
      && (InRange(view.progress) && out.Shown? ==> InRange(out.view.progress))
      && (out.BarFault? <==> ParsedPercent(line, parse).Some? && ParsedPercent(line, parse).value <= -1.0)
      && (out.BarFault? ==> out.view.progress == view.progress && out.view.status == view.status)
  {
  }

  /** The log lines a stream of stdout events adds: one per non-empty line, in order. */
  function LoggedLines(events: seq<(string, string)>): seq<string>
    decreases |events|
  {
    if events == [] then []
    else (if events[0].1 == "" then [] else [LogLine(events[0].0, events[0].1)]) + LoggedLines(events[1..])
  }

  /**
   * A stream of stdout lines, each handled by its own `BeginInvoke` callback
   * with its own clock reading. A callback whose bar assignment throws has
   * already logged its line and leaves bar and status alone; the callbacks
   * of the later lines still run.
   */
  function Replay(view: View, events: seq<(string, string)>, parse: string -> Option<real>): (r: View)
    ensures r.log == view.log + LoggedLines(events)
    ensures InRange(view.progress) ==> InRange(r.progress)
    decreases |events|
  {
    if events == [] then view
    else
      var v := OnOutput(view, events[0].0, events[0].1, parse).view;
      OneCallback(view, events[0].0, events[0].1, parse);
      var head := if events[0].1 == "" then [] else [LogLine(events[0].0, events[0].1)];
      assert LoggedLines(events) == head + LoggedLines(events[1..]);
      assert v.log == view.log + head;
      Replay(v, events[1..], parse)
  }

  /** Helper: one stdout callback logs a non-empty line and keeps the bar in range, fault or not. */
  lemma OneCallback(view: View, time: string, data: string, parse: string -> Option<real>)
    ensures var v := OnOutput(view, time, data, parse).view;
      && v.log == view.log + (if data == "" then [] else [LogLine(time, data)])
      && (InRange(view.progress) ==> InRange(v.progress))
  {
    if data != "" {
      BarStaysInRange(view, time, data, parse);
      AlwaysLogged(view, time, data, parse);
    }
  }

  /** The callbacks are independent: a stream is replayed piece after piece. */
  lemma {:induction false} ReplayAppend(view: View, a: seq<(string, string)>, b: seq<(string, string)>,
                                        parse: string -> Option<real>)
    ensures Replay(view, a + b, parse) == Replay(Replay(view, a, parse), b, parse)
    decreases |a|
  {
    if a == [] {
      assert a + b == b;
    } else {
      assert (a + b)[0] == a[0];
      assert (a + b)[1..] == a[1..] + b;
      ReplayAppend(OnOutput(view, a[0].0, a[0].1, parse).view, a[1..], b, parse);
    }
  }

  /** Lines carrying no readable progress leave the bar where it was. */
  lemma {:induction false} QuietLinesKeepBar(view: View, events: seq<(string, string)>, parse: string -> Option<real>)
    requires forall k :: 0 <= k < |events| ==> ParsedPercent(events[k].1, parse).None?
    ensures Replay(view, events, parse).progress == view.progress
    decreases |events|
  {
    if events != [] {
      var v := OnOutput(view, events[0].0, events[0].1, parse).view;
      assert ParsedPercent(events[0].1, parse).None?;
      assert forall k :: 0 <= k < |events[1..]| ==> events[1..][k] == events[k + 1];
      QuietLinesKeepBar(v, events[1..], parse);
    }
  }
}
