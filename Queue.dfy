/**
 * The download queue: `AddToQueueButton_Click`, `AddToQueue`, `ProcessQueue`,
 * the clear-queue button and the history row `AddToHistory` adds.
 *
 * The download itself is the environment's: `run(j)` is how the `j`-th job
 * ends (yt-dlp's exit code, or the missing-binary exception),
 * `evidenceFolder(j)` and `clock(j)` are its folder and completion time, and
 * `awaits[k]` are the clicks and keystrokes that happen while the drain
 * waits for the `k`-th time (a download or the pause between two jobs).
 */
module Queue {
  import opened Wrappers
  import opened Text

  /** One row of the history grid. */
  datatype HistoryEntry = HistoryEntry(time: string, host: string, fileName: string, status: string, location: string)

  /** How a download ends: yt-dlp exited with a code, or `yt-dlp.exe` was not found. */
  datatype JobOutcome = Exited(code: int) | BinaryMissing

  /** What the user can do while the drain waits. */
  datatype UserAction = TypeUrl(text: string) | AddClick | ClearClick

  /** What the drain did, in order: a download started, or the pause between two jobs. */
  datatype Event = Job(url: string) | Pause

  datatype Env = Env(
    hostOf: string -> Option<string>,
    run: nat -> JobOutcome,
    evidenceFolder: nat -> string,
    clock: nat -> string,
    awaits: seq<seq<UserAction>>)

  /**
   * Which text the history row is built from: the URL box when the download
   * ends (as the source does), or the URL of the job itself.
   */
  datatype HistoryUrl = UrlBox | JobUrl

  /**
   * The pending URLs, the processing flag, the URL box, the history rows,
   * what the drain did, and how many jobs and waits have been used up.
   */
  datatype QueueState = QueueState(
    pending: seq<string>, processing: bool, urlText: string,
    history: seq<HistoryEntry>, trace: seq<Event>, jobs: nat, slot: nat)

  /** The user actions of wait number `k`; none once the schedule is used up. */
  function SlotActions(env: Env, k: nat): seq<UserAction>
  {
    if k < |env.awaits| then env.awaits[k] else []
  }

  /**
   * A user action while the drain runs: typing replaces the URL box, the
   * add button appends a non-blank URL box and clears it (without starting
   * a second drain), the clear button empties the pending URLs.
   */
  function React(s: QueueState, a: UserAction): (r: QueueState)
    ensures r.history == s.history && r.trace == s.trace && r.processing == s.processing
    ensures r.jobs == s.jobs && r.slot == s.slot
    ensures |r.pending| <= |s.pending| + 1
  {
    match a
    case TypeUrl(t) => s.(urlText := t)
    case ClearClick => s.(pending := [])
    case AddClick =>
      if IsBlank(s.urlText) then s
      else s.(pending := s.pending + [s.urlText], urlText := "")
  }

  /** The actions of one wait, in order. */
  function ReactAll(s: QueueState, actions: seq<UserAction>): (r: QueueState)
    ensures r.history == s.history && r.trace == s.trace && r.processing == s.processing
    ensures r.jobs == s.jobs && r.slot == s.slot
    ensures |r.pending| <= |s.pending| + |actions|
    ensures actions == [] ==> r == s
    decreases |actions|
  {
    if actions == [] then s else ReactAll(React(s, actions[0]), actions[1..])
  }

  /** The row `AddToHistory` adds for a job that exited with `code`, given the host of the recorded URL. */
  function Entry(env: Env, j: nat, host: string, code: int): (e: HistoryEntry)
    ensures code == 0 ==> e.status == "Success" && e.location == env.evidenceFolder(j)
    ensures code != 0 ==> e.status == "Failed" && e.location == "" && e.fileName == ""
    ensures EndsWith(e.location, e.fileName)
    ensures e.host == host && e.time == env.clock(j)
  {
    var location := if code == 0 then env.evidenceFolder(j) else "";
    HistoryEntry(env.clock(j), host, FileName(location), if code == 0 then "Success" else "Failed", location)
  }

  /** Where one pass of the drain loop ends: an exception, or the next test of the loop condition. */
  datatype Step = Halted(state: QueueState) | Next(state: QueueState)

  /**
   * The start of a pass: dequeue, show the URL and download it while the
   * user acts. `clearBox` is the add button's `urlTextBox.Clear()`, which
   * runs once the first download awaits.
   */
  function StartJob(env: Env, s: QueueState, clearBox: bool): (r: QueueState)
    requires s.pending != []
    ensures r.slot == s.slot + 1 && r.jobs == s.jobs + 1 && r.processing == s.processing
    ensures r.history == s.history && r.trace == s.trace + [Job(s.pending[0])]
    ensures |r.pending| <= |s.pending| - 1 + |SlotActions(env, s.slot)|
    ensures SlotActions(env, s.slot) == [] ==>
      r.pending == s.pending[1..] && r.urlText == (if clearBox then "" else s.pending[0])
  {
    var url := s.pending[0];
    var started := s.(pending := s.pending[1..], urlText := if clearBox then "" else url,
                      trace := s.trace + [Job(url)], jobs := s.jobs + 1);
    ReactAll(started, SlotActions(env, s.slot)).(slot := s.slot + 1)
  }

  /** The three-second pause between two jobs, while the user acts. */
  function PauseStep(env: Env, s: QueueState): (r: QueueState)
    ensures r.slot == s.slot + 1 && r.jobs == s.jobs && r.processing == s.processing
    ensures r.history == s.history && r.trace == s.trace + [Pause]
    ensures |r.pending| <= |s.pending| + |SlotActions(env, s.slot)|
    ensures SlotActions(env, s.slot) == [] ==> r.pending == s.pending && r.urlText == s.urlText
  {
    ReactAll(s.(trace := s.trace + [Pause]), SlotActions(env, s.slot)).(slot := s.slot + 1)
  }

  /**
   * One pass of the `while` loop of `ProcessQueue`: the download, the
   * history row, and the pause when more URLs are pending. A missing binary,
   * or a recorded URL that `new Uri` rejects, throws out of the drain.
   */
  function JobStep(env: Env, s: QueueState, mode: HistoryUrl, clearBox: bool): (r: Step)
    requires s.pending != []
    ensures r.state.slot > s.slot && r.state.jobs == s.jobs + 1 && r.state.processing == s.processing
    ensures s.slot >= |env.awaits| ==> |r.state.pending| < |s.pending|
    ensures |s.history| <= |r.state.history| <= |s.history| + 1 && r.state.history[..|s.history|] == s.history
    ensures r.Halted? ==> r.state.history == s.history
  {
    var s2 := StartJob(env, s, clearBox);
    match env.run(s.jobs)
    case BinaryMissing => Halted(s2)
    case Exited(code) =>
      var recorded := if mode == UrlBox then s2.urlText else s.pending[0];
      match env.hostOf(recorded)
      case None => Halted(s2)
      case Some(host) =>
        var s3 := s2.(history := s2.history + [Entry(env, s.jobs, host, code)]);
        assert s3.history[..|s.history|] == s.history;
        if s3.pending == [] then Next(s3) else Next(PauseStep(env, s3))
  }

  /**
   * The `while` loop of `ProcessQueue` and what follows it: passes until the
   * queue is empty, then the flag is cleared; an exception leaves it set.
   */
  function Drain(env: Env, s: QueueState, mode: HistoryUrl, clearBox: bool): (r: QueueState)
    requires s.processing
    ensures r.slot >= s.slot && r.jobs >= s.jobs
    ensures |r.history| >= |s.history| && r.history[..|s.history|] == s.history
    ensures !r.processing ==> r.pending == []
    decreases (if s.slot < |env.awaits| then |env.awaits| - s.slot else 0), |s.pending|
  {
    if s.pending == [] then s.(processing := false)
    else
      match JobStep(env, s, mode, clearBox)
      case Halted(t) => t
      case Next(t) =>
        var r := Drain(env, t, mode, false);
        assert r.history[..|s.history|] == r.history[..|t.history|][..|s.history|];
        r
  }

  /**
   * `AddToQueueButton_Click`: a blank URL box changes nothing; otherwise its
   * text is queued, and when no drain is running one starts. The box is
   * cleared, within the first download when the click started the drain.
   */
  function Click(env: Env, s: QueueState, mode: HistoryUrl): QueueState
  {
    if IsBlank(s.urlText) then s
    else
      var queued := s.(pending := s.pending + [s.urlText]);
      if s.processing then queued.(urlText := "")
      else Drain(env, queued.(processing := true), mode, true)
  }

  /** No user action happens in waits `k` up to the end of the schedule. */
  predicate QuietFrom(env: Env, k: nat)
  {
    forall i :: k <= i < |env.awaits| ==> env.awaits[i] == []
  }

  /** Every job ends with an exit code and the URL it records parses. */
  predicate AllRecorded(env: Env, urls: seq<string>)
  {
    forall j :: 0 <= j < |urls| ==> env.hostOf(urls[j]).Some?
  }

  /** The jobs of a trace, in order. */
  function JobUrls(t: seq<Event>): (r: seq<string>)
    ensures |r| <= |t|
  {
    if t == [] then []
    else (if t[0].Job? then [t[0].url] else []) + JobUrls(t[1..])
  }

  /** The job list of a concatenation. */
  lemma {:induction false} JobUrlsAppend(a: seq<Event>, b: seq<Event>)
    ensures JobUrls(a + b) == JobUrls(a) + JobUrls(b)
  {
    if a != [] {
      assert (a + b)[1..] == a[1..] + b;
      JobUrlsAppend(a[1..], b);
    } else {
      assert a + b == b;
    }
  }

  /** Every pause comes straight after a download. */
  predicate PausesFollowJobs(t: seq<Event>)
  {
    forall i :: 0 <= i < |t| && t[i].Pause? ==> i > 0 && t[i - 1].Job?
  }

  /** A pass adds its download to the trace, then maybe the pause. */
  lemma JobStepTrace(env: Env, s: QueueState, mode: HistoryUrl, clearBox: bool)
    requires s.pending != []
    ensures var t := JobStep(env, s, mode, clearBox).state.trace;
      t == s.trace + [Job(s.pending[0])] || t == s.trace + [Job(s.pending[0]), Pause]
  {
    var s2 := StartJob(env, s, clearBox);
    if JobStep(env, s, mode, clearBox).state.trace != s2.trace {
      assert JobStep(env, s, mode, clearBox).state.trace == s2.trace + [Pause];
    }
  }

  /** A download, with or without a pause after it, keeps pauses behind downloads. */
  lemma PausesAfterJob(t: seq<Event>, u: seq<Event>, url: string)
    requires PausesFollowJobs(t)
    requires u == t + [Job(url)] || u == t + [Job(url), Pause]
    ensures PausesFollowJobs(u)
  {
  }

  /**
   * The drain keeps every pause straight after a download: the three-second
   * delay only ever follows a job.
   */
  lemma {:induction false} DrainPausesFollowJobs(env: Env, s: QueueState, mode: HistoryUrl, clearBox: bool)
    requires s.processing && PausesFollowJobs(s.trace)
    ensures PausesFollowJobs(Drain(env, s, mode, clearBox).trace)
    decreases (if s.slot < |env.awaits| then |env.awaits| - s.slot else 0), |s.pending|
  {
    if s.pending != [] {
      var step := JobStep(env, s, mode, clearBox);
      StepPausesFollowJobs(env, s, mode, clearBox);
      if step.Next? {
        DrainNext(env, s, mode, clearBox);
        DrainPausesFollowJobs(env, step.state, mode, false);
      } else {
        assert Drain(env, s, mode, clearBox) == step.state;
      }
    }
  }

  /** Helper: one pass keeps every pause straight after a download. */
  lemma StepPausesFollowJobs(env: Env, s: QueueState, mode: HistoryUrl, clearBox: bool)
    requires s.pending != [] && PausesFollowJobs(s.trace)
    ensures PausesFollowJobs(JobStep(env, s, mode, clearBox).state.trace)
  {
    JobStepTrace(env, s, mode, clearBox);
    PausesAfterJob(s.trace, JobStep(env, s, mode, clearBox).state.trace, s.pending[0]);
  }

  /** The URLs downloaded so far, then those still pending: the queue order. */
  function Order(s: QueueState): seq<string>
  {
    JobUrls(s.trace) + s.pending
  }

  /** Nobody presses the clear button in waits `k` up to the end of the schedule. */
  predicate NoClearFrom(env: Env, k: nat)
  {
    forall i :: k <= i < |env.awaits| ==> ClearClick !in env.awaits[i]
  }

  /** Any action but the clear button keeps the pending URLs, adding at most one behind them. */
  lemma ReactKeepsPending(s: QueueState, a: UserAction)
    requires a != ClearClick
    ensures s.pending <= React(s, a).pending
  {
    if a.AddClick? && !IsBlank(s.urlText) {
      assert (s.pending + [s.urlText])[..|s.pending|] == s.pending;
    }
  }

  /** The actions of one wait, without the clear button, only add URLs behind the pending ones. */
  lemma {:induction false} ReactAllKeepsPending(s: QueueState, actions: seq<UserAction>)
    requires ClearClick !in actions
    ensures s.pending <= ReactAll(s, actions).pending
    decreases |actions|
  {
    if actions != [] {
      var s1 := React(s, actions[0]);
      ReactKeepsPending(s, actions[0]);
      assert forall a :: a in actions[1..] ==> a in actions;
      ReactAllKeepsPending(s1, actions[1..]);
      PrefixTrans(s.pending, s1.pending, ReactAll(s1, actions[1..]).pending);
    }
  }

  /** Helper: a prefix of a prefix is a prefix. */
  lemma PrefixTrans(a: seq<string>, b: seq<string>, c: seq<string>)
    requires a <= b && b <= c
    ensures a <= c
  {
    assert c[..|b|][..|a|] == c[..|a|];
  }

  /** Helper: a common front keeps a prefix a prefix. */
  lemma PrefixFront(x: seq<string>, a: seq<string>, b: seq<string>)
    requires a <= b
    ensures x + a <= x + b
  {
    assert (x + b)[..|x + a|] == x + b[..|a|];
  }

  /** Starting a job moves the head URL into the downloads and only adds URLs behind the rest. */
  lemma StartJobKeepsOrder(env: Env, s: QueueState, clearBox: bool)
    requires s.pending != [] && ClearClick !in SlotActions(env, s.slot)
    ensures Order(s) <= Order(StartJob(env, s, clearBox))
  {
    var url := s.pending[0];
    var started := s.(pending := s.pending[1..], urlText := if clearBox then "" else url,
                      trace := s.trace + [Job(url)], jobs := s.jobs + 1);
    var r := StartJob(env, s, clearBox);
    ReactAllKeepsPending(started, SlotActions(env, s.slot));
    JobUrlsAppend(s.trace, [Job(url)]);
    assert JobUrls([Job(url)]) == [url];
    assert Order(s) == (JobUrls(s.trace) + [url]) + s.pending[1..];
    PrefixFront(JobUrls(s.trace) + [url], s.pending[1..], r.pending);
  }

  /** The pause adds no download and only adds URLs behind the pending ones. */
  lemma PauseStepKeepsOrder(env: Env, s: QueueState)
    requires ClearClick !in SlotActions(env, s.slot)
    ensures Order(s) <= Order(PauseStep(env, s))
  {
    var r := PauseStep(env, s);
    ReactAllKeepsPending(s.(trace := s.trace + [Pause]), SlotActions(env, s.slot));
    JobUrlsAppend(s.trace, [Pause]);
    assert JobUrls([Pause]) == [];
    assert JobUrls(r.trace) == JobUrls(s.trace);
    PrefixFront(JobUrls(s.trace), s.pending, r.pending);
  }

  /** A pass of the drain, with no clear click in its two waits, keeps the queue order. */
  lemma JobStepKeepsOrder(env: Env, s: QueueState, mode: HistoryUrl, clearBox: bool)
    requires s.pending != [] && NoClearFrom(env, s.slot)
    ensures Order(s) <= Order(JobStep(env, s, mode, clearBox).state)
  {
    var s2 := StartJob(env, s, clearBox);
    assert ClearClick !in SlotActions(env, s.slot);
    StartJobKeepsOrder(env, s, clearBox);
    var recorded := if mode == UrlBox then s2.urlText else s.pending[0];
    if env.run(s.jobs).BinaryMissing? || env.hostOf(recorded).None? {
      JobStepHalts(env, s, mode, clearBox);
    } else {
      var code := env.run(s.jobs).code;
      var host := env.hostOf(recorded).value;
      JobStepRecorded(env, s, mode, clearBox, code, host);
      var s3 := s2.(history := s.history + [Entry(env, s.jobs, host, code)]);
      assert Order(s3) == Order(s2);
      if s3.pending != [] {
        assert ClearClick !in SlotActions(env, s3.slot);
        PauseStepKeepsOrder(env, s3);
        PrefixTrans(Order(s), Order(s3), Order(PauseStep(env, s3)));
      }
    }
  }

  /**
   * Whatever the user types or adds while the drain waits, as long as the
   * clear button is not pressed, the drain never reorders the queue: the URLs
   * downloaded so far followed by the pending ones stay a prefix of the URLs
   * the drain downloads followed by those left pending. A URL added during
   * the drain waits behind every URL already queued. This holds whichever
   * text the history row is built from, and also when the drain throws.
   */
  lemma {:induction false} DrainKeepsOrder(env: Env, s: QueueState, mode: HistoryUrl, clearBox: bool)
    requires s.processing && NoClearFrom(env, s.slot)
    ensures Order(s) <= Order(Drain(env, s, mode, clearBox))
    decreases (if s.slot < |env.awaits| then |env.awaits| - s.slot else 0), |s.pending|
  {
    if s.pending == [] {
      assert Order(Drain(env, s, mode, clearBox)) == Order(s);
    } else {
      var step := JobStep(env, s, mode, clearBox);
      JobStepKeepsOrder(env, s, mode, clearBox);
      if step.Next? {
        DrainNext(env, s, mode, clearBox);
        DrainKeepsOrder(env, step.state, mode, false);
        PrefixTrans(Order(s), Order(step.state), Order(Drain(env, step.state, mode, false)));
      } else {
        DrainHalts(env, s, mode, clearBox);
      }
    }
  }

  /**
   * One quiet pass of the corrected drain: the job exits, its own URL parses
   * and nobody acts, so the pass dequeues the URL, records its row and
   * pauses when more URLs wait.
   */
  lemma QuietPass(env: Env, s: QueueState, clearBox: bool)
    requires s.pending != [] && SlotActions(env, s.slot) == []
    requires |s.pending| > 1 ==> SlotActions(env, s.slot + 1) == []
    requires env.run(s.jobs).Exited? && env.hostOf(s.pending[0]).Some?
    ensures var r := JobStep(env, s, JobUrl, clearBox);
      && r.Next? && r.state.processing == s.processing && r.state.pending == s.pending[1..]
      && r.state.history == s.history + [Entry(env, s.jobs, env.hostOf(s.pending[0]).value, env.run(s.jobs).code)]
      && |r.state.history| == |s.history| + 1 && r.state.history[..|s.history|] == s.history
      && env.hostOf(s.pending[0]) == Some(r.state.history[|s.history|].host)
      && r.state.trace == s.trace + [Job(s.pending[0])] + (if |s.pending| > 1 then [Pause] else [])
      && r.state.jobs == s.jobs + 1 && r.state.slot == s.slot + (if |s.pending| > 1 then 2 else 1)
  {
    var e := Entry(env, s.jobs, env.hostOf(s.pending[0]).value, env.run(s.jobs).code);
    var s3 := StartJob(env, s, clearBox).(history := s.history + [e]);
    JobStepRecorded(env, s, JobUrl, clearBox, env.run(s.jobs).code, env.hostOf(s.pending[0]).value);
    QuietSettle(env, s, s3, e);
  }

  /** Helper: the state a quiet pass reaches once its row is recorded. */
  lemma QuietSettle(env: Env, s: QueueState, s3: QueueState, e: HistoryEntry)
    requires s.pending != []
    requires |s.pending| > 1 ==> SlotActions(env, s.slot + 1) == []
    requires s3.pending == s.pending[1..] && s3.history == s.history + [e]
    requires s3.slot == s.slot + 1 && s3.jobs == s.jobs + 1 && s3.processing == s.processing
    requires s3.trace == s.trace + [Job(s.pending[0])]
    ensures var t := if s3.pending == [] then s3 else PauseStep(env, s3);
      && t.pending == s.pending[1..] && t.history == s.history + [e] && t.processing == s.processing
      && t.history[..|s.history|] == s.history && t.history[|s.history|] == e
      && t.trace == s.trace + [Job(s.pending[0])] + (if |s.pending| > 1 then [Pause] else [])
      && t.jobs == s.jobs + 1 && t.slot == s.slot + (if |s.pending| > 1 then 2 else 1)
  {
    assert (s.history + [e])[..|s.history|] == s.history;
    if |s.pending| == 1 {
      assert s.trace + [Job(s.pending[0])] + [] == s.trace + [Job(s.pending[0])];
    }
  }

  /** A pass whose job exits and whose recorded URL parses adds its row and continues. */
  lemma JobStepRecorded(env: Env, s: QueueState, mode: HistoryUrl, clearBox: bool, code: int, host: string)
    requires s.pending != [] && env.run(s.jobs) == Exited(code)
    requires env.hostOf(if mode == UrlBox then StartJob(env, s, clearBox).urlText else s.pending[0]) == Some(host)
    ensures var s3 := StartJob(env, s, clearBox).(history := s.history + [Entry(env, s.jobs, host, code)]);
      JobStep(env, s, mode, clearBox) == (if s3.pending == [] then Next(s3) else Next(PauseStep(env, s3)))
  {
  }

  /** A pass whose job finds no `yt-dlp.exe`, or whose recorded URL does not parse, throws after the download. */
  lemma JobStepHalts(env: Env, s: QueueState, mode: HistoryUrl, clearBox: bool)
    requires s.pending != []
    requires env.run(s.jobs).BinaryMissing?
      || env.hostOf(if mode == UrlBox then StartJob(env, s, clearBox).urlText else s.pending[0]).None?
    ensures JobStep(env, s, mode, clearBox) == Halted(StartJob(env, s, clearBox))
  {
  }

  /** A pass that reaches the loop test again continues the drain from its state. */
  lemma DrainNext(env: Env, s: QueueState, mode: HistoryUrl, clearBox: bool)
    requires s.processing && s.pending != [] && JobStep(env, s, mode, clearBox).Next?
    ensures Drain(env, s, mode, clearBox) == Drain(env, JobStep(env, s, mode, clearBox).state, mode, false)
  {
  }

  /** A pass that throws ends the drain where it stopped. */
  lemma DrainHalts(env: Env, s: QueueState, mode: HistoryUrl, clearBox: bool)
    requires s.processing && s.pending != [] && JobStep(env, s, mode, clearBox).Halted?
    ensures Drain(env, s, mode, clearBox) == JobStep(env, s, mode, clearBox).state
  {
  }

  /** A pass contributes its own URL to the job list, whatever the pause. */
  lemma JobUrlsOfPass(t: seq<Event>, url: string, paused: bool)
    ensures JobUrls(t + [Job(url)] + (if paused then [Pause] else [])) == JobUrls(t) + [url]
  {
    JobUrlsAppend(t, [Job(url)]);
    JobUrlsAppend(t + [Job(url)], if paused then [Pause] else []);
    assert JobUrls([Job(url)]) == [url];
    assert JobUrls([Pause]) == [];
  }

  /**
   * `r` ends a drain of `s` that downloaded the pending URLs in queue order
   * and recorded one row per job with the host of its own URL, flag cleared.
   */
  predicate DrainedInOrder(env: Env, s: QueueState, r: QueueState)
  {
    && !r.processing && r.pending == []
    && JobUrls(r.trace) == JobUrls(s.trace) + s.pending
    && |r.history| == |s.history| + |s.pending|
    && r.history[..|s.history|] == s.history
    && (forall i :: 0 <= i < |s.pending| ==> env.hostOf(s.pending[i]) == Some(r.history[|s.history| + i].host))
  }

  /** One recorded job in front of an in-order drain of the rest is an in-order drain of all. */
  lemma DrainedInOrderStep(env: Env, s: QueueState, t: QueueState, r: QueueState)
    requires s.pending != [] && t.pending == s.pending[1..]
    requires |t.history| == |s.history| + 1 && t.history[..|s.history|] == s.history
    requires env.hostOf(s.pending[0]) == Some(t.history[|s.history|].host)
    requires JobUrls(t.trace) == JobUrls(s.trace) + [s.pending[0]]
    requires DrainedInOrder(env, t, r)
    ensures DrainedInOrder(env, s, r)
  {
    assert s.pending == [s.pending[0]] + t.pending;
    assert r.history[..|s.history|] == r.history[..|t.history|][..|s.history|];
    forall i | 0 <= i < |s.pending|
      ensures env.hostOf(s.pending[i]) == Some(r.history[|s.history| + i].host)
    {
      if i == 0 {
        assert r.history[|s.history|] == t.history[|s.history|];
      } else {
        assert s.pending[i] == t.pending[i - 1];
      }
    }
  }

  /**
   * With no user action during the drain, every job exiting with a code and
   * every job URL parsing, the corrected drain downloads the pending URLs in
   * queue order, records one history row per job with its own URL's host,
   * and ends with the flag cleared.
   */
  lemma {:induction false} CorrectedDrainsInOrder(env: Env, s: QueueState)
    requires s.processing && QuietFrom(env, s.slot)
    requires forall j :: s.jobs <= j < s.jobs + |s.pending| ==> env.run(j).Exited?
    requires AllRecorded(env, s.pending)
    ensures DrainedInOrder(env, s, Drain(env, s, JobUrl, false))
    decreases |s.pending|
  {
    if s.pending == [] {
      assert JobUrls(s.trace) + s.pending == JobUrls(s.trace);
    } else {
      var url := s.pending[0];
      assert SlotActions(env, s.slot) == [] && SlotActions(env, s.slot + 1) == [];
      QuietPass(env, s, false);
      var t := JobStep(env, s, JobUrl, false).state;
      JobUrlsOfPass(s.trace, url, |s.pending| > 1);
      QuietRest(env, s, t);
      CorrectedDrainsInOrder(env, t);
      DrainNext(env, s, JobUrl, false);
      DrainedInOrderStep(env, s, t, Drain(env, t, JobUrl, false));
    }
  }

  /** Helper: after a quiet pass the rest of the drain is still quiet and parses. */
  lemma QuietRest(env: Env, s: QueueState, t: QueueState)
    requires s.pending != [] && t.pending == s.pending[1..] && t.slot >= s.slot && t.jobs == s.jobs + 1
    requires QuietFrom(env, s.slot) && AllRecorded(env, s.pending)
    requires forall j :: s.jobs <= j < s.jobs + |s.pending| ==> env.run(j).Exited?
    ensures QuietFrom(env, t.slot) && AllRecorded(env, t.pending)
    ensures forall j :: t.jobs <= j < t.jobs + |t.pending| ==> env.run(j).Exited?
  {
    forall i | 0 <= i < |t.pending| ensures env.hostOf(t.pending[i]).Some? {
      assert t.pending[i] == s.pending[i + 1];
    }
  }

  /**
   * The source as written: a URL queued from an idle form, with no key
   * pressed during its download, is never recorded. The add button clears
   * the URL box while the download runs, `AddToHistory` then parses the empty
   * box, `new Uri("")` throws, and the drain stops with the flag still set.
   */
  lemma FirstQueuedJobUnrecorded(env: Env, s: QueueState)
    requires !s.processing && s.pending == [] && !IsBlank(s.urlText)
    requires env.hostOf("").None?
    requires SlotActions(env, s.slot) == [] && env.run(s.jobs).Exited?
    ensures var r := Click(env, s, UrlBox);
      && r.processing && r.history == s.history && r.pending == []
      && JobUrls(r.trace) == JobUrls(s.trace) + [s.urlText]
  {
    var url := s.urlText;
    var q := s.(pending := [url], processing := true);
    var s2 := StartJob(env, q, true);
    assert s2.urlText == "" && s2.pending == [];
    assert JobStep(env, q, UrlBox, true) == Halted(s2);
    ClickFromIdle(env, s, UrlBox);
    assert Click(env, s, UrlBox) == s2;
    JobUrlsAppend(s.trace, [Job(url)]);
    assert JobUrls([Job(url)]) == [url];
  }

  /**
   * Once the drain has stopped with the flag set, the add button only
   * appends: no drain ever starts again and nothing is downloaded.
   */
  lemma StuckAfterHalt(env: Env, s: QueueState, mode: HistoryUrl)
    requires s.processing && !IsBlank(s.urlText)
    ensures Click(env, s, mode) == s.(pending := s.pending + [s.urlText], urlText := "")
  {
  }

  /**
   * The corrected drain records the first queued job of an idle form even
   * though the add button clears the URL box during its download.
   */
  lemma CorrectedRecordsFirstJob(env: Env, s: QueueState)
    requires !s.processing && s.pending == [] && !IsBlank(s.urlText)
    requires env.hostOf(s.urlText).Some?
    requires SlotActions(env, s.slot) == [] && env.run(s.jobs).Exited?
    ensures var r := Click(env, s, JobUrl);
      && !r.processing && r.pending == []
      && |r.history| == |s.history| + 1
      && r.history[|s.history|].host == env.hostOf(s.urlText).value
  {
    var q := s.(pending := [s.urlText], processing := true);
    QuietPass(env, q, true);
    var t := JobStep(env, q, JobUrl, true).state;
    assert t.pending == [] && t.processing;
    assert Drain(env, t, JobUrl, false) == t.(processing := false);
    assert Drain(env, q, JobUrl, true) == Drain(env, t, JobUrl, false);
    ClickFromIdle(env, s, JobUrl);
  }

  /** From an idle form with an empty queue, the add button drains the one URL of the box. */
  lemma ClickFromIdle(env: Env, s: QueueState, mode: HistoryUrl)
    requires !s.processing && s.pending == [] && !IsBlank(s.urlText)
    ensures Click(env, s, mode) == Drain(env, s.(pending := [s.urlText], processing := true), mode, true)
  {
    assert s.pending + [s.urlText] == [s.urlText];
  }

  /** A missing `yt-dlp.exe` stops the drain at that job with no history row and the flag set. */
  lemma MissingBinaryHalts(env: Env, s: QueueState, mode: HistoryUrl, clearBox: bool)
    requires s.processing && s.pending != [] && env.run(s.jobs) == BinaryMissing
    ensures var r := Drain(env, s, mode, clearBox);
      r.processing && r.history == s.history && r.jobs == s.jobs + 1
  {
  }

  /** The download queue of the form. */
  class DownloadQueue {
    var pending: seq<string>
    var processing: bool
    var urlText: string
    var history: seq<HistoryEntry>
    var trace: seq<Event>
    var jobs: nat
    var slot: nat

    function State(): QueueState
      reads this
    {
      QueueState(pending, processing, urlText, history, trace, jobs, slot)
    }

    /** An idle, empty queue and an empty URL box. */
    constructor()
      ensures State() == QueueState([], false, "", [], [], 0, 0)
    {
      pending, processing, urlText, history, trace, jobs, slot := [], false, "", [], [], 0, 0;
    }

    /** The clear-queue button: drops the pending URLs and nothing else. */
    method ClearQueue()
      modifies this
      ensures State() == React(old(State()), ClearClick)
      ensures pending == [] && processing == old(processing) && history == old(history)
    {
      pending := [];
    }

    /**
     * `AddToQueueButton_Click` followed by `AddToQueue`: queue the URL box
     * and, when no drain runs, drain the queue.
     */
    method AddToQueueClicked(env: Env, mode: HistoryUrl)
      modifies this
      ensures State() == Click(env, old(State()), mode)
      ensures old(processing) && !IsBlank(old(urlText)) ==> State() == React(old(State()), AddClick)
    {
      if IsBlank(urlText) {
        return;
      }
      pending := pending + [urlText];
      if !processing {
        ProcessQueue(env, mode, true);
      } else {
        urlText := "";
      }
    }

    /** A user action at a wait of the drain. */
    method Perform(a: UserAction)
      modifies this
      ensures State() == React(old(State()), a)
    {
      match a {
        case TypeUrl(t) => urlText := t;
        case ClearClick => pending := [];
        case AddClick =>
          if !IsBlank(urlText) {
            pending := pending + [urlText];
            urlText := "";
          }
      }
    }

    /** The user actions of one wait, in order. */
    method PerformAll(actions: seq<UserAction>)
      modifies this
      ensures State() == ReactAll(old(State()), actions)
    {
      ghost var start := State();
      for i := 0 to |actions|
        invariant ReactAll(start, actions) == ReactAll(State(), actions[i..])
      {
        assert actions[i..][1..] == actions[i + 1..];
        Perform(actions[i]);
      }
    }

    /** The start of a pass of the drain loop: dequeue, show, download while the user acts. */
    method StartNext(env: Env, clearBox: bool)
      requires pending != []
      modifies this
      ensures State() == StartJob(env, old(State()), clearBox)
    {
      var url := pending[0];
      pending := pending[1..];
      urlText := if clearBox then "" else url;
      trace := trace + [Job(url)];
      jobs := jobs + 1;
      var k := slot;
      PerformAll(SlotActions(env, k));
      slot := k + 1;
    }

    /** `Task.Delay(3000)` between two jobs, while the user acts. */
    method PauseBetween(env: Env)
      modifies this
      ensures State() == PauseStep(env, old(State()))
    {
      trace := trace + [Pause];
      var k := slot;
      PerformAll(SlotActions(env, k));
      slot := k + 1;
    }

    /** `AddToHistory` for a finished job, then the pause when more URLs wait. */
    method RecordAndPause(env: Env, e: HistoryEntry)
      modifies this
      ensures var s3 := old(State()).(history := old(history) + [e]);
        State() == if s3.pending == [] then s3 else PauseStep(env, s3)
    {
      history := history + [e];
      if pending != [] {
        PauseBetween(env);
      }
    }

    /**
     * One pass of the `while` loop of `ProcessQueue`: the download, the
     * history row and the pause; `halted` when the pass throws.
     */
    method RunPass(env: Env, mode: HistoryUrl, clearBox: bool) returns (halted: bool)
      requires pending != []
      modifies this
      ensures JobStep(env, old(State()), mode, clearBox).state == State()
      ensures halted <==> JobStep(env, old(State()), mode, clearBox).Halted?
    {
      var url := pending[0];
      var j := jobs;
      ghost var before := State();
      StartNext(env, clearBox);
      match env.run(j) {
        case BinaryMissing =>
          JobStepHalts(env, before, mode, clearBox);
          return true;
        case Exited(code) =>
          var recorded := if mode == UrlBox then urlText else url;
          match env.hostOf(recorded) {
            case None =>
              JobStepHalts(env, before, mode, clearBox);
              return true;
            case Some(host) =>
              JobStepRecorded(env, before, mode, clearBox, code, host);
              RecordAndPause(env, Entry(env, j, host, code));
          }
      }
      return false;
    }

    /**
     * `ProcessQueue`: set the flag, download the pending URLs one at a time
     * with a pause between two jobs, and clear the flag once the queue is
     * empty. `clearBox` is the add button's clear during the first download.
     */
    method ProcessQueue(env: Env, mode: HistoryUrl, clearBox: bool)
      modifies this
      ensures State() == Drain(env, old(State()).(processing := true), mode, clearBox)
    {
      processing := true;
      ghost var goal := Drain(env, State(), mode, clearBox);
      var clear := clearBox;
      while pending != []
        invariant processing
        invariant Drain(env, State(), mode, clear) == goal
        decreases (if slot < |env.awaits| then |env.awaits| - slot else 0), |pending|
      {
        ghost var before := State();
        var halted := RunPass(env, mode, clear);
        if halted {
          DrainHalts(env, before, mode, clear);
          return;
        }
        DrainNext(env, before, mode, clear);
        clear := false;
      }
      processing := false;
    }
  }
}
