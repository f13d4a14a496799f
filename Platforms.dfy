/**
 * Platform classification of a video URL (`MainForm.DetectPlatform`).
 * URI parsing is a parameter `hostOf`: `None` stands for a string that
 * `new Uri(url)` rejects, `Some(h)` for the parsed `Uri.Host`.
 */
module Platforms {
  import opened Wrappers
  import opened Text

  datatype Platform =
    | YouTube | Instagram | Facebook | TwitterX | TikTok | Pinterest | CapCut
    | Telegram | Spotify | SoundCloud | LinkedIn | AdultContent | Unknown

  /** The label the source returns for each platform. */
  function Name(p: Platform): string
  {
    match p
    case YouTube => "YouTube"
    case Instagram => "Instagram"
    case Facebook => "Facebook"
    case TwitterX => "Twitter/X"
    case TikTok => "TikTok"
    case Pinterest => "Pinterest"
    case CapCut => "CapCut"
    case Telegram => "Telegram"
    case Spotify => "Spotify"
    case SoundCloud => "SoundCloud"
    case LinkedIn => "LinkedIn"
    case AdultContent => "Adult Content Site"
    case Unknown => "Unknown Platform"
  }

  /** Labels are distinct and never empty, so comparing labels is comparing platforms. */
  lemma NameInjective(p: Platform, q: Platform)
    ensures Name(p) != ""
    ensures Name(p) == Name(q) ==> p == q
  {
  }

  /** One row of the classification table: host substrings and their platform. */
  datatype Rule = Rule(patterns: seq<string>, platform: Platform)

  /**
   * The source's if/else chain over the lower-cased host, row by row in the
   * order it tests them.
   */
  const Table: seq<Rule> := [
    Rule(["youtube.com", "youtu.be"], YouTube),
    Rule(["instagram.com", "instagr.am"], Instagram),
    Rule(["facebook.com", "fb.watch"], Facebook),
    Rule(["twitter.com", "x.com"], TwitterX),
    Rule(["tiktok.com"], TikTok),
    Rule(["pinterest.com", "pin.it"], Pinterest),
    Rule(["capcut.com"], CapCut),
    Rule(["t.me", "telegram.org"], Telegram),
    Rule(["spotify.com"], Spotify),
    Rule(["soundcloud.com"], SoundCloud),
    Rule(["linkedin.com"], LinkedIn),
    Rule(["redtube.com", "youporn.com", "pornhub.com", "xvideos.com", "xnxx.com", "xhamster.com"], AdultContent)
  ]

  /** Some pattern of the list occurs in the domain (the `||` of one row). */
  predicate Matches(domain: string, patterns: seq<string>)
  {
    patterns != [] && (Contains(domain, patterns[0]) || Matches(domain, patterns[1..]))
  }

  /** Walks the rows in order and stops at the first one that matches. */
  function FirstMatch(domain: string, rules: seq<Rule>): Platform
  {
    if rules == [] then Unknown
    else if Matches(domain, rules[0].patterns) then rules[0].platform
    else FirstMatch(domain, rules[1..])
  }

  /** Classification of an already lower-cased host. */
  function ClassifyHost(domain: string): Platform
  {
    FirstMatch(domain, Table)
  }

  /** A row matches exactly when one of its patterns occurs in the domain. */
  lemma {:induction false} MatchesIff(domain: string, patterns: seq<string>)
    ensures Matches(domain, patterns) <==> exists k :: 0 <= k < |patterns| && Contains(domain, patterns[k])
  {
    if patterns != [] {
      MatchesIff(domain, patterns[1..]);
      if Matches(domain, patterns[1..]) {
        var k :| 0 <= k < |patterns[1..]| && Contains(domain, patterns[1..][k]);
        assert Contains(domain, patterns[k + 1]);
      }
      forall k | 0 < k < |patterns| && Contains(domain, patterns[k])
        ensures Matches(domain, patterns[1..])
      {
        assert patterns[1..][k - 1] == patterns[k];
      }
    }
  }

  /**
   * First-match semantics of a table: the result is the platform of rule `i`
   * exactly when rule `i` matches and no earlier rule does; no matching rule
   * gives `Unknown`.
   */
  lemma {:induction false} FirstMatchSpec(domain: string, rules: seq<Rule>, i: nat)
    requires i < |rules|
    requires Matches(domain, rules[i].patterns)
    requires forall j :: 0 <= j < i ==> !Matches(domain, rules[j].patterns)
    ensures FirstMatch(domain, rules) == rules[i].platform
  {
    if i > 0 {
      assert !Matches(domain, rules[0].patterns);
      FirstMatchSpec(domain, rules[1..], i - 1);
    }
  }

  /** No matching rule means `Unknown`. */
  lemma {:induction false} FirstMatchNone(domain: string, rules: seq<Rule>)
    requires forall j :: 0 <= j < |rules| ==> !Matches(domain, rules[j].patterns)
    ensures FirstMatch(domain, rules) == Unknown
  {
    if rules != [] {
      assert !Matches(domain, rules[0].patterns);
      FirstMatchNone(domain, rules[1..]);
    }
  }

  /** The platform found for `url`, or `None` where the source returns "". */
  function Detect(url: string, hostOf: string -> Option<string>): Option<Platform>
  {
    if IsBlank(url) then None
    else match hostOf(url)
      case None => None
      case Some(host) => Some(ClassifyHost(ToLower(host)))
  }

  /** The string the source returns for a detection outcome: "" when nothing was detected. */
  function Label(detected: Option<Platform>): (r: string)
    ensures r == "" <==> detected.None?
  {
    match detected
    case None => ""
    case Some(p) => NameInjective(p, p); Name(p)
  }

  /** `DetectPlatform(url)`: its string result. */
  function DetectPlatform(url: string, hostOf: string -> Option<string>): (r: string)
    ensures r == "" <==> IsBlank(url) || hostOf(url).None?
  {
    Label(Detect(url, hostOf))
  }

  /**
   * The result depends on the host alone, compared case-insensitively:
   * two non-blank URLs whose hosts agree after lower-casing (whatever their
   * scheme, path or query) get the same label.
   */
  lemma DetectDependsOnHostOnly(u1: string, u2: string, hostOf: string -> Option<string>)
    requires !IsBlank(u1) && !IsBlank(u2)
    requires hostOf(u1).Some? && hostOf(u2).Some?
    requires ToLower(hostOf(u1).value) == ToLower(hostOf(u2).value)
    ensures DetectPlatform(u1, hostOf) == DetectPlatform(u2, hostOf)
  {
  }

  /**
   * For a parsed, non-blank URL the label is the first table rule whose
   * pattern occurs in the lower-cased host, and "Unknown Platform" when
   * none occurs.
   */
  lemma DetectIsTableLookup(url: string, hostOf: string -> Option<string>, i: nat)
    requires !IsBlank(url) && hostOf(url).Some?
    requires i < |Table|
    requires Matches(ToLower(hostOf(url).value), Table[i].patterns)
    requires forall j :: 0 <= j < i ==> !Matches(ToLower(hostOf(url).value), Table[j].patterns)
    ensures DetectPlatform(url, hostOf) == Name(Table[i].platform)
  {
    FirstMatchSpec(ToLower(hostOf(url).value), Table, i);
  }

  /** A parsed host that matches no rule is labelled "Unknown Platform". */
  lemma DetectUnknown(url: string, hostOf: string -> Option<string>)
    requires !IsBlank(url) && hostOf(url).Some?
    requires forall j :: 0 <= j < |Table| ==> !Matches(ToLower(hostOf(url).value), Table[j].patterns)
    ensures DetectPlatform(url, hostOf) == "Unknown Platform"
  {
    FirstMatchNone(ToLower(hostOf(url).value), Table);
  }

  /** Once row `i` matches, the result comes from row `i` or an earlier row. */
  lemma {:induction false} FirstMatchAtOrBefore(domain: string, rules: seq<Rule>, i: nat)
    requires i < |rules|
    requires Matches(domain, rules[i].patterns)
    ensures exists j :: 0 <= j <= i && FirstMatch(domain, rules) == rules[j].platform
  {
    if !Matches(domain, rules[0].patterns) {
      assert i > 0;
      FirstMatchAtOrBefore(domain, rules[1..], i - 1);
      var j :| 0 <= j <= i - 1 && FirstMatch(domain, rules[1..]) == rules[1..][j].platform;
      assert FirstMatch(domain, rules) == rules[j + 1].platform;
    } else {
      assert FirstMatch(domain, rules) == rules[0].platform;
    }
  }

  /**
   * Because the Twitter/X row tests the substring "x.com" before the adult
   * row is reached, a host containing "xnxx.com" (listed in the adult row)
   * is never labelled as an adult site.
   */
  lemma XnxxNeverAdult(domain: string)
    requires Contains(domain, "xnxx.com")
    ensures ClassifyHost(domain) != AdultContent
  {
    ContainsIff(domain, "xnxx.com");
    var i: nat :| OccursAt(domain, "xnxx.com", i);
    assert domain[i + 3..i + 8] == domain[i..i + 8][3..8];
    assert OccursAt(domain, "x.com", i + 3);
    OccursImpliesContains(domain, "x.com", i + 3);
    var row := Table[3].patterns;
    assert row[1] == "x.com";
    MatchesIff(domain, row);
    FirstMatchAtOrBefore(domain, Table, 3);
  }

}
