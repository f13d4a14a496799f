/**
 * The yt-dlp argument vector built by `MainForm.DownloadVideo` and the
 * command line it is joined into.
 */
module Arguments {
  import opened Wrappers
  import opened Text
  import opened Platforms

  /** The plain-text login fields of the settings tab. */
  datatype Credentials = Credentials(
    igUsername: string, igPassword: string,
    fbEmail: string, fbPassword: string,
    liEmail: string, liPassword: string)

  /**
   * Everything one download reads: the URL, the selected quality text, the
   * option check boxes, the selected browser item (`None` when no item is
   * selected), the credentials, the evidence
   * folder of this job and the `yyyyMMdd_HHmmss` stamp read for the
   * file-name template.
   */
  datatype DownloadRequest = DownloadRequest(
    url: string, quality: string,
    subtitles: bool, metadata: bool, timestamp: bool, cookies: bool,
    browser: Option<string>, credentials: Credentials,
    evidenceFolder: string, stamp: string)

  const UserAgentArg: string :=
    "--user-agent \"Mozilla/5.0 (Windows NT 10.0; Win64; x64) AppleWebKit/537.36 (KHTML, like Gecko) Chrome/120.0.0.0 Safari/537.36\""

  function Quote(s: string): string
  {
    "\"" + s + "\""
  }

  /** The yt-dlp output template, with the stamp in front when timestamping is on. */
  function OutputTemplate(timestamp: bool, stamp: string): (r: string)
    ensures EndsWith(r, "%(title)s_%(id)s.%(ext)s")
    ensures timestamp ==> StartsWith(r, stamp + "_")
    ensures !timestamp ==> r == "%(title)s_%(id)s.%(ext)s"
  {
    var tail := "%(title)s_%(id)s.%(ext)s";
    if timestamp then
      assert (stamp + "_" + tail)[|stamp + "_" + tail| - |tail|..] == tail;
      assert (stamp + "_" + tail)[..|stamp + "_"|] == stamp + "_";
      stamp + "_" + tail
    else tail
  }

  /** The `-o` argument rooted at the evidence folder. */
  function OutputArg(folder: string, timestamp: bool, stamp: string): string
  {
    "-o " + Quote(PathCombine(folder, OutputTemplate(timestamp, stamp)))
  }

  /** The quality switch: five named profiles, any other text a height limit. */
  function QualityFlags(quality: string): seq<string>
  {
    match quality
    case "Best Quality" => ["-f \"bestvideo[ext=mp4]+bestaudio[ext=m4a]/best[ext=mp4]/best\""]
    case "Audio Only (MP3)" => ["-f bestaudio", "-x", "--audio-format mp3"]
    case "Audio Only (Best Quality)" => ["-f bestaudio", "-x", "--audio-format best"]
    case "Audio Only (128kbps)" => ["-f bestaudio", "-x", "--audio-format mp3", "--audio-quality 128K"]
    case "Audio Only (320kbps)" => ["-f bestaudio", "-x", "--audio-format mp3", "--audio-quality 320K"]
    case _ => ["-f \"best[height<=" + RemoveAll(quality, 'p') + "]\""]
  }

  /** Subtitle flags, then metadata flags, each pair only when its box is checked. */
  function OptionFlags(subtitles: bool, metadata: bool): seq<string>
  {
    (if subtitles then ["--write-subs", "--write-auto-subs"] else [])
    + (if metadata then ["--write-info-json", "--write-thumbnail"] else [])
  }

  /** The login pair for the detected platform, when both its fields are filled in. */
  function CredentialFlags(platform: Option<Platform>, c: Credentials): seq<string>
  {
    if platform == Some(Instagram) && c.igUsername != "" && c.igPassword != "" then
      ["-u " + Quote(c.igUsername), "-p " + Quote(c.igPassword)]
    else if platform == Some(Facebook) && c.fbEmail != "" && c.fbPassword != "" then
      ["--username " + Quote(c.fbEmail), "--password " + Quote(c.fbPassword)]
    else if platform == Some(LinkedIn) && c.liEmail != "" && c.liPassword != "" then
      ["--username " + Quote(c.liEmail), "--password " + Quote(c.liPassword)]
    else []
  }

  /** The platforms whose downloads may need the browser's cookies. */
  predicate NeedsCookies(platform: Option<Platform>)
  {
    platform == Some(TikTok) || platform == Some(Pinterest) || platform == Some(CapCut)
  }

  /** The audio-only platforms. */
  predicate IsAudioPlatform(platform: Option<Platform>)
  {
    platform == Some(Spotify) || platform == Some(SoundCloud)
  }

  /** The browser whose cookies yt-dlp reads: the selected item lower-cased, `chrome` when none is selected. */
  function CookieBrowser(browser: Option<string>): string
  {
    match browser
    case None => "chrome"
    case Some(b) => ToLower(b)
  }

  /** The per-platform policy branch (cookies, forced audio, certificate check). */
  function PlatformFlags(platform: Option<Platform>, cookies: bool, browser: Option<string>, quality: string): seq<string>
  {
    if NeedsCookies(platform) then
      (if cookies then ["--cookies-from-browser " + CookieBrowser(browser)] else [])
    else if IsAudioPlatform(platform) then
      (if !Contains(quality, "Audio") then ["-x", "--audio-format mp3"] else [])
    else if platform == Some(Telegram) then
      ["--no-check-certificate"]
    else []
  }

  /** The fixed tail: user agent, referer, line-buffered uncoloured progress. */
  function TailFlags(url: string): seq<string>
  {
    [UserAgentArg, "--referer " + Quote(url), "--newline", "--no-colors"]
  }

  /** The quoted URL and the `-o` argument that open every vector. */
  function HeadArgs(req: DownloadRequest): seq<string>
  {
    [Quote(req.url), OutputArg(req.evidenceFolder, req.timestamp, req.stamp)]
  }

  /** Option, credential and platform-policy flags, in that order. */
  function MiddleFlags(req: DownloadRequest, platform: Option<Platform>): seq<string>
  {
    OptionFlags(req.subtitles, req.metadata)
    + CredentialFlags(platform, req.credentials)
    + PlatformFlags(platform, req.cookies, req.browser, req.quality)
  }

  /**
   * The argument vector, section by section in the order the source appends
   * them, for the platform detected from the request's URL.
   */
  function ArgumentVector(req: DownloadRequest, platform: Option<Platform>): seq<string>
  {
    HeadArgs(req) + QualityFlags(req.quality) + MiddleFlags(req, platform) + TailFlags(req.url)
  }

  /** The single argument string handed to the process. */
  function CommandLine(req: DownloadRequest, hostOf: string -> Option<string>): string
  {
    Join(ArgumentVector(req, Detect(req.url, hostOf)), " ")
  }

  /**
   * The argument-building part of `DownloadVideo`: appends to a list step by
   * step, section by section. The platform is compared by its label, as the
   * source does.
   */
  method BuildArguments(req: DownloadRequest, hostOf: string -> Option<string>) returns (args: seq<string>)
    ensures args == ArgumentVector(req, Detect(req.url, hostOf))
  {
    args := [];
    args := args + [Quote(req.url)];
    var template := OutputTemplate(req.timestamp, req.stamp);
    args := args + ["-o " + Quote(PathCombine(req.evidenceFolder, template))];
    ghost var head := args;
    assert head == HeadArgs(req);

    args := AppendQuality(args, req.quality);
    ghost var withQuality := args;
    args := AppendOptions(args, req.subtitles, req.metadata);

    var platform := DetectPlatform(req.url, hostOf);
    ghost var detected := Detect(req.url, hostOf);
    LabelsIdentify(platform, detected);
    args := AppendCredentials(args, platform, req.credentials, detected);
    args := AppendPlatformPolicy(args, platform, req, detected);
    ghost var withMiddle := args;

    args := AppendTail(args, req.url);
    Regroup(head, QualityFlags(req.quality), OptionFlags(req.subtitles, req.metadata),
            CredentialFlags(detected, req.credentials),
            PlatformFlags(detected, req.cookies, req.browser, req.quality), TailFlags(req.url));
  }

  /** The `switch` on the quality text. */
  method AppendQuality(args0: seq<string>, quality: string) returns (args: seq<string>)
    ensures args == args0 + QualityFlags(quality)
  {
    args := args0;
    match quality {
      case "Best Quality" =>
        args := args + ["-f \"bestvideo[ext=mp4]+bestaudio[ext=m4a]/best[ext=mp4]/best\""];
      case "Audio Only (MP3)" =>
        args := args + ["-f bestaudio"];
        args := args + ["-x"];
        args := args + ["--audio-format mp3"];
      case "Audio Only (Best Quality)" =>
        args := args + ["-f bestaudio"];
        args := args + ["-x"];
        args := args + ["--audio-format best"];
      case "Audio Only (128kbps)" =>
        args := args + ["-f bestaudio"];
        args := args + ["-x"];
        args := args + ["--audio-format mp3"];
        args := args + ["--audio-quality 128K"];
      case "Audio Only (320kbps)" =>
        args := args + ["-f bestaudio"];
        args := args + ["-x"];
        args := args + ["--audio-format mp3"];
        args := args + ["--audio-quality 320K"];
      case _ =>
        var height := RemoveAll(quality, 'p');
        args := args + ["-f \"best[height<=" + height + "]\""];
    }
  }

  /** User agent, referer and progress-format flags. */
  method AppendTail(args0: seq<string>, url: string) returns (args: seq<string>)
    ensures args == args0 + TailFlags(url)
  {
    args := args0;
    args := args + [UserAgentArg];
    args := args + ["--referer " + Quote(url)];
    args := args + ["--newline"];
    args := args + ["--no-colors"];
  }

  /** The subtitle and metadata check boxes. */
  method AppendOptions(args0: seq<string>, subtitles: bool, metadata: bool) returns (args: seq<string>)
    ensures args == args0 + OptionFlags(subtitles, metadata)
  {
    args := args0;
    if subtitles {
      args := args + ["--write-subs"];
      args := args + ["--write-auto-subs"];
    }
    if metadata {
      args := args + ["--write-info-json"];
      args := args + ["--write-thumbnail"];
    }
  }

  /** The label `DetectPlatform` returns names exactly the detected platform. */
  lemma LabelsIdentify(name: string, detected: Option<Platform>)
    requires name == Label(detected)
    ensures forall p :: name == Name(p) <==> detected == Some(p)
  {
    forall p ensures name == Name(p) <==> detected == Some(p) {
      NameInjective(p, p);
      if detected.Some? { NameInjective(p, detected.value); }
    }
  }

  /** The authentication `if`/`else if` chain, on the platform label. */
  method AppendCredentials(args0: seq<string>, platform: string, c: Credentials, ghost detected: Option<Platform>)
    returns (args: seq<string>)
    requires forall p :: platform == Name(p) <==> detected == Some(p)
    ensures args == args0 + CredentialFlags(detected, c)
  {
    args := args0;
    if platform == "Instagram" && c.igUsername != "" && c.igPassword != "" {
      args := args + ["-u " + Quote(c.igUsername)];
      args := args + ["-p " + Quote(c.igPassword)];
    } else if platform == "Facebook" && c.fbEmail != "" && c.fbPassword != "" {
      args := args + ["--username " + Quote(c.fbEmail)];
      args := args + ["--password " + Quote(c.fbPassword)];
    } else if platform == "LinkedIn" && c.liEmail != "" && c.liPassword != "" {
      args := args + ["--username " + Quote(c.liEmail)];
      args := args + ["--password " + Quote(c.liPassword)];
    }
  }

  /** The platform-specific `if`/`else if` chain, on the platform label. */
  method AppendPlatformPolicy(args0: seq<string>, platform: string, req: DownloadRequest, ghost detected: Option<Platform>)
    returns (args: seq<string>)
    requires forall p :: platform == Name(p) <==> detected == Some(p)
    ensures args == args0 + PlatformFlags(detected, req.cookies, req.browser, req.quality)
  {
    args := args0;
    if platform == "TikTok" || platform == "Pinterest" || platform == "CapCut" {
      if req.cookies {
        var selected := if req.browser.Some? then ToLower(req.browser.value) else "chrome";
        args := args + ["--cookies-from-browser " + selected];
      }
    } else if platform == "Spotify" || platform == "SoundCloud" {
      if !Contains(req.quality, "Audio") {
        args := args + ["-x"];
        args := args + ["--audio-format mp3"];
      }
    } else if platform == "Telegram" {
      args := args + ["--no-check-certificate"];
    }
  }

  /** Appending section after section builds head, quality, middle and tail. */
  lemma Regroup<X>(h: seq<X>, q: seq<X>, o: seq<X>, c: seq<X>, p: seq<X>, t: seq<X>)
    ensures h + q + o + c + p + t == h + q + (o + c + p) + t
  {
  }

  /**
   * Shape of every vector: the quoted URL, the `-o` argument, the quality
   * flags at index 2, and the four tail flags last.
   */
  lemma VectorFrame(req: DownloadRequest, platform: Option<Platform>)
    ensures var v := ArgumentVector(req, platform);
      && |v| >= 2 + |QualityFlags(req.quality)| + 4
      && v[0] == Quote(req.url)
      && v[1] == OutputArg(req.evidenceFolder, req.timestamp, req.stamp)
      && v[2..2 + |QualityFlags(req.quality)|] == QualityFlags(req.quality)
      && v[|v| - 4..] == TailFlags(req.url)
  {
    var h, q, m, t := HeadArgs(req), QualityFlags(req.quality), MiddleFlags(req, platform), TailFlags(req.url);
    assert ArgumentVector(req, platform) == h + q + m + t;
    Sections(h, q, m, t);
  }

  /** Where the sections of a four-part concatenation sit, with two in front and four behind. */
  lemma Sections<X>(h: seq<X>, q: seq<X>, m: seq<X>, t: seq<X>)
    requires |h| == 2 && |t| == 4
    ensures var v := h + q + m + t;
      && |v| >= 2 + |q| + 4 && v[0] == h[0] && v[1] == h[1]
      && v[2..2 + |q|] == q && v[|v| - 4..] == t
  {
    var v := h + q + m + t;
    assert v[..|h|] == h;
    assert v[|h|..|h| + |q|] == q;
    assert v[|h + q + m|..] == t;
  }

  /** The command line starts with the quoted URL followed by the `-o` argument. */
  lemma CommandLineStart(req: DownloadRequest, hostOf: string -> Option<string>)
    ensures StartsWith(CommandLine(req, hostOf),
                       Quote(req.url) + " " + OutputArg(req.evidenceFolder, req.timestamp, req.stamp))
  {
    VectorFrame(req, Detect(req.url, hostOf));
    JoinHead(ArgumentVector(req, Detect(req.url, hostOf)), " ");
  }

  /** The command line ends with the last tail flag. */
  lemma CommandLineEnd(req: DownloadRequest, hostOf: string -> Option<string>)
    ensures EndsWith(CommandLine(req, hostOf), "--no-colors")
  {
    VectorFrame(req, Detect(req.url, hostOf));
  }

  /**
   * Quality text that is not one of the five named profiles becomes a height
   * limit with every `p` removed.
   */
  lemma HeightProfile(quality: string)
    requires quality !in {"Best Quality", "Audio Only (MP3)", "Audio Only (Best Quality)",
                          "Audio Only (128kbps)", "Audio Only (320kbps)"}
    ensures |QualityFlags(quality)| == 1
    ensures var f := QualityFlags(quality)[0];
      StartsWith(f, "-f \"best[height<=") && EndsWith(f, "]\"") && 'p' !in f[17..|f| - 2]
      && f[17..|f| - 2] == RemoveAll(quality, 'p')
  {
    var h := RemoveAll(quality, 'p');
    var f := "-f \"best[height<=" + h + "]\"";
    assert f[..17] == "-f \"best[height<=";
    assert f[|f| - 2..] == "]\"";
    assert f[17..|f| - 2] == h;
  }

  /**
   * A resolution entry of the quality list (`"720p"` and the like) yields
   * the height limit with its digits.
   */
  lemma ResolutionProfile(digits: string)
    requires 'p' !in digits
    ensures QualityFlags(digits + "p") == ["-f \"best[height<=" + digits + "]\""]
  {
    var q := digits + "p";
    assert q[|q| - 1] == 'p';
    RemoveAllDigits(digits);
  }

  /** Helper: removing `p` from digits followed by `p` leaves the digits. */
  lemma RemoveAllDigits(digits: string)
    requires 'p' !in digits
    ensures RemoveAll(digits + "p", 'p') == digits
  {
    RemoveAllAppend(digits, "p", 'p');
    RemoveAllAbsent(digits, 'p');
    assert RemoveAll("p", 'p') == [] + RemoveAll([], 'p');
  }

  /**
   * At most one credential pair is injected; it needs the platform to be
   * Instagram, Facebook or LinkedIn and both of that platform's fields to be
   * non-empty; Instagram uses the short flags, the other two the long ones.
   */
  lemma CredentialPolicy(platform: Option<Platform>, c: Credentials)
    ensures var f := CredentialFlags(platform, c);
      && (|f| == 0 || |f| == 2)
      && (|f| == 2 <==> (
            || (platform == Some(Instagram) && c.igUsername != "" && c.igPassword != "")
            || (platform == Some(Facebook) && c.fbEmail != "" && c.fbPassword != "")
            || (platform == Some(LinkedIn) && c.liEmail != "" && c.liPassword != "")))
      && (|f| == 2 && platform == Some(Instagram) ==> StartsWith(f[0], "-u ") && StartsWith(f[1], "-p "))
      && (|f| == 2 && platform != Some(Instagram) ==> StartsWith(f[0], "--username ") && StartsWith(f[1], "--password "))
  {
  }

  /**
   * The policy branches are exclusive: cookies only for TikTok, Pinterest and
   * CapCut with cookies on; forced mp3 only for Spotify and SoundCloud when
   * the quality is not an audio profile; the certificate switch only for
   * Telegram; nothing for any other platform.
   */
  lemma PlatformPolicy(platform: Option<Platform>, cookies: bool, browser: Option<string>, quality: string)
    ensures var f := PlatformFlags(platform, cookies, browser, quality);
      && (NeedsCookies(platform) ==> f == (if cookies then ["--cookies-from-browser " + CookieBrowser(browser)] else []))
      && (IsAudioPlatform(platform) ==> f == (if Contains(quality, "Audio") then [] else ["-x", "--audio-format mp3"]))
      && (platform == Some(Telegram) ==> f == ["--no-check-certificate"])
      && (!NeedsCookies(platform) && !IsAudioPlatform(platform) && platform != Some(Telegram) ==> f == [])
  {
  }

  /**
   * A YouTube URL at 720p: the label is "YouTube" and the height limit
   * follows the quoted URL and the `-o` argument.
   */
  lemma YouTubeAt720(req: DownloadRequest, hostOf: string -> Option<string>, host: string)
    requires !IsBlank(req.url) && hostOf(req.url) == Some(host)
    requires Contains(ToLower(host), "youtube.com")
    requires req.quality == "720p"
    ensures DetectPlatform(req.url, hostOf) == "YouTube"
    ensures ArgumentVector(req, Detect(req.url, hostOf))[2] == "-f \"best[height<=720]\""
  {
    var d := ToLower(host);
    assert Table[0].patterns == ["youtube.com", "youtu.be"];
    MatchesIff(d, Table[0].patterns);
    FirstMatchSpec(d, Table, 0);
    assert Detect(req.url, hostOf) == Some(YouTube);
    QualityAt720(req.quality);
    VectorFrame(req, Detect(req.url, hostOf));
  }

  /** Helper: the `720p` choice gives the one format filter for height 720. */
  lemma QualityAt720(quality: string)
    requires quality == "720p"
    ensures QualityFlags(quality) == ["-f \"best[height<=720]\""]
  {
    ResolutionProfile("720");
    assert "720" + "p" == quality;
    assert "-f \"best[height<=" + "720" + "]\"" == "-f \"best[height<=720]\"";
  }

  /** The host `www.tiktok.com` is classified as TikTok: no earlier row occurs in it. */
  lemma TikTokHost()
    ensures ClassifyHost("www.tiktok.com") == TikTok
  {
    var d := "www.tiktok.com";
    TikTokRowMatches();
    TikTokLetters();
    EarlierRowsMiss(d);
    FirstMatchSpec(d, Table, 4);
  }

  /** Helper: the TikTok row matches `www.tiktok.com`. */
  lemma TikTokRowMatches()
    ensures Matches("www.tiktok.com", Table[4].patterns)
  {
    assert OccursAt("www.tiktok.com", "tiktok.com", 4);
    OccursImpliesContains("www.tiktok.com", "tiktok.com", 4);
    MatchesIff("www.tiktok.com", Table[4].patterns);
  }

  /** Helper: the letters that rule out the earlier rows do not occur in `www.tiktok.com`. */
  lemma TikTokLetters()
    ensures var d := "www.tiktok.com"; 'y' !in d && 'n' !in d && 'f' !in d && 'e' !in d && 'x' !in d
  {
  }

  /**
   * Helper: none of the first four rows matches a domain without the
   * letters `y`, `n`, `f`, `e` and `x` (each of their patterns holds one).
   */
  lemma EarlierRowsMiss(d: string)
    requires 'y' !in d && 'n' !in d && 'f' !in d && 'e' !in d && 'x' !in d
    ensures forall j :: 0 <= j < 4 ==> !Matches(d, Table[j].patterns)
  {
    forall j | 0 <= j < 4
      ensures !Matches(d, Table[j].patterns)
    {
      if j == 0 {
        assert Table[0].patterns == ["youtube.com", "youtu.be"];
        PairMisses(d, "youtube.com", "youtu.be", 'y', 'y');
      } else if j == 1 {
        assert Table[1].patterns == ["instagram.com", "instagr.am"];
        PairMisses(d, "instagram.com", "instagr.am", 'n', 'n');
      } else if j == 2 {
        assert Table[2].patterns == ["facebook.com", "fb.watch"];
        PairMisses(d, "facebook.com", "fb.watch", 'f', 'f');
      } else {
        assert Table[3].patterns == ["twitter.com", "x.com"];
        PairMisses(d, "twitter.com", "x.com", 'e', 'x');
      }
    }
  }

  /**
   * Helper: a row of two patterns misses a domain when each pattern holds a
   * character the domain lacks.
   */
  lemma PairMisses(d: string, a: string, b: string, ca: char, cb: char)
    requires ca in a && ca !in d && cb in b && cb !in d
    ensures !Matches(d, [a, b])
  {
    MatchesIff(d, [a, b]);
    if Contains(d, a) { ContainedCharsOccur(d, a); }
    if Contains(d, b) { ContainedCharsOccur(d, b); }
  }

  /**
   * A TikTok URL with cookies on: the selected browser's lower-cased name is
   * passed to yt-dlp, and `chrome` when no browser is selected.
   */
  lemma TikTokWithCookies(req: DownloadRequest, hostOf: string -> Option<string>)
    requires Detect(req.url, hostOf) == Some(TikTok) && req.cookies
    ensures req.browser.Some? ==> "--cookies-from-browser " + ToLower(req.browser.value) in ArgumentVector(req, Detect(req.url, hostOf))
    ensures req.browser.None? ==> "--cookies-from-browser " + "chrome" in ArgumentVector(req, Detect(req.url, hostOf))
  {
    var flag := "--cookies-from-browser " + CookieBrowser(req.browser);
    CookieFlagIn(req, Some(TikTok));
    assert Detect(req.url, hostOf) == Some(TikTok);
  }

  /** Helper: with cookies on, a cookie platform's vector holds the cookie flag. */
  lemma CookieFlagIn(req: DownloadRequest, platform: Option<Platform>)
    requires NeedsCookies(platform) && req.cookies
    ensures "--cookies-from-browser " + CookieBrowser(req.browser) in ArgumentVector(req, platform)
  {
    var f := PlatformFlags(platform, req.cookies, req.browser, req.quality);
    assert f == ["--cookies-from-browser " + CookieBrowser(req.browser)];
    assert f[0] in MiddleFlags(req, platform);
  }
}
