/**
 * `extractStreamURL` of puppeteer-extractor.js:11-176: the Puppeteer
 * extractor with request interception. A failed navigation is tolerated;
 * after a 5 s wait it tries, in order, the network log, the page body, the
 * `<video>` sources, the frames, and the network log again after a second
 * wait; it closes the page and then the browser on every exit.
 */
module PuppeteerExtractor {
  import opened Wrappers
  import opened Text
  import opened Scanner
  import opened Sniffer
  import opened Driver

  /** The strategies, in the order the extractor runs them. */
  datatype Stage = Load | Network | Dom | Video | Frames | SecondWait

  function Rank(s: Stage): nat
  {
    match s
    case Load => 0
    case Network => 1
    case Dom => 2
    case Video => 3
    case Frames => 4
    case SecondWait => 5
  }

  /** The message of the error thrown when every strategy came back empty. */
  const NoManifestMessage := "No M3U8 URL found on page"

  /**
   * A `video` or `video source` element: its `src` property (the empty
   * string when it has none) and its `src` attribute (absent or a string).
   */
  datatype Media = Media(src: string, srcAttribute: Option<string>)

  /** What the `<video>` strategy's evaluation sees: it throws, or it lists the elements in document order. */
  datatype Videos = VideosThrow(message: string) | Elements(elements: seq<Media>)

  /**
   * What the browser does during one extraction: whether launching it,
   * opening the page and configuring the page (user agent, headers,
   * interception) throw; whether navigation throws; the request batches;
   * what the DOM and video evaluations and the frames see.
   */
  datatype Script = Script(
    launch: Attempt,
    newPage: Attempt,
    setup: Attempt,
    navigation: Attempt,
    network: Network,
    page: Access,
    videos: Videos,
    frames: seq<Frame>)

  /** The extra headers set on the page (puppeteer-extractor.js:45-49), before any Referer. */
  const BaseHeaders: map<string, string> := map[
    "Accept-Language" := "en-US,en;q=0.9,fr;q=0.8",
    "Accept" := "text/html,application/xhtml+xml,application/xml;q=0.9,image/avif,image/webp,*/*;q=0.8"]

  /** What the extraction promise settles to. */
  datatype Result = Resolved(url: string) | Rejected(message: string)

  /** The calls `finally` makes, in order. */
  datatype Close = ClosePage | CloseBrowser

  /** `el.src || el.getAttribute('src')`, with `null` read as the empty string. */
  function Source(m: Media): string
  {
    if m.src != "" then m.src else OrEmpty(m.srcAttribute)
  }

  /** `src && src.includes('.m3u8')` (case-sensitive; a string holding `.m3u8` is never empty). */
  predicate Plays(m: Media)
  {
    Contains(Source(m), ".m3u8")
  }

  /** `found` is the source of the first element that plays a manifest, or nothing when none does. */
  predicate FirstPlaying(elements: seq<Media>, found: Option<string>)
  {
    match found
    case None => forall i :: 0 <= i < |elements| ==> !Plays(elements[i])
    case Some(u) =>
      exists i :: 0 <= i < |elements| && Plays(elements[i]) && Source(elements[i]) == u &&
        forall j :: 0 <= j < i ==> !Plays(elements[j])
  }

  /** An element that plays nothing, put in front, changes nothing about which element plays first. */
  lemma FirstPlayingSkip(elements: seq<Media>, found: Option<string>)
    requires |elements| > 0 && !Plays(elements[0]) && FirstPlaying(elements[1..], found)
    ensures FirstPlaying(elements, found)
  {
    var rest := elements[1..];
    if found.Some? {
      var i :| 0 <= i < |rest| && Plays(rest[i]) && Source(rest[i]) == found.value &&
               forall j :: 0 <= j < i ==> !Plays(rest[j]);
      assert elements[i + 1] == rest[i];
      assert forall j :: 1 <= j < i + 1 ==> elements[j] == rest[j - 1];
    } else {
      assert forall i :: 1 <= i < |elements| ==> elements[i] == rest[i - 1];
    }
  }

  /** The source of the first element that plays a manifest, if one does. */
  function FirstSource(elements: seq<Media>): (found: Option<string>)
    ensures FirstPlaying(elements, found)
  {
    if elements == [] then None
    else if Plays(elements[0]) then Some(Source(elements[0]))
    else
      var rest := FirstSource(elements[1..]);
      FirstPlayingSkip(elements, rest);
      rest
  }

  /** The loop of puppeteer-extractor.js:112-118 over the `video, video source` elements. */
  method FirstVideoSource(elements: seq<Media>) returns (found: Option<string>)
    ensures found == FirstSource(elements)
    ensures FirstPlaying(elements, found)
  {
    for i := 0 to |elements|
      invariant FirstSource(elements) == FirstSource(elements[i..])
    {
      assert elements[i..][1..] == elements[i + 1..];
      if Plays(elements[i]) {
        return Some(Source(elements[i]));
      }
    }
    assert elements[|elements|..] == [];
    return None;
  }

  /** What the `<video>` strategy of puppeteer-extractor.js:108-127 does; an evaluation error is swallowed. */
  function VideoAction(videos: Videos): (a: Action)
    ensures videos.VideosThrow? <==> a.VideoScanFailed?
    ensures videos.Elements? ==> a.VideoScan? && FirstPlaying(videos.elements, a.found)
  {
    match videos
    case VideosThrow(message) => VideoScanFailed(message)
    case Elements(elements) => VideoScan(FirstSource(elements))
  }

  /** The DOM strategy of puppeteer-extractor.js:91-105: the body markup (or "") scanned with the lenient pattern; an evaluation error is logged and swallowed. */
  function ScanBody(page: Access): (a: Action)
    ensures page.Denied? <==> a.BodyScanFailed?
    ensures page.Denied? ==> a == BodyScanFailed(page.message)
    ensures page.Open? ==> a == BodyScan(FirstMatch(LenientExclusions, OrEmpty(page.body)))
    ensures page.Open? && page.body.None? ==> a == BodyScan(None)
  {
    match page
    case Denied(message) => BodyScanFailed(message)
    case Open(_, body) => BodyScan(GlobalHead(LenientExclusions, OrEmpty(body)))
  }

  /**
   * One frame of the walk of puppeteer-extractor.js:133-149: no frame is
   * skipped; an evaluation that throws is swallowed; any other frame's body
   * markup (or "") is scanned with the lenient pattern.
   */
  function VisitFrame(j: nat, f: Frame): (a: Action)
    ensures a.FrameFailed? <==> f.access.Denied?
    ensures f.access.Denied? ==> a == FrameFailed(j, f.access.message)
    ensures f.access.Open? ==> a == FrameScanned(j, FirstMatch(LenientExclusions, OrEmpty(f.access.body)))
    ensures Uncaught(a).None? && !a.Check?
  {
    match f.access
    case Denied(message) => FrameFailed(j, message)
    case Open(_, body) => FrameScanned(j, GlobalHead(LenientExclusions, OrEmpty(body)))
  }

  /** The navigation, whose failure is logged and tolerated, then the 5 s wait and network check 0 (puppeteer-extractor.js:67-87). */
  function LoadPlan(url: string, sc: Script): seq<Step<Stage>>
  {
    [Step(Load, NavigateCaught(url, sc.navigation))] + WaitPlan(Network, 5000.0, 0, sc.network)
  }

  /** The frame walk, then the second 5 s wait and network check 1 (puppeteer-extractor.js:129-161). */
  function LatePlan(sc: Script): seq<Step<Stage>>
  {
    Visits(Frames, sc.frames, VisitFrame) + WaitPlan(SecondWait, 5000.0, 1, sc.network)
  }

  /** The body scan and the `<video>` scan, then `LatePlan` (puppeteer-extractor.js:89-161). */
  function StrategiesPlan(sc: Script): seq<Step<Stage>>
  {
    [Step(Dom, ScanBody(sc.page)), Step(Video, VideoAction(sc.videos))] + LatePlan(sc)
  }

  /** Everything the extraction does once the page is set up, as the script calls for it. */
  function Plan(url: string, sc: Script): seq<Step<Stage>>
  {
    LoadPlan(url, sc) + StrategiesPlan(sc)
  }

  /** The navigation and the first wait catch every error. */
  lemma LoadTolerant(url: string, sc: Script)
    ensures Tolerant(LoadPlan(url, sc))
  {
    var w := WaitPlan(Network, 5000.0, 0, sc.network);
    assert Tolerant([Step(Load, NavigateCaught(url, sc.navigation))]) && Tolerant(w);
    TolerantJoin([Step(Load, NavigateCaught(url, sc.navigation))], w);
  }

  /** The frame walk and the second wait catch every error. */
  lemma LateTolerant(sc: Script)
    ensures Tolerant(LatePlan(sc))
  {
    var visits, second := Visits(Frames, sc.frames, VisitFrame), WaitPlan(SecondWait, 5000.0, 1, sc.network);
    assert Tolerant(visits) && Tolerant(second);
    TolerantJoin(visits, second);
  }

  /** The DOM and `<video>` scans and everything after them catch every error. */
  lemma StrategiesTolerant(sc: Script)
    ensures Tolerant(StrategiesPlan(sc))
  {
    var rest := LatePlan(sc);
    LateTolerant(sc);
    ScansTolerant(sc.page, sc.videos, rest);
  }

  /** The DOM and `<video>` scans catch every error, and so does any trace after them that catches its own. */
  lemma ScansTolerant(page: Access, videos: Videos, rest: seq<Step<Stage>>)
    requires Tolerant(rest)
    ensures Tolerant([Step(Dom, ScanBody(page)), Step(Video, VideoAction(videos))] + rest)
  {
    var scans := [Step(Dom, ScanBody(page)), Step(Video, VideoAction(videos))];
    assert Tolerant(scans);
    TolerantJoin(scans, rest);
  }

  /** Every error of the plan is caught, so a run of it never ends with one. */
  lemma PlanTolerant(url: string, sc: Script)
    ensures Tolerant(Plan(url, sc)) && !Ending(Plan(url, sc)).Threw?
  {
    LoadTolerant(url, sc);
    StrategiesTolerant(sc);
    TolerantJoin(LoadPlan(url, sc), StrategiesPlan(sc));
    TolerantNeverThrows(Plan(url, sc));
  }

  /** The frame walk and the second wait come in order, and the wait's check sees what was delivered by then. */
  lemma LateForward(sc: Script)
    ensures var b := LatePlan(sc);
            Forward(b, Rank) && From(b, Rank, Rank(Frames)) && Within(b, Rank, Rank(SecondWait)) && ChecksAgree(b, sc.network)
  {
    var net := sc.network;
    var visits, second := Visits(Frames, sc.frames, VisitFrame), WaitPlan(SecondWait, 5000.0, 1, net);
    assert AllAt(visits, Frames) && ChecksAgree(visits, net);
    WaitAt(SecondWait, 5000.0, 1, net);
    Uniform(visits, Frames, Rank, Rank(Frames));
    Uniform(second, SecondWait, Rank, Rank(Frames));
    Chain(visits, second, Rank, net, Rank(Frames), Rank(Frames), Rank(SecondWait));
  }

  /** The strategies after the load come in order, from the DOM scan on. */
  lemma StrategiesForward(sc: Script)
    ensures var b := StrategiesPlan(sc);
            Forward(b, Rank) && From(b, Rank, Rank(Dom)) && Within(b, Rank, Rank(SecondWait)) && ChecksAgree(b, sc.network)
  {
    var rest := LatePlan(sc);
    LateForward(sc);
    ScansLead(ScanBody(sc.page), VideoAction(sc.videos), sc.network, rest);
  }

  /** The DOM and `<video>` scans, neither a network check, followed by any trace that comes in order from the frame walk on, come in order. */
  lemma ScansLead(dom: Action, video: Action, net: Network, rest: seq<Step<Stage>>)
    requires !dom.Check? && !video.Check?
    requires Forward(rest, Rank) && From(rest, Rank, Rank(Frames)) && Within(rest, Rank, Rank(SecondWait)) && ChecksAgree(rest, net)
    ensures var b := [Step(Dom, dom), Step(Video, video)] + rest;
            Forward(b, Rank) && From(b, Rank, Rank(Dom)) && Within(b, Rank, Rank(SecondWait)) && ChecksAgree(b, net)
  {
    var scans := [Step(Dom, dom), Step(Video, video)];
    assert Forward(scans, Rank) && From(scans, Rank, Rank(Dom)) && Within(scans, Rank, Rank(Video)) && ChecksAgree(scans, net);
    Chain(scans, rest, Rank, net, Rank(Dom), Rank(Video), Rank(SecondWait));
  }

  /** The navigation and the first wait come in order, and the wait's check sees what was delivered by then. */
  lemma LoadForward(url: string, sc: Script)
    ensures var b := LoadPlan(url, sc);
            Forward(b, Rank) && From(b, Rank, Rank(Load)) && Within(b, Rank, Rank(Network)) && ChecksAgree(b, sc.network)
  {
    var net := sc.network;
    var nav, first := [Step(Load, NavigateCaught(url, sc.navigation))], WaitPlan(Network, 5000.0, 0, net);
    WaitAt(Network, 5000.0, 0, net);
    Uniform(first, Network, Rank, Rank(Load));
    Chain(nav, first, Rank, net, Rank(Load), Rank(Load), Rank(Network));
  }

  /**
   * The strategies of the plan come in the order of `Stage`, and every
   * network check sees the first manifest among the requests delivered by
   * then.
   */
  lemma PlanForward(url: string, sc: Script)
    ensures Forward(Plan(url, sc), Rank) && ChecksAgree(Plan(url, sc), sc.network)
  {
    LoadForward(url, sc);
    StrategiesForward(sc);
    Chain(LoadPlan(url, sc), StrategiesPlan(sc), Rank, sc.network, Rank(Load), Rank(Network), Rank(SecondWait));
  }

  /**
   * A run of the plan that finds nothing has carried out all of it, and
   * ended with network check 1 seeing nothing.
   */
  lemma PlanEnds(url: string, sc: Script)
    ensures Ending(Plan(url, sc)).NotFound? ==>
              Cut(Plan(url, sc)) == Plan(url, sc) &&
              Plan(url, sc)[|Plan(url, sc)| - 1] == Step(SecondWait, Check(1, None))
  {
    var plan := Plan(url, sc);
    CutEnds(plan);
    if Ending(plan).NotFound? {
      var last := plan[|plan| - 1];
      assert last == Step(SecondWait, Check(1, Seen(sc.network, 1)));
      assert StepOutcome(last.action).NotFound?;
    }
  }

  /** The navigation, the 5 s wait and network check 0 (puppeteer-extractor.js:67-87), carried out in full. */
  method LoadStage(log: InterceptLog, url: string, sc: Script) returns (o: Outcome, steps: seq<Step<Stage>>)
    requires log.Valid() && log.continued == Delivered(sc.network, 0)
    modifies log
    ensures log.Valid() && log.continued == Delivered(sc.network, 1)
    ensures steps == LoadPlan(url, sc) && o == Ending(steps) && Cut(steps) == steps
    ensures o == StepOutcome(Check(0, Seen(sc.network, 0)))
  {
    var seen := CheckInterceptLog(log, sc.network, 0);
    var nav := Step(Load, NavigateCaught(url, sc.navigation));
    steps := [nav, Step(Network, Pause(5000.0)), Step(Network, Check(0, seen))];
    assert steps == [nav, steps[1]] + [steps[2]];
    assert StepOutcome(steps[1].action).NotFound?;
    LastDecides([nav, steps[1]], steps[2]);
    o := if seen.Some? then Found(seen.value) else NotFound;
  }

  /** The body scan, then the `<video>` scan (puppeteer-extractor.js:89-127), each ending the run when it turns up a URL. */
  method ScanStages(page: Access, videos: Videos) returns (o: Outcome, steps: seq<Step<Stage>>)
    ensures var plan := [Step(Dom, ScanBody(page)), Step(Video, VideoAction(videos))];
            o == Ending(plan) && steps == Cut(plan)
  {
    var dom := Step(Dom, ScanBody(page));
    var video := Step(Video, VideoAction(videos));
    ScanPlanEnds(dom, video);
    o := BodyStage(page);
    if !o.NotFound? {
      return o, [dom];
    }
    o := VideoStage(videos);
    steps := [dom, video];
  }

  /** The two scans as a plan: the body scan ends the run when it turns up a URL, otherwise the video scan decides. */
  lemma ScanPlanEnds(dom: Step<Stage>, video: Step<Stage>)
    ensures !StepOutcome(dom.action).NotFound? ==>
              Ending([dom, video]) == StepOutcome(dom.action) && Cut([dom, video]) == [dom]
    ensures StepOutcome(dom.action).NotFound? ==>
              Ending([dom, video]) == StepOutcome(video.action) && Cut([dom, video]) == [dom, video]
  {
    assert [dom, video] == [dom] + [video];
    CutSingle(dom);
    CutSingle(video);
    CutAppend([dom], [video]);
  }

  /** The DOM strategy of puppeteer-extractor.js:91-105 carried out: a URL in the body markup ends the run; a failed evaluation does not. */
  method BodyStage(page: Access) returns (o: Outcome)
    ensures o == StepOutcome(ScanBody(page))
    ensures o.NotFound? || (o.Found? && page.Open? && FirstMatch(LenientExclusions, OrEmpty(page.body)) == Some(o.url))
  {
    match page {
      case Open(_, body) =>
        var found := GlobalHead(LenientExclusions, OrEmpty(body));
        o := if found.Some? then Found(found.value) else NotFound;
      case Denied(_) =>
        o := NotFound;
    }
  }

  /** The `<video>` strategy of puppeteer-extractor.js:108-127 carried out: the first playing video's source ends the run; a failed evaluation does not. */
  method VideoStage(videos: Videos) returns (o: Outcome)
    ensures o == StepOutcome(VideoAction(videos))
    ensures o.NotFound? || (o.Found? && videos.Elements? && FirstPlaying(videos.elements, Some(o.url)))
  {
    var found: Option<string>;
    match videos {
      case VideosThrow(_) =>
        found := None;
      case Elements(elements) =>
        found := FirstVideoSource(elements);
    }
    o := if found.Some? then Found(found.value) else NotFound;
  }

  /** The frame walk and the second wait with its network check (puppeteer-extractor.js:129-161): the run of `LatePlan`. */
  method RunLate(log: InterceptLog, sc: Script) returns (o: Outcome, steps: seq<Step<Stage>>)
    requires log.Valid() && log.continued == Delivered(sc.network, 1)
    modifies log
    ensures o == Ending(LatePlan(sc)) && steps == Cut(LatePlan(sc))
  {
    ghost var second := WaitPlan(SecondWait, 5000.0, 1, sc.network);
    o, steps := WalkFrames(Frames, sc.frames, VisitFrame);
    CutAppend(Visits(Frames, sc.frames, VisitFrame), second);
    if !o.NotFound? {
      return;
    }
    var seen := CheckInterceptLog(log, sc.network, 1);
    WaitEnds(SecondWait, 5000.0, 1, sc.network);
    o := if seen.Some? then Found(seen.value) else NotFound;
    steps := steps + [Step(SecondWait, Pause(5000.0)), Step(SecondWait, Check(1, seen))];
  }

  /**
   * The strategies after the first network check (puppeteer-extractor.js:89-161):
   * the run of `StrategiesPlan`. A failing body scan or video scan does not
   * end the run.
   */
  method RunStrategies(log: InterceptLog, sc: Script) returns (o: Outcome, steps: seq<Step<Stage>>)
    requires log.Valid() && log.continued == Delivered(sc.network, 1)
    modifies log
    ensures o == Ending(StrategiesPlan(sc)) && steps == Cut(StrategiesPlan(sc))
  {
    o, steps := ScanStages(sc.page, sc.videos);
    CutAppend([Step(Dom, ScanBody(sc.page)), Step(Video, VideoAction(sc.videos))], LatePlan(sc));
    if !o.NotFound? {
      return;
    }
    var rest;
    o, rest := RunLate(log, sc);
    steps := steps + rest;
  }

  /**
   * The strategies once the page is set up (puppeteer-extractor.js:51-161):
   * the run of `Plan`. It never ends with an error, and finds nothing only
   * after the whole plan, the second network check seeing nothing.
   */
  method Run(url: string, sc: Script) returns (o: Outcome, steps: seq<Step<Stage>>)
    ensures o == Ending(Plan(url, sc)) && steps == Cut(Plan(url, sc))
    ensures Reports(o, steps) && Forward(steps, Rank) && ChecksAgree(steps, sc.network)
    ensures o.NotFound? || o.Found?
    ensures |steps| >= 3 && steps[..3] == LoadPlan(url, sc)
    ensures o.NotFound? ==> steps == Plan(url, sc) && steps[|steps| - 1] == Step(SecondWait, Check(1, None))
  {
    PlanTolerant(url, sc);
    PlanForward(url, sc);
    PlanEnds(url, sc);
    CutEnds(Plan(url, sc));
    CutIsPrefix(Plan(url, sc));
    PrefixKeeps(Cut(Plan(url, sc)), Plan(url, sc), Rank, sc.network);
    CutAppend(LoadPlan(url, sc), StrategiesPlan(sc));

    var log := new InterceptLog();
    o, steps := LoadStage(log, url, sc);
    if !o.NotFound? {
      return;
    }
    var rest;
    o, rest := RunStrategies(log, sc);
    steps := steps + rest;
  }

  /** What the extraction promise settles to when the strategies ended with `o`. */
  function Verdict(o: Outcome): (r: Result)
    ensures r.Resolved? <==> o.Found?
    ensures o.Found? ==> r.url == o.url
    ensures o.Threw? ==> r == Rejected(o.message)
    ensures o.NotFound? ==> r == Rejected(NoManifestMessage)
  {
    match o
    case Found(u) => Resolved(u)
    case NotFound => Rejected(NoManifestMessage)
    case Threw(message) => Rejected(message)
  }

  /**
   * `extractStreamURL(url, referer)`: launch, open and configure the page
   * (user agent, the extra headers with a truthy `referer` added as Referer,
   * request interception),
   * run the strategies, and in `finally` close the page if it was opened and
   * then the browser if it was launched; close errors are swallowed. When
   * every strategy comes back empty the extraction rejects with
   * `NoManifestMessage`.
   */
  method ExtractStreamUrl(url: string, referer: Option<string>, sc: Script)
    returns (r: Result, headers: Option<map<string, string>>, steps: seq<Step<Stage>>, closes: seq<Close>)
    ensures headers == if sc.launch.Succeeds? && sc.newPage.Succeeds? && sc.setup.Succeeds?
                       then Some(WithReferer(BaseHeaders, referer)) else None
    ensures closes == (if sc.launch.Succeeds? && sc.newPage.Succeeds? then [ClosePage] else []) +
                      (if sc.launch.Succeeds? then [CloseBrowser] else [])
    ensures sc.launch.Throws? ==> r == Rejected(sc.launch.message) && steps == []
    ensures sc.launch.Succeeds? && sc.newPage.Throws? ==> r == Rejected(sc.newPage.message) && steps == []
    ensures sc.launch.Succeeds? && sc.newPage.Succeeds? && sc.setup.Throws? ==>
              r == Rejected(sc.setup.message) && steps == []
    ensures sc.launch.Succeeds? && sc.newPage.Succeeds? && sc.setup.Succeeds? ==>
              r == Verdict(Ending(Plan(url, sc))) && steps == Cut(Plan(url, sc)) &&
              (r.Resolved? || r == Rejected(NoManifestMessage))
    ensures r.Resolved? ==> Reports(Found(r.url), steps)
    ensures r.Rejected? ==> Quiet(steps)
    ensures Forward(steps, Rank) && ChecksAgree(steps, sc.network)
  {
    steps, headers := [], None;
    if sc.launch.Throws? {
      return Rejected(sc.launch.message), headers, steps, [];
    }
    if sc.newPage.Throws? {
      return Rejected(sc.newPage.message), headers, steps, [CloseBrowser];
    }
    closes := [ClosePage, CloseBrowser];
    if sc.setup.Throws? {
      return Rejected(sc.setup.message), headers, steps, closes;
    }
    headers := Some(WithReferer(BaseHeaders, referer));
    var o;
    o, steps := Run(url, sc);
    r := if o.Found? then Resolved(o.url) else Rejected(NoManifestMessage);
  }
}
