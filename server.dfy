/**
 * The `POST /extract-stream` handler of server.js:23-163: a real browser
 * that gets past Cloudflare's challenge, then the network log checked after
 * each of a wait, a click at the centre of the viewport, a click at the
 * centre of every large iframe and a long wait; then the frames' and the
 * page's markup scanned with the strict pattern. It answers with a JSON body
 * and closes the browser exactly once whenever it was connected.
 */
module RealBrowserServer {
  import opened Wrappers
  import opened Text
  import opened Scanner
  import opened Sniffer
  import opened HumanMotion
  import opened Driver

  /** The strategies, in the order the handler runs them. */
  datatype Stage = Load | CentreClick | Iframes | ExtendedWait | Frames | FinalDom

  function Rank(s: Stage): nat
  {
    match s
    case Load => 0
    case CentreClick => 1
    case Iframes => 2
    case ExtendedWait => 3
    case Frames => 4
    case FinalDom => 5
  }

  /** The fields of the JSON request body the handler reads. */
  datatype Request = Request(url: Option<string>, referer: Option<string>)

  /** The JSON reply body: `{ success: true, m3u8Url }` or `{ success: false, error }`. */
  datatype Body = Success(m3u8Url: string) | Failure(error: string)

  /** An HTTP status and a JSON body. */
  datatype Reply = Reply(status: nat, body: Body)

  const MissingUrlMessage := "Missing url parameter"
  const NoManifestMessage := "No M3U8 found after CF v2 bypass and player interaction"
  /** The `TypeError` V8 throws at `viewport.width` when `page.viewport()` is `null`. */
  const NoViewportMessage := "Cannot read properties of null (reading 'width')"

  /** The size of the viewport, as `page.viewport()` returns it. */
  datatype Viewport = Viewport(width: real, height: real)

  /** What `page.$$('iframe')` gives: it throws, or the iframes' probes in document order. */
  datatype IframeList = IframesThrow(message: string) | Listed(iframes: seq<IframeProbe>)

  /**
   * What the real browser does during one request: whether connecting,
   * setting the Referer header, navigating and the centre click throw; the
   * request batches; the viewport; the iframes; the frames; what the final
   * page evaluation sees.
   */
  datatype Script = Script(
    connect: Attempt,
    setReferer: Attempt,
    navigation: Attempt,
    network: Network,
    viewport: Option<Viewport>,
    centreClick: Attempt,
    iframes: IframeList,
    frames: seq<Frame>,
    page: Access)

  /** The calls that close the browser. */
  datatype Close = CloseBrowser

  /**
   * The message of the first operation of the script that throws, in the
   * order the handler performs them: the error a 500 reply carries when the
   * run gets that far.
   */
  function FirstFailure(referer: Option<string>, sc: Script): Option<string>
  {
    if sc.connect.Throws? then Some(sc.connect.message)
    else if Truthy(referer) && sc.setReferer.Throws? then Some(sc.setReferer.message)
    else if sc.navigation.Throws? then Some(sc.navigation.message)
    else if sc.viewport.None? then Some(NoViewportMessage)
    else if sc.centreClick.Throws? then Some(sc.centreClick.message)
    else if sc.iframes.IframesThrow? then Some(sc.iframes.message)
    else if sc.page.Denied? then Some(sc.page.message)
    else None
  }

  /** An iframe the handler clicks: wider and taller than 100 pixels. */
  predicate Large(box: Rect)
  {
    box.width > 100.0 && box.height > 100.0
  }

  /** An iframe probe that ends in a click at the centre of a large box that did not throw. */
  predicate Clicked(p: IframeProbe)
  {
    p.Sized? && Large(p.box) && p.click.Succeeds?
  }

  /**
   * A run ends with the error `failure` names, unless it turned up a URL
   * first, and throws nothing when `failure` names none.
   */
  predicate ThrowsFirst(o: Outcome, failure: Option<string>)
  {
    (o.Threw? ==> failure == Some(o.message)) &&
    (failure.Some? ==> o.Found? || o == Threw(failure.value))
  }

  /** Two plans carried out one after the other end with the first one's error, if it has one, and otherwise with the second's. */
  lemma ThrowsFirstAppend(a: seq<Step<Stage>>, b: seq<Step<Stage>>, fa: Option<string>, fb: Option<string>)
    requires ThrowsFirst(Ending(a), fa) && ThrowsFirst(Ending(b), fb)
    ensures ThrowsFirst(Ending(a + b), if fa.Some? then fa else fb)
  {
    CutAppend(a, b);
  }

  /** The indices from `lo` up to, not including, `hi`. */
  function Range(lo: nat, hi: nat): (r: seq<nat>)
    ensures |r| == if lo <= hi then hi - lo else 0
    ensures forall t :: 0 <= t < |r| ==> r[t] == lo + t
    decreases hi - lo
  {
    if lo >= hi then [] else [lo] + Range(lo + 1, hi)
  }

  /** The indices of the iframes a block probed, in order. */
  function Probed(steps: seq<Step<Stage>>): seq<nat>
  {
    if steps == [] then []
    else
      var last := steps[|steps| - 1].action;
      Probed(steps[..|steps| - 1]) + if last.Iframe? then [last.index] else []
  }

  /** The iframes probed by two blocks in a row are those of the first, then those of the second. */
  lemma {:induction false} ProbedAppend(a: seq<Step<Stage>>, b: seq<Step<Stage>>)
    ensures Probed(a + b) == Probed(a) + Probed(b)
    decreases |b|
  {
    if b == [] {
      assert a + b == a;
    } else {
      var init := b[..|b| - 1];
      assert a + b == (a + init) + [b[|b| - 1]];
      assert (a + b)[..|a + b| - 1] == a + init;
      ProbedAppend(a, init);
    }
  }

  /** A block without iframe probes probed no iframe. */
  lemma {:induction false} NoneProbed(steps: seq<Step<Stage>>)
    requires forall i :: 0 <= i < |steps| ==> !steps[i].action.Iframe?
    ensures Probed(steps) == []
  {
    if steps != [] {
      NoneProbed(steps[..|steps| - 1]);
    }
  }

  /** The network checkpoint after iframe probe `p`, when checkpoint `k` is next. */
  function NextCheck(p: IframeProbe, k: nat): nat
  {
    if Clicked(p) then k + 1 else k
  }

  /**
   * Iframe `i` of the loop of server.js:95-112: its probe, and, when it has
   * a large box whose click did not throw, the click at the centre of the
   * box, a 5 s wait and network checkpoint `k`; an error while getting the
   * box or clicking is caught, and a missing or small box is passed over.
   */
  function IframeBlock(i: nat, p: IframeProbe, k: nat, net: Network): seq<Step<Stage>>
  {
    if Clicked(p) then
      [Step(Iframes, Iframe(i, p)), Step(Iframes, MouseClick(Centre(p.box))),
       Step(Iframes, Pause(5000.0)), Step(Iframes, Check(k, Seen(net, k)))]
    else
      [Step(Iframes, Iframe(i, p))]
  }

  /** The iframe loop from iframe `i` on, with network checkpoint `k` next. */
  function IframesPlan(iframes: seq<IframeProbe>, i: nat, k: nat, net: Network): seq<Step<Stage>>
    decreases |iframes| - i
  {
    if i >= |iframes| then []
    else IframeBlock(i, iframes[i], k, net) + IframesPlan(iframes, i + 1, NextCheck(iframes[i], k), net)
  }

  /** The network checkpoint after the iframe loop from iframe `i` on, when no click turned up a URL. */
  function IframesCheck(iframes: seq<IframeProbe>, i: nat, k: nat): nat
    decreases |iframes| - i
  {
    if i >= |iframes| then k else IframesCheck(iframes, i + 1, NextCheck(iframes[i], k))
  }

  /**
   * Step `t` of the block follows the script: an iframe probe is the
   * script's probe of that iframe and, when it ends in a click, is followed
   * by the click at the centre of its box, a 5 s wait and a network check;
   * a click comes right after the probe of a large iframe, at its centre.
   */
  predicate IframeAt(block: seq<Step<Stage>>, t: nat, iframes: seq<IframeProbe>)
  {
    t < |block| &&
    (block[t].action.Iframe? ==>
       block[t].action.index < |iframes| && block[t].action.outcome == iframes[block[t].action.index] &&
       (Clicked(block[t].action.outcome) ==>
          t + 3 < |block| && block[t + 1].action == MouseClick(Centre(block[t].action.outcome.box)) &&
          block[t + 2].action == Pause(5000.0) && block[t + 3].action.Check?)) &&
    (block[t].action.MouseClick? ==>
       1 <= t && block[t - 1].action.Iframe? && Clicked(block[t - 1].action.outcome) &&
       block[t].action.at == Centre(block[t - 1].action.outcome.box))
  }

  /** Every step of the block follows the script. */
  predicate IframesFollow(block: seq<Step<Stage>>, iframes: seq<IframeProbe>)
  {
    forall t :: 0 <= t < |block| ==> IframeAt(block, t, iframes)
  }

  /** Two blocks that follow the script, one after the other, follow it. */
  lemma IframesFollowAppend(a: seq<Step<Stage>>, b: seq<Step<Stage>>, iframes: seq<IframeProbe>)
    requires IframesFollow(a, iframes) && IframesFollow(b, iframes)
    ensures IframesFollow(a + b, iframes)
  {
    var all := a + b;
    forall t | 0 <= t < |all|
      ensures IframeAt(all, t, iframes)
    {
      if t < |a| {
        assert IframeAt(a, t, iframes);
        assert all[t] == a[t];
        if a[t].action.Iframe? && Clicked(a[t].action.outcome) {
          assert all[t + 1] == a[t + 1] && all[t + 2] == a[t + 2] && all[t + 3] == a[t + 3];
        }
        if a[t].action.MouseClick? {
          assert all[t - 1] == a[t - 1];
        }
      } else {
        var u := t - |a|;
        assert IframeAt(b, u, iframes);
        assert all[t] == b[u];
        if b[u].action.Iframe? && Clicked(b[u].action.outcome) {
          assert all[t + 1] == b[u + 1] && all[t + 2] == b[u + 2] && all[t + 3] == b[u + 3];
        }
        if b[u].action.MouseClick? {
          assert all[t - 1] == b[u - 1];
        }
      }
    }
  }

  /** An iframe's block follows the script and probes that one iframe. */
  lemma IframeBlockFollows(iframes: seq<IframeProbe>, i: nat, k: nat, net: Network)
    requires i < |iframes|
    ensures var b := IframeBlock(i, iframes[i], k, net);
            IframesFollow(b, iframes) && Probed(b) == [i]
  {
    var b := IframeBlock(i, iframes[i], k, net);
    if Clicked(iframes[i]) {
      assert b == [b[0]] + b[1..];
      NoneProbed(b[1..]);
      ProbedAppend([b[0]], b[1..]);
      assert [b[0]][..0] == [];
    } else {
      assert b[..0] == [];
    }
  }

  /**
   * An iframe's block catches every error and is carried out in full; it
   * ends the run exactly when the iframe was clicked and the network check
   * after the click sees a URL.
   */
  lemma IframeBlockEnds(iframes: seq<IframeProbe>, i: nat, k: nat, net: Network)
    requires i < |iframes|
    ensures var b := IframeBlock(i, iframes[i], k, net);
            AllAt(b, Iframes) && ChecksAgree(b, net) && Tolerant(b) &&
            Cut(b) == b && Ending(b) == if Clicked(iframes[i]) then StepOutcome(Check(k, Seen(net, k))) else NotFound
  {
    var b := IframeBlock(i, iframes[i], k, net);
    if Clicked(iframes[i]) {
      assert b == b[..3] + [b[3]];
      LastDecides(b[..3], b[3]);
    } else {
      CutSingle(b[0]);
    }
  }

  /**
   * The iframe loop from iframe `i` on probes every iframe from `i` on, in
   * document order, each as the script says; all its errors are caught and
   * its checkpoints agree with the network.
   */
  lemma {:induction false} IframesPlanShape(iframes: seq<IframeProbe>, i: nat, k: nat, net: Network)
    requires i <= |iframes|
    ensures var b := IframesPlan(iframes, i, k, net);
            Probed(b) == Range(i, |iframes|) && IframesFollow(b, iframes) &&
            AllAt(b, Iframes) && ChecksAgree(b, net) && Tolerant(b)
    decreases |iframes| - i
  {
    if i < |iframes| {
      var chunk := IframeBlock(i, iframes[i], k, net);
      var rest := IframesPlan(iframes, i + 1, NextCheck(iframes[i], k), net);
      IframeBlockFollows(iframes, i, k, net);
      IframeBlockEnds(iframes, i, k, net);
      IframesPlanShape(iframes, i + 1, NextCheck(iframes[i], k), net);
      IframesFollowAppend(chunk, rest, iframes);
      ProbedAppend(chunk, rest);
      Joined(chunk, rest, Iframes, net);
    } else {
      assert IframesPlan(iframes, i, k, net) == [];
    }
  }

  /**
   * One frame of the deep frame search of server.js:126-140: no frame is
   * skipped; an evaluation that throws is swallowed; any other frame's
   * `documentElement` markup (or "") is scanned with the strict pattern.
   */
  function VisitFrame(j: nat, f: Frame): (a: Action)
    ensures a.FrameFailed? <==> f.access.Denied?
    ensures f.access.Denied? ==> a == FrameFailed(j, f.access.message)
    ensures f.access.Open? ==> a == FrameScanned(j, FirstMatch(StrictExclusions, OrEmpty(f.access.documentElement)))
    ensures Uncaught(a).None? && !a.Check?
  {
    match f.access
    case Denied(message) => FrameFailed(j, message)
    case Open(html, _) => FrameScanned(j, FirstMatch(StrictExclusions, OrEmpty(html)))
  }

  /** The centre of the viewport, where the player is clicked. */
  function ViewportCentre(v: Viewport): Point
  {
    Point(v.width / 2.0, v.height / 2.0)
  }

  /** The Referer header, set only when `referer` is truthy (server.js:60-62); its error is not caught. */
  function RefererPlan(referer: Option<string>, sc: Script): seq<Step<Stage>>
  {
    if Truthy(referer) then [Step(Load, SetReferer(referer.value, sc.setReferer))] else []
  }

  /** The navigation, whose error is not caught, the 5 s wait and network check 0 (server.js:64-76). */
  function NavigationPlan(url: string, sc: Script): seq<Step<Stage>>
  {
    [Step(Load, Navigate(url, sc.navigation)), Step(Load, Pause(5000.0)), Step(Load, Check(0, Seen(sc.network, 0)))]
  }

  /** Loading the page (server.js:60-76). */
  function LoadPlan(url: string, referer: Option<string>, sc: Script): seq<Step<Stage>>
  {
    RefererPlan(referer, sc) + NavigationPlan(url, sc)
  }

  /**
   * The click at the centre of the viewport, the 3 s wait and network check 1
   * (server.js:78-88); reading the width of a `null` viewport or a click
   * that throws is an error that is not caught.
   */
  function CentrePlan(sc: Script): seq<Step<Stage>>
  {
    match sc.viewport
    case None => [Step(CentreClick, Fault(NoViewportMessage))]
    case Some(v) =>
      if sc.centreClick.Throws? then [Step(CentreClick, Fault(sc.centreClick.message))]
      else
        [Step(CentreClick, MouseClick(ViewportCentre(v))), Step(CentreClick, Pause(3000.0)),
         Step(CentreClick, Check(1, Seen(sc.network, 1)))]
  }

  /** The iframe loop (server.js:90-112), whose listing of the iframes is an error that is not caught. */
  function IframePlan(sc: Script): seq<Step<Stage>>
  {
    match sc.iframes
    case IframesThrow(message) => [Step(Iframes, Fault(message))]
    case Listed(iframes) => IframesPlan(iframes, 0, 2, sc.network)
  }

  /** The network checkpoint after the iframe loop, when it ran to its end. */
  function AfterIframes(sc: Script): nat
  {
    match sc.iframes
    case IframesThrow(_) => 2
    case Listed(iframes) => IframesCheck(iframes, 0, 2)
  }

  /** The deep frame search, then the final DOM search, whose evaluation error is not caught (server.js:124-153). */
  function SearchPlan(sc: Script): seq<Step<Stage>>
  {
    Visits(Frames, sc.frames, VisitFrame) + [Step(FinalDom, ScanPage(sc.page))]
  }

  /** The 20 s wait and network checkpoint `k`, then `SearchPlan` (server.js:114-153). */
  function LatePlan(sc: Script, k: nat): seq<Step<Stage>>
  {
    WaitPlan(ExtendedWait, 20000.0, k, sc.network) + SearchPlan(sc)
  }

  /** The iframe loop, then `LatePlan` (server.js:90-153). */
  function AfterCentrePlan(sc: Script): seq<Step<Stage>>
  {
    IframePlan(sc) + LatePlan(sc, AfterIframes(sc))
  }

  /** The centre click, then `AfterCentrePlan` (server.js:78-153). */
  function MiddlePlan(sc: Script): seq<Step<Stage>>
  {
    CentrePlan(sc) + AfterCentrePlan(sc)
  }

  /** Everything the handler does once the browser is connected, as the script calls for it (server.js:49-153). */
  function Plan(url: string, referer: Option<string>, sc: Script): seq<Step<Stage>>
  {
    LoadPlan(url, referer, sc) + MiddlePlan(sc)
  }

  /** Loading the page ends the run with the Referer's error, else the navigation's, else as network check 0 does. */
  lemma LoadEnds(url: string, referer: Option<string>, sc: Script)
    ensures ThrowsFirst(Ending(LoadPlan(url, referer, sc)),
                        if Truthy(referer) && sc.setReferer.Throws? then Some(sc.setReferer.message)
                        else if sc.navigation.Throws? then Some(sc.navigation.message) else None)
    ensures !Ending(LoadPlan(url, referer, sc)).Threw? ==>
              Ending(LoadPlan(url, referer, sc)) == StepOutcome(Check(0, Seen(sc.network, 0))) &&
              Cut(LoadPlan(url, referer, sc)) == LoadPlan(url, referer, sc)
  {
    var r, n := RefererPlan(referer, sc), NavigationPlan(url, sc);
    if Truthy(referer) {
      CutSingle(r[0]);
    }
    assert n == [n[0]] + n[1..];
    CutSingle(n[0]);
    CutAppend([n[0]], n[1..]);
    if sc.navigation.Succeeds? {
      assert n == n[..2] + [n[2]];
      LastDecides(n[..2], n[2]);
    }
    CutAppend(r, n);
    ThrowsFirstAppend(r, n, if Truthy(referer) && sc.setReferer.Throws? then Some(sc.setReferer.message) else None,
                      if sc.navigation.Throws? then Some(sc.navigation.message) else None);
  }

  /** The centre click ends the run with the viewport's or the click's error, else as network check 1 does. */
  lemma CentreEnds(sc: Script)
    ensures ThrowsFirst(Ending(CentrePlan(sc)),
                        if sc.viewport.None? then Some(NoViewportMessage)
                        else if sc.centreClick.Throws? then Some(sc.centreClick.message) else None)
    ensures !Ending(CentrePlan(sc)).Threw? ==>
              Ending(CentrePlan(sc)) == StepOutcome(Check(1, Seen(sc.network, 1))) && Cut(CentrePlan(sc)) == CentrePlan(sc)
    ensures Cut(CentrePlan(sc)) == CentrePlan(sc)
  {
    var c := CentrePlan(sc);
    if sc.viewport.Some? && sc.centreClick.Succeeds? {
      assert c == c[..2] + [c[2]];
      LastDecides(c[..2], c[2]);
    } else {
      CutSingle(c[0]);
    }
  }

  /**
   * The iframe loop ends the run with the error of listing the iframes;
   * otherwise it throws nothing, having probed the iframes in order.
   */
  lemma IframesEnd(sc: Script)
    ensures ThrowsFirst(Ending(IframePlan(sc)), if sc.iframes.IframesThrow? then Some(sc.iframes.message) else None)
    ensures sc.iframes.IframesThrow? ==> Cut(IframePlan(sc)) == IframePlan(sc)
    ensures sc.iframes.Listed? ==>
              Tolerant(IframePlan(sc)) && Probed(IframePlan(sc)) == Range(0, |sc.iframes.iframes|) &&
              IframesFollow(IframePlan(sc), sc.iframes.iframes)
  {
    match sc.iframes
    case IframesThrow(_) =>
      CutSingle(IframePlan(sc)[0]);
    case Listed(iframes) =>
      IframesPlanShape(iframes, 0, 2, sc.network);
      TolerantNeverThrows(IframePlan(sc));
  }

  /**
   * The strategies after the iframe loop end the run with the final DOM
   * search's error unless a URL turned up first, and throw nothing else;
   * when they find nothing they have been carried out in full, the final
   * search of an open page finding nothing.
   */
  lemma LateEnds(sc: Script, k: nat)
    ensures ThrowsFirst(Ending(LatePlan(sc, k)), if sc.page.Denied? then Some(sc.page.message) else None)
    ensures var b := LatePlan(sc, k);
            Ending(b).NotFound? ==> Cut(b) == b && sc.page.Open? && b[|b| - 1] == Step(FinalDom, DomScan(None))
  {
    LateThrows(sc, k);
    LateNotFound(sc, k);
  }

  /** The wait and the frame search before the final DOM search catch every error. */
  lemma LateHeadTolerant(sc: Script, k: nat)
    ensures var head := WaitPlan(ExtendedWait, 20000.0, k, sc.network) + Visits(Frames, sc.frames, VisitFrame);
            Tolerant(head) && LatePlan(sc, k) == head + [Step(FinalDom, ScanPage(sc.page))]
  {
    var wait, visits := WaitPlan(ExtendedWait, 20000.0, k, sc.network), Visits(Frames, sc.frames, VisitFrame);
    assert Tolerant(wait) && Tolerant(visits);
    TolerantJoin(wait, visits);
    assert wait + SearchPlan(sc) == (wait + visits) + [Step(FinalDom, ScanPage(sc.page))];
  }

  /** After the iframe loop, the only error that can end the run is the final DOM search's, unless a URL turned up first. */
  lemma LateThrows(sc: Script, k: nat)
    ensures ThrowsFirst(Ending(LatePlan(sc, k)), if sc.page.Denied? then Some(sc.page.message) else None)
  {
    var head, scan := WaitPlan(ExtendedWait, 20000.0, k, sc.network) + Visits(Frames, sc.frames, VisitFrame),
                      Step(FinalDom, ScanPage(sc.page));
    LateHeadTolerant(sc, k);
    TolerantNeverThrows(head);
    EndingAppend(head, [scan]);
    CutSingle(scan);
    ScanPageEnds(sc.page);
  }

  /** A run after the iframe loop that finds nothing has carried out all of it, the final search of an open page finding nothing. */
  lemma LateNotFound(sc: Script, k: nat)
    ensures var b := LatePlan(sc, k);
            Ending(b).NotFound? ==> Cut(b) == b && sc.page.Open? && b[|b| - 1] == Step(FinalDom, DomScan(None))
  {
    var head, scan := WaitPlan(ExtendedWait, 20000.0, k, sc.network) + Visits(Frames, sc.frames, VisitFrame),
                      Step(FinalDom, ScanPage(sc.page));
    LateHeadTolerant(sc, k);
    CutAppend(head, [scan]);
    CutSingle(scan);
    ScanPageEnds(sc.page);
  }

  /** The errors that can end the run from the iframe loop on, in the order the handler meets them. */
  function AfterCentreFailure(sc: Script): Option<string>
  {
    if sc.iframes.IframesThrow? then Some(sc.iframes.message)
    else if sc.page.Denied? then Some(sc.page.message)
    else None
  }

  /** The errors that can end the run from the centre click on, in the order the handler meets them. */
  function MiddleFailure(sc: Script): Option<string>
  {
    if sc.viewport.None? then Some(NoViewportMessage)
    else if sc.centreClick.Throws? then Some(sc.centreClick.message)
    else AfterCentreFailure(sc)
  }

  /** From the iframe loop on, the run ends with the first of `AfterCentreFailure`'s errors unless a URL turned up first. */
  lemma AfterCentreEnds(sc: Script)
    ensures ThrowsFirst(Ending(AfterCentrePlan(sc)), AfterCentreFailure(sc))
  {
    LateEnds(sc, AfterIframes(sc));
    IframesEnd(sc);
    ThrowsFirstAppend(IframePlan(sc), LatePlan(sc, AfterIframes(sc)),
                      if sc.iframes.IframesThrow? then Some(sc.iframes.message) else None,
                      if sc.page.Denied? then Some(sc.page.message) else None);
  }

  /** From the centre click on, the run ends with the first of `MiddleFailure`'s errors unless a URL turned up first. */
  lemma MiddleEnds(sc: Script)
    ensures ThrowsFirst(Ending(MiddlePlan(sc)), MiddleFailure(sc))
  {
    AfterCentreEnds(sc);
    CentreEnds(sc);
    ThrowsFirstAppend(CentrePlan(sc), AfterCentrePlan(sc),
                      if sc.viewport.None? then Some(NoViewportMessage)
                      else if sc.centreClick.Throws? then Some(sc.centreClick.message) else None,
                      AfterCentreFailure(sc));
  }

  /**
   * How the plan ends once the browser is connected: with the error of the
   * first operation that throws (`FirstFailure`), unless a URL turned up
   * before it, and with no error when none throws; a run that finds
   * nothing has been carried out in full.
   */
  lemma PlanEnds(url: string, referer: Option<string>, sc: Script)
    ensures sc.connect.Succeeds? ==> ThrowsFirst(Ending(Plan(url, referer, sc)), FirstFailure(referer, sc))
    ensures var p := Plan(url, referer, sc);
            Ending(p).NotFound? ==> Cut(p) == p && sc.page.Open? && p[|p| - 1] == Step(FinalDom, DomScan(None))
  {
    MiddleEnds(sc);
    LoadEnds(url, referer, sc);
    ThrowsFirstAppend(LoadPlan(url, referer, sc), MiddlePlan(sc),
                      if Truthy(referer) && sc.setReferer.Throws? then Some(sc.setReferer.message)
                      else if sc.navigation.Throws? then Some(sc.navigation.message) else None,
                      MiddleFailure(sc));
    NotFoundRunsAll(url, referer, sc);
  }

  /** A run of the plan that finds nothing has carried out all of it, ending with a final search of an open page that found nothing. */
  lemma NotFoundRunsAll(url: string, referer: Option<string>, sc: Script)
    ensures var p := Plan(url, referer, sc);
            Ending(p).NotFound? ==> Cut(p) == p && sc.page.Open? && p[|p| - 1] == Step(FinalDom, DomScan(None))
  {
    var p := Plan(url, referer, sc);
    CutEnds(p);
    if Ending(p).NotFound? {
      var late := LatePlan(sc, AfterIframes(sc));
      assert p[|p| - 1] == late[|late| - 1];
      LateEnds(sc, AfterIframes(sc));
      CutEnds(late);
      assert StepOutcome(p[|p| - 1].action).NotFound?;
      ScanPageEnds(sc.page);
    }
  }

  /** The strategies from the 20 s wait on come in order, and their network check agrees with the network. */
  lemma LateForward(sc: Script, k: nat)
    ensures var b := LatePlan(sc, k);
            Forward(b, Rank) && From(b, Rank, Rank(ExtendedWait)) && Within(b, Rank, Rank(FinalDom)) && ChecksAgree(b, sc.network)
  {
    var net := sc.network;
    var wait, visits, scan := WaitPlan(ExtendedWait, 20000.0, k, net), Visits(Frames, sc.frames, VisitFrame),
                              [Step(FinalDom, ScanPage(sc.page))];
    assert AllAt(visits, Frames) && ChecksAgree(visits, net);
    Uniform(visits, Frames, Rank, Rank(Frames));
    Uniform(scan, FinalDom, Rank, Rank(Frames));
    Chain(visits, scan, Rank, net, Rank(Frames), Rank(Frames), Rank(FinalDom));
    WaitAt(ExtendedWait, 20000.0, k, net);
    Uniform(wait, ExtendedWait, Rank, Rank(ExtendedWait));
    Chain(wait, SearchPlan(sc), Rank, net, Rank(ExtendedWait), Rank(ExtendedWait), Rank(FinalDom));
  }

  /** The strategies from the iframe loop on come in order, and their network checks agree with the network. */
  lemma AfterCentreForward(sc: Script)
    ensures var b := AfterCentrePlan(sc);
            Forward(b, Rank) && From(b, Rank, Rank(Iframes)) && Within(b, Rank, Rank(FinalDom)) && ChecksAgree(b, sc.network)
  {
    var net := sc.network;
    LateForward(sc, AfterIframes(sc));
    var iframes := IframePlan(sc);
    if sc.iframes.Listed? {
      IframesPlanShape(sc.iframes.iframes, 0, 2, net);
    }
    assert AllAt(iframes, Iframes) && ChecksAgree(iframes, net);
    Uniform(iframes, Iframes, Rank, Rank(Iframes));
    Chain(iframes, LatePlan(sc, AfterIframes(sc)), Rank, net, Rank(Iframes), Rank(Iframes), Rank(FinalDom));
  }

  /** The strategies from the centre click on come in order, and their network checks agree with the network. */
  lemma MiddleForward(sc: Script)
    ensures var b := MiddlePlan(sc);
            Forward(b, Rank) && From(b, Rank, Rank(CentreClick)) && Within(b, Rank, Rank(FinalDom)) && ChecksAgree(b, sc.network)
  {
    var net := sc.network;
    AfterCentreForward(sc);
    var centre := CentrePlan(sc);
    assert AllAt(centre, CentreClick) && ChecksAgree(centre, net);
    Uniform(centre, CentreClick, Rank, Rank(CentreClick));
    Chain(centre, AfterCentrePlan(sc), Rank, net, Rank(CentreClick), Rank(CentreClick), Rank(FinalDom));
  }

  /** The load belongs to one strategy, and its network check sees what was delivered by then. */
  lemma LoadAt(url: string, referer: Option<string>, sc: Script)
    ensures AllAt(LoadPlan(url, referer, sc), Load) && ChecksAgree(LoadPlan(url, referer, sc), sc.network)
  {
    var r, n := RefererPlan(referer, sc), NavigationPlan(url, sc);
    assert AllAt(r, Load) && AllAt(n, Load);
    assert n[2].action == Check(0, Seen(sc.network, 0));
    var b := r + n;
    forall i | 0 <= i < |b|
      ensures b[i] == if i < |r| then r[i] else n[i - |r|]
    {
    }
  }

  /**
   * The strategies of the plan come in the order of `Stage`, and every
   * network check sees the first manifest among the requests delivered by
   * then.
   */
  lemma PlanForward(url: string, referer: Option<string>, sc: Script)
    ensures Forward(Plan(url, referer, sc), Rank) && ChecksAgree(Plan(url, referer, sc), sc.network)
  {
    var net := sc.network;
    MiddleForward(sc);
    LoadAt(url, referer, sc);
    Opens(LoadPlan(url, referer, sc), MiddlePlan(sc), Load, Rank, net, Rank(CentreClick), Rank(FinalDom));
  }

  /**
   * The steps carried out before the run stops report its outcome, come in
   * the order of `Stage`, and their network checks agree with the network.
   */
  lemma PlanRuns(url: string, referer: Option<string>, sc: Script)
    ensures var p := Plan(url, referer, sc);
            Reports(Ending(p), Cut(p)) && Forward(Cut(p), Rank) && ChecksAgree(Cut(p), sc.network)
  {
    var p := Plan(url, referer, sc);
    PlanForward(url, referer, sc);
    CutEnds(p);
    CutIsPrefix(p);
    PrefixKeeps(Cut(p), p, Rank, sc.network);
  }

  /** The first step carried out sets the Referer header exactly when the request's `referer` is truthy. */
  lemma RefererFirst(url: string, referer: Option<string>, sc: Script)
    ensures var c := Cut(Plan(url, referer, sc));
            (Truthy(referer) <==> |c| > 0 && c[0].action.SetReferer?) &&
            (Truthy(referer) ==> |c| > 0 && c[0].action == SetReferer(referer.value, sc.setReferer))
  {
    var p := Plan(url, referer, sc);
    CutIsPrefix(p);
    CutEnds(p);
    assert p[0] == LoadPlan(url, referer, sc)[0];
    assert Cut(p) != [] && Cut(p)[0] == p[0];
  }

  /**
   * The Referer header, the navigation, the 5 s wait and network check 0
   * (server.js:60-76): the run of `LoadPlan`.
   */
  method LoadStage(log: SniffLog, url: string, referer: Option<string>, sc: Script)
    returns (o: Outcome, steps: seq<Step<Stage>>)
    requires log.Valid() && log.requests == Delivered(sc.network, 0)
    modifies log
    ensures o == Ending(LoadPlan(url, referer, sc)) && steps == Cut(LoadPlan(url, referer, sc))
    ensures !o.Threw? ==> log.Valid() && log.requests == Delivered(sc.network, 1)
  {
    LoadEnds(url, referer, sc);
    ghost var r, n := RefererPlan(referer, sc), NavigationPlan(url, sc);
    CutAppend(r, n);
    steps := [];
    if Truthy(referer) {
      steps := [Step(Load, SetReferer(referer.value, sc.setReferer))];
      CutSingle(steps[0]);
      if sc.setReferer.Throws? {
        return Threw(sc.setReferer.message), steps;
      }
    }
    var navigate := Step(Load, Navigate(url, sc.navigation));
    assert n == [navigate] + n[1..];
    CutSingle(navigate);
    CutAppend([navigate], n[1..]);
    steps := steps + [navigate];
    if sc.navigation.Throws? {
      return Threw(sc.navigation.message), steps;
    }
    var seen := CheckSniffLog(log, sc.network, 0);
    o := if seen.Some? then Found(seen.value) else NotFound;
    steps := steps + [Step(Load, Pause(5000.0)), Step(Load, Check(0, seen))];
  }

  /** The click at the centre of the viewport, the 3 s wait and network check 1 (server.js:78-88): the run of `CentrePlan`. */
  method CentreStage(log: SniffLog, sc: Script) returns (o: Outcome, steps: seq<Step<Stage>>)
    requires log.Valid() && log.requests == Delivered(sc.network, 1)
    modifies log
    ensures o == Ending(CentrePlan(sc)) && steps == Cut(CentrePlan(sc))
    ensures !o.Threw? ==> log.Valid() && log.requests == Delivered(sc.network, 2)
    ensures o.Threw? <==> sc.viewport.None? || sc.centreClick.Throws?
  {
    CentreEnds(sc);
    if sc.viewport.None? {
      return Threw(NoViewportMessage), [Step(CentreClick, Fault(NoViewportMessage))];
    }
    if sc.centreClick.Throws? {
      return Threw(sc.centreClick.message), [Step(CentreClick, Fault(sc.centreClick.message))];
    }
    var seen := CheckSniffLog(log, sc.network, 1);
    o := if seen.Some? then Found(seen.value) else NotFound;
    steps := [Step(CentreClick, MouseClick(ViewportCentre(sc.viewport.value))), Step(CentreClick, Pause(3000.0)),
              Step(CentreClick, Check(1, seen))];
  }

  /** The click at the centre of a large iframe, the 5 s wait and network check `k`. */
  method ClickIframe(log: SniffLog, net: Network, k: nat, i: nat, p: IframeProbe)
    returns (chunk: seq<Step<Stage>>, seen: Option<string>)
    requires Clicked(p) && log.Valid() && log.requests == Delivered(net, k)
    modifies log
    ensures log.Valid() && log.requests == Delivered(net, k + 1)
    ensures chunk == IframeBlock(i, p, k, net) && seen == Seen(net, k)
  {
    seen := CheckSniffLog(log, net, k);
    chunk := [Step(Iframes, Iframe(i, p)), Step(Iframes, MouseClick(Centre(p.box))), Step(Iframes, Pause(5000.0)),
              Step(Iframes, Check(k, seen))];
  }

  /**
   * Iframe `i` of the loop of server.js:95-112: an error while getting its
   * box or clicking is caught and the loop goes on; a missing or small box
   * is passed over; a large one is clicked as `ClickIframe` says.
   */
  method ProbeIframe(log: SniffLog, iframes: seq<IframeProbe>, net: Network, k: nat, i: nat)
    returns (o: Outcome, chunk: seq<Step<Stage>>, k': nat)
    requires i < |iframes| && log.Valid() && log.requests == Delivered(net, k)
    modifies log
    ensures log.Valid() && log.requests == Delivered(net, k')
    ensures chunk == IframeBlock(i, iframes[i], k, net) && o == Ending(chunk)
    ensures k' == NextCheck(iframes[i], k)
  {
    var p := iframes[i];
    IframeBlockEnds(iframes, i, k, net);
    if Clicked(p) {
      var seen;
      chunk, seen := ClickIframe(log, net, k, i, p);
      k' := k + 1;
      o := if seen.Some? then Found(seen.value) else NotFound;
    } else {
      k', o := k, NotFound;
      chunk := [Step(Iframes, Iframe(i, p))];
    }
  }

  /**
   * A run of `plan` that has carried out `block` and has the loop from
   * iframe `i` left to run ends with iframe `i`'s block when that block
   * decides the run.
   */
  lemma IframesStop(plan: seq<Step<Stage>>, block: seq<Step<Stage>>, iframes: seq<IframeProbe>, i: nat, k: nat, net: Network)
    requires i < |iframes| && !Ending(IframeBlock(i, iframes[i], k, net)).NotFound?
    requires Ending(plan) == Ending(IframesPlan(iframes, i, k, net)) && Cut(plan) == block + Cut(IframesPlan(iframes, i, k, net))
    ensures var chunk := IframeBlock(i, iframes[i], k, net);
            Ending(plan) == Ending(chunk) && Cut(plan) == block + chunk
  {
    IframeBlockEnds(iframes, i, k, net);
    CutAppend(IframeBlock(i, iframes[i], k, net), IframesPlan(iframes, i + 1, NextCheck(iframes[i], k), net));
  }

  /**
   * After an iframe whose block finds nothing, the run of `plan` goes on
   * with the next iframe and the next check, having carried out that block
   * too.
   */
  lemma IframesGoOn(plan: seq<Step<Stage>>, block: seq<Step<Stage>>, iframes: seq<IframeProbe>, i: nat, k: nat, net: Network)
    requires i < |iframes| && Ending(IframeBlock(i, iframes[i], k, net)).NotFound?
    requires Ending(plan) == Ending(IframesPlan(iframes, i, k, net)) && Cut(plan) == block + Cut(IframesPlan(iframes, i, k, net))
    ensures var chunk, k' := IframeBlock(i, iframes[i], k, net), NextCheck(iframes[i], k);
            var rest := IframesPlan(iframes, i + 1, k', net);
            Ending(plan) == Ending(rest) && Cut(plan) == (block + chunk) + Cut(rest) &&
            IframesCheck(iframes, i, k) == IframesCheck(iframes, i + 1, k')
  {
    var chunk, rest := IframeBlock(i, iframes[i], k, net), IframesPlan(iframes, i + 1, NextCheck(iframes[i], k), net);
    IframeBlockEnds(iframes, i, k, net);
    CutAppend(chunk, rest);
    assert block + (chunk + Cut(rest)) == (block + chunk) + Cut(rest);
  }

  /**
   * The iframe loop of server.js:95-112: the iframes in document order, each
   * probed as `ProbeIframe` says, until a network check after a click finds
   * the log non-empty.
   */
  method ClickIframes(log: SniffLog, net: Network, k: nat, iframes: seq<IframeProbe>)
    returns (o: Outcome, block: seq<Step<Stage>>, k': nat)
    requires log.Valid() && log.requests == Delivered(net, k)
    modifies log
    ensures log.Valid() && log.requests == Delivered(net, k')
    ensures o == Ending(IframesPlan(iframes, 0, k, net)) && block == Cut(IframesPlan(iframes, 0, k, net))
    ensures o.NotFound? ==> k' == IframesCheck(iframes, 0, k)
  {
    ghost var plan := IframesPlan(iframes, 0, k, net);
    block, k' := [], k;
    for i := 0 to |iframes|
      invariant log.Valid() && log.requests == Delivered(net, k')
      invariant Ending(plan) == Ending(IframesPlan(iframes, i, k', net))
      invariant Cut(plan) == block + Cut(IframesPlan(iframes, i, k', net))
      invariant IframesCheck(iframes, 0, k) == IframesCheck(iframes, i, k')
    {
      var found, chunk, k2;
      found, chunk, k2 := ProbeIframe(log, iframes, net, k', i);
      if !found.NotFound? {
        IframesStop(plan, block, iframes, i, k', net);
        return found, block + chunk, k2;
      }
      IframesGoOn(plan, block, iframes, i, k', net);
      k' := k2;
      block := block + chunk;
    }
    o := NotFound;
  }

  /** The iframe loop (server.js:90-112): the run of `IframePlan`. */
  method IframeStage(log: SniffLog, sc: Script) returns (o: Outcome, steps: seq<Step<Stage>>, k: nat)
    requires log.Valid() && log.requests == Delivered(sc.network, 2)
    modifies log
    ensures o == Ending(IframePlan(sc)) && steps == Cut(IframePlan(sc))
    ensures !o.Threw? ==> log.Valid() && log.requests == Delivered(sc.network, k)
    ensures o.NotFound? ==> k == AfterIframes(sc)
  {
    k := 2;
    match sc.iframes {
      case IframesThrow(message) =>
        CutSingle(Step(Iframes, Fault(message)));
        return Threw(message), [Step(Iframes, Fault(message))], k;
      case Listed(iframes) =>
        o, steps, k := ClickIframes(log, sc.network, 2, iframes);
    }
  }

  /** The deep frame search, then the final DOM search (server.js:124-153): the run of `SearchPlan`. */
  method SearchMarkup(sc: Script) returns (o: Outcome, steps: seq<Step<Stage>>)
    ensures o == Ending(SearchPlan(sc)) && steps == Cut(SearchPlan(sc))
  {
    ghost var scan := Step(FinalDom, ScanPage(sc.page));
    o, steps := WalkFrames(Frames, sc.frames, VisitFrame);
    CutAppend(Visits(Frames, sc.frames, VisitFrame), [scan]);
    if !o.NotFound? {
      return;
    }
    CutSingle(scan);
    ScanPageEnds(sc.page);
    match sc.page {
      case Denied(message) =>
        o := Threw(message);
      case Open(html, _) =>
        var m := FirstMatch(StrictExclusions, OrEmpty(html));
        o := if m.Some? then Found(m.value) else NotFound;
    }
    steps := steps + [Step(FinalDom, ScanPage(sc.page))];
  }

  /** The 20 s wait and its network check, then `SearchMarkup` (server.js:114-153): the run of `LatePlan`. */
  method RunLate(log: SniffLog, sc: Script, k: nat) returns (o: Outcome, steps: seq<Step<Stage>>)
    requires log.Valid() && log.requests == Delivered(sc.network, k)
    modifies log
    ensures o == Ending(LatePlan(sc, k)) && steps == Cut(LatePlan(sc, k))
  {
    var seen := CheckSniffLog(log, sc.network, k);
    steps := [Step(ExtendedWait, Pause(20000.0)), Step(ExtendedWait, Check(k, seen))];
    WaitEnds(ExtendedWait, 20000.0, k, sc.network);
    CutAppend(steps, SearchPlan(sc));
    if seen.Some? {
      return Found(seen.value), steps;
    }
    var rest;
    o, rest := SearchMarkup(sc);
    steps := steps + rest;
  }

  /** The iframe loop, then `RunLate` (server.js:90-153): the run of `AfterCentrePlan`. */
  method RunIframes(log: SniffLog, sc: Script) returns (o: Outcome, steps: seq<Step<Stage>>)
    requires log.Valid() && log.requests == Delivered(sc.network, 2)
    modifies log
    ensures o == Ending(AfterCentrePlan(sc)) && steps == Cut(AfterCentrePlan(sc))
  {
    var k;
    o, steps, k := IframeStage(log, sc);
    CutAppend(IframePlan(sc), LatePlan(sc, AfterIframes(sc)));
    if !o.NotFound? {
      return;
    }
    var rest;
    o, rest := RunLate(log, sc, k);
    steps := steps + rest;
  }

  /** The centre click, then `RunIframes` (server.js:78-153): the run of `MiddlePlan`. */
  method RunMiddle(log: SniffLog, sc: Script) returns (o: Outcome, steps: seq<Step<Stage>>)
    requires log.Valid() && log.requests == Delivered(sc.network, 1)
    modifies log
    ensures o == Ending(MiddlePlan(sc)) && steps == Cut(MiddlePlan(sc))
  {
    o, steps := CentreStage(log, sc);
    CutAppend(CentrePlan(sc), AfterCentrePlan(sc));
    if !o.NotFound? {
      return;
    }
    var rest;
    o, rest := RunIframes(log, sc);
    steps := steps + rest;
  }

  /**
   * The run after the browser is connected (server.js:49-153): the run of
   * `Plan`, `LoadStage` and then `RunMiddle`. It ends with the error of the
   * first operation that throws unless a URL turned up first.
   */
  method Run(url: string, referer: Option<string>, sc: Script) returns (o: Outcome, steps: seq<Step<Stage>>)
    requires sc.connect.Succeeds?
    ensures o == Ending(Plan(url, referer, sc)) && steps == Cut(Plan(url, referer, sc))
    ensures Reports(o, steps) && Forward(steps, Rank) && ChecksAgree(steps, sc.network)
    ensures ThrowsFirst(o, FirstFailure(referer, sc))
    ensures o.NotFound? ==> steps == Plan(url, referer, sc) && steps[|steps| - 1] == Step(FinalDom, DomScan(None))
    ensures Truthy(referer) <==> |steps| > 0 && steps[0].action.SetReferer?
    ensures Truthy(referer) ==> steps[0].action == SetReferer(referer.value, sc.setReferer)
  {
    PlanEnds(url, referer, sc);
    PlanRuns(url, referer, sc);
    RefererFirst(url, referer, sc);
    CutAppend(LoadPlan(url, referer, sc), MiddlePlan(sc));

    var log := new SniffLog();
    o, steps := LoadStage(log, url, referer, sc);
    if !o.NotFound? {
      return;
    }
    var rest;
    o, rest := RunMiddle(log, sc);
    steps := steps + rest;
  }

  /** The reply to a request whose run ended with `o`. */
  function Answer(o: Outcome): (reply: Reply)
    ensures reply.body.Success? <==> o.Found?
    ensures o.Found? ==> reply == Reply(200, Success(o.url))
    ensures o.NotFound? ==> reply == Reply(200, Failure(NoManifestMessage))
    ensures o.Threw? ==> reply == Reply(500, Failure(o.message))
  {
    match o
    case Found(u) => Reply(200, Success(u))
    case NotFound => Reply(200, Failure(NoManifestMessage))
    case Threw(message) => Reply(500, Failure(message))
  }

  /**
   * `POST /extract-stream`: 400 without connecting when the body has no
   * truthy `url`; otherwise connect, run, and close the browser once on
   * every path that connected; 200 with the URL found or with
   * `NoManifestMessage`, 500 with the message of whatever threw.
   */
  method ExtractStream(req: Request, sc: Script) returns (reply: Reply, steps: seq<Step<Stage>>, closes: seq<Close>)
    ensures !Truthy(req.url) ==> reply == Reply(400, Failure(MissingUrlMessage)) && steps == [] && closes == []
    ensures Truthy(req.url) && sc.connect.Throws? ==> reply == Reply(500, Failure(sc.connect.message)) && steps == []
    ensures Truthy(req.url) && sc.connect.Succeeds? ==>
              reply == Answer(Ending(Plan(req.url.value, req.referer, sc))) &&
              steps == Cut(Plan(req.url.value, req.referer, sc))
    ensures closes == if Truthy(req.url) && sc.connect.Succeeds? then [CloseBrowser] else []
    ensures reply.status in {200, 400, 500}
    ensures reply.body.Success? ==> reply.status == 200 && Reports(Found(reply.body.m3u8Url), steps)
    ensures reply.body.Failure? ==> Quiet(steps)
    ensures reply.status == 500 ==> FirstFailure(req.referer, sc) == Some(reply.body.error)
    ensures Truthy(req.url) && sc.connect.Succeeds? && FirstFailure(req.referer, sc).Some? ==>
              reply.body.Success? || reply == Reply(500, Failure(FirstFailure(req.referer, sc).value))
    ensures reply.status == 200 && reply.body.Failure? ==>
              reply.body.error == NoManifestMessage && |steps| > 0 && steps[|steps| - 1] == Step(FinalDom, DomScan(None))
    ensures Forward(steps, Rank) && ChecksAgree(steps, sc.network)
  {
    steps, closes := [], [];
    if !Truthy(req.url) {
      return Reply(400, Failure(MissingUrlMessage)), steps, closes;
    }
    if sc.connect.Throws? {
      return Reply(500, Failure(sc.connect.message)), steps, closes;
    }
    var o;
    o, steps := Run(req.url.value, req.referer, sc);
    closes := [CloseBrowser];
    reply := match o
             case Found(u) => Reply(200, Success(u))
             case NotFound => Reply(200, Failure(NoManifestMessage))
             case Threw(message) => Reply(500, Failure(message));
  }
}
