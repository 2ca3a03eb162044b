/**
 * `extractStreamURL` of playwright-extractor.js:44-250: the stealth
 * Chromium extractor. After loading the page it runs its strategies in a
 * fixed order (network check, human imitation, player selectors, frame
 * scan, extended wait, final DOM scan), returns the first URL one of them
 * turns up, and closes the browser on every exit.
 */
module PlaywrightExtractor {
  import opened Wrappers
  import opened Text
  import opened Scanner
  import opened Sniffer
  import opened HumanMotion
  import opened Driver

  /** The strategies, in the order the extractor runs them. */
  datatype Stage = Load | Human | Players | Frames | ExtendedWait | FinalDom

  function Rank(s: Stage): nat
  {
    match s
    case Load => 0
    case Human => 1
    case Players => 2
    case Frames => 3
    case ExtendedWait => 4
    case FinalDom => 5
  }

  /** `playerSelectors`, in priority order. */
  const PlayerSelectors: seq<string> :=
    ["video", ".video-player", ".player", "#player", "iframe[src*=\"embed\"]", ".play-btn", "[class*=\"play\"]"]

  /** The message of the error thrown when every strategy came back empty. */
  const NoManifestMessage := "No M3U8 URL found on page (Turnstile may still be blocking)"

  /**
   * What the browser does during one extraction: whether launching it, and
   * then creating the context and page, throws; whether `page.goto` throws;
   * the request batches; the outcome of each player selector; the frames;
   * the page's own markup; and the values of `Math.random()`.
   */
  datatype Script = Script(
    launch: Attempt,
    setup: Attempt,
    navigation: Attempt,
    network: Network,
    probe: string -> Probe,
    frames: seq<Frame>,
    page: Access,
    rand: nat -> Unit)

  /**
   * The extra headers the browser context is created with
   * (playwright-extractor.js:73-81), before any Referer.
   */
  const BaseHeaders: map<string, string> := map[
    "Accept-Language" := "fr-FR,fr;q=0.9,en-US;q=0.8,en;q=0.7",
    "Accept" := "text/html,application/xhtml+xml,application/xml;q=0.9,image/avif,image/webp,image/apng,*/*;q=0.8",
    "Accept-Encoding" := "gzip, deflate, br",
    "Cache-Control" := "no-cache",
    "Sec-Ch-Ua" := "\"Not A(Brand\";v=\"99\", \"Google Chrome\";v=\"121\", \"Chromium\";v=\"121\"",
    "Sec-Ch-Ua-Mobile" := "?0",
    "Sec-Ch-Ua-Platform" := "\"macOS\""]

  /** What the extraction promise settles to. */
  datatype Result = Resolved(url: string) | Rejected(message: string)

  /** The calls `finally` makes. */
  datatype Close = CloseBrowser

  /**
   * A `humanMouseMove` that ends exactly at its target after 10 to 19
   * jittered moves, each within 10 pixels of its point on the line from the
   * origin, and pauses of 10 to 40 ms.
   */
  predicate HumanGlide(a: Action)
  {
    a.Glide? && 11 <= |a.moves| <= 20 && |a.pauses| == |a.moves| - 1 &&
    a.moves[|a.moves| - 1] == a.target &&
    (forall i :: 0 <= i < |a.moves| - 1 ==>
       WithinJitter(a.moves[i], Interpolate(a.target.x, a.target.y, i, |a.moves| - 1))) &&
    forall i :: 0 <= i < |a.pauses| ==> 10.0 <= a.pauses[i] < 40.0
  }

  /** `humanMouseMove(page, x, y)` with draws from `from` on, as an action. */
  function GlideAction(x: real, y: real, rand: nat -> Unit, from: nat): Action
  {
    Action.Glide(Point(x, y), MousePath(x, y, rand, from), MousePauses(rand, from))
  }

  /** Every glide the script calls for is a human one, ending at its target. */
  lemma GlideIsHuman(x: real, y: real, rand: nat -> Unit, from: nat)
    ensures HumanGlide(GlideAction(x, y, rand, from)) && GlideAction(x, y, rand, from).target == Point(x, y)
  {
    MousePathShape(x, y, rand, from);
  }

  /** `humanMouseMove(page, x, y)` as an action, with the draws it uses. */
  method Glide(x: real, y: real, rand: nat -> Unit, from: nat) returns (a: Action, next: nat)
    ensures a == GlideAction(x, y, rand, from) && next == PathEnd(rand, from)
    ensures HumanGlide(a) && a.target == Point(x, y)
  {
    var moves, pauses;
    moves, pauses, next := HumanMouseMove(x, y, rand, from);
    a := Action.Glide(Point(x, y), moves, pauses);
  }

  /**
   * The human imitation of playwright-extractor.js:136-150 with draws from
   * `from` on: a glide to a random point, a pause, a scroll, a pause, a
   * glide to the centre of the viewport, a pause, and the 5 s wait for the
   * Turnstile challenge.
   */
  function Imitation(rand: nat -> Unit, from: nat): seq<Action>
  {
    var n := PathEnd(rand, from + 2);
    var scroll := HumanScroll(rand(n + 1), rand(n + 2));
    var m := PathEnd(rand, n + 4);
    [GlideAction(400.0 + rand(from) * 400.0, 300.0 + rand(from + 1) * 200.0, rand, from + 2),
     Pause(HumanDelay(500.0, 1500.0, rand(n))),
     Wheel(scroll.amount), Pause(scroll.pause),
     Pause(HumanDelay(1000.0, 2000.0, rand(n + 3))),
     GlideAction(960.0, 540.0, rand, n + 4),
     Pause(HumanDelay(500.0, 1000.0, rand(m))),
     Pause(5000.0)]
  }

  /** The first draw after the human imitation that starts at draw `from`. */
  function ImitationEnd(rand: nat -> Unit, from: nat): nat
  {
    PathEnd(rand, PathEnd(rand, from + 2) + 4) + 1
  }

  /**
   * What the human imitation looks like: a glide to a point of
   * [400, 800) x [300, 500), a pause of 0.5 to 1.5 s, a wheel of 100 to 399,
   * its pause of 0.5 to 1.5 s, a pause of 1 to 2 s, a glide to the centre
   * (960, 540) of the 1920 x 1080 viewport, a pause of 0.5 to 1 s, and 5 s;
   * none of it looks at the network, turns up a URL or throws.
   */
  predicate HumanImitation(actions: seq<Action>)
  {
    |actions| == 8 &&
    HumanGlide(actions[0]) && 400.0 <= actions[0].target.x < 800.0 && 300.0 <= actions[0].target.y < 500.0 &&
    actions[1].Pause? && 500.0 <= actions[1].ms < 1500.0 &&
    actions[2].Wheel? && 100 <= actions[2].amount <= 399 &&
    actions[3].Pause? && 500.0 <= actions[3].ms < 1500.0 &&
    actions[4].Pause? && 1000.0 <= actions[4].ms < 2000.0 &&
    HumanGlide(actions[5]) && actions[5].target == Point(960.0, 540.0) &&
    actions[6].Pause? && 500.0 <= actions[6].ms < 1000.0 &&
    actions[7] == Pause(5000.0) &&
    forall i :: 0 <= i < 8 ==> !actions[i].Check? && StepOutcome(actions[i]).NotFound?
  }

  /** Whatever the draws, the imitation the script calls for looks human. */
  lemma ImitationIsHuman(rand: nat -> Unit, from: nat)
    ensures HumanImitation(Imitation(rand, from))
  {
    ImitationGlides(rand, from);
    ImitationPauses(rand, from);
    ImitationQuiet(rand, from);
  }

  /** The two glides of the imitation are human ones, to a random point of [400, 800) x [300, 500) and to the centre. */
  lemma ImitationGlides(rand: nat -> Unit, from: nat)
    ensures var a := Imitation(rand, from);
            |a| == 8 &&
            HumanGlide(a[0]) && 400.0 <= a[0].target.x < 800.0 && 300.0 <= a[0].target.y < 500.0 &&
            HumanGlide(a[5]) && a[5].target == Point(960.0, 540.0)
  {
    var a := Imitation(rand, from);
    var n := PathEnd(rand, from + 2);
    var toX, toY := 400.0 + rand(from) * 400.0, 300.0 + rand(from + 1) * 200.0;
    assert a[0] == GlideAction(toX, toY, rand, from + 2);
    GlideIsHuman(toX, toY, rand, from + 2);
    ScaledBelow(rand(from), 400.0);
    ScaledBelow(rand(from + 1), 200.0);
    assert a[5] == GlideAction(960.0, 540.0, rand, n + 4);
    GlideIsHuman(960.0, 540.0, rand, n + 4);
  }

  /** The pauses and the wheel of the imitation lie within their ranges. */
  lemma ImitationPauses(rand: nat -> Unit, from: nat)
    ensures var a := Imitation(rand, from);
            |a| == 8 &&
            a[1].Pause? && 500.0 <= a[1].ms < 1500.0 &&
            a[2].Wheel? && 100 <= a[2].amount <= 399 &&
            a[3].Pause? && 500.0 <= a[3].ms < 1500.0 &&
            a[4].Pause? && 1000.0 <= a[4].ms < 2000.0 &&
            a[6].Pause? && 500.0 <= a[6].ms < 1000.0 &&
            a[7] == Pause(5000.0)
  {
  }

  /** No action of the imitation looks at the network, turns up a URL or throws. */
  lemma ImitationQuiet(rand: nat -> Unit, from: nat)
    ensures |Imitation(rand, from)| == 8
    ensures forall i :: 0 <= i < 8 ==> !Imitation(rand, from)[i].Check? && StepOutcome(Imitation(rand, from)[i]).NotFound?
  {
    var a := Imitation(rand, from);
    forall i | 0 <= i < 8
      ensures !a[i].Check? && StepOutcome(a[i]).NotFound?
    {
    }
  }

  /** The human imitation, carried out with draws from `from` on. */
  method SimulateHuman(rand: nat -> Unit, from: nat) returns (actions: seq<Action>, next: nat)
    ensures actions == Imitation(rand, from) && next == ImitationEnd(rand, from)
    ensures HumanImitation(actions)
  {
    var toX, toY := 400.0 + rand(from) * 400.0, 300.0 + rand(from + 1) * 200.0;
    var first, n := Glide(toX, toY, rand, from + 2);
    var delay1 := HumanDelay(500.0, 1500.0, rand(n));
    var scroll := HumanScroll(rand(n + 1), rand(n + 2));
    var delay2 := HumanDelay(1000.0, 2000.0, rand(n + 3));
    var centre, m := Glide(960.0, 540.0, rand, n + 4);
    var delay3 := HumanDelay(500.0, 1000.0, rand(m));
    actions := [first, Pause(delay1), Wheel(scroll.amount), Pause(scroll.pause), Pause(delay2),
                centre, Pause(delay3), Pause(5000.0)];
    next := m + 1;
    ImitationFrom(rand, from, first, n, centre, m);
  }

  /** The actions `SimulateHuman` puts together from its two glides are the imitation, and look human. */
  lemma ImitationFrom(rand: nat -> Unit, from: nat, first: Action, n: nat, centre: Action, m: nat)
    requires first == GlideAction(400.0 + rand(from) * 400.0, 300.0 + rand(from + 1) * 200.0, rand, from + 2)
    requires n == PathEnd(rand, from + 2)
    requires centre == GlideAction(960.0, 540.0, rand, n + 4) && m == PathEnd(rand, n + 4)
    ensures var scroll := HumanScroll(rand(n + 1), rand(n + 2));
            var actions := [first, Pause(HumanDelay(500.0, 1500.0, rand(n))), Wheel(scroll.amount), Pause(scroll.pause),
                            Pause(HumanDelay(1000.0, 2000.0, rand(n + 3))), centre,
                            Pause(HumanDelay(500.0, 1000.0, rand(m))), Pause(5000.0)];
            actions == Imitation(rand, from) && m + 1 == ImitationEnd(rand, from) && HumanImitation(actions)
  {
    ImitationIsHuman(rand, from);
  }

  /** The human imitation and the network check after it (playwright-extractor.js:133-156). */
  function HumanPlan(net: Network, rand: nat -> Unit): seq<Step<Stage>>
  {
    Tag(Human, Imitation(rand, 0)) + [Step(Human, Check(1, Seen(net, 1)))]
  }

  /**
   * The human imitation is carried out in full, and ends the run exactly
   * when the network check after it sees a URL; its one check agrees with
   * the network and it throws nothing.
   */
  lemma HumanPlanShape(net: Network, rand: nat -> Unit)
    ensures var b := HumanPlan(net, rand);
            AllAt(b, Human) && ChecksAgree(b, net) && Tolerant(b) &&
            Cut(b) == b && Ending(b) == StepOutcome(Check(1, Seen(net, 1)))
  {
    HumanPlanAt(net, rand);
    HumanPlanTolerant(net, rand);
    HumanPlanEnds(net, rand);
  }

  /** The steps of the imitation itself neither look at the network nor end the run. */
  lemma HumanHeadQuiet(rand: nat -> Unit)
    ensures var head := Tag(Human, Imitation(rand, 0));
            forall i :: 0 <= i < |head| ==> !head[i].action.Check? && StepOutcome(head[i].action).NotFound?
  {
    ImitationQuiet(rand, 0);
  }

  /** The human imitation is carried out in full, and ends the run exactly when the network check after it sees a URL. */
  lemma HumanPlanEnds(net: Network, rand: nat -> Unit)
    ensures Cut(HumanPlan(net, rand)) == HumanPlan(net, rand)
    ensures Ending(HumanPlan(net, rand)) == StepOutcome(Check(1, Seen(net, 1)))
  {
    HumanHeadQuiet(rand);
    LastDecides(Tag(Human, Imitation(rand, 0)), Step(Human, Check(1, Seen(net, 1))));
  }

  /** The human imitation throws nothing. */
  lemma HumanPlanTolerant(net: Network, rand: nat -> Unit)
    ensures Tolerant(HumanPlan(net, rand))
  {
    var b := HumanPlan(net, rand);
    HumanHeadQuiet(rand);
    forall i | 0 <= i < |b|
      ensures Uncaught(b[i].action).None?
    {
    }
  }

  /** The names of the selectors a block probed, in order. */
  function Tried(steps: seq<Step<Stage>>): seq<string>
  {
    if steps == [] then []
    else
      var last := steps[|steps| - 1].action;
      Tried(steps[..|steps| - 1]) + if last.Selector? then [last.name] else []
  }

  /** The selectors probed by two blocks in a row are those of the first, then those of the second. */
  lemma {:induction false} TriedAppend(a: seq<Step<Stage>>, b: seq<Step<Stage>>)
    ensures Tried(a + b) == Tried(a) + Tried(b)
    decreases |b|
  {
    if b == [] {
      assert a + b == a;
    } else {
      var init := b[..|b| - 1];
      assert a + b == (a + init) + [b[|b| - 1]];
      assert (a + b)[..|a + b| - 1] == a + init;
      TriedAppend(a, init);
    }
  }

  /** A block without selector probes probed nothing. */
  lemma {:induction false} NoneTried(steps: seq<Step<Stage>>)
    requires forall i :: 0 <= i < |steps| ==> !steps[i].action.Selector?
    ensures Tried(steps) == []
  {
    if steps != [] {
      NoneTried(steps[..|steps| - 1]);
    }
  }

  /** The network checkpoint after the selector whose probe came out as `p`, when checkpoint `k` is next. */
  function NextCheck(p: Probe, k: nat): nat
  {
    if p.Boxed? then k + 1 else k
  }

  /** The draw after the selector whose probe came out as `p`, when draw `from` is next. */
  function NextDraw(p: Probe, rand: nat -> Unit, from: nat): nat
  {
    if p.Boxed? then PathEnd(rand, from) + 1 else from
  }

  /**
   * One selector of the loop of playwright-extractor.js:171-190: an element
   * with a box is glided to (at the centre of the box), followed by a pause
   * of 300 to 800 ms, clicked (a failed click is swallowed), followed by a
   * 2 s wait and network checkpoint `k`; an exception, a missing element or
   * a missing box leaves only the probe.
   */
  function SelectorBlock(name: string, p: Probe, k: nat, net: Network, rand: nat -> Unit, from: nat): seq<Step<Stage>>
  {
    if p.Boxed? then
      var c := Centre(p.box);
      [Step(Players, GlideAction(c.x, c.y, rand, from)),
       Step(Players, Pause(HumanDelay(300.0, 800.0, rand(PathEnd(rand, from))))),
       Step(Players, Selector(name, p)),
       Step(Players, Pause(2000.0)),
       Step(Players, Check(k, Seen(net, k)))]
    else
      [Step(Players, Selector(name, p))]
  }

  /**
   * The shape of a selector's block: a human glide to the centre of the box,
   * a pause of 300 to 800 ms, the click, a 2 s wait and a network check
   * when the element has a box; the probe alone otherwise.
   */
  predicate ProbeBlock(chunk: seq<Step<Stage>>, name: string, p: Probe)
  {
    if p.Boxed? then
      |chunk| == 5 && HumanGlide(chunk[0].action) && chunk[0].action.target == Centre(p.box) &&
      chunk[1].action.Pause? && 300.0 <= chunk[1].action.ms < 800.0 &&
      chunk[2].action == Selector(name, p) && chunk[3].action == Pause(2000.0) && chunk[4].action.Check?
    else
      chunk == [Step(Players, Selector(name, p))]
  }

  /**
   * A selector's block is carried out in full, and ends the run exactly
   * when the element had a box and the network check after its click sees
   * a URL.
   */
  lemma SelectorBlockEnds(name: string, p: Probe, k: nat, net: Network, rand: nat -> Unit, from: nat)
    ensures var b := SelectorBlock(name, p, k, net, rand, from);
            Cut(b) == b &&
            Ending(b) == if p.Boxed? then StepOutcome(Check(k, Seen(net, k))) else NotFound
  {
    var b := SelectorBlock(name, p, k, net, rand, from);
    if p.Boxed? {
      assert b == b[..4] + [b[4]];
      LastDecides(b[..4], b[4]);
    } else {
      CutSingle(b[0]);
    }
  }

  /** A selector's block has the shape of `ProbeBlock`, probes its one selector, and catches every error. */
  lemma SelectorBlockShape(name: string, p: Probe, k: nat, net: Network, rand: nat -> Unit, from: nat)
    ensures var b := SelectorBlock(name, p, k, net, rand, from);
            ProbeBlock(b, name, p) && Tried(b) == [name] &&
            AllAt(b, Players) && ChecksAgree(b, net) && Tolerant(b)
  {
    SelectorBlockProbe(name, p, k, net, rand, from);
    SelectorBlockAt(name, p, k, net, rand, from);
  }

  /** A selector's block belongs to the selector loop, its check sees what was delivered by then, and it throws nothing. */
  lemma SelectorBlockAt(name: string, p: Probe, k: nat, net: Network, rand: nat -> Unit, from: nat)
    ensures var b := SelectorBlock(name, p, k, net, rand, from);
            AllAt(b, Players) && ChecksAgree(b, net) && Tolerant(b)
  {
    var b := SelectorBlock(name, p, k, net, rand, from);
    if p.Boxed? {
      assert |b| == 5 && b[0].action.Glide? && b[1].action.Pause? && b[2].action.Selector? && b[3].action.Pause? &&
             b[4].action == Check(k, Seen(net, k));
      forall i | 0 <= i < 5
        ensures b[i].stage == Players && Uncaught(b[i].action).None?
      {
      }
    }
  }

  /** A selector's block probes that selector alone, as `ProbeBlock` describes. */
  lemma SelectorBlockProbe(name: string, p: Probe, k: nat, net: Network, rand: nat -> Unit, from: nat)
    ensures var b := SelectorBlock(name, p, k, net, rand, from);
            ProbeBlock(b, name, p) && Tried(b) == [name]
  {
    var b := SelectorBlock(name, p, k, net, rand, from);
    if p.Boxed? {
      var c := Centre(p.box);
      GlideIsHuman(c.x, c.y, rand, from);
      var before, after := b[..2], b[3..];
      assert b == before + [b[2]] + after;
      NoneTried(before);
      NoneTried(after);
      TriedAppend(before, [b[2]]);
      TriedAppend(before + [b[2]], after);
      assert [b[2]][..0] == [];
    } else {
      assert b[..0] == [];
    }
  }

  /**
   * The selector loop from selector `i` on, with network checkpoint `k`
   * and draw `from` next: the blocks of the selectors in priority order.
   */
  function PlayersPlan(probe: string -> Probe, net: Network, i: nat, k: nat, rand: nat -> Unit, from: nat): seq<Step<Stage>>
    decreases |PlayerSelectors| - i
  {
    if i >= |PlayerSelectors| then []
    else
      var name := PlayerSelectors[i];
      var p := probe(name);
      SelectorBlock(name, p, k, net, rand, from) +
      PlayersPlan(probe, net, i + 1, NextCheck(p, k), rand, NextDraw(p, rand, from))
  }

  /** The network checkpoint after the selector loop from selector `i` on, when no click turned up a URL. */
  function PlayersCheck(probe: string -> Probe, i: nat, k: nat): nat
    decreases |PlayerSelectors| - i
  {
    if i >= |PlayerSelectors| then k else PlayersCheck(probe, i + 1, NextCheck(probe(PlayerSelectors[i]), k))
  }

  /**
   * The probe at position `i` of the block follows the script, and a
   * clicked element was glided to (at the centre of its box) and followed
   * by a 2 s wait and a network check.
   */
  predicate ProbeAt(block: seq<Step<Stage>>, i: nat, probe: string -> Probe)
  {
    i < |block| &&
    (block[i].action.Selector? ==>
       block[i].action.probe == probe(block[i].action.name) &&
       (block[i].action.probe.Boxed? ==>
          2 <= i && i + 2 < |block| &&
          HumanGlide(block[i - 2].action) && block[i - 2].action.target == Centre(block[i].action.probe.box) &&
          block[i - 1].action.Pause? && 300.0 <= block[i - 1].action.ms < 800.0 &&
          block[i + 1].action == Pause(2000.0) && block[i + 2].action.Check?))
  }

  /** Every selector probe of the block follows the script. */
  predicate ProbesFollow(block: seq<Step<Stage>>, probe: string -> Probe)
  {
    forall i :: 0 <= i < |block| ==> ProbeAt(block, i, probe)
  }

  /** The block of one selector follows the script. */
  lemma ProbeBlockFollows(chunk: seq<Step<Stage>>, name: string, probe: string -> Probe)
    requires ProbeBlock(chunk, name, probe(name))
    ensures ProbesFollow(chunk, probe)
  {
  }

  /** Two blocks that follow the script, one after the other, follow it. */
  lemma ProbesFollowAppend(a: seq<Step<Stage>>, b: seq<Step<Stage>>, probe: string -> Probe)
    requires ProbesFollow(a, probe) && ProbesFollow(b, probe)
    ensures ProbesFollow(a + b, probe)
  {
    var all := a + b;
    forall i | 0 <= i < |all|
      ensures ProbeAt(all, i, probe)
    {
      if i < |a| {
        assert ProbeAt(a, i, probe);
        assert all[i] == a[i];
        if a[i].action.Selector? && a[i].action.probe.Boxed? {
          assert all[i - 2] == a[i - 2] && all[i - 1] == a[i - 1];
          assert all[i + 1] == a[i + 1] && all[i + 2] == a[i + 2];
        }
      } else {
        var t := i - |a|;
        assert ProbeAt(b, t, probe);
        assert all[i] == b[t];
        if b[t].action.Selector? && b[t].action.probe.Boxed? {
          assert all[i - 2] == b[t - 2] && all[i - 1] == b[t - 1];
          assert all[i + 1] == b[t + 1] && all[i + 2] == b[t + 2];
        }
      }
    }
  }

  /**
   * The selector loop probes every selector from `i` on, in priority order,
   * each as the script says, clicking exactly the elements with a box; all
   * its errors are caught and its checkpoints agree with the network.
   */
  lemma PlayersPlanShape(probe: string -> Probe, net: Network, i: nat, k: nat, rand: nat -> Unit, from: nat)
    requires i <= |PlayerSelectors|
    ensures var b := PlayersPlan(probe, net, i, k, rand, from);
            Tried(b) == PlayerSelectors[i..] && ProbesFollow(b, probe) &&
            AllAt(b, Players) && ChecksAgree(b, net) && Tolerant(b)
  {
    PlayersPlanTried(probe, net, i, k, rand, from);
    PlayersPlanFollows(probe, net, i, k, rand, from);
    PlayersPlanAt(probe, net, i, k, rand, from);
  }

  /** The selector loop from selector `i` on probes the selectors from `i` on, in priority order. */
  lemma {:induction false} PlayersPlanTried(probe: string -> Probe, net: Network, i: nat, k: nat, rand: nat -> Unit, from: nat)
    requires i <= |PlayerSelectors|
    ensures Tried(PlayersPlan(probe, net, i, k, rand, from)) == PlayerSelectors[i..]
    decreases |PlayerSelectors| - i
  {
    if i < |PlayerSelectors| {
      var name := PlayerSelectors[i];
      var p := probe(name);
      var chunk := SelectorBlock(name, p, k, net, rand, from);
      var rest := PlayersPlan(probe, net, i + 1, NextCheck(p, k), rand, NextDraw(p, rand, from));
      SelectorBlockProbe(name, p, k, net, rand, from);
      PlayersPlanTried(probe, net, i + 1, NextCheck(p, k), rand, NextDraw(p, rand, from));
      TriedAppend(chunk, rest);
      assert PlayerSelectors[i..] == [name] + PlayerSelectors[i + 1..];
    } else {
      assert PlayersPlan(probe, net, i, k, rand, from) == [];
    }
  }

  /** Every selector the loop probes from selector `i` on is probed as the script says, and clicked when it has a box. */
  lemma {:induction false} PlayersPlanFollows(probe: string -> Probe, net: Network, i: nat, k: nat, rand: nat -> Unit, from: nat)
    requires i <= |PlayerSelectors|
    ensures ProbesFollow(PlayersPlan(probe, net, i, k, rand, from), probe)
    decreases |PlayerSelectors| - i
  {
    if i < |PlayerSelectors| {
      var name := PlayerSelectors[i];
      var p := probe(name);
      var chunk := SelectorBlock(name, p, k, net, rand, from);
      var rest := PlayersPlan(probe, net, i + 1, NextCheck(p, k), rand, NextDraw(p, rand, from));
      SelectorBlockProbe(name, p, k, net, rand, from);
      PlayersPlanFollows(probe, net, i + 1, NextCheck(p, k), rand, NextDraw(p, rand, from));
      ProbeBlockFollows(chunk, name, probe);
      ProbesFollowAppend(chunk, rest, probe);
    } else {
      assert PlayersPlan(probe, net, i, k, rand, from) == [];
    }
  }

  /** The selector loop belongs to one strategy, its checks see what was delivered by then, and it throws nothing. */
  lemma {:induction false} PlayersPlanAt(probe: string -> Probe, net: Network, i: nat, k: nat, rand: nat -> Unit, from: nat)
    requires i <= |PlayerSelectors|
    ensures var b := PlayersPlan(probe, net, i, k, rand, from);
            AllAt(b, Players) && ChecksAgree(b, net) && Tolerant(b)
    decreases |PlayerSelectors| - i
  {
    if i < |PlayerSelectors| {
      var name := PlayerSelectors[i];
      var p := probe(name);
      SelectorBlockAt(name, p, k, net, rand, from);
      PlayersPlanAt(probe, net, i + 1, NextCheck(p, k), rand, NextDraw(p, rand, from));
      Joined(SelectorBlock(name, p, k, net, rand, from), PlayersPlan(probe, net, i + 1, NextCheck(p, k), rand, NextDraw(p, rand, from)), Players, net);
    } else {
      assert PlayersPlan(probe, net, i, k, rand, from) == [];
    }
  }

  /**
   * One frame of the walk of playwright-extractor.js:197-216: a frame whose
   * URL contains "cloudflare" is skipped without being evaluated; an
   * evaluation that throws is swallowed; any other frame's
   * `documentElement` markup (or "") is scanned with the strict pattern.
   */
  function VisitFrame(j: nat, f: Frame): (a: Action)
    ensures a.FrameSkipped? <==> Contains(f.url, "cloudflare")
    ensures a.FrameFailed? <==> !Contains(f.url, "cloudflare") && f.access.Denied?
    ensures !Contains(f.url, "cloudflare") && f.access.Denied? ==> a == FrameFailed(j, f.access.message)
    ensures !Contains(f.url, "cloudflare") && f.access.Open? ==>
              a == FrameScanned(j, FirstMatch(StrictExclusions, OrEmpty(f.access.documentElement)))
    ensures Yield(a).Some? ==>
              f.access.Open? && Yield(a) == FirstMatch(StrictExclusions, OrEmpty(f.access.documentElement))
    ensures Uncaught(a).None? && !a.Check?
  {
    if Contains(f.url, "cloudflare") then FrameSkipped(j)
    else
      match f.access
      case Denied(message) => FrameFailed(j, message)
      case Open(html, _) => FrameScanned(j, FirstMatch(StrictExclusions, OrEmpty(html)))
  }

  /** The extended wait and its network check, then the final DOM search (playwright-extractor.js:218-238). */
  function ClosingPlan(net: Network, k: nat, page: Access): seq<Step<Stage>>
  {
    WaitPlan(ExtendedWait, 8000.0, k, net) + [Step(FinalDom, ScanPage(page))]
  }

  /** The strategies after the selector loop: the frame walk, then `ClosingPlan` (playwright-extractor.js:192-238). */
  function LatePlan(sc: Script, k: nat): seq<Step<Stage>>
  {
    Visits(Frames, sc.frames, VisitFrame) + ClosingPlan(sc.network, k, sc.page)
  }

  /** The selector loop, then `LatePlan` (playwright-extractor.js:158-238). */
  function SelectorsPlan(sc: Script): seq<Step<Stage>>
  {
    PlayersPlan(sc.probe, sc.network, 0, 2, sc.rand, ImitationEnd(sc.rand, 0)) + LatePlan(sc, PlayersCheck(sc.probe, 0, 2))
  }

  /** The strategies after the network check that follows the load (playwright-extractor.js:133-238). */
  function MiddlePlan(sc: Script): seq<Step<Stage>>
  {
    HumanPlan(sc.network, sc.rand) + SelectorsPlan(sc)
  }

  /** The navigation and the network check after it (playwright-extractor.js:119-131). */
  function LoadPlan(url: string, sc: Script): seq<Step<Stage>>
  {
    [Step(Load, Navigate(url, sc.navigation)), Step(Load, Check(0, Seen(sc.network, 0)))]
  }

  /** Everything the extraction does once the page is set up, as the script calls for it. */
  function Plan(url: string, sc: Script): seq<Step<Stage>>
  {
    LoadPlan(url, sc) + MiddlePlan(sc)
  }

  /** The load ends the run when the navigation throws or the first check sees a URL. */
  lemma LoadEnds(url: string, sc: Script)
    ensures var b := LoadPlan(url, sc);
            if sc.navigation.Throws? then Ending(b) == Threw(sc.navigation.message) && Cut(b) == b[..1]
            else Ending(b) == StepOutcome(Check(0, Seen(sc.network, 0))) && Cut(b) == b
  {
    var b := LoadPlan(url, sc);
    assert b == [b[0]] + [b[1]];
    CutSingle(b[0]);
    CutAppend([b[0]], [b[1]]);
    if sc.navigation.Succeeds? {
      LastDecides([b[0]], b[1]);
    }
  }

  /** The strategies after the selector loop come in order, from the frame walk on. */
  lemma LateForward(sc: Script, k: nat)
    ensures var b := LatePlan(sc, k);
            Forward(b, Rank) && From(b, Rank, Rank(Frames)) && Within(b, Rank, Rank(FinalDom)) && ChecksAgree(b, sc.network)
  {
    var visits := Visits(Frames, sc.frames, VisitFrame);
    ClosingForward(sc.network, k, sc.page);
    assert AllAt(visits, Frames) && ChecksAgree(visits, sc.network);
    Lead(visits, ClosingPlan(sc.network, k, sc.page), Frames, Rank, sc.network, Rank(ExtendedWait), Rank(FinalDom));
  }

  /** The extended wait and the final DOM search come in order, and the wait's check sees what was delivered by then. */
  lemma ClosingForward(net: Network, k: nat, page: Access)
    ensures var b := ClosingPlan(net, k, page);
            Forward(b, Rank) && From(b, Rank, Rank(ExtendedWait)) && Within(b, Rank, Rank(FinalDom)) && ChecksAgree(b, net)
  {
    var wait, scan := WaitPlan(ExtendedWait, 8000.0, k, net), [Step(FinalDom, ScanPage(page))];
    WaitAt(ExtendedWait, 8000.0, k, net);
    Uniform(wait, ExtendedWait, Rank, Rank(ExtendedWait));
    Uniform(scan, FinalDom, Rank, Rank(ExtendedWait));
    Chain(wait, scan, Rank, net, Rank(ExtendedWait), Rank(ExtendedWait), Rank(FinalDom));
  }

  /** The strategies after the load come in order, from the human imitation on. */
  lemma MiddleForward(sc: Script)
    ensures var b := MiddlePlan(sc);
            Forward(b, Rank) && From(b, Rank, Rank(Human)) && Within(b, Rank, Rank(FinalDom)) && ChecksAgree(b, sc.network)
  {
    var s := SelectorsPlan(sc);
    SelectorsForward(sc);
    HumanLeads(sc.network, sc.rand, s);
  }

  /** The human imitation, followed by any trace that comes in order from the selector loop on, comes in order from the imitation on. */
  lemma HumanLeads(net: Network, rand: nat -> Unit, s: seq<Step<Stage>>)
    requires Forward(s, Rank) && From(s, Rank, Rank(Players)) && Within(s, Rank, Rank(FinalDom)) && ChecksAgree(s, net)
    ensures var b := HumanPlan(net, rand) + s;
            Forward(b, Rank) && From(b, Rank, Rank(Human)) && Within(b, Rank, Rank(FinalDom)) && ChecksAgree(b, net)
  {
    HumanPlanAt(net, rand);
    Lead(HumanPlan(net, rand), s, Human, Rank, net, Rank(Players), Rank(FinalDom));
  }

  /** The strategies from the selector loop on come in order. */
  lemma SelectorsForward(sc: Script)
    ensures var b := SelectorsPlan(sc);
            Forward(b, Rank) && From(b, Rank, Rank(Players)) && Within(b, Rank, Rank(FinalDom)) && ChecksAgree(b, sc.network)
  {
    var k, from := PlayersCheck(sc.probe, 0, 2), ImitationEnd(sc.rand, 0);
    LateForward(sc, k);
    PlayersPlanAt(sc.probe, sc.network, 0, 2, sc.rand, from);
    Lead(PlayersPlan(sc.probe, sc.network, 0, 2, sc.rand, from), LatePlan(sc, k), Players, Rank, sc.network,
         Rank(Frames), Rank(FinalDom));
  }

  /**
   * The strategies come in the order of `Stage` in the plan, and so in
   * every run of it; every network check of the plan sees the first
   * manifest among the requests delivered by then.
   */
  lemma PlanForward(url: string, sc: Script)
    ensures Forward(Plan(url, sc), Rank) && ChecksAgree(Plan(url, sc), sc.network)
  {
    var m := MiddlePlan(sc);
    MiddleForward(sc);
    LoadOpens(url, sc, m);
  }

  /** The load, followed by any trace that comes in order from the human imitation on, comes in order. */
  lemma LoadOpens(url: string, sc: Script, m: seq<Step<Stage>>)
    requires Forward(m, Rank) && From(m, Rank, Rank(Human)) && Within(m, Rank, Rank(FinalDom)) && ChecksAgree(m, sc.network)
    ensures Forward(LoadPlan(url, sc) + m, Rank) && ChecksAgree(LoadPlan(url, sc) + m, sc.network)
  {
    LoadShape(url, sc);
    Opens(LoadPlan(url, sc), m, Load, Rank, sc.network, Rank(Human), Rank(FinalDom));
  }

  /** The human imitation belongs to one strategy, and its check sees what was delivered by then. */
  lemma HumanPlanAt(net: Network, rand: nat -> Unit)
    ensures AllAt(HumanPlan(net, rand), Human) && ChecksAgree(HumanPlan(net, rand), net)
  {
    var b := HumanPlan(net, rand);
    HumanHeadQuiet(rand);
    assert b[|b| - 1].action == Check(1, Seen(net, 1));
  }

  /**
   * The steps carried out before the run stops report its outcome, come in
   * the order of `Stage`, and their network checks agree with the network.
   */
  lemma PlanRuns(url: string, sc: Script)
    ensures var p := Plan(url, sc);
            Reports(Ending(p), Cut(p)) && Forward(Cut(p), Rank) && ChecksAgree(Cut(p), sc.network)
  {
    var p := Plan(url, sc);
    PlanForward(url, sc);
    CutEnds(p);
    CutIsPrefix(p);
    PrefixKeeps(Cut(p), p, Rank, sc.network);
  }

  /** The load is all of one strategy, and its check sees what was delivered by then. */
  lemma LoadShape(url: string, sc: Script)
    ensures AllAt(LoadPlan(url, sc), Load) && ChecksAgree(LoadPlan(url, sc), sc.network)
  {
    var b := LoadPlan(url, sc);
    assert b[1].action == Check(0, Seen(sc.network, 0));
  }

  /**
   * How the strategies after the selector loop can end: with the error of
   * the final DOM search, the frame walk having caught every other; or,
   * carried out in full, with a final search of an open page that found
   * nothing.
   */
  lemma LateEnds(sc: Script, k: nat)
    ensures var b := LatePlan(sc, k);
            (Ending(b).Threw? ==> sc.page.Denied? && Ending(b).message == sc.page.message) &&
            (Ending(b).NotFound? ==> Cut(b) == b && sc.page.Open? && b[|b| - 1] == Step(FinalDom, DomScan(None)))
  {
    LateThrows(sc, k);
    LateNotFound(sc, k);
  }

  /** The frame walk and the extended wait catch every error, and the late strategies are them followed by the final DOM search. */
  lemma LateHeadTolerant(sc: Script, k: nat)
    ensures var head := Visits(Frames, sc.frames, VisitFrame) + WaitPlan(ExtendedWait, 8000.0, k, sc.network);
            Tolerant(head) && LatePlan(sc, k) == head + [Step(FinalDom, ScanPage(sc.page))]
  {
    var visits, wait := Visits(Frames, sc.frames, VisitFrame), WaitPlan(ExtendedWait, 8000.0, k, sc.network);
    assert Tolerant(visits) && Tolerant(wait);
    TolerantJoin(visits, wait);
    assert visits + ClosingPlan(sc.network, k, sc.page) == (visits + wait) + [Step(FinalDom, ScanPage(sc.page))];
  }

  /** After the selector loop, the only error that can end the run is the final DOM search's. */
  lemma LateThrows(sc: Script, k: nat)
    ensures var b := LatePlan(sc, k);
            Ending(b).Threw? ==> sc.page.Denied? && Ending(b).message == sc.page.message
  {
    var head, scan := Visits(Frames, sc.frames, VisitFrame) + WaitPlan(ExtendedWait, 8000.0, k, sc.network),
                      Step(FinalDom, ScanPage(sc.page));
    LateHeadTolerant(sc, k);
    AfterTolerant(head, [scan]);
    CutSingle(scan);
    ScanPageEnds(sc.page);
  }

  /** A run after the selector loop that finds nothing has carried out all of it, the final search of an open page finding nothing. */
  lemma LateNotFound(sc: Script, k: nat)
    ensures var b := LatePlan(sc, k);
            Ending(b).NotFound? ==> Cut(b) == b && sc.page.Open? && b[|b| - 1] == Step(FinalDom, DomScan(None))
  {
    var head, scan := Visits(Frames, sc.frames, VisitFrame) + WaitPlan(ExtendedWait, 8000.0, k, sc.network),
                      Step(FinalDom, ScanPage(sc.page));
    LateHeadTolerant(sc, k);
    CutAppend(head, [scan]);
    CutSingle(scan);
    ScanPageEnds(sc.page);
  }

  /** How the selector loop and the strategies after it can end: as `LatePlan` does, every selector error being caught. */
  lemma SelectorsEnds(sc: Script)
    ensures var b := SelectorsPlan(sc);
            (Ending(b).Threw? ==> sc.page.Denied? && Ending(b).message == sc.page.message) &&
            (Ending(b).NotFound? ==> Cut(b) == b && sc.page.Open? && b[|b| - 1] == Step(FinalDom, DomScan(None)))
  {
    var k := PlayersCheck(sc.probe, 0, 2);
    PlayersPlanAt(sc.probe, sc.network, 0, 2, sc.rand, ImitationEnd(sc.rand, 0));
    AfterTolerant(PlayersPlan(sc.probe, sc.network, 0, 2, sc.rand, ImitationEnd(sc.rand, 0)), LatePlan(sc, k));
    LateEnds(sc, k);
  }

  /** How the strategies after the load can end: as `SelectorsPlan` does, the human imitation throwing nothing. */
  lemma MiddleEnds(sc: Script)
    ensures var b := MiddlePlan(sc);
            (Ending(b).Threw? ==> sc.page.Denied? && Ending(b).message == sc.page.message) &&
            (Ending(b).NotFound? ==> Cut(b) == b && sc.page.Open? && b[|b| - 1] == Step(FinalDom, DomScan(None)))
  {
    HumanPlanTolerant(sc.network, sc.rand);
    AfterTolerant(HumanPlan(sc.network, sc.rand), SelectorsPlan(sc));
    SelectorsEnds(sc);
  }

  /**
   * How the plan can end: with the navigation's error, which ends it at
   * once; with the error of the final DOM search; or, having been carried
   * out in full, with a final search of an open page that found nothing.
   * Every other error is caught.
   */
  lemma PlanEnds(url: string, sc: Script)
    ensures sc.navigation.Throws? ==>
              Ending(Plan(url, sc)) == Threw(sc.navigation.message) &&
              Cut(Plan(url, sc)) == [Step(Load, Navigate(url, sc.navigation))]
    ensures Ending(Plan(url, sc)).Threw? ==>
              sc.navigation.Throws? || (sc.page.Denied? && Ending(Plan(url, sc)).message == sc.page.message)
    ensures Ending(Plan(url, sc)).NotFound? ==>
              Cut(Plan(url, sc)) == Plan(url, sc) && sc.page.Open? &&
              Plan(url, sc)[|Plan(url, sc)| - 1] == Step(FinalDom, DomScan(None))
  {
    NavigationEnds(url, sc);
    PlanThrew(url, sc);
    PlanNotFound(url, sc);
  }

  /** A navigation that throws ends the run at once, with its error. */
  lemma NavigationEnds(url: string, sc: Script)
    ensures sc.navigation.Throws? ==>
              Ending(Plan(url, sc)) == Threw(sc.navigation.message) &&
              Cut(Plan(url, sc)) == [Step(Load, Navigate(url, sc.navigation))]
  {
    var load := LoadPlan(url, sc);
    LoadEnds(url, sc);
    CutAppend(load, MiddlePlan(sc));
    assert load[..1] == [Step(Load, Navigate(url, sc.navigation))];
  }

  /** The only errors that end the run are the navigation's and the final DOM search's. */
  lemma PlanThrew(url: string, sc: Script)
    ensures Ending(Plan(url, sc)).Threw? ==>
              sc.navigation.Throws? || (sc.page.Denied? && Ending(Plan(url, sc)).message == sc.page.message)
  {
    LoadEnds(url, sc);
    CutAppend(LoadPlan(url, sc), MiddlePlan(sc));
    MiddleEnds(sc);
  }

  /** A run that finds nothing carries out the whole plan, ending with a final search of an open page that found nothing. */
  lemma PlanNotFound(url: string, sc: Script)
    ensures Ending(Plan(url, sc)).NotFound? ==>
              Cut(Plan(url, sc)) == Plan(url, sc) && sc.page.Open? &&
              Plan(url, sc)[|Plan(url, sc)| - 1] == Step(FinalDom, DomScan(None))
  {
    var load, middle := LoadPlan(url, sc), MiddlePlan(sc);
    LoadEnds(url, sc);
    CutAppend(load, middle);
    MiddleEnds(sc);
    if Ending(Plan(url, sc)).NotFound? {
      assert (load + middle)[|load + middle| - 1] == middle[|middle| - 1];
    }
  }

  /**
   * A selector whose element has a box (playwright-extractor.js:177-186): a
   * glide to the centre of the box, a pause of 300 to 800 ms, the click
   * (whose failure is swallowed), a 2 s wait and network check `k`.
   */
  method ClickElement(log: SniffLog, net: Network, k: nat, name: string, p: Probe, rand: nat -> Unit, from: nat)
    returns (chunk: seq<Step<Stage>>, seen: Option<string>, next: nat)
    requires p.Boxed? && log.Valid() && log.requests == Delivered(net, k)
    modifies log
    ensures log.Valid() && log.requests == Delivered(net, k + 1)
    ensures chunk == SelectorBlock(name, p, k, net, rand, from) && seen == Seen(net, k)
    ensures next == NextDraw(p, rand, from)
  {
    var c := Centre(p.box);
    var glide, n := Glide(c.x, c.y, rand, from);
    var delay := HumanDelay(300.0, 800.0, rand(n));
    next := n + 1;
    seen := CheckSniffLog(log, net, k);
    chunk := [Step(Players, glide), Step(Players, Pause(delay)), Step(Players, Selector(name, p)),
              Step(Players, Pause(2000.0)), Step(Players, Check(k, seen))];
  }

  /**
   * One selector of the loop of playwright-extractor.js:171-190: an
   * exception, a missing element or a missing box skips it; a boxed element
   * is clicked as `ClickElement` says.
   */
  method ProbeSelector(log: SniffLog, net: Network, k: nat, name: string, p: Probe, rand: nat -> Unit, from: nat)
    returns (o: Outcome, chunk: seq<Step<Stage>>, k': nat, next: nat)
    requires log.Valid() && log.requests == Delivered(net, k)
    modifies log
    ensures log.Valid() && log.requests == Delivered(net, k')
    ensures chunk == SelectorBlock(name, p, k, net, rand, from) && o == Ending(chunk) && Cut(chunk) == chunk
    ensures k' == NextCheck(p, k) && next == NextDraw(p, rand, from)
  {
    SelectorBlockEnds(name, p, k, net, rand, from);
    if p.Boxed? {
      var seen;
      chunk, seen, next := ClickElement(log, net, k, name, p, rand, from);
      k' := k + 1;
      o := if seen.Some? then Found(seen.value) else NotFound;
    } else {
      k', next, o := k, from, NotFound;
      chunk := [Step(Players, Selector(name, p))];
    }
  }

  /**
   * A run of `plan` that has carried out `block` and has the selector loop
   * from selector `i` left to run ends with selector `i`'s block when that
   * block decides the run.
   */
  lemma PlayersStop(plan: seq<Step<Stage>>, block: seq<Step<Stage>>, probe: string -> Probe, net: Network,
                    i: nat, k: nat, rand: nat -> Unit, from: nat)
    requires i < |PlayerSelectors|
    requires var name := PlayerSelectors[i]; !Ending(SelectorBlock(name, probe(name), k, net, rand, from)).NotFound?
    requires Ending(plan) == Ending(PlayersPlan(probe, net, i, k, rand, from))
    requires Cut(plan) == block + Cut(PlayersPlan(probe, net, i, k, rand, from))
    ensures var name := PlayerSelectors[i];
            var chunk := SelectorBlock(name, probe(name), k, net, rand, from);
            Ending(plan) == Ending(chunk) && Cut(plan) == block + chunk
  {
    var name := PlayerSelectors[i];
    var p := probe(name);
    SelectorBlockEnds(name, p, k, net, rand, from);
    CutAppend(SelectorBlock(name, p, k, net, rand, from), PlayersPlan(probe, net, i + 1, NextCheck(p, k), rand, NextDraw(p, rand, from)));
  }

  /**
   * After a selector whose block finds nothing, the run of `plan` goes on
   * with the next selector, the next check and the next draw, having
   * carried out that block too.
   */
  lemma PlayersGoOn(plan: seq<Step<Stage>>, block: seq<Step<Stage>>, probe: string -> Probe, net: Network,
                    i: nat, k: nat, rand: nat -> Unit, from: nat)
    requires i < |PlayerSelectors|
    requires var name := PlayerSelectors[i]; Ending(SelectorBlock(name, probe(name), k, net, rand, from)).NotFound?
    requires Ending(plan) == Ending(PlayersPlan(probe, net, i, k, rand, from))
    requires Cut(plan) == block + Cut(PlayersPlan(probe, net, i, k, rand, from))
    ensures var name := PlayerSelectors[i];
            var p := probe(name);
            var chunk, rest := SelectorBlock(name, p, k, net, rand, from), PlayersPlan(probe, net, i + 1, NextCheck(p, k), rand, NextDraw(p, rand, from));
            Ending(plan) == Ending(rest) && Cut(plan) == (block + chunk) + Cut(rest) &&
            PlayersCheck(probe, i, k) == PlayersCheck(probe, i + 1, NextCheck(p, k))
  {
    var name := PlayerSelectors[i];
    var p := probe(name);
    var chunk, rest := SelectorBlock(name, p, k, net, rand, from), PlayersPlan(probe, net, i + 1, NextCheck(p, k), rand, NextDraw(p, rand, from));
    SelectorBlockEnds(name, p, k, net, rand, from);
    CutAppend(chunk, rest);
    assert block + (chunk + Cut(rest)) == (block + chunk) + Cut(rest);
  }

  /**
   * The selector loop of playwright-extractor.js:171-190: the selectors in
   * priority order, each probed as `ProbeSelector` says, until a network
   * check after a click finds the log non-empty.
   */
  method TryPlayers(log: SniffLog, net: Network, k: nat, probe: string -> Probe, rand: nat -> Unit, from: nat)
    returns (o: Outcome, block: seq<Step<Stage>>, k': nat)
    requires log.Valid() && log.requests == Delivered(net, k)
    modifies log
    ensures log.Valid() && log.requests == Delivered(net, k')
    ensures o == Ending(PlayersPlan(probe, net, 0, k, rand, from)) && block == Cut(PlayersPlan(probe, net, 0, k, rand, from))
    ensures o.NotFound? ==> k' == PlayersCheck(probe, 0, k)
  {
    ghost var plan := PlayersPlan(probe, net, 0, k, rand, from);
    var next;
    block, k', next := [], k, from;
    for i := 0 to |PlayerSelectors|
      invariant log.Valid() && log.requests == Delivered(net, k')
      invariant Ending(plan) == Ending(PlayersPlan(probe, net, i, k', rand, next))
      invariant Cut(plan) == block + Cut(PlayersPlan(probe, net, i, k', rand, next))
      invariant PlayersCheck(probe, 0, k) == PlayersCheck(probe, i, k')
    {
      var name := PlayerSelectors[i];
      var found, chunk, k2, n2;
      found, chunk, k2, n2 := ProbeSelector(log, net, k', name, probe(name), rand, next);
      if !found.NotFound? {
        PlayersStop(plan, block, probe, net, i, k', rand, next);
        return found, block + chunk, k2;
      }
      PlayersGoOn(plan, block, probe, net, i, k', rand, next);
      k', next := k2, n2;
      block := block + chunk;
    }
    o := NotFound;
  }

  /** The navigation and network check 0 (playwright-extractor.js:118-130): the run of `LoadPlan`. */
  method LoadStage(log: SniffLog, url: string, sc: Script) returns (o: Outcome, steps: seq<Step<Stage>>)
    requires log.Valid() && log.requests == Delivered(sc.network, 0)
    modifies log
    ensures o == Ending(LoadPlan(url, sc)) && steps == Cut(LoadPlan(url, sc))
    ensures !o.Threw? ==> log.Valid() && log.requests == Delivered(sc.network, 1)
  {
    LoadEnds(url, sc);
    steps := [Step(Load, Navigate(url, sc.navigation))];
    if sc.navigation.Throws? {
      return Threw(sc.navigation.message), steps;
    }
    var seen := CheckSniffLog(log, sc.network, 0);
    o := if seen.Some? then Found(seen.value) else NotFound;
    steps := steps + [Step(Load, Check(0, seen))];
  }

  /** The human imitation and its network check (playwright-extractor.js:133-156), carried out in full. */
  method HumanStage(log: SniffLog, net: Network, rand: nat -> Unit)
    returns (o: Outcome, block: seq<Step<Stage>>, actions: seq<Action>, next: nat)
    requires log.Valid() && log.requests == Delivered(net, 1)
    modifies log
    ensures log.Valid() && log.requests == Delivered(net, 2)
    ensures actions == Imitation(rand, 0) && HumanImitation(actions) && next == ImitationEnd(rand, 0)
    ensures block == Tag(Human, actions) + [Step(Human, Check(1, Seen(net, 1)))] && block == HumanPlan(net, rand)
    ensures o == Ending(block) && Cut(block) == block && o == StepOutcome(Check(1, Seen(net, 1)))
  {
    actions, next := SimulateHuman(rand, 0);
    var seen := CheckSniffLog(log, net, 1);
    var check := Step(Human, Check(1, seen));
    block := Tag(Human, actions) + [check];
    o := if seen.Some? then Found(seen.value) else NotFound;
    HumanBlock(net, rand, seen, o);
  }

  /** The imitation followed by network check 1 is `HumanPlan`, which that check decides. */
  lemma HumanBlock(net: Network, rand: nat -> Unit, seen: Option<string>, o: Outcome)
    requires seen == Seen(net, 1) && o == if seen.Some? then Found(seen.value) else NotFound
    ensures var block := Tag(Human, Imitation(rand, 0)) + [Step(Human, Check(1, seen))];
            block == HumanPlan(net, rand) && o == Ending(block) && Cut(block) == block && o == StepOutcome(Check(1, Seen(net, 1)))
  {
    HumanPlanEnds(net, rand);
  }

  /** The final DOM search of playwright-extractor.js:229-238, whose evaluation error is not caught. */
  method FinalScan(page: Access) returns (o: Outcome, block: seq<Step<Stage>>)
    ensures block == [Step(FinalDom, ScanPage(page))] && o == Ending(block) && Cut(block) == block
    ensures page.Denied? ==> o == Threw(page.message)
    ensures page.Open? ==>
              var m := FirstMatch(StrictExclusions, OrEmpty(page.documentElement));
              o == if m.Some? then Found(m.value) else NotFound
  {
    var scan := ScanPage(page);
    block := [Step(FinalDom, scan)];
    CutSingle(block[0]);
    ScanPageEnds(page);
    match page
    case Denied(message) =>
      o := Threw(message);
    case Open(html, _) =>
      var m := FirstMatch(StrictExclusions, OrEmpty(html));
      o := if m.Some? then Found(m.value) else NotFound;
  }

  /**
   * The extended wait and its network check, then the final DOM search
   * (playwright-extractor.js:218-238): the run of `ClosingPlan`.
   */
  method WaitAndScan(log: SniffLog, net: Network, k: nat, page: Access) returns (o: Outcome, steps: seq<Step<Stage>>)
    requires log.Valid() && log.requests == Delivered(net, k)
    modifies log
    ensures o == Ending(ClosingPlan(net, k, page)) && steps == Cut(ClosingPlan(net, k, page))
  {
    var seen := CheckSniffLog(log, net, k);
    steps := [Step(ExtendedWait, Pause(8000.0)), Step(ExtendedWait, Check(k, seen))];
    WaitEnds(ExtendedWait, 8000.0, k, net);
    CutAppend(steps, [Step(FinalDom, ScanPage(page))]);
    if seen.Some? {
      return Found(seen.value), steps;
    }
    var block;
    o, block := FinalScan(page);
    steps := steps + block;
  }

  /** The strategies after the selector loop (playwright-extractor.js:192-238): the run of `LatePlan`. */
  method RunLate(log: SniffLog, sc: Script, k: nat) returns (o: Outcome, steps: seq<Step<Stage>>)
    requires log.Valid() && log.requests == Delivered(sc.network, k)
    modifies log
    ensures o == Ending(LatePlan(sc, k)) && steps == Cut(LatePlan(sc, k))
  {
    ghost var visits := Visits(Frames, sc.frames, VisitFrame);
    o, steps := WalkFrames(Frames, sc.frames, VisitFrame);
    CutAppend(visits, ClosingPlan(sc.network, k, sc.page));
    if !o.NotFound? {
      return;
    }
    var rest;
    o, rest := WaitAndScan(log, sc.network, k, sc.page);
    steps := steps + rest;
  }

  /** The selector loop, then `RunLate` (playwright-extractor.js:158-238): the run of `SelectorsPlan`. */
  method RunSelectors(log: SniffLog, sc: Script, from: nat) returns (o: Outcome, steps: seq<Step<Stage>>)
    requires log.Valid() && log.requests == Delivered(sc.network, 2) && from == ImitationEnd(sc.rand, 0)
    modifies log
    ensures o == Ending(SelectorsPlan(sc)) && steps == Cut(SelectorsPlan(sc))
  {
    ghost var players := PlayersPlan(sc.probe, sc.network, 0, 2, sc.rand, from);
    var k;
    o, steps, k := TryPlayers(log, sc.network, 2, sc.probe, sc.rand, from);
    CutAppend(players, LatePlan(sc, PlayersCheck(sc.probe, 0, 2)));
    if !o.NotFound? {
      return;
    }
    var rest;
    o, rest := RunLate(log, sc, k);
    steps := steps + rest;
  }

  /**
   * The human imitation and its network check, then `RunSelectors`
   * (playwright-extractor.js:133-238): the run of `MiddlePlan`.
   */
  method RunMiddle(log: SniffLog, sc: Script) returns (o: Outcome, steps: seq<Step<Stage>>)
    requires log.Valid() && log.requests == Delivered(sc.network, 1)
    modifies log
    ensures o == Ending(MiddlePlan(sc)) && steps == Cut(MiddlePlan(sc))
  {
    var actions, next;
    o, steps, actions, next := HumanStage(log, sc.network, sc.rand);
    CutAppend(steps, SelectorsPlan(sc));
    if !o.NotFound? {
      return;
    }
    var rest;
    o, rest := RunSelectors(log, sc, next);
    steps := steps + rest;
  }

  /**
   * The strategies after launch and page setup (playwright-extractor.js:107-238):
   * the run of `Plan`. Navigation, whose failure ends the run, and the
   * network check after loading, which ends the run when the log is not
   * empty; then `RunMiddle`.
   */
  method Run(url: string, sc: Script) returns (o: Outcome, steps: seq<Step<Stage>>)
    ensures o == Ending(Plan(url, sc)) && steps == Cut(Plan(url, sc))
    ensures Reports(o, steps) && Forward(steps, Rank) && ChecksAgree(steps, sc.network)
    ensures sc.navigation.Throws? ==>
              o == Threw(sc.navigation.message) && steps == [Step(Load, Navigate(url, sc.navigation))]
    ensures o.Threw? ==> sc.navigation.Throws? || (sc.page.Denied? && o.message == sc.page.message)
    ensures o.NotFound? ==> steps == Plan(url, sc) && steps[|steps| - 1] == Step(FinalDom, DomScan(None))
  {
    PlanEnds(url, sc);
    PlanRuns(url, sc);
    CutAppend(LoadPlan(url, sc), MiddlePlan(sc));

    var log := new SniffLog();
    o, steps := LoadStage(log, url, sc);
    if !o.NotFound? {
      return;
    }
    var rest;
    o, rest := RunMiddle(log, sc);
    steps := steps + rest;
  }

  /** What the extraction promise settles to when the strategies ended with `o`. */
  function Verdict(o: Outcome): (r: Result)
    ensures r.Resolved? <==> o.Found?
    ensures o.Found? ==> r.url == o.url
    ensures o.Threw? ==> r == Rejected(o.message)
    ensures o.NotFound? ==> r == Rejected(NoManifestMessage)
  {
    match o
    case Found(u) => Resolved(u)
    case NotFound => Rejected(NoManifestMessage)
    case Threw(message) => Rejected(message)
  }

  /**
   * `extractStreamURL(url, referer)`: launch, create the context with the
   * extra headers (a truthy `referer` added as Referer), set up, run the
   * strategies, and close the browser in `finally` whenever it was
   * launched, whatever the outcome; a close that throws is swallowed. When
   * every strategy comes back empty the extraction rejects with
   * `NoManifestMessage`; an error is passed on as a rejection.
   */
  method ExtractStreamUrl(url: string, referer: Option<string>, sc: Script)
    returns (r: Result, headers: Option<map<string, string>>, steps: seq<Step<Stage>>, closes: seq<Close>)
    ensures closes == if sc.launch.Succeeds? then [CloseBrowser] else []
    ensures headers == if sc.launch.Succeeds? then Some(WithReferer(BaseHeaders, referer)) else None
    ensures sc.launch.Throws? ==> r == Rejected(sc.launch.message) && steps == []
    ensures sc.launch.Succeeds? && sc.setup.Throws? ==> r == Rejected(sc.setup.message) && steps == []
    ensures sc.launch.Succeeds? && sc.setup.Succeeds? ==>
              r == Verdict(Ending(Plan(url, sc))) && steps == Cut(Plan(url, sc))
    ensures r.Resolved? ==> Reports(Found(r.url), steps)
    ensures Forward(steps, Rank) && ChecksAgree(steps, sc.network)
  {
    steps := [];
    if sc.launch.Throws? {
      return Rejected(sc.launch.message), None, steps, [];
    }
    headers := Some(WithReferer(BaseHeaders, referer));
    closes := [CloseBrowser];
    if sc.setup.Throws? {
      return Rejected(sc.setup.message), headers, steps, closes;
    }
    var o;
    o, steps := Run(url, sc);
    r := match o
         case Found(u) => Resolved(u)
         case NotFound => Rejected(NoManifestMessage)
         case Threw(message) => Rejected(message);
  }
}
