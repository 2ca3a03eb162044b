/**
 * The browser as the extractors see it: a scripted driver. The calls whose
 * errors the extractors handle or pass on are `Attempt`s; the markup a frame
 * evaluation reads is a snapshot; the request URLs the page emits arrive in
 * batches, one batch delivered to the `request` callback at every network
 * checkpoint (each wait of the extractors). What an extractor does is
 * recorded as a trace of steps, each tagged with the strategy (stage) it
 * belongs to, and each extractor's trace is the run of a plan: the steps the
 * script calls for, carried out until one turns up a URL or throws an error
 * that no `try` catches.
 */
module Driver {
  import opened Wrappers
  import opened Text
  import opened Sequences
  import opened Sniffer
  import opened HumanMotion
  import opened Scanner

  /** The outcome of a driver call that may throw, with the message of the thrown error. */
  datatype Attempt = Succeeds | Throws(message: string)

  /** A bounding box, as `boundingBox()` returns it. */
  datatype Rect = Rect(x: real, y: real, width: real, height: real)

  /** The centre of a box: `(box.x + box.width / 2, box.y + box.height / 2)`. */
  function Centre(box: Rect): Point
  {
    Point(box.x + box.width / 2.0, box.y + box.height / 2.0)
  }

  /**
   * What an `evaluate` in a frame sees: it throws (a detached or cross-origin
   * frame), or it reads the inner HTML of `document.documentElement` and of
   * `document.body`, each absent when the element is missing.
   */
  datatype Access = Denied(message: string) | Open(documentElement: Option<string>, body: Option<string>)

  /** A frame of the page: its URL and what evaluating in it gives. */
  datatype Frame = Frame(url: string, access: Access)

  /** `x || ''` for an optional string. */
  function OrEmpty(x: Option<string>): string
  {
    if x.Some? then x.value else ""
  }

  /** `{ ...base, ...(referer ? { 'Referer': referer } : {}) }`: the extra headers a page is given. */
  function WithReferer(base: map<string, string>, referer: Option<string>): (h: map<string, string>)
    ensures "Referer" in h <==> Truthy(referer) || "Referer" in base
    ensures Truthy(referer) ==> h["Referer"] == referer.value
    ensures forall name :: name in base && name != "Referer" ==> name in h && h[name] == base[name]
    ensures forall name :: name in h && name != "Referer" ==> name in base
    ensures !Truthy(referer) ==> h == base
  {
    if Truthy(referer) then base["Referer" := referer.value] else base
  }

  /** The batch of request URLs delivered before network checkpoint `k` is inspected. */
  type Network = nat -> seq<string>

  /** Every request URL delivered before the first `k` checkpoints, in arrival order. */
  function Delivered(net: Network, k: nat): (r: seq<string>)
  {
    if k == 0 then [] else Delivered(net, k - 1) + net(k - 1)
  }

  /** Requests delivered at earlier checkpoints stay at the front of the stream. */
  lemma {:induction false} DeliveredGrows(net: Network, k: nat, k': nat)
    requires k <= k'
    ensures Delivered(net, k) <= Delivered(net, k')
    decreases k' - k
  {
    if k < k' {
      DeliveredGrows(net, k, k' - 1);
    }
  }

  /** The first request URL containing `.m3u8`, if any has arrived: `m3u8Urls[0]`. */
  function FirstManifest(requests: seq<string>): Option<string>
  {
    var m := Manifests(requests);
    if m == [] then None else Some(m[0])
  }

  /**
   * There is a first manifest exactly when some request contains `.m3u8`,
   * and it is the earliest such request.
   */
  lemma {:induction false} FirstManifestIsEarliest(requests: seq<string>)
    ensures FirstManifest(requests).None? <==>
              forall i :: 0 <= i < |requests| ==> !IsManifestRequest(requests[i])
    ensures FirstManifest(requests).Some? ==>
              exists i :: 0 <= i < |requests| && requests[i] == FirstManifest(requests).value &&
                IsManifestRequest(requests[i]) &&
                forall j :: 0 <= j < i ==> !IsManifestRequest(requests[j])
  {
    if requests != [] {
      var init, last := requests[..|requests| - 1], requests[|requests| - 1];
      assert requests == init + [last];
      FirstManifestIsEarliest(init);
      ManifestsSnoc(init, last);
      if FirstManifest(init).Some? {
        var i :| 0 <= i < |init| && init[i] == FirstManifest(init).value &&
                 IsManifestRequest(init[i]) && forall j :: 0 <= j < i ==> !IsManifestRequest(init[j]);
        assert requests[i] == init[i];
      } else if IsManifestRequest(last) {
        assert Manifests(requests) == [last];
        assert requests[|requests| - 1] == last;
      } else {
        assert Manifests(requests) == Manifests(init) + [];
      }
    }
  }

  /** Once a manifest has arrived, later checkpoints see the same first manifest. */
  lemma FirstManifestIsStable(net: Network, k: nat, k': nat)
    requires k <= k' && FirstManifest(Delivered(net, k)).Some?
    ensures FirstManifest(Delivered(net, k')) == FirstManifest(Delivered(net, k))
  {
    DeliveredGrows(net, k, k');
    Sniffer.FirstManifestIsStable(Delivered(net, k), Delivered(net, k'));
  }

  /** How an extraction run ended. */
  datatype Outcome = Found(url: string) | NotFound | Threw(message: string)

  /** The outcome of one probed player selector (playwright-extractor.js:171-190). */
  datatype Probe =
    | LookupThrows(message: string)           // `page.$` or `boundingBox()` threw
    | NoElement                                // `page.$` found nothing
    | NoBox                                    // the element has no bounding box
    | Boxed(box: Rect, click: Attempt)         // the element was clicked (a failed click is swallowed)

  /** The outcome of one iframe of the real-browser server (server.js:95-112). */
  datatype IframeProbe =
    | BoxThrows(message: string)
    | Unboxed
    | Sized(box: Rect, click: Attempt)

  /** One thing an extractor did. */
  datatype Action =
    | Navigate(url: string, result: Attempt)          // `page.goto`, whose error no `try` catches
    | NavigateCaught(url: string, result: Attempt)    // `page.goto` in a `try` that logs its error and goes on
    | SetReferer(referer: string, result: Attempt)    // the Referer header, whose error no `try` catches
    | Fault(message: string)                          // any other call whose error no `try` catches
    | Pause(ms: real)
    | Check(k: nat, seen: Option<string>)             // network checkpoint `k` and the log head it saw
    | Glide(target: Point, moves: seq<Point>, pauses: seq<real>)
    | Wheel(amount: int)
    | Selector(name: string, probe: Probe)
    | MouseClick(at: Point)
    | Iframe(index: nat, outcome: IframeProbe)
    | FrameSkipped(index: nat)
    | FrameFailed(index: nat, message: string)        // the frame's evaluation threw; caught
    | FrameScanned(index: nat, found: Option<string>)
    | DomScan(found: Option<string>)                  // the final search of the page's `documentElement`
    | DomScanFailed(message: string)                  // its evaluation threw; not caught
    | BodyScan(found: Option<string>)                 // the search of the page's body
    | BodyScanFailed(message: string)                 // its evaluation threw; caught
    | VideoScan(found: Option<string>)
    | VideoScanFailed(message: string)                // caught

  /** A step of a trace: an action and the strategy it belongs to. */
  datatype Step<S> = Step(stage: S, action: Action)

  /** The URL an action turned up, if it is one that looks for a URL and found one. */
  function Yield(a: Action): Option<string>
  {
    match a
    case Check(_, seen) => seen
    case FrameScanned(_, found) => found
    case DomScan(found) => found
    case BodyScan(found) => found
    case VideoScan(found) => found
    case _ => None
  }

  /** The error an action threw that no `try` of the run catches, if any. */
  function Uncaught(a: Action): Option<string>
  {
    match a
    case Navigate(_, result) => if result.Throws? then Some(result.message) else None
    case SetReferer(_, result) => if result.Throws? then Some(result.message) else None
    case Fault(message) => Some(message)
    case DomScanFailed(message) => Some(message)
    case _ => None
  }

  /** How one step ends a run: with the URL it turned up, with its uncaught error, or not at all. */
  function StepOutcome(a: Action): Outcome
  {
    if Yield(a).Some? then Found(Yield(a).value)
    else if Uncaught(a).Some? then Threw(Uncaught(a).value)
    else NotFound
  }

  /** What network checkpoint `k` sees: the first manifest among the requests delivered by then. */
  function Seen(net: Network, k: nat): Option<string>
  {
    FirstManifest(Delivered(net, k + 1))
  }

  /** No step of the trace turned up a URL. */
  predicate Quiet<S>(steps: seq<Step<S>>)
  {
    forall i :: 0 <= i < |steps| ==> Yield(steps[i].action).None?
  }

  /**
   * Short-circuiting: a run that found a URL stopped at the first step that
   * turned one up, and returned that URL; a run that did not find one never
   * saw one.
   */
  predicate Reports<S>(o: Outcome, steps: seq<Step<S>>)
  {
    match o
    case Found(u) =>
      |steps| > 0 && Yield(steps[|steps| - 1].action) == Some(u) && Quiet(steps[..|steps| - 1])
    case _ => Quiet(steps)
  }

  /** Every network checkpoint saw the first manifest among the requests delivered so far. */
  predicate ChecksAgree<S>(steps: seq<Step<S>>, net: Network)
  {
    forall i :: 0 <= i < |steps| && steps[i].action.Check? ==>
      steps[i].action.seen == FirstManifest(Delivered(net, steps[i].action.k + 1))
  }

  /** The strategies of the trace come in the order given by `rank`, never going back. */
  predicate Forward<S>(steps: seq<Step<S>>, rank: S -> nat)
  {
    forall i, j :: 0 <= i < j < |steps| ==> rank(steps[i].stage) <= rank(steps[j].stage)
  }

  /** No step of the trace belongs to a strategy ranked after `r`. */
  predicate Within<S>(steps: seq<Step<S>>, rank: S -> nat, r: nat)
  {
    forall i :: 0 <= i < |steps| ==> rank(steps[i].stage) <= r
  }

  /** Every step of the block belongs to strategy `s`. */
  predicate AllAt<S(==)>(steps: seq<Step<S>>, s: S)
  {
    forall i :: 0 <= i < |steps| ==> steps[i].stage == s
  }

  /** No step of the trace belongs to a strategy ranked before `r`. */
  predicate From<S>(steps: seq<Step<S>>, rank: S -> nat, r: nat)
  {
    forall i :: 0 <= i < |steps| ==> r <= rank(steps[i].stage)
  }

  /**
   * How a run that carries out `plan` step by step ends: at the first step
   * that turns up a URL or throws an error no `try` catches, with that URL
   * or that error; with nothing found when no step does.
   */
  function Ending<S>(plan: seq<Step<S>>): Outcome
  {
    if plan == [] then NotFound
    else if StepOutcome(plan[0].action).NotFound? then Ending(plan[1..])
    else StepOutcome(plan[0].action)
  }

  /** The steps that run takes: `plan` up to and including the step it ends at, or all of `plan`. */
  function Cut<S>(plan: seq<Step<S>>): seq<Step<S>>
  {
    if plan == [] then []
    else if StepOutcome(plan[0].action).NotFound? then [plan[0]] + Cut(plan[1..])
    else [plan[0]]
  }

  /**
   * The run of a plan takes a prefix of it, and every step before its last
   * one neither turns up a URL nor throws.
   */
  lemma {:induction false} CutIsPrefix<S>(plan: seq<Step<S>>)
    ensures Cut(plan) <= plan
    ensures forall i :: 0 <= i < |Cut(plan)| - 1 ==> StepOutcome(Cut(plan)[i].action).NotFound?
  {
    if plan != [] && StepOutcome(plan[0].action).NotFound? {
      CutIsPrefix(plan[1..]);
      var c := Cut(plan[1..]);
      assert plan == [plan[0]] + plan[1..];
      forall i | 0 <= i < |c|
        ensures ([plan[0]] + c)[i + 1] == c[i]
      {
      }
    }
  }

  /**
   * The run of a plan reports its ending: a URL is the one its last step
   * turned up, after no other; an error is the one its last step threw;
   * and it finds nothing exactly when no step of the plan turns up a URL or
   * throws, having then carried out the whole plan.
   */
  lemma CutEnds<S>(plan: seq<Step<S>>)
    ensures Reports(Ending(plan), Cut(plan))
    ensures Ending(plan).Threw? ==>
              Cut(plan) != [] && Uncaught(Cut(plan)[|Cut(plan)| - 1].action) == Some(Ending(plan).message)
    ensures Ending(plan).NotFound? <==> forall i :: 0 <= i < |plan| ==> StepOutcome(plan[i].action).NotFound?
    ensures Ending(plan).NotFound? ==> Cut(plan) == plan
  {
    CutReports(plan);
    CutNotFound(plan);
  }

  /** The run of a plan reports its ending: a URL after no other, or the error its last step threw. */
  lemma {:induction false} CutReports<S>(plan: seq<Step<S>>)
    ensures Reports(Ending(plan), Cut(plan))
    ensures Ending(plan).Threw? ==>
              Cut(plan) != [] && Uncaught(Cut(plan)[|Cut(plan)| - 1].action) == Some(Ending(plan).message)
  {
    if plan != [] {
      var s, rest := plan[0], plan[1..];
      if StepOutcome(s.action).NotFound? {
        CutReports(rest);
        var c := Cut(rest);
        var all := [s] + c;
        assert Cut(plan) == all;
        forall i | 0 <= i < |c|
          ensures all[i + 1] == c[i]
        {
        }
        if Ending(rest).Found? {
          assert all[..|all| - 1] == [s] + c[..|c| - 1];
        }
      } else {
        assert [s][..0] == [];
      }
    }
  }

  /** A plan ends with nothing found exactly when none of its steps turns up a URL or throws, and it is then carried out in full. */
  lemma {:induction false} CutNotFound<S>(plan: seq<Step<S>>)
    ensures Ending(plan).NotFound? <==> forall i :: 0 <= i < |plan| ==> StepOutcome(plan[i].action).NotFound?
    ensures Ending(plan).NotFound? ==> Cut(plan) == plan
  {
    if plan != [] {
      var s, rest := plan[0], plan[1..];
      assert plan == [s] + rest;
      if StepOutcome(s.action).NotFound? {
        CutNotFound(rest);
        if (forall i :: 0 <= i < |plan| ==> StepOutcome(plan[i].action).NotFound?) {
          forall i | 0 <= i < |rest|
            ensures StepOutcome(rest[i].action).NotFound?
          {
            assert rest[i] == plan[i + 1];
          }
        }
      }
    }
  }

  /** Two plans carried out one after the other: the second is reached exactly when the first ends with nothing found. */
  lemma CutAppend<S>(a: seq<Step<S>>, b: seq<Step<S>>)
    ensures Ending(a).NotFound? ==> Ending(a + b) == Ending(b) && Cut(a + b) == a + Cut(b) && Cut(a) == a
    ensures !Ending(a).NotFound? ==> Ending(a + b) == Ending(a) && Cut(a + b) == Cut(a)
  {
    EndingAppend(a, b);
    CutOfAppend(a, b);
    CutEnds(a);
  }

  /** A plan whose steps before the last neither turn up a URL nor throw ends as its last step does, carried out in full. */
  lemma LastDecides<S>(a: seq<Step<S>>, s: Step<S>)
    requires forall i :: 0 <= i < |a| ==> StepOutcome(a[i].action).NotFound?
    ensures Ending(a + [s]) == StepOutcome(s.action) && Cut(a + [s]) == a + [s]
  {
    CutEnds(a);
    CutAppend(a, [s]);
    CutSingle(s);
  }

  /** No step of the plan throws an error that no `try` catches. */
  predicate Tolerant<S>(plan: seq<Step<S>>)
  {
    forall i :: 0 <= i < |plan| ==> Uncaught(plan[i].action).None?
  }

  /** Two plans whose errors are all caught, one after the other, make one. */
  lemma TolerantJoin<S>(a: seq<Step<S>>, b: seq<Step<S>>)
    requires Tolerant(a) && Tolerant(b)
    ensures Tolerant(a + b)
  {
    var ab := a + b;
    forall i | 0 <= i < |ab|
      ensures ab[i] == if i < |a| then a[i] else b[i - |a|]
    {
    }
  }

  /** A plan whose every error is caught never ends with one. */
  lemma {:induction false} TolerantNeverThrows<S>(plan: seq<Step<S>>)
    requires Tolerant(plan)
    ensures !Ending(plan).Threw?
  {
    if plan != [] {
      assert Tolerant(plan[1..]) by {
        forall i | 0 <= i < |plan| - 1
          ensures plan[1..][i] == plan[i + 1]
        {
        }
      }
      TolerantNeverThrows(plan[1..]);
    }
  }

  /** How two plans carried out one after the other end. */
  lemma {:induction false} EndingAppend<S>(a: seq<Step<S>>, b: seq<Step<S>>)
    ensures Ending(a + b) == if Ending(a).NotFound? then Ending(b) else Ending(a)
    decreases |a|
  {
    if a == [] {
      assert a + b == b;
    } else {
      var ab := a + b;
      assert ab[0] == a[0] && ab[1..] == a[1..] + b;
      EndingAppend(a[1..], b);
    }
  }

  /** The steps two plans carried out one after the other take. */
  lemma {:induction false} CutOfAppend<S>(a: seq<Step<S>>, b: seq<Step<S>>)
    ensures Cut(a + b) == if Ending(a).NotFound? then a + Cut(b) else Cut(a)
    decreases |a|
  {
    if a == [] {
      assert a + b == b;
    } else {
      var ab := a + b;
      assert ab[0] == a[0] && ab[1..] == a[1..] + b;
      CutOfAppend(a[1..], b);
      if StepOutcome(a[0].action).NotFound? {
        assert Cut(ab) == [a[0]] + Cut(a[1..] + b);
        if Ending(a[1..]).NotFound? {
          assert [a[0]] + (a[1..] + Cut(b)) == ([a[0]] + a[1..]) + Cut(b);
          assert [a[0]] + a[1..] == a;
        }
      }
    }
  }

  /**
   * After a plan whose errors are all caught, an error that ends the run is
   * the second plan's, and a run that finds nothing carries out the first
   * plan in full and then the second.
   */
  lemma AfterTolerant<S>(a: seq<Step<S>>, b: seq<Step<S>>)
    requires Tolerant(a)
    ensures Ending(a + b).Threw? ==> Ending(a + b) == Ending(b)
    ensures Ending(a + b).NotFound? ==> Ending(b).NotFound? && Cut(a + b) == a + Cut(b)
  {
    TolerantNeverThrows(a);
    CutAppend(a, b);
  }

  /** A plan of one step ends as that step does. */
  lemma CutSingle<S>(s: Step<S>)
    ensures Ending([s]) == StepOutcome(s.action) && Cut([s]) == [s]
  {
    assert [s][1..] == [];
  }

  /** Carrying out a plan from step `i` on: step `i`, then the rest unless step `i` ends the run. */
  lemma CutAt<S>(plan: seq<Step<S>>, i: nat)
    requires i < |plan|
    ensures StepOutcome(plan[i].action).NotFound? ==>
              Ending(plan[i..]) == Ending(plan[i + 1..]) && Cut(plan[i..]) == [plan[i]] + Cut(plan[i + 1..])
    ensures !StepOutcome(plan[i].action).NotFound? ==>
              Ending(plan[i..]) == StepOutcome(plan[i].action) && Cut(plan[i..]) == [plan[i]]
  {
    assert plan[i..][0] == plan[i];
    assert plan[i..][1..] == plan[i + 1..];
  }

  /** The facts about a plan that carry over to every prefix of it, such as the run of the plan. */
  lemma PrefixKeeps<S>(steps: seq<Step<S>>, plan: seq<Step<S>>, rank: S -> nat, net: Network)
    requires steps <= plan
    ensures Forward(plan, rank) ==> Forward(steps, rank)
    ensures ChecksAgree(plan, net) ==> ChecksAgree(steps, net)
  {
    forall i | 0 <= i < |steps|
      ensures steps[i] == plan[i]
    {
    }
  }

  /** A block of a single strategy moves forward and stays at that strategy's rank. */
  lemma Uniform<S>(b: seq<Step<S>>, s: S, rank: S -> nat, lo: nat)
    requires AllAt(b, s) && lo <= rank(s)
    ensures Forward(b, rank) && Within(b, rank, rank(s)) && From(b, rank, lo)
  {
  }

  /**
   * A run that has not gone past rank `r`, followed by a run that starts at
   * rank `r` or later, moves forward; and the checkpoints of both agree
   * with the network.
   */
  lemma Concat<S>(a: seq<Step<S>>, b: seq<Step<S>>, rank: S -> nat, net: Network, r: nat, r': nat)
    requires Forward(a, rank) && Within(a, rank, r) && ChecksAgree(a, net)
    requires Forward(b, rank) && From(b, rank, r) && Within(b, rank, r') && ChecksAgree(b, net)
    requires r <= r'
    ensures Forward(a + b, rank) && Within(a + b, rank, r') && ChecksAgree(a + b, net)
  {
    var ab := a + b;
    forall i | 0 <= i < |ab|
      ensures ab[i] == if i < |a| then a[i] else b[i - |a|]
    {
    }
  }

  /** A block of one strategy `s` whose checkpoints agree with the network, added after a run up to rank `r`. */
  lemma Extend<S>(a: seq<Step<S>>, b: seq<Step<S>>, s: S, rank: S -> nat, net: Network, r: nat)
    requires Forward(a, rank) && Within(a, rank, r) && ChecksAgree(a, net)
    requires AllAt(b, s) && ChecksAgree(b, net) && r <= rank(s)
    ensures Forward(a + b, rank) && Within(a + b, rank, rank(s)) && ChecksAgree(a + b, net)
  {
    Uniform(b, s, rank, r);
    Concat(a, b, rank, net, r, rank(s));
  }

  /**
   * A block of strategy `s`, followed by a run that moves forward from a
   * rank no earlier than `s`'s, moves forward; the checkpoints of both
   * agree with the network.
   */
  lemma Opens<S>(a: seq<Step<S>>, b: seq<Step<S>>, s: S, rank: S -> nat, net: Network, mid: nat, hi: nat)
    requires AllAt(a, s) && ChecksAgree(a, net)
    requires Forward(b, rank) && From(b, rank, mid) && Within(b, rank, hi) && ChecksAgree(b, net)
    requires rank(s) <= mid <= hi
    ensures Forward(a + b, rank) && ChecksAgree(a + b, net)
  {
    Lead(a, b, s, rank, net, mid, hi);
  }

  /** As `Opens`, also keeping the ranks the whole run stays between. */
  lemma Lead<S>(a: seq<Step<S>>, b: seq<Step<S>>, s: S, rank: S -> nat, net: Network, mid: nat, hi: nat)
    requires AllAt(a, s) && ChecksAgree(a, net)
    requires Forward(b, rank) && From(b, rank, mid) && Within(b, rank, hi) && ChecksAgree(b, net)
    requires rank(s) <= mid <= hi
    ensures Forward(a + b, rank) && From(a + b, rank, rank(s)) && Within(a + b, rank, hi) && ChecksAgree(a + b, net)
  {
    Uniform(a, s, rank, rank(s));
    Chain(a, b, rank, net, rank(s), rank(s), hi);
  }

  /**
   * A run between ranks `lo` and `mid`, followed by a run between ranks
   * `mid` and `hi`, moves forward between `lo` and `hi`; and the
   * checkpoints of both agree with the network.
   */
  lemma Chain<S>(a: seq<Step<S>>, b: seq<Step<S>>, rank: S -> nat, net: Network, lo: nat, mid: nat, hi: nat)
    requires Forward(a, rank) && From(a, rank, lo) && Within(a, rank, mid) && ChecksAgree(a, net)
    requires Forward(b, rank) && From(b, rank, mid) && Within(b, rank, hi) && ChecksAgree(b, net)
    requires lo <= mid <= hi
    ensures Forward(a + b, rank) && From(a + b, rank, lo) && Within(a + b, rank, hi) && ChecksAgree(a + b, net)
  {
    var ab := a + b;
    forall i | 0 <= i < |ab|
      ensures ab[i] == if i < |a| then a[i] else b[i - |a|]
    {
    }
  }

  /** Two blocks of strategy `s` whose errors are caught and whose checkpoints agree make one such block. */
  lemma Joined<S>(a: seq<Step<S>>, b: seq<Step<S>>, s: S, net: Network)
    requires AllAt(a, s) && ChecksAgree(a, net) && Tolerant(a)
    requires AllAt(b, s) && ChecksAgree(b, net) && Tolerant(b)
    ensures AllAt(a + b, s) && ChecksAgree(a + b, net) && Tolerant(a + b)
  {
    var ab := a + b;
    forall i | 0 <= i < |ab|
      ensures ab[i] == if i < |a| then a[i] else b[i - |a|]
    {
    }
  }

  /** The actions of a stretch of code, all in strategy `s`. */
  function Tag<S>(s: S, actions: seq<Action>): (b: seq<Step<S>>)
    ensures |b| == |actions| && AllAt(b, s)
    ensures forall i :: 0 <= i < |b| ==> b[i].action == actions[i]
  {
    seq(|actions|, i requires 0 <= i < |actions| => Step(s, actions[i]))
  }

  /** A wait of `ms` milliseconds, then network checkpoint `k`, in strategy `s`. */
  function WaitPlan<S>(s: S, ms: real, k: nat, net: Network): seq<Step<S>>
  {
    [Step(s, Pause(ms)), Step(s, Check(k, Seen(net, k)))]
  }

  /** A wait ends the run exactly when its checkpoint sees a URL, and otherwise is carried out in full. */
  lemma WaitEnds<S>(s: S, ms: real, k: nat, net: Network)
    ensures Ending(WaitPlan(s, ms, k, net)) == StepOutcome(Check(k, Seen(net, k)))
    ensures Cut(WaitPlan(s, ms, k, net)) == WaitPlan(s, ms, k, net)
    ensures AllAt(WaitPlan(s, ms, k, net), s) && ChecksAgree(WaitPlan(s, ms, k, net), net)
  {
    var w := WaitPlan(s, ms, k, net);
    assert w == [w[0]] + [w[1]];
    CutSingle(w[0]);
    CutSingle(w[1]);
    CutAppend([w[0]], [w[1]]);
    WaitAt(s, ms, k, net);
  }

  /** A wait belongs to one strategy, and its checkpoint sees what was delivered by then. */
  lemma WaitAt<S>(s: S, ms: real, k: nat, net: Network)
    ensures AllAt(WaitPlan(s, ms, k, net), s) && ChecksAgree(WaitPlan(s, ms, k, net), net)
  {
    var w := WaitPlan(s, ms, k, net);
    assert w[1].action == Check(k, Seen(net, k));
  }

  /**
   * The final DOM search that ends the Playwright extractor and the server
   * (playwright-extractor.js:229-233, server.js:143-147): the page's
   * `documentElement` markup, or "" without one, with the strict pattern;
   * an evaluation that throws fails the search.
   */
  function ScanPage(page: Access): (a: Action)
    ensures page.Denied? <==> a.DomScanFailed?
    ensures page.Denied? ==> a.message == page.message
    ensures page.Open? ==> a == DomScan(FirstMatch(StrictExclusions, OrEmpty(page.documentElement)))
  {
    match page
    case Denied(message) => DomScanFailed(message)
    case Open(html, _) => DomScan(FirstMatch(StrictExclusions, OrEmpty(html)))
  }

  /**
   * The run ends at the final DOM search with the URL it found, with the
   * evaluation's error, which is not caught, or with nothing found.
   */
  lemma ScanPageEnds(page: Access)
    ensures page.Denied? ==> StepOutcome(ScanPage(page)) == Threw(page.message)
    ensures page.Open? ==>
              var m := FirstMatch(StrictExclusions, OrEmpty(page.documentElement));
              StepOutcome(ScanPage(page)) == if m.Some? then Found(m.value) else NotFound
  {
  }

  /**
   * Network checkpoint `k` of a duplicate-free log: the batch due is
   * delivered, then the log's head (`m3u8Urls[0]`) is what the checkpoint sees.
   */
  method CheckSniffLog(log: SniffLog, net: Network, k: nat) returns (seen: Option<string>)
    requires log.Valid() && log.requests == Delivered(net, k)
    modifies log
    ensures log.Valid() && log.requests == Delivered(net, k + 1)
    ensures seen == FirstManifest(Delivered(net, k + 1))
    ensures seen.Some? <==> log.urls != []
    ensures seen.Some? ==> seen.value == log.urls[0]
  {
    log.Deliver(net(k));
    DistinctHead(Manifests(log.requests));
    if log.urls != [] {
      seen := Some(log.urls[0]);
    } else {
      seen := None;
    }
  }

  /** Network checkpoint `k` of a log that keeps repeats. */
  method CheckInterceptLog(log: InterceptLog, net: Network, k: nat) returns (seen: Option<string>)
    requires log.Valid() && log.continued == Delivered(net, k)
    modifies log
    ensures log.Valid() && log.continued == Delivered(net, k + 1)
    ensures seen == FirstManifest(Delivered(net, k + 1))
    ensures seen.Some? <==> log.urls != []
    ensures seen.Some? ==> seen.value == log.urls[0]
  {
    log.Deliver(net(k));
    if log.urls != [] {
      seen := Some(log.urls[0]);
    } else {
      seen := None;
    }
  }

  /**
   * The walk over `page.frames()` as a plan: one step of strategy `stage`
   * per frame, in order, `visit` saying what happened at it (skipped,
   * evaluation failed and swallowed, or scanned).
   */
  function Visits<S>(stage: S, frames: seq<Frame>, visit: (nat, Frame) -> Action): (v: seq<Step<S>>)
    ensures |v| == |frames|
  {
    seq(|frames|, j requires 0 <= j < |frames| => Step(stage, visit(j, frames[j])))
  }

  /**
   * The frame walk, which returns the first URL a frame turns up: it
   * carries out the plan of `Visits` (whose errors are all caught).
   */
  method WalkFrames<S(==)>(stage: S, frames: seq<Frame>, visit: (nat, Frame) -> Action)
    returns (o: Outcome, block: seq<Step<S>>)
    requires forall j :: 0 <= j < |frames| ==> Uncaught(visit(j, frames[j])).None?
    ensures o == Ending(Visits(stage, frames, visit)) && block == Cut(Visits(stage, frames, visit))
  {
    ghost var plan := Visits(stage, frames, visit);
    block := [];
    for i := 0 to |frames|
      invariant Ending(plan) == Ending(plan[i..]) && Cut(plan) == block + Cut(plan[i..])
    {
      var a := visit(i, frames[i]);
      assert plan[i] == Step(stage, a);
      CutAt(plan, i);
      if Yield(a).Some? {
        return Found(Yield(a).value), block + [Step(stage, a)];
      }
      block := block + [Step(stage, a)];
    }
    assert plan[|frames|..] == [];
    o := NotFound;
  }

  /**
   * The frame walk finds nothing exactly when no frame yields a URL, and
   * otherwise finds the URL of the first frame that yields one; it never
   * throws.
   */
  lemma VisitsFindFirst<S>(stage: S, frames: seq<Frame>, visit: (nat, Frame) -> Action)
    requires forall j :: 0 <= j < |frames| ==> Uncaught(visit(j, frames[j])).None?
    ensures !Ending(Visits(stage, frames, visit)).Threw?
    ensures Ending(Visits(stage, frames, visit)).NotFound? <==>
              forall j :: 0 <= j < |frames| ==> Yield(visit(j, frames[j])).None?
    ensures Ending(Visits(stage, frames, visit)).Found? ==>
              exists i :: 0 <= i < |frames| && Yield(visit(i, frames[i])) == Some(Ending(Visits(stage, frames, visit)).url) &&
                forall j :: 0 <= j < i ==> Yield(visit(j, frames[j])).None?
  {
    var plan := Visits(stage, frames, visit);
    CutEnds(plan);
    CutIsPrefix(plan);
    var c := Cut(plan);
    forall j | 0 <= j < |frames|
      ensures StepOutcome(plan[j].action).NotFound? <==> Yield(visit(j, frames[j])).None?
    {
      assert plan[j].action == visit(j, frames[j]);
    }
    if Ending(plan).Found? {
      var i := |c| - 1;
      assert c[i] == plan[i];
      forall j | 0 <= j < i
        ensures Yield(visit(j, frames[j])).None?
      {
        assert c[j] == plan[j];
      }
    }
  }
}
