/**
 * The request logs filled by the page's `request` callback
 * (playwright-extractor.js:107-115, server.js:50-58 with duplicate removal;
 * puppeteer-extractor.js:52-63 without it, and with request interception).
 * The driver calls the callback once per outgoing request, in arrival order.
 */
module Sniffer {
  import opened Text
  import opened Sequences

  /** The callback's filter: `reqUrl.includes('.m3u8')`, case-sensitive. */
  predicate IsManifestRequest(u: string)
  {
    Contains(u, ".m3u8")
  }

  /** The request URLs that pass the filter, in arrival order. */
  function Manifests(urls: seq<string>): seq<string>
  {
    if urls == [] then []
    else
      var last := urls[|urls| - 1];
      Manifests(urls[..|urls| - 1]) + if IsManifestRequest(last) then [last] else []
  }

  /** Exactly the requests that pass the filter are kept. */
  lemma {:induction false} ManifestsMembership(urls: seq<string>, u: string)
    ensures u in Manifests(urls) <==> u in urls && IsManifestRequest(u)
  {
    if urls != [] {
      var init := urls[..|urls| - 1];
      ManifestsMembership(init, u);
      assert urls == init + [urls[|urls| - 1]];
    }
  }

  /** One more request extends the filtered stream by that request exactly when it passes the filter. */
  lemma ManifestsSnoc(urls: seq<string>, u: string)
    ensures Manifests(urls + [u]) == Manifests(urls) + if IsManifestRequest(u) then [u] else []
  {
    assert (urls + [u])[..|urls|] == urls;
  }

  /** Filtering distributes over concatenation, so later arrivals never disturb earlier ones. */
  lemma {:induction false} ManifestsAppend(xs: seq<string>, ys: seq<string>)
    ensures Manifests(xs + ys) == Manifests(xs) + Manifests(ys)
    decreases |ys|
  {
    if ys != [] {
      var init, last := ys[..|ys| - 1], ys[|ys| - 1];
      var tail := if IsManifestRequest(last) then [last] else [];
      calc {
        Manifests(xs + ys);
        { assert xs + ys == (xs + init) + [last]; }
        Manifests((xs + init) + [last]);
        { ManifestsSnoc(xs + init, last); }
        Manifests(xs + init) + tail;
        { ManifestsAppend(xs, init); }
        Manifests(xs) + Manifests(init) + tail;
        { ManifestsSnoc(init, last); assert ys == init + [last]; }
        Manifests(xs) + Manifests(ys);
      }
    } else {
      assert xs + ys == xs;
    }
  }

  /** Once some manifest URL has arrived, the first one stays the first one whatever arrives later. */
  lemma FirstManifestIsStable(xs: seq<string>, ys: seq<string>)
    requires xs <= ys && Manifests(xs) != []
    ensures Manifests(ys) != [] && Manifests(ys)[0] == Manifests(xs)[0]
  {
    assert ys == xs + ys[|xs|..];
    ManifestsAppend(xs, ys[|xs|..]);
  }

  /** The duplicate-free log only ever grows at its end: what it held stays in place. */
  lemma {:induction false} DistinctLogOnlyGrows(xs: seq<string>, ys: seq<string>)
    ensures Distinct(Manifests(xs)) <= Distinct(Manifests(xs + ys))
    decreases |ys|
  {
    if ys != [] {
      var init, last := ys[..|ys| - 1], ys[|ys| - 1];
      assert xs + ys == (xs + init) + [last];
      DistinctLogOnlyGrows(xs, init);
      ManifestsSnoc(xs + init, last);
      if IsManifestRequest(last) {
        DistinctSnoc(Manifests(xs + init), last);
      } else {
        assert Manifests(xs + init) + [] == Manifests(xs + init);
      }
    } else {
      assert xs + ys == xs;
    }
  }

  /** Of two duplicate-free logs, the one of the longer request stream extends the other. */
  lemma LogGrows(before: seq<string>, seen: seq<string>, after: seq<string>, more: seq<string>)
    requires before == Distinct(Manifests(seen)) && after == Distinct(Manifests(more)) && seen <= more
    ensures before <= after
  {
    assert more == seen + more[|seen|..];
    DistinctLogOnlyGrows(seen, more[|seen|..]);
  }

  /**
   * The log of playwright-extractor.js:107-115 and server.js:50-58: a URL is
   * appended when it contains `.m3u8` and is not in the log yet.
   */
  class SniffLog {
    /** `m3u8Urls`. */
    var urls: seq<string>
    /** Every request URL the callback has been given, in order. */
    ghost var requests: seq<string>

    /** The log is the duplicate-free filtered request stream. */
    ghost predicate Valid()
      reads this
    {
      urls == Distinct(Manifests(requests))
    }

    constructor ()
      ensures Valid() && urls == [] && requests == []
    {
      urls := [];
      requests := [];
    }

    /** The `request` callback. */
    method OnRequest(u: string)
      requires Valid()
      modifies this
      ensures Valid() && requests == old(requests) + [u]
      ensures urls == if IsManifestRequest(u) && u !in old(urls) then old(urls) + [u] else old(urls)
      ensures old(urls) <= urls
    {
      ghost var passed := Manifests(requests);
      ManifestsSnoc(requests, u);
      DistinctMembership(passed);
      if IsManifestRequest(u) {
        DistinctSnoc(passed, u);
        if u !in urls {
          urls := urls + [u];
        }
      } else {
        assert passed + [] == passed;
      }
      requests := requests + [u];
    }

    /** The driver calls the callback for every request of a batch, first to last. */
    method Deliver(batch: seq<string>)
      requires Valid()
      modifies this
      ensures Valid() && requests == old(requests) + batch
      ensures old(urls) <= urls
      decreases |batch|
    {
      if batch != [] {
        OnRequest(batch[0]);
        Deliver(batch[1..]);
        assert old(requests) + batch == old(requests) + [batch[0]] + batch[1..];
        LogGrows(old(urls), old(requests), urls, requests);
      }
    }
  }

  /**
   * The log of puppeteer-extractor.js:52-63: with request interception on,
   * every request is continued, and every URL containing `.m3u8` is
   * appended, repeated or not.
   */
  class InterceptLog {
    /** `m3u8Urls`. */
    var urls: seq<string>
    /** Every request released with `request.continue()`, in order. */
    var continued: seq<string>

    /** The log is the filtered request stream, duplicates included. */
    ghost predicate Valid()
      reads this
    {
      urls == Manifests(continued)
    }

    constructor ()
      ensures Valid() && urls == [] && continued == []
    {
      urls := [];
      continued := [];
    }

    /** The `request` callback. */
    method OnRequest(u: string)
      requires Valid()
      modifies this
      ensures Valid() && continued == old(continued) + [u]
      ensures urls == if IsManifestRequest(u) then old(urls) + [u] else old(urls)
      ensures old(urls) <= urls
    {
      ManifestsSnoc(continued, u);
      if IsManifestRequest(u) {
        urls := urls + [u];
      }
      continued := continued + [u];
    }

    /** The driver calls the callback for every request of a batch, first to last. */
    method Deliver(batch: seq<string>)
      requires Valid()
      modifies this
      ensures Valid() && continued == old(continued) + batch
      ensures old(urls) <= urls
      decreases |batch|
    {
      if batch != [] {
        ghost var mid := urls;
        OnRequest(batch[0]);
        Deliver(batch[1..]);
        assert old(continued) + batch == old(continued) + [batch[0]] + batch[1..];
        assert old(urls) <= mid <= urls;
      }
    }
  }

  /** A request stream `[a, b, a, c]` of which only `a` and `c` pass the filter. */
  const SampleRequests: seq<string> := ["a.m3u8", "b", "a.m3u8", "c.m3u8"]

  /** The filter keeps `a`, `a` and `c` of that stream, in order. */
  lemma SampleFiltered()
    ensures Manifests(SampleRequests) == ["a.m3u8", "a.m3u8", "c.m3u8"]
  {
    var a, b, c := "a.m3u8", "b", "c.m3u8";
    assert OccursAt(a, ".m3u8", 1) && OccursAt(c, ".m3u8", 1);
    assert IsManifestRequest(a) && IsManifestRequest(c) && !IsManifestRequest(b);
    ManifestsSnoc([], a);
    ManifestsSnoc([a], b);
    ManifestsSnoc([a, b], a);
    ManifestsSnoc([a, b, a], c);
    assert [a] == [] + [a] && [a, b] == [a] + [b] && [a, b, a] == [a, b] + [a];
    assert SampleRequests == [a, b, a] + [c];
  }

  /** The duplicate-free log of that stream is `[a, c]`. */
  lemma SampleDeduplicated()
    ensures Distinct(Manifests(SampleRequests)) == ["a.m3u8", "c.m3u8"]
  {
    SampleFiltered();
    var a, c := "a.m3u8", "c.m3u8";
    assert a != c by {
      assert a[0] != c[0];
    }
    assert Distinct([a]) == [a] by {
      DistinctSnoc([], a);
      assert [a] == [] + [a];
    }
    assert Distinct([a, a]) == [a] by {
      DistinctSnoc([a], a);
      assert [a, a] == [a] + [a];
    }
    assert c !in [a, a];
    DistinctSnoc([a, a], c);
    assert [a, a, c] == [a, a] + [c];
  }
}
