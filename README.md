# HLS manifest discovery, modelled in Dafny

The system finds the HLS manifest URL (a URL containing `.m3u8`) that a video page loads. It does this by driving a browser. There are three browser variants and one browser-free edge worker:

- **Playwright extractor** (`playwright-extractor.js`). A stealth browser that imitates a human: mouse glides, scrolling and random delays. It then clicks likely player elements, walks the frames (skipping Cloudflare's), waits, and finally scans the page markup.
- **Puppeteer extractor** (`puppeteer-extractor.js`). A browser with request interception. A failed navigation is tolerated. It then tries the network log, the page body, the `<video>` sources and the frames, and checks the network log again after a second wait.
- **Real-browser server** (`server.js`). The `POST /extract-stream` handler. It runs a real browser that gets past the Cloudflare challenge, then clicks the centre of the viewport and every large iframe. It answers with JSON and an HTTP status.
- **Edge worker** (`cloudflare-worker.js`). It fetches the page, scans the raw text and classifies the result.

Every browser variant has a request log, filled by the page's `request` callback with the URLs that contain `.m3u8`. At a series of checkpoints, a non-empty log ends the run with the log's first entry.

## What is modelled

**The browser is a scripted driver** (`driver.dfy`):
- The launch, the page setup, the navigation, the Referer header, the clicks, the box lookups, the iframe listing and every page or frame evaluation can throw; each is an `Attempt` or an `Access` given by the script. The calls listed under "## Left out" are taken never to throw.
- Every frame evaluation either throws or reads a snapshot of the markup.
- The outgoing requests arrive as a `Network`: one batch of URLs is delivered to the callback at each network checkpoint (each wait).
- `Math.random()` is a source of draws, `rand: nat -> Unit`.

**Each variant has a plan.** `Plan(url, sc)` is the sequence of steps the code performs for a script `sc` when nothing stops it: every action with its outcome, each tagged with the strategy it belongs to. A run carries the plan out step by step and stops at the first step that turns up a URL (a `return`) or throws an error no `try` catches. `Ending(plan)` is how that run ends and `Cut(plan)` is the steps it takes. Every run method is proved to return exactly `Ending` and `Cut` of its part of the plan. Lemmas about the plans then state what the code promises:
- `Reports`: the run stops at the first step that turns up a URL and returns exactly that URL.
- `Forward`: the strategies never go back.
- `ChecksAgree`: every network checkpoint sees the first manifest request delivered so far.
- Which errors can end a run, and what a run that finds nothing has done.

**The pattern `https?://[^D]+\.m3u8[^D]*`** (case-insensitive, where D is whitespace plus excluded characters) is a hand-written scanner (`scanner.dfy`):
- It is specified by `IsMatch`.
- It comes in two variants: one excludes the backslash, the other does not.

**The request logs** (`sniffer.dfy`) are classes whose methods update the log in place:
- `SniffLog` removes duplicates.
- `InterceptLog` keeps them.

**The human-motion helpers** (`human_motion.dfy`) use exact real arithmetic. Each intermediate mouse move is computed by `JitteredMove`, the formula of playwright-extractor.js:15-17 with its origin `(0, 0)`.

**The worker** (`worker.dfy`) is a pure function of:
- the request;
- a fetch function that gives the upstream status and body text.

## Model

| member | source | states |
|---|---|---|
| Text.Utf16Length | cloudflare-worker.js:80 | `text.length` counts UTF-16 code units: between the number of characters and twice that, and exactly the number of characters when all are in the Basic Multilingual Plane |
| Text.Lower | playwright-extractor.js:207 | the `i` flag folds the ASCII capitals onto their lower-case letters and leaves every other character alone |
| Sequences.FirstIndex | server.js:54 | the first occurrence of an element: it holds that element and no earlier position does |
| Sequences.DistinctMembership | cloudflare-worker.js:62 | `[...new Set(xs)]` holds exactly the elements of `xs` |
| Sequences.DistinctNoDuplicates | cloudflare-worker.js:62 | `[...new Set(xs)]` holds each element once |
| Sequences.DistinctHead | cloudflare-worker.js:62 | `[...new Set(xs)]` starts with `xs[0]` when `xs` is not empty |
| Sequences.DistinctOrder | cloudflare-worker.js:62 | `[...new Set(xs)]` lists the elements in the order of their first occurrence in `xs` |
| Sequences.DistinctSnoc | server.js:54-56 | one more arrival extends the duplicate-free list by that arrival exactly when it is not in the list yet |
| Sequences.NoDuplicatesCardinality | cloudflare-worker.js:62 | a list without repeats has as many entries as it has distinct elements |
| Sequences.DistinctCardinality | cloudflare-worker.js:62 | the duplicate-free list has one entry per distinct element |
| Sequences.FirstIndexInPrefix | server.js:54 | an element of a prefix has its first occurrence inside that prefix |
| Scanner.SchemeLength | playwright-extractor.js:207 | the scheme at a position is `https://` when present, otherwise `http://`, compared case-insensitively; 0 when neither is there |
| Scanner.RunEnd | playwright-extractor.js:207 | the greedy `[^D]` run ends at the first delimiter or at the end of the input |
| Scanner.MarkerWithin | playwright-extractor.js:207 | true exactly when `.m3u8` (any case) lies inside the given stretch |
| Scanner.FindFrom | playwright-extractor.js:207 | the span found is a match starting at or after `from` with no match starting before it; none is found only when no match starts at or after `from` |
| Scanner.FirstMatch | playwright-extractor.js:206-208 | `match[0]`: none exactly when the pattern matches nowhere, otherwise the text of the leftmost match |
| Scanner.SpansFrom | cloudflare-worker.js:55-56 | the global scan gives matches only, non-overlapping and left to right, the first being the leftmost |
| Scanner.SpansCoverMatches | cloudflare-worker.js:55-56 | the global scan skips no match: every match starts inside one of its spans |
| Scanner.AllMatches | cloudflare-worker.js:56 | `text.match(/…/gi)`: the texts of the global scan's spans, empty exactly when there is no match, headed by the first match |
| Scanner.GlobalHead | puppeteer-extractor.js:95-96 | the head of a global match is the match found without the `g` flag |
| Scanner.MatchShape | playwright-extractor.js:207 | every match starts with `http://` or `https://`, contains `.m3u8` (any case), holds no delimiter, and ends at a delimiter or at the end of the input |
| Scanner.FramedUrlIsFound | playwright-extractor.js:206-208 | a manifest URL framed by two delimiters, after markup that holds no match and before any markup at all, is what `match[0]` returns, without the framing characters |
| Scanner.FirstMatchAt | playwright-extractor.js:206-208 | a match with no match starting before it is `match[0]` |
| Scanner.LenientKeepsBackslash | puppeteer-extractor.js:94 | the pattern without the backslash exclusion lets a backslash into the match (`http://a\b.m3u8` is found whole) |
| Scanner.StrictMatchHasNoBackslash | server.js:131 | a match of the strict pattern never holds a backslash |
| Scanner.RunEndsAgree | puppeteer-extractor.js:94 | without a backslash in the input, the delimiter runs of both variants end at the same place |
| Scanner.VariantsAgreeWithoutBackslash | puppeteer-extractor.js:94 | without a backslash in the input, both variants find the same match from any position |
| Sniffer.ManifestsMembership | playwright-extractor.js:109-115 | a URL is in the filtered stream exactly when it was requested and contains `.m3u8` |
| Sniffer.ManifestsSnoc | playwright-extractor.js:111-113 | one more request extends the filtered stream by that request exactly when it passes the filter |
| Sniffer.ManifestsAppend | playwright-extractor.js:109-115 | filtering distributes over concatenation, so arrival order is kept and later requests never disturb earlier ones |
| Sniffer.FirstManifestIsStable | playwright-extractor.js:128-131 | once a manifest request has arrived, the first one stays first whatever arrives later |
| Sniffer.DistinctLogOnlyGrows | server.js:52-58 | the duplicate-free log only grows at its end |
| Sniffer.LogGrows | server.js:52-58 | the duplicate-free log of a request stream extends the log of any prefix of that stream |
| Sniffer.SniffLog.constructor | playwright-extractor.js:107 | the log starts empty and equal to the duplicate-free filtered stream of no requests |
| Sniffer.SniffLog.OnRequest | playwright-extractor.js:109-115 | the callback appends a URL exactly when it contains `.m3u8` and is not logged yet, and keeps the log equal to the duplicate-free filtered request stream |
| Sniffer.SniffLog.Deliver | server.js:52-58 | delivering a batch keeps that invariant and never shrinks or reorders the log |
| Sniffer.InterceptLog.constructor | puppeteer-extractor.js:52 | the log starts empty with no request continued |
| Sniffer.InterceptLog.OnRequest | puppeteer-extractor.js:56-63 | every request is continued, and a URL containing `.m3u8` is appended even when repeated; the log is the filtered stream of continued requests |
| Sniffer.InterceptLog.Deliver | puppeteer-extractor.js:56-63 | delivering a batch continues every request in order and never shrinks the log |
| Sniffer.SampleFiltered | puppeteer-extractor.js:58-60 | on a sample stream the filter keeps the repeats, in order |
| Sniffer.SampleDeduplicated | server.js:54-56 | on the same stream the duplicate-free log keeps first occurrences only |
| HumanMotion.StepCount | playwright-extractor.js:11 | `10 + Math.floor(Math.random() * 10)` lies between 10 and 19 |
| HumanMotion.JitteredStep | playwright-extractor.js:15-17 | a move computed from the origin `(0, 0)` lies within [-10, 10) px, on each axis, of its point `i / steps` of the way to the target |
| HumanMotion.PathMoves | playwright-extractor.js:14-21 | the path is the `steps` jittered moves in order, then the target itself |
| HumanMotion.PathPauses | playwright-extractor.js:19 | one pause per intermediate move, each of 10 to 40 ms |
| HumanMotion.MousePathShape | playwright-extractor.js:10-22 | 11 to 20 moves, every one but the last within the jitter of its interpolated point, the last exactly at the target, and a 10 to 40 ms pause after each intermediate move |
| HumanMotion.HumanMouseMove | playwright-extractor.js:10-22 | the loop computes exactly `MousePath` and `MousePauses` with the draws of `PathEnd`: 10 to 19 intermediate moves (never 20), move `i` within [-10, 10) px of `(i/steps)·(x, y)` from the fixed origin, a 10 to 40 ms pause after each, then one final move exactly to `(x, y)` |
| HumanMotion.HumanScroll | playwright-extractor.js:27-31 | the wheel amount is a whole number in [100, 399] and the pause is in [500, 1500) ms |
| HumanMotion.HumanDelay | playwright-extractor.js:36-39 | the delay lies in [min, max) when min < max, and is min when they are equal |
| HumanMotion.ScaledBelow | playwright-extractor.js:37 | a draw times a positive width lies in [0, width) |
| HumanMotion.ScrollBoundsAreReached | playwright-extractor.js:28 | both ends of the wheel range are reached |
| Driver.WithReferer | playwright-extractor.js:82 | the Referer header is present exactly when the referer is truthy (or already there), carries the referer, and every other header is unchanged |
| Driver.DeliveredGrows | playwright-extractor.js:109-115 | the requests delivered by a checkpoint are a prefix of those delivered by any later one |
| Driver.FirstManifestIsEarliest | playwright-extractor.js:128-130 | what a checkpoint sees is absent exactly when no delivered request contains `.m3u8`, and otherwise is the earliest that does |
| Driver.FirstManifestIsStable | playwright-extractor.js:153-156 | once a checkpoint has seen a URL, every later checkpoint sees the same URL |
| Driver.CutIsPrefix | playwright-extractor.js:117-240 | a run takes a prefix of its plan, and every step before the last one neither returned a URL nor threw |
| Driver.CutEnds | playwright-extractor.js:117-240 | a run that found a URL stopped at the first step that turned one up and returns it; an error is the one its last step threw; it finds nothing exactly when no step of the plan returns or throws, and has then carried out the whole plan |
| Driver.CutReports | playwright-extractor.js:117-240 | a URL is the one the last step turned up, after no other; an error is the one the last step threw |
| Driver.CutNotFound | playwright-extractor.js:117-240 | nothing is found exactly when no step returns or throws, and the whole plan is then carried out |
| Driver.CutAppend | playwright-extractor.js:117-240 | of two stretches of code in a row, the second runs exactly when the first neither returned nor threw, and the run then ends as the second does |
| Driver.CutAt | playwright-extractor.js:117-240 | from step `i` on, the run takes step `i` and goes on exactly when that step neither returns nor throws |
| Driver.LastDecides | playwright-extractor.js:148-156 | a stretch whose steps before its last cannot return or throw (a wait before its check) ends as its last step does, carried out in full |
| Driver.TolerantNeverThrows | puppeteer-extractor.js:67-161 | code whose every error is caught never ends with an error |
| Driver.AfterTolerant | playwright-extractor.js:192-240 | after code whose every error is caught, an error that ends the run is the following code's, and a run that finds nothing has carried out both |
| Driver.WaitEnds | playwright-extractor.js:218-225 | a wait and its checkpoint are carried out in full and end the run exactly when the checkpoint sees a URL; the checkpoint sees the first manifest delivered by then |
| Driver.ScanPage | playwright-extractor.js:229-233 | the final scan of the Playwright extractor and of the server (server.js:143-147) fails, with the evaluation's error, exactly when the page evaluation throws, and otherwise is the strict match of the `documentElement` markup |
| Driver.ScanPageEnds | playwright-extractor.js:229-238 | the final scan ends the run with the URL it found, with the evaluation's error (which nothing catches), or with nothing found (likewise server.js:143-153) |
| Driver.CheckSniffLog | playwright-extractor.js:128-131 | a checkpoint delivers its batch and sees the log's head, which is the first manifest among the requests delivered so far; it sees nothing exactly when the log is empty |
| Driver.CheckInterceptLog | puppeteer-extractor.js:84-87 | the same for the log that keeps repeats |
| Driver.WalkFrames | playwright-extractor.js:197-216 | the walk carries out the visits of the frames in the order `page.frames()` gives them, up to the first frame that turns up a URL, and returns that URL |
| Driver.VisitsFindFirst | playwright-extractor.js:197-216 | the walk never throws, finds nothing exactly when no frame yields a URL, and otherwise returns the URL of the first frame that yields one |
| PlaywrightExtractor.GlideIsHuman | playwright-extractor.js:10-22 | every `humanMouseMove` the extractor makes is a human glide (the path of `MousePathShape`) ending at its target |
| PlaywrightExtractor.Glide | playwright-extractor.js:178 | a `humanMouseMove` to the target: a human glide whose intermediate moves lie within the jitter of the line from the origin, ending at the target, the next draw being the one after its path |
| PlaywrightExtractor.ImitationIsHuman | playwright-extractor.js:136-150 | whatever the draws, the imitation is a glide into [400, 800)×[300, 500), a 500 to 1500 ms delay, a scroll, a 1000 to 2000 ms delay, a glide to (960, 540), a 500 to 1000 ms delay and a 5 s wait, none of which looks at the network, returns or throws |
| PlaywrightExtractor.ImitationGlides | playwright-extractor.js:137-145 | the two glides of the imitation are human ones, to a random point of [400, 800)×[300, 500) and to (960, 540) |
| PlaywrightExtractor.ImitationPauses | playwright-extractor.js:138-150 | the delays, the wheel and its pause of the imitation lie within their ranges, and the last wait is 5 s |
| PlaywrightExtractor.ImitationQuiet | playwright-extractor.js:136-150 | no action of the imitation looks at the network, returns a URL or throws |
| PlaywrightExtractor.SimulateHuman | playwright-extractor.js:136-150 | the method computes exactly the script's imitation with its draws, and that imitation looks human as `ImitationIsHuman` states |
| PlaywrightExtractor.HumanPlanShape | playwright-extractor.js:133-156 | the imitation and checkpoint 1 are carried out in full, end the run exactly when that checkpoint sees a URL, throw nothing, and the checkpoint sees the first manifest delivered by then |
| PlaywrightExtractor.HumanPlanEnds | playwright-extractor.js:148-156 | the imitation and checkpoint 1 end as the checkpoint does, carried out in full |
| PlaywrightExtractor.HumanPlanTolerant | playwright-extractor.js:136-150 | the imitation throws nothing |
| PlaywrightExtractor.TriedAppend | playwright-extractor.js:171 | the selectors probed by two blocks in a row are those of the first, then those of the second |
| PlaywrightExtractor.ProbesFollowAppend | playwright-extractor.js:171-190 | appending the block of one more selector keeps every probe following the script |
| PlaywrightExtractor.ProbeBlockFollows | playwright-extractor.js:172-189 | the block of one selector follows the script |
| PlaywrightExtractor.NoneTried | playwright-extractor.js:171 | a block without selector steps probed no selector |
| PlaywrightExtractor.SelectorBlockEnds | playwright-extractor.js:172-189 | a selector's block is carried out in full and ends the run exactly when its element had a box and the checkpoint after the click sees a URL |
| PlaywrightExtractor.SelectorBlockShape | playwright-extractor.js:172-189 | a selector's block probes that selector alone; an element with a box gets a glide to its centre, a 300 to 800 ms delay, the click, a 2 s wait and a checkpoint; every error is caught |
| PlaywrightExtractor.PlayersPlanShape | playwright-extractor.js:161-190 | the selector loop probes all seven selectors in list order, each as the script says, clicking exactly the elements with a box; it catches every error and its checkpoints agree with the network |
| PlaywrightExtractor.PlayersPlanTried | playwright-extractor.js:161-171 | the loop from selector `i` on probes exactly the selectors from `i` on, in list order |
| PlaywrightExtractor.PlayersPlanFollows | playwright-extractor.js:171-190 | every selector the loop probes is probed as the script says, and clicked when it has a box |
| PlaywrightExtractor.ClickElement | playwright-extractor.js:176-186 | an element with a box: the method computes exactly the selector's block (glide to its centre, delay, click with its failure swallowed, 2 s wait) and the checkpoint sees the first manifest delivered so far |
| PlaywrightExtractor.ProbeSelector | playwright-extractor.js:172-189 | one selector: the method computes exactly the selector's block and how it ends; an exception, a missing element or a missing box skips the selector without a checkpoint |
| PlaywrightExtractor.TryPlayers | playwright-extractor.js:161-190 | the loop returns exactly the ending and the steps of the run of the selector loop's plan: stopping at the first checkpoint that sees a URL, and otherwise having probed all seven selectors |
| PlaywrightExtractor.VisitFrame | playwright-extractor.js:197-215 | a frame whose URL contains "cloudflare" is skipped without evaluation, a frame that throws is passed over, and any other frame yields the strict match of its `documentElement` markup |
| PlaywrightExtractor.LoadEnds | playwright-extractor.js:119-131 | a navigation that throws ends the run with its error before checkpoint 0; otherwise checkpoint 0 decides |
| PlaywrightExtractor.NavigationEnds | playwright-extractor.js:119-123 | a navigation that throws ends the whole run at once, with its error |
| PlaywrightExtractor.PlanThrew | playwright-extractor.js:117-243 | the only errors that can end the run are the navigation's and the final DOM search's |
| PlaywrightExtractor.PlanNotFound | playwright-extractor.js:227-240 | a run that finds nothing has carried out the whole plan, ending with a final search of an open page that found nothing |
| PlaywrightExtractor.PlanEnds | playwright-extractor.js:117-240 | a navigation error ends the run at once; only it and the final DOM search's error can end the run; a run that finds nothing has carried out the whole plan |
| PlaywrightExtractor.LateEnds | playwright-extractor.js:192-240 | after the selector loop, an error can only be the final DOM search's, and a run that finds nothing has carried out the frame walk, the 8 s wait and the final search of an open page |
| PlaywrightExtractor.LateHeadTolerant | playwright-extractor.js:192-225 | the frame walk and the 8 s wait catch every error, and the late strategies are exactly them followed by the final DOM search |
| PlaywrightExtractor.LateThrows | playwright-extractor.js:192-240 | after the selector loop, an error that ends the run is the final DOM search's own, on a page that refuses evaluation |
| PlaywrightExtractor.LateNotFound | playwright-extractor.js:192-238 | a run after the selector loop that finds nothing has carried out all of it, its last step the final search of an open page finding nothing |
| PlaywrightExtractor.SelectorsEnds | playwright-extractor.js:158-240 | the same from the selector loop on, every selector error being caught |
| PlaywrightExtractor.MiddleEnds | playwright-extractor.js:133-240 | the same from the human imitation on |
| PlaywrightExtractor.PlanForward | playwright-extractor.js:117-238 | the plan's strategies come in the order load, imitation, selectors, frames, 8 s wait, final DOM search, and every checkpoint sees the first manifest delivered by then |
| PlaywrightExtractor.PlanRuns | playwright-extractor.js:117-240 | the steps carried out report the outcome, keep that order, and their checkpoints agree with the network |
| PlaywrightExtractor.LateForward | playwright-extractor.js:192-238 | the frame walk, the 8 s wait and the final search come in that order |
| PlaywrightExtractor.ClosingForward | playwright-extractor.js:218-238 | the 8 s wait comes before the final search, and its checkpoint sees the first manifest delivered by then |
| PlaywrightExtractor.SelectorsForward | playwright-extractor.js:158-238 | the selector loop comes before all of those |
| PlaywrightExtractor.MiddleForward | playwright-extractor.js:133-238 | the imitation comes before all of those |
| PlaywrightExtractor.HumanLeads | playwright-extractor.js:133-156 | the imitation, put before any trace that comes in order from the selector loop on, keeps it in order, and its checkpoint sees the first manifest delivered by then |
| PlaywrightExtractor.LoadOpens | playwright-extractor.js:117-131 | the navigation and checkpoint 0, put before any trace that comes in order from the imitation on, keep it in order |
| PlaywrightExtractor.LoadStage | playwright-extractor.js:118-131 | the method returns exactly the ending and the steps of the navigation and checkpoint 0 |
| PlaywrightExtractor.HumanStage | playwright-extractor.js:133-156 | the method performs exactly the script's imitation (which looks human, as `HumanImitation` says) and checkpoint 1, carried out in full and ending as that checkpoint does |
| PlaywrightExtractor.FinalScan | playwright-extractor.js:227-238 | the final DOM search is one step carrying `ScanPage(page)`: the URL found, nothing, or the evaluation's error, which is not caught |
| PlaywrightExtractor.WaitAndScan | playwright-extractor.js:217-238 | the method returns exactly the ending and the steps of the 8 s wait, its checkpoint and the final DOM search |
| PlaywrightExtractor.RunLate | playwright-extractor.js:192-238 | the method returns exactly the ending and the steps of the frame walk (each frame visited as `VisitFrame` says), then the 8 s wait, its checkpoint and the final search |
| PlaywrightExtractor.RunSelectors | playwright-extractor.js:158-238 | the method returns exactly the ending and the steps of the selector loop, then of `RunLate`'s plan |
| PlaywrightExtractor.RunMiddle | playwright-extractor.js:133-238 | the method returns exactly the ending and the steps of the imitation with checkpoint 1, the selector loop, the frame walk, the 8 s wait and the final search |
| PlaywrightExtractor.Run | playwright-extractor.js:117-240 | the method returns exactly the ending and the steps of the script's plan: it stops at the first URL, keeps the strategy order, and its checkpoints agree with the network; a navigation error ends it at once; an error is the navigation's or the final search's; running out means the whole plan ran and the final search of an open page found nothing |
| PlaywrightExtractor.Verdict | playwright-extractor.js:235-244 | a URL resolves the promise; an error rejects it with that error; running out rejects it with "No M3U8 URL found on page (Turnstile may still be blocking)" |
| PlaywrightExtractor.ExtractStreamUrl | playwright-extractor.js:44-250 | the browser is closed exactly once whenever it was launched; a launch or setup error rejects with no step; otherwise the promise settles to the `Verdict` of the run of the script's plan, whose steps are returned; a resolved URL is the first one turned up |
| PuppeteerExtractor.FirstSource | puppeteer-extractor.js:110-119 | the source of the first element that plays a manifest, or none when no element does |
| PuppeteerExtractor.FirstPlayingSkip | puppeteer-extractor.js:112-118 | an element that plays no manifest, put in front, does not change which element plays first |
| PuppeteerExtractor.FirstVideoSource | puppeteer-extractor.js:110-119 | the loop returns the source (`src`, else the `src` attribute) of the first `video`/`video source` element whose source contains `.m3u8`, case-sensitive, or none when no element has one |
| PuppeteerExtractor.ScanBody | puppeteer-extractor.js:91-105 | the DOM strategy fails exactly when the evaluation throws, and otherwise is the lenient match of the body markup; a missing body yields nothing |
| PuppeteerExtractor.VideoAction | puppeteer-extractor.js:108-127 | the `<video>` strategy fails exactly when the evaluation throws, and otherwise carries the first playing source |
| PuppeteerExtractor.VisitFrame | puppeteer-extractor.js:133-149 | no frame is skipped by URL, a frame that throws is passed over, and any other frame yields the lenient match of its body markup |
| PuppeteerExtractor.PlanTolerant | puppeteer-extractor.js:67-161 | every error of the plan, the navigation's included, is caught, so a run never ends with one |
| PuppeteerExtractor.LoadTolerant | puppeteer-extractor.js:67-87 | the navigation and the first 5 s wait catch every error |
| PuppeteerExtractor.LateTolerant | puppeteer-extractor.js:129-161 | the frame walk and the second 5 s wait catch every error |
| PuppeteerExtractor.StrategiesTolerant | puppeteer-extractor.js:89-161 | the body and `<video>` scans and everything after them catch every error |
| PuppeteerExtractor.ScansTolerant | puppeteer-extractor.js:89-127 | the body and `<video>` scans catch every error, and so does any trace after them that catches its own |
| PuppeteerExtractor.PlanForward | puppeteer-extractor.js:67-161 | the plan's strategies come in the order load, first checkpoint, body, video, frames, second wait, and every checkpoint sees the first manifest delivered by then |
| PuppeteerExtractor.LoadForward | puppeteer-extractor.js:67-87 | the navigation comes before the first wait, whose checkpoint sees the first manifest delivered by then |
| PuppeteerExtractor.LateForward | puppeteer-extractor.js:129-161 | the frame walk comes before the second wait, whose checkpoint sees the first manifest delivered by then |
| PuppeteerExtractor.StrategiesForward | puppeteer-extractor.js:89-161 | the body scan, the `<video>` scan, the frames and the second wait come in that order |
| PuppeteerExtractor.ScansLead | puppeteer-extractor.js:89-127 | the two scans, which are no checkpoints, put before any trace that comes in order from the frame walk on, keep it in order |
| PuppeteerExtractor.PlanEnds | puppeteer-extractor.js:154-163 | a run that finds nothing has carried out the whole plan, ending with checkpoint 1 seeing nothing |
| PuppeteerExtractor.LoadStage | puppeteer-extractor.js:67-87 | the navigation step whatever its result, then the 5 s wait and checkpoint 0, carried out in full and ending as that checkpoint does |
| PuppeteerExtractor.BodyStage | puppeteer-extractor.js:91-105 | the DOM strategy ends the run exactly as its step does; a URL found is the lenient match of the body markup, and a failed evaluation finds nothing |
| PuppeteerExtractor.VideoStage | puppeteer-extractor.js:108-127 | the `<video>` strategy ends the run exactly as its step does; a URL found is the first playing source, and a failed evaluation finds nothing |
| PuppeteerExtractor.ScanPlanEnds | puppeteer-extractor.js:89-127 | the body scan ends the run when it turns up a URL; otherwise the video scan decides |
| PuppeteerExtractor.ScanStages | puppeteer-extractor.js:89-127 | the method returns exactly the ending and the steps of the body scan, then the video scan |
| PuppeteerExtractor.RunLate | puppeteer-extractor.js:129-161 | the method returns exactly the ending and the steps of the frame walk (each frame visited as `VisitFrame` says), then the second 5 s wait and checkpoint 1 |
| PuppeteerExtractor.RunStrategies | puppeteer-extractor.js:89-161 | the method returns exactly the ending and the steps of the body scan, the video scan, the frame walk and the second wait with checkpoint 1 |
| PuppeteerExtractor.Run | puppeteer-extractor.js:65-161 | the method returns exactly the ending and the steps of the script's plan, which starts with the navigation, the 5 s wait and checkpoint 0 whatever the navigation's result; it stops at the first URL, keeps the strategy order and never throws; running out means the whole plan ran and checkpoint 1 saw nothing |
| PuppeteerExtractor.Verdict | puppeteer-extractor.js:163-167 | a URL resolves the promise; running out rejects it with "No M3U8 URL found on page" |
| PuppeteerExtractor.ExtractStreamUrl | puppeteer-extractor.js:11-176 | the page is closed if it was opened, then the browser if it was launched, on every exit; a launch, page or setup error rejects with no step; otherwise the promise settles to the `Verdict` of the run of the script's plan, and never rejects with another error; the Referer header is set only for a truthy referer |
| RealBrowserServer.ThrowsFirstAppend | server.js:34-161 | of two stretches of code in a row, the run ends with the first one's error if it has one, and otherwise with the second's |
| RealBrowserServer.Range | server.js:95 | the indices the loop visits, `lo` up to `hi` |
| RealBrowserServer.ProbedAppend | server.js:95 | the iframes probed by two blocks in a row are those of the first, then those of the second |
| RealBrowserServer.NoneProbed | server.js:95 | a block without iframe steps probed no iframe |
| RealBrowserServer.IframesFollowAppend | server.js:95-112 | appending the block of one more iframe keeps every iframe step following the script |
| RealBrowserServer.IframeBlockFollows | server.js:96-111 | an iframe's block probes that iframe alone, as the script says |
| RealBrowserServer.IframeBlockEnds | server.js:96-111 | an iframe's block catches every error, is carried out in full, and ends the run exactly when the iframe was clicked and the checkpoint after the click sees a URL |
| RealBrowserServer.IframesPlanShape | server.js:95-112 | the loop probes every iframe in index order, each as the script says; it catches every error and its checkpoints agree with the network |
| RealBrowserServer.ClickIframe | server.js:98-107 | a large iframe: the method computes exactly its block (a click at the centre of its box, a 5 s wait) and the checkpoint sees the first manifest delivered so far |
| RealBrowserServer.ProbeIframe | server.js:96-111 | one iframe: the method computes exactly its block and how it ends; a box lookup or click that throws, or a box that is missing or not larger than 100×100, is passed over without a checkpoint |
| RealBrowserServer.ClickIframes | server.js:95-112 | the loop returns exactly the ending and the steps of the run of the iframe loop's plan: stopping at the first checkpoint that sees a URL, and otherwise having probed every iframe |
| RealBrowserServer.VisitFrame | server.js:127-139 | no frame is skipped by URL, a frame that throws is passed over, and any other frame yields the strict match of its `documentElement` markup |
| RealBrowserServer.LoadEnds | server.js:60-76 | loading ends the run with the Referer's error (only for a truthy referer), else the navigation's, else as checkpoint 0 does |
| RealBrowserServer.CentreEnds | server.js:78-88 | the centre click ends the run with the `null` viewport's error or the click's, else as checkpoint 1 does |
| RealBrowserServer.IframesEnd | server.js:90-112 | the iframe loop ends the run with the error of listing the iframes; otherwise it throws nothing, having probed the iframes in order |
| RealBrowserServer.LateEnds | server.js:114-153 | after the iframe loop, the only error is the final DOM search's, and a run that finds nothing has carried out the 20 s wait, the frame search and the final search of an open page |
| RealBrowserServer.LateHeadTolerant | server.js:114-140 | the 20 s wait and the frame search catch every error, and the late plan is exactly them followed by the final DOM search |
| RealBrowserServer.LateThrows | server.js:114-153 | after the iframe loop, the run ends with the final DOM search's error exactly when the page refuses evaluation and no URL turned up first |
| RealBrowserServer.LateNotFound | server.js:142-156 | a run after the iframe loop that finds nothing has carried out all of it, its last step the final search of an open page finding nothing |
| RealBrowserServer.AfterCentreEnds | server.js:90-153 | from the iframe loop on, the run ends with the first error the handler meets unless a URL turned up first |
| RealBrowserServer.MiddleEnds | server.js:78-153 | the same from the centre click on |
| RealBrowserServer.PlanEnds | server.js:49-153 | once connected, the run ends with the error of the first operation that throws unless a URL turned up first, and with no error when none throws; a run that finds nothing has carried out the whole plan |
| RealBrowserServer.NotFoundRunsAll | server.js:142-156 | a run that finds nothing has carried out the whole plan, ending with a final search of an open page that found nothing |
| RealBrowserServer.LateForward | server.js:114-153 | the 20 s wait, the frame search and the final search come in that order |
| RealBrowserServer.AfterCentreForward | server.js:90-153 | the iframe loop comes before all of those |
| RealBrowserServer.MiddleForward | server.js:78-153 | the centre click comes before all of those |
| RealBrowserServer.LoadAt | server.js:60-76 | the load is one strategy whose checkpoint sees the first manifest delivered by then |
| RealBrowserServer.PlanForward | server.js:49-153 | the plan's strategies come in the order load, centre click, iframes, 20 s wait, frames, final search, and every checkpoint sees the first manifest delivered by then |
| RealBrowserServer.PlanRuns | server.js:49-153 | the steps carried out report the outcome, keep that order, and their checkpoints agree with the network |
| RealBrowserServer.RefererFirst | server.js:60-62 | the first step carried out sets the Referer header exactly when the referer is truthy |
| RealBrowserServer.LoadStage | server.js:60-76 | the method returns exactly the ending and the steps of the Referer header, the navigation, the 5 s wait and checkpoint 0 |
| RealBrowserServer.CentreStage | server.js:78-88 | the method returns exactly the ending and the steps of the click at `(width/2, height/2)`, the 3 s wait and checkpoint 1; it throws exactly when the viewport is missing or the click throws |
| RealBrowserServer.IframeStage | server.js:90-112 | the method returns exactly the ending and the steps of the listing of the iframes and the iframe loop |
| RealBrowserServer.SearchMarkup | server.js:124-153 | the method returns exactly the ending and the steps of the frame search (each frame visited as `VisitFrame` says), then the final DOM search |
| RealBrowserServer.RunLate | server.js:114-153 | the method returns exactly the ending and the steps of the 20 s wait, its checkpoint and `SearchMarkup`'s plan |
| RealBrowserServer.RunIframes | server.js:90-153 | the method returns exactly the ending and the steps of the iframe loop, then `RunLate`'s plan |
| RealBrowserServer.RunMiddle | server.js:78-153 | the method returns exactly the ending and the steps of the centre click, then `RunIframes`'s plan |
| RealBrowserServer.Run | server.js:49-153 | the method returns exactly the ending and the steps of the script's plan: it stops at the first URL, keeps the strategy order, its checkpoints agree with the network, and it ends with the error of the first operation that throws unless a URL turned up first; the first step sets the Referer header exactly for a truthy referer |
| RealBrowserServer.Answer | server.js:149-161 | a URL is a 200 success; running out is a 200 with "No M3U8 found after CF v2 bypass and player interaction"; an error is a 500 with its message |
| RealBrowserServer.ExtractStream | server.js:23-162 | a missing or empty `url` answers 400 "Missing url parameter" without connecting; a failed connection is a 500; otherwise the reply is the `Answer` to the run of the script's plan, whose steps are returned, and when some operation of the plan throws, the reply is the 500 carrying the first such error unless a URL turned up first; the browser is closed exactly once whenever it was connected |
| Worker.RouteOf | cloudflare-worker.js:10-33 | an OPTIONS request is a preflight whatever its target; otherwise a missing or empty `url` lists the endpoints; only a truthy target is fetched |
| Worker.Classify | cloudflare-worker.js:54-81 | a hit exactly when the lenient pattern matches, with `m3u8Url` the first match and `allUrls` the matches without repeats; a challenge exactly when nothing matches and a challenge marker occurs; otherwise a miss reporting the JavaScript length of the text; every result carries the upstream status |
| Worker.HandleRequest | cloudflare-worker.js:10-82 | every response carries the CORS headers; the body is absent exactly for OPTIONS; a request without a target gets the endpoint list; a fetched page is classified |
| Worker.HitUrls | cloudflare-worker.js:55-64 | `allUrls[0] == m3u8Url`; `allUrls` holds every match once, as many as there are distinct matches, in first-seen order, none containing a quote, an angle bracket or whitespace |
| Worker.MatchesAreClean | cloudflare-worker.js:55-56 | no match of the lenient pattern holds a quote, an angle bracket or whitespace |

## Left out

- Browser launch options, context fingerprints, the user agent and the `addInitScript` navigator overrides: these are static configuration for a library outside this model. Of the extra headers, only whether the Referer header is added is modelled.
- The Express application setup, CORS middleware, request logging, `/health` and `app.listen` (server.js:1-18, 165-168). The Cloudflare `addEventListener` wiring and the construction of `Response` objects are left out as well; JSON bodies are modelled as datatypes, not as serialised text.
- The worker's `fetch` and `resp.text()` are a function parameter. A fetch that rejects is not modelled.
- Calls taken never to throw: `page.mouse.move` and `page.mouse.wheel` inside `humanMouseMove` and `humanScroll`; `page.waitForTimeout` (playwright-extractor.js:19, 30, 150, 181, 220), where a rejection outside any inner `try` would reject the extraction (playwright-extractor.js:242-244); `page.frames()` (playwright-extractor.js:194, puppeteer-extractor.js:132, server.js:126); `frame.url()`; and the `setTimeout` waits.
- Real timers: every wait is a step of the trace (`Pause` with its duration in ms) and a point where a request batch is delivered. Elapsed time, navigation timeouts and `waitUntil` conditions are not modelled.
- The asynchronous delivery of request events is not modelled as concurrency. Requests that arrive between two checkpoints are delivered as a batch at the later checkpoint. A request is therefore never observed in the middle of a strategy.
- The DOM does not evolve. Every evaluation of a frame or page reads a fixed snapshot given by the script.
- The JavaScript regular-expression engine is replaced by the scanner. Its case-insensitive comparison folds ASCII letters only, which is all the pattern's literals need.
- `console.log` output and the no-op `closeBrowser` exports are left out.
- RealBrowserServer.ExtractStream: a `browser.close()` that throws on a success path, and the second close that the `catch` block then makes, are not modelled. Every close is taken to succeed. The closes are recorded as calls, without their results.
- RealBrowserServer.ExtractStream: a truthy `url` that is not a string would make `url.substring` throw outside the `try` at server.js:30. The request body's `url` is modelled as an optional string, so this case is not covered.
- PuppeteerExtractor.ExtractStreamUrl and PlaywrightExtractor.ExtractStreamUrl: the configuration calls (user agent, headers, interception, context, init script) are one `setup` attempt. Which of them threw is not distinguished.
- HumanMotion.HumanMouseMove: the mouse moves and the pauses are returned as values. They are not performed.
- HumanMotion: floating-point rounding is not modelled. The arithmetic is exact over the reals.

Deliberate choices:
- Only the Puppeteer extractor tolerates a failed navigation. In the Playwright extractor and the server, a navigation error ends the run.
- The server answers a thrown error with its raw message and status 500.
- Frames are walked in the order `page.frames()` gives them.
