/** LastFMImporter: pages through a Last.fm user's scrobbles from the last page to the
    first, keeps the dated ones, hands each page to ListenBrainz's submission API while
    honouring its rate limit, and records the newest timestamp imported. */
module Importer {
  import opened Wrappers

  /** A Last.fm track of a `user.getrecenttracks` page; `date` is `date.uts`, absent for
      the track that is playing now. */
  datatype RawTrack = RawTrack(name: string, artist: string, date: Option<int>)

  /** A listen ready for submission. */
  datatype Submission = Submission(listenedAt: int, trackName: string, artistName: string)

  /** What fetching one page gives: an HTTP status with the page's tracks (None when the
      body has no readable track list), or a network failure. */
  datatype PageResponse = HttpResponse(status: nat, tracks: Option<seq<RawTrack>>) | NetworkError

  /** What `getPage` does with a response: return the payload, schedule a retry in 3 s,
      or skip the page. */
  datatype PageDecision = Accept | Retry | Skip

  /** How `startImport` ends: aborted when the play count could not be fetched, else
      finished with the final counts and the timestamp sent to `setLatestImport`. */
  datatype ImportResult = Aborted | Finished(received: int, timestampSent: int, mismatchWarning: bool)

  function Max(a: int, b: int): int { if a >= b then a else b }
  function Min(a: int, b: int): int { if a <= b then a else b }

  /** `Math.ceil(a / b)` for a positive divisor. */
  function CeilDiv(a: int, b: int): (q: int)
    requires b > 0
    ensures q * b >= a && (q - 1) * b < a
  {
    var f := -((-a) / b);
    assert (-a) == ((-a) / b) * b + (-a) % b;
    f
  }

  /** The listen `Scrobble(raw).asJSONSerializable()` yields; an undated track gets
      `listened_at` -1. */
  function AsSubmission(raw: RawTrack): Submission
  {
    Submission(if raw.date.Some? then raw.date.value else -1, raw.name, raw.artist)
  }

  /** The outputs of `applicable` over `collection`, in order, that have a positive
      `listenedAt`. */
  function KeptListens<T>(applicable: T -> Submission, collection: seq<T>): seq<Submission>
  {
    if |collection| == 0 then []
    else
      var last := applicable(collection[|collection| - 1]);
      KeptListens(applicable, collection[..|collection| - 1]) + (if last.listenedAt > 0 then [last] else [])
  }

  /** The kept listens are no more than the input and all have a positive `listenedAt`. */
  lemma {:induction false} KeptListensBounds<T>(applicable: T -> Submission, collection: seq<T>)
    ensures |KeptListens(applicable, collection)| <= |collection|
    ensures forall k :: 0 <= k < |KeptListens(applicable, collection)| ==>
      KeptListens(applicable, collection)[k].listenedAt > 0
  {
    if |collection| > 0 {
      KeptListensBounds(applicable, collection[..|collection| - 1]);
    }
  }

  /** The static `map`. */
  method Map<T>(applicable: T -> Submission, collection: seq<T>) returns (newCollection: seq<Submission>)
    ensures newCollection == KeptListens(applicable, collection)
    ensures |newCollection| <= |collection|
    ensures forall k :: 0 <= k < |newCollection| ==> newCollection[k].listenedAt > 0
  {
    newCollection := [];
    for i := 0 to |collection|
      invariant newCollection == KeptListens(applicable, collection[..i])
    {
      var result := applicable(collection[i]);
      if result.listenedAt > 0 {
        newCollection := newCollection + [result];
      }
      assert collection[..i + 1][..i] == collection[..i];
    }
    assert collection[..|collection|] == collection;
    KeptListensBounds(applicable, collection);
  }

  /** `encodeScrobbles` on a page's track list. */
  function Encoded(tracks: seq<RawTrack>): (r: seq<Submission>)
    ensures |r| <= |tracks|
    ensures forall k :: 0 <= k < |r| ==> r[k].listenedAt > 0
  {
    KeptListensBounds(AsSubmission, tracks);
    KeptListens(AsSubmission, tracks)
  }

  /** 10 to the power `k`. */
  function Pow10(k: nat): (p: nat)
    ensures p > 0
  {
    if k == 0 then 1 else 10 * Pow10(k - 1)
  }

  /** The number of decimal digits of `n` (1 for 0). */
  function DigitCount(n: nat): (k: nat)
    ensures k > 0
  {
    if n < 10 then 1 else DigitCount(n / 10) + 1
  }

  /** The first decimal digit of `n`, the character `/^5/` looks at: `n` lies between
      `d` and `d + 1` times the place value of its first digit. */
  function LeadingDigit(n: nat): (d: nat)
    ensures d < 10
    ensures n > 0 ==> d > 0
    ensures Pow10(DigitCount(n) - 1) * d <= n < Pow10(DigitCount(n) - 1) * (d + 1)
  {
    if n < 10 then n
    else
      var d := LeadingDigit(n / 10);
      LeadingDigitStep(n, d, Pow10(DigitCount(n / 10) - 1));
      d
  }

  /** One more digit multiplies the place value by ten. */
  lemma LeadingDigitStep(n: nat, d: nat, p: nat)
    requires n >= 10 && p == Pow10(DigitCount(n / 10) - 1)
    requires p * d <= n / 10 < p * (d + 1)
    ensures Pow10(DigitCount(n) - 1) * d <= n < Pow10(DigitCount(n) - 1) * (d + 1)
  {
    var big := Pow10(DigitCount(n) - 1);
    assert big == 10 * p;
    ScaleBounds(n, p, d, big);
  }

  /** Bounds on `n / 10` by multiples of `p` carry over to `n` with `10 * p`. */
  lemma ScaleBounds(n: nat, p: nat, d: nat, big: nat)
    requires big == 10 * p
    requires p * d <= n / 10 < p * (d + 1)
    ensures big * d <= n < big * (d + 1)
  {
    var lo, hi := p * d, p * (d + 1);
    assert big * d == 10 * lo;
    assert big * (d + 1) == 10 * hi;
  }

  /** `response.ok`. */
  predicate IsOk(status: nat)
  {
    200 <= status <= 299
  }

  /** The branch `getPage` takes. An ok response whose track list is missing or empty
      makes `track[0]` undefined; the `in` test then throws and the catch retries. */
  function Decide(response: PageResponse): (r: PageDecision)
    ensures r == Accept <==>
      response.HttpResponse? && IsOk(response.status) && response.tracks.Some? && |response.tracks.value| > 0
    ensures r == Skip ==> response.HttpResponse? && !IsOk(response.status)
  {
    match response
    case NetworkError => Retry
    case HttpResponse(status, tracks) =>
      if IsOk(status) then
        if tracks.Some? && |tracks.value| > 0 then Accept else Retry
      else if LeadingDigit(status) == 5 then Retry
      else Skip
  }

  /** The payload `getPage` returns for an accepted response. */
  function PayloadOf(response: PageResponse): seq<Submission>
    requires Decide(response) == Accept
  {
    Encoded(response.tracks.value)
  }

  /** How much `getPage` adds to `countReceived`. */
  function PageCount(response: PageResponse): nat
  {
    if Decide(response) == Accept then |PayloadOf(response)| else 0
  }

  /** `maxTimestampForImport` after `getPage` handled `response` at clock `nowMs`. */
  function NextMaxTimestamp(current: int, response: PageResponse, nowMs: int): (r: int)
    ensures Decide(response) != Accept ==> r == current
    ensures Decide(response) == Accept && response.tracks.value[0].date.Some? ==>
      var uts := response.tracks.value[0].date.value;
      r >= current && r >= uts && (r == current || r == uts)
    ensures Decide(response) == Accept && response.tracks.value[0].date.None? ==> r == nowMs / 1000
  {
    if Decide(response) != Accept then current
    else
      var first := response.tracks.value[0];
      if first.date.Some? then Max(first.date.value, current) else nowMs / 1000
  }

  /** The pages the import loop visits while counting `page` down from `hi` to above
      `lo`, in visiting order. The folds below follow the same order. */
  function PagesVisited(hi: int, lo: int): seq<int>
    decreases hi - lo
  {
    if hi <= lo then [] else PagesVisited(hi, lo + 1) + [lo + 1]
  }

  /** Listens received over those pages. */
  function ReceivedCount(responses: int -> PageResponse, hi: int, lo: int): int
    decreases hi - lo
  {
    if hi <= lo then 0 else ReceivedCount(responses, hi, lo + 1) + PageCount(responses(lo + 1))
  }

  /** The payloads passed to `submitPage` over those pages, in order. */
  function QueuedPayloads(responses: int -> PageResponse, hi: int, lo: int): seq<seq<Submission>>
    decreases hi - lo
  {
    if hi <= lo then []
    else
      var r := responses(lo + 1);
      QueuedPayloads(responses, hi, lo + 1) + (if Decide(r) == Accept then [PayloadOf(r)] else [])
  }

  /** The pages whose refetch was scheduled, in order. */
  function RetriedPages(responses: int -> PageResponse, hi: int, lo: int): seq<int>
    decreases hi - lo
  {
    if hi <= lo then []
    else RetriedPages(responses, hi, lo + 1) + (if Decide(responses(lo + 1)) == Retry then [lo + 1] else [])
  }

  /** `maxTimestampForImport` after those pages, starting from `start`. */
  function MaxTimestampAfter(start: int, responses: int -> PageResponse, clockMs: int -> int, hi: int, lo: int): int
    decreases hi - lo
  {
    if hi <= lo then start
    else NextMaxTimestamp(MaxTimestampAfter(start, responses, clockMs, hi, lo + 1), responses(lo + 1), clockMs(lo + 1))
  }

  /** Each fold over pages `hi .. p` is the fold over `hi .. p + 1` followed by page `p`. */
  lemma FoldsStep(responses: int -> PageResponse, clockMs: int -> int, start: int, hi: int, p: int)
    requires p <= hi
    ensures PagesVisited(hi, p - 1) == PagesVisited(hi, p) + [p]
    ensures ReceivedCount(responses, hi, p - 1) == ReceivedCount(responses, hi, p) + PageCount(responses(p))
    ensures QueuedPayloads(responses, hi, p - 1) == QueuedPayloads(responses, hi, p)
      + if Decide(responses(p)) == Accept then [PayloadOf(responses(p))] else []
    ensures RetriedPages(responses, hi, p - 1) == RetriedPages(responses, hi, p)
      + if Decide(responses(p)) == Retry then [p] else []
    ensures MaxTimestampAfter(start, responses, clockMs, hi, p - 1)
      == NextMaxTimestamp(MaxTimestampAfter(start, responses, clockMs, hi, p), responses(p), clockMs(p))
  {
  }

  /** The rate-limit delay in milliseconds before the next submission at `nowMs`, from
      the last `X-RateLimit-Remaining` and `X-RateLimit-Reset-In` values and the time
      they arrived. */
  function RateLimitDelay(remain: int, resetIn: int, originMs: int, nowMs: int): (delay: int)
    ensures delay >= 0
    ensures resetIn < 0 || nowMs > originMs + resetIn * 1000 ==> delay == 0
    ensures !(resetIn < 0 || nowMs > originMs + resetIn * 1000) && remain > 0 ==>
      delay * remain >= resetIn * 1000 && (delay - 1) * remain < resetIn * 1000
    ensures !(resetIn < 0 || nowMs > originMs + resetIn * 1000) && remain <= 0 ==>
      delay == resetIn * 1000
  {
    if resetIn < 0 || nowMs > originMs + resetIn * 1000 then 0
    else if remain > 0 then Max(0, CeilDiv(resetIn * 1000, remain))
    else Max(0, resetIn * 1000)
  }

  /** `Number(headers.get(name))` for a numeric header; an absent header reads as 0. */
  function HeaderNumber(header: Option<int>): int
  {
    if header.Some? then header.value else 0
  }

  /** The final message carries the count-mismatch warning. */
  predicate MismatchWarning(incrementalImport: bool, playCount: int, countReceived: int)
  {
    !incrementalImport && playCount != -1 && countReceived != playCount
  }

  /** The "Import Now!" button is disabled. */
  function SubmitDisabled(lastfmUsername: string): (disabled: bool)
    ensures disabled <==> lastfmUsername == []
  {
    |lastfmUsername| == 0
  }

  class LastFMImporter {
    var page: int
    var totalPages: int
    var playCount: int
    var countReceived: int
    var latestImportTime: int
    var maxTimestampForImport: int
    var incrementalImport: bool
    var numCompleted: int
    var rlRemain: int
    var rlReset: int
    var rlOriginMs: int  // rlOrigin, held in milliseconds
    var show: bool
    var canClose: bool
    var lastfmUsername: string
    var queued: seq<seq<Submission>>  // payloads passed to submitPage, in call order
    var scheduledRetries: seq<int>    // pages whose refetch was scheduled, in order

    constructor ()
      ensures page == 1 && totalPages == 0 && playCount == -1 && countReceived == 0
      ensures latestImportTime == 0 && maxTimestampForImport == 0 && !incrementalImport
      ensures numCompleted == 0 && rlRemain == -1 && rlReset == -1 && rlOriginMs == -1000
      ensures !show && canClose && lastfmUsername == []
      ensures queued == [] && scheduledRetries == []
    {
      page, totalPages, playCount, countReceived := 1, 0, -1, 0;
      latestImportTime, maxTimestampForImport, incrementalImport := 0, 0, false;
      numCompleted, rlRemain, rlReset, rlOriginMs := 0, -1, -1, -1000;
      show, canClose, lastfmUsername := false, true, [];
      queued, scheduledRetries := [], [];
    }

    function GetRateLimitDelay(nowMs: int): (delay: int)
      reads this
      ensures delay >= 0
      ensures rlReset < 0 || nowMs > rlOriginMs + rlReset * 1000 ==> delay == 0
    {
      RateLimitDelay(rlRemain, rlReset, rlOriginMs, nowMs)
    }

    method HandleChange(value: string)
      modifies this`lastfmUsername
      ensures lastfmUsername == value
    {
      lastfmUsername := value;
    }

    method ToggleModal()
      modifies this`show
      ensures show == !old(show)
    {
      show := !show;
    }

    method UpdateRateLimitParameters(remainingHeader: Option<int>, resetInHeader: Option<int>, nowMs: int)
      modifies this`rlRemain, this`rlReset, this`rlOriginMs
      ensures rlRemain == HeaderNumber(remainingHeader) && rlReset == HeaderNumber(resetInHeader)
      ensures rlOriginMs == nowMs
    {
      rlRemain := HeaderNumber(remainingHeader);
      rlReset := HeaderNumber(resetInHeader);
      rlOriginMs := nowMs;
    }

    /** One `submitPage` call run to completion: the delay it waits, then the rate-limit
        update from the submission's response headers. */
    method SubmitPage(nowMs: int, remainingHeader: Option<int>, resetInHeader: Option<int>, respondedAtMs: int)
      returns (delay: int)
      modifies this`rlRemain, this`rlReset, this`rlOriginMs
      ensures delay == RateLimitDelay(old(rlRemain), old(rlReset), old(rlOriginMs), nowMs)
      ensures rlRemain == HeaderNumber(remainingHeader) && rlReset == HeaderNumber(resetInHeader)
      ensures rlOriginMs == respondedAtMs
    {
      delay := GetRateLimitDelay(nowMs);
      UpdateRateLimitParameters(remainingHeader, resetInHeader, respondedAtMs);
    }

    method ScheduleRetry(p: int)
      modifies this`scheduledRetries
      ensures scheduledRetries == old(scheduledRetries) + [p]
    {
      scheduledRetries := scheduledRetries + [p];
    }

    method GetPage(p: int, response: PageResponse, nowMs: int) returns (payload: Option<seq<Submission>>)
      modifies this`countReceived, this`maxTimestampForImport, this`scheduledRetries
      ensures payload == if Decide(response) == Accept then Some(PayloadOf(response)) else None
      ensures countReceived == old(countReceived) + PageCount(response)
      ensures maxTimestampForImport == NextMaxTimestamp(old(maxTimestampForImport), response, nowMs)
      ensures scheduledRetries == old(scheduledRetries) + if Decide(response) == Retry then [p] else []
    {
      payload := None;
      match response {
        case NetworkError =>
          ScheduleRetry(p);
        case HttpResponse(status, tracks) =>
          if IsOk(status) {
            if tracks.None? || |tracks.value| == 0 {
              ScheduleRetry(p);
            } else {
              var first := tracks.value[0];
              if first.date.Some? {
                maxTimestampForImport := Max(first.date.value, maxTimestampForImport);
              } else {
                maxTimestampForImport := nowMs / 1000;
              }
              var encoded := Map(AsSubmission, tracks.value);
              countReceived := countReceived + |encoded|;
              payload := Some(encoded);
            }
          } else if LeadingDigit(status) == 5 {
            ScheduleRetry(p);
          }
      }
    }

    /** The `while (this.page > 0)` loop of `startImport`. */
    method ImportPages(responses: int -> PageResponse, clockMs: int -> int) returns (ghost visited: seq<int>)
      modifies this`page, this`numCompleted, this`countReceived
      modifies this`maxTimestampForImport, this`queued, this`scheduledRetries
      ensures visited == PagesVisited(old(page), 0)
      ensures page == Min(old(page), 0)
      ensures numCompleted == old(numCompleted) + Max(old(page), 0)
      ensures countReceived == old(countReceived) + ReceivedCount(responses, old(page), 0)
      ensures queued == old(queued) + QueuedPayloads(responses, old(page), 0)
      ensures scheduledRetries == old(scheduledRetries) + RetriedPages(responses, old(page), 0)
      ensures maxTimestampForImport == MaxTimestampAfter(old(maxTimestampForImport), responses, clockMs, old(page), 0)
    {
      ghost var first := page;
      visited := [];
      while page > 0
        invariant page == first || 0 <= page < first
        invariant visited == PagesVisited(first, page)
        invariant numCompleted == old(numCompleted) + (first - page)
        invariant countReceived == old(countReceived) + ReceivedCount(responses, first, page)
        invariant queued == old(queued) + QueuedPayloads(responses, first, page)
        invariant scheduledRetries == old(scheduledRetries) + RetriedPages(responses, first, page)
        invariant maxTimestampForImport == MaxTimestampAfter(old(maxTimestampForImport), responses, clockMs, first, page)
      {
        FoldsStep(responses, clockMs, old(maxTimestampForImport), first, page);
        visited := visited + [page];
        var payload := GetPage(page, responses(page), clockMs(page));
        if payload.Some? {
          queued := queued + [payload.value];
        }
        page := page - 1;
        numCompleted := numCompleted + 1;
      }
    }

    /** `startImport` with the results of its remote calls as parameters: the play count
        (None when that request failed), the latest import time, the number of pages,
        the response for each page and the clock reading when each page arrives. */
    method StartImport(reportedPlayCount: Option<int>, latestImport: int, numberOfPages: int,
                       responses: int -> PageResponse, clockMs: int -> int)
      returns (result: ImportResult, ghost visited: seq<int>)
      modifies this`canClose, this`playCount, this`latestImportTime, this`incrementalImport
      modifies this`totalPages, this`page, this`numCompleted, this`countReceived
      modifies this`maxTimestampForImport, this`queued, this`scheduledRetries
      ensures canClose
      ensures reportedPlayCount.None? ==>
        && result == Aborted && visited == []
        && playCount == old(playCount) && latestImportTime == old(latestImportTime)
        && incrementalImport == old(incrementalImport) && totalPages == old(totalPages)
        && page == old(page) && numCompleted == old(numCompleted)
        && countReceived == old(countReceived) && maxTimestampForImport == old(maxTimestampForImport)
        && queued == old(queued) && scheduledRetries == old(scheduledRetries)
      ensures reportedPlayCount.Some? ==>
        && playCount == reportedPlayCount.value
        && latestImportTime == latestImport
        && incrementalImport == (latestImport > 0)
        && totalPages == numberOfPages
        && visited == PagesVisited(numberOfPages, 0)
        && page == Min(numberOfPages, 0)
        && numCompleted == old(numCompleted) + Max(numberOfPages, 0)
        && countReceived == old(countReceived) + ReceivedCount(responses, numberOfPages, 0)
        && queued == old(queued) + QueuedPayloads(responses, numberOfPages, 0)
        && scheduledRetries == old(scheduledRetries) + RetriedPages(responses, numberOfPages, 0)
        && maxTimestampForImport
             == Max(MaxTimestampAfter(old(maxTimestampForImport), responses, clockMs, numberOfPages, 0), latestImport)
        && maxTimestampForImport >= latestImportTime
        && result == Finished(countReceived, maxTimestampForImport,
                              MismatchWarning(incrementalImport, playCount, countReceived))
    {
      canClose := false;
      visited := [];
      if reportedPlayCount.None? {
        canClose := true;
        result := Aborted;
        return;
      }
      playCount := reportedPlayCount.value;
      latestImportTime := latestImport;
      incrementalImport := latestImportTime > 0;
      totalPages := numberOfPages;
      page := totalPages;

      visited := ImportPages(responses, clockMs);
      maxTimestampForImport := Max(maxTimestampForImport, latestImportTime);
      result := Finished(countReceived, maxTimestampForImport,
                         MismatchWarning(incrementalImport, playCount, countReceived));
      canClose := true;
    }
  }
}
