/** Properties of LastFMImporter's filter, page decisions and import loop. */
module ImporterProperties {
  import opened Wrappers
  import opened Importer

  /** A listen is kept exactly when some input maps to it and it has a positive
      `listenedAt`. */
  lemma {:induction false} KeptListensMembership<T>(applicable: T -> Submission, collection: seq<T>, x: Submission)
    ensures x in KeptListens(applicable, collection) <==>
      x.listenedAt > 0 && exists i :: 0 <= i < |collection| && applicable(collection[i]) == x
  {
    if |collection| > 0 {
      var init := collection[..|collection| - 1];
      KeptListensMembership(applicable, init, x);
      if exists i :: 0 <= i < |collection| && applicable(collection[i]) == x {
        var i :| 0 <= i < |collection| && applicable(collection[i]) == x;
        if i < |init| {
          assert applicable(init[i]) == x;
        }
      }
      if exists i :: 0 <= i < |init| && applicable(init[i]) == x {
        var i :| 0 <= i < |init| && applicable(init[i]) == x;
        assert applicable(collection[i]) == x;
      }
    }
  }

  /** Filtering a concatenation filters each part and keeps their order. */
  lemma {:induction false} KeptListensAppend<T>(applicable: T -> Submission, a: seq<T>, b: seq<T>)
    ensures KeptListens(applicable, a + b) == KeptListens(applicable, a) + KeptListens(applicable, b)
    decreases |b|
  {
    if |b| > 0 {
      var b' := b[..|b| - 1];
      assert (a + b)[..|a + b| - 1] == a + b';
      KeptListensAppend(applicable, a, b');
    } else {
      assert a + b == a;
    }
  }

  /** A three-digit status begins with its hundreds digit. */
  lemma LeadingDigitOfThreeDigits(status: nat)
    requires 100 <= status <= 999
    ensures LeadingDigit(status) == status / 100
  {
    assert LeadingDigit(status / 10) == LeadingDigit(status / 10 / 10);
    assert status / 10 / 10 == status / 100;
  }

  /** Server errors (5xx) and network errors are retried, other non-ok statuses of three
      digits are skipped, and an ok response with tracks is accepted. */
  lemma StatusDecision(status: nat, tracks: Option<seq<RawTrack>>)
    requires 100 <= status <= 599
    ensures 500 <= status ==> Decide(HttpResponse(status, tracks)) == Retry
    ensures !IsOk(status) && status < 500 ==> Decide(HttpResponse(status, tracks)) == Skip
    ensures IsOk(status) && tracks.Some? && |tracks.value| > 0 ==> Decide(HttpResponse(status, tracks)) == Accept
    ensures Decide(NetworkError) == Retry
  {
    LeadingDigitOfThreeDigits(status);
  }

  /** The loop visits `hi, hi - 1, ..., lo + 1`. */
  lemma {:induction false} PagesCountDown(hi: int, lo: int)
    requires lo <= hi
    ensures |PagesVisited(hi, lo)| == hi - lo
    ensures forall k :: 0 <= k < hi - lo ==> PagesVisited(hi, lo)[k] == hi - k
    decreases hi - lo
  {
    if lo < hi {
      PagesCountDown(hi, lo + 1);
    }
  }

  /** A failed page-count request (-1), or no pages, visits no page. */
  lemma NoPagesWithoutPositiveCount(totalPages: int)
    requires totalPages <= 0
    ensures PagesVisited(totalPages, 0) == []
  {
  }

  /** The number of listens in a list of payloads. */
  function TotalLength(payloads: seq<seq<Submission>>): nat
  {
    if |payloads| == 0 then 0 else TotalLength(payloads[..|payloads| - 1]) + |payloads[|payloads| - 1]|
  }

  /** `countReceived` grows by exactly the number of listens handed to `submitPage`. */
  lemma {:induction false} ReceivedMatchesQueued(responses: int -> PageResponse, hi: int, lo: int)
    ensures ReceivedCount(responses, hi, lo) == TotalLength(QueuedPayloads(responses, hi, lo))
    decreases hi - lo
  {
    if lo < hi {
      ReceivedMatchesQueued(responses, hi, lo + 1);
      var r := responses(lo + 1);
      var before := QueuedPayloads(responses, hi, lo + 1);
      if Decide(r) == Accept {
        assert (before + [PayloadOf(r)])[..|before|] == before;
      } else {
        assert before + [] == before;
      }
    }
  }

  /** Every accepted page among `hi .. lo + 1` has a dated first track. */
  ghost predicate AcceptedPagesDated(responses: int -> PageResponse, hi: int, lo: int)
  {
    forall p :: lo < p <= hi && Decide(responses(p)) == Accept ==> responses(p).tracks.value[0].date.Some?
  }

  /** When every accepted page has a dated first track, `maxTimestampForImport` never
      decreases and ends at least at each such page's first timestamp. */
  lemma {:induction false} MaxTimestampCoversPages(start: int, responses: int -> PageResponse, clockMs: int -> int, hi: int, lo: int)
    requires AcceptedPagesDated(responses, hi, lo)
    ensures MaxTimestampAfter(start, responses, clockMs, hi, lo) >= start
    ensures forall p :: lo < p <= hi && Decide(responses(p)) == Accept ==>
      MaxTimestampAfter(start, responses, clockMs, hi, lo) >= responses(p).tracks.value[0].date.value
    decreases hi - lo
  {
    if lo < hi {
      MaxTimestampCoversPages(start, responses, clockMs, hi, lo + 1);
    }
  }

  /** An accepted page whose first track has no date (the track playing now) sets
      `maxTimestampForImport` to the clock in seconds. Page 1 is fetched last, so when it
      is such a page the import ends with the clock reading, below any later start value. */
  lemma UndatedLastPageSetsClock(start: int, responses: int -> PageResponse, clockMs: int -> int, hi: int)
    requires hi >= 1
    requires Decide(responses(1)) == Accept && responses(1).tracks.value[0].date.None?
    ensures MaxTimestampAfter(start, responses, clockMs, hi, 0) == clockMs(1) / 1000
    ensures start > clockMs(1) / 1000 ==> MaxTimestampAfter(start, responses, clockMs, hi, 0) < start
  {
  }
}
