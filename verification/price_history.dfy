/** The chart data of `app.py`: a list of (time, price) samples to which every
    new Bitcoin price is appended, after which only the last day is kept.
    The clock reading `now` is an input, in seconds. */
module PriceHistory {

  datatype Sample = Sample(time: real, price: real)

  /** `timedelta(days=1)` in seconds. */
  const OneDay: real := 86400.0

  /** `a` is `b` with some elements left out, the rest in their original order. */
  ghost predicate IsSubsequence<T>(a: seq<T>, b: seq<T>)
    decreases |b|
  {
    if |a| == 0 then true
    else if |b| == 0 then false
    else (a[0] == b[0] && IsSubsequence(a[1..], b[1..])) || IsSubsequence(a, b[1..])
  }

  /** The samples strictly newer than `cutoff`, in their original order. */
  function KeepNewer(samples: seq<Sample>, cutoff: real): (kept: seq<Sample>)
    ensures forall i :: 0 <= i < |kept| ==> kept[i].time > cutoff
    ensures |kept| <= |samples|
  {
    if |samples| == 0 then []
    else
      var rest := KeepNewer(samples[1..], cutoff);
      if samples[0].time > cutoff then [samples[0]] + rest else rest
  }

  /** Each sample newer than the cutoff is kept with all its copies, and no other. */
  lemma {:induction false} KeepNewerCounts(samples: seq<Sample>, cutoff: real)
    ensures forall x :: multiset(KeepNewer(samples, cutoff))[x] == (if x.time > cutoff then multiset(samples)[x] else 0)
    decreases |samples|
  {
    if |samples| > 0 {
      assert samples == [samples[0]] + samples[1..];
      KeepNewerCounts(samples[1..], cutoff);
    }
  }

  /** A sample is kept exactly when it is present and newer than the cutoff. */
  lemma {:induction false} KeepNewerMembers(samples: seq<Sample>, cutoff: real)
    ensures forall x :: x in KeepNewer(samples, cutoff) <==> x in samples && x.time > cutoff
    decreases |samples|
  {
    if |samples| > 0 {
      assert samples == [samples[0]] + samples[1..];
      KeepNewerMembers(samples[1..], cutoff);
    }
  }

  /** The kept samples are in their original relative order. */
  lemma {:induction false} KeepNewerIsSubsequence(samples: seq<Sample>, cutoff: real)
    ensures IsSubsequence(KeepNewer(samples, cutoff), samples)
    decreases |samples|
  {
    if |samples| > 0 {
      KeepNewerIsSubsequence(samples[1..], cutoff);
    }
  }

  /** Filtering distributes over a trailing sample that is kept. */
  lemma {:induction false} KeepNewerAppend(samples: seq<Sample>, last: Sample, cutoff: real)
    requires last.time > cutoff
    ensures KeepNewer(samples + [last], cutoff) == KeepNewer(samples, cutoff) + [last]
    decreases |samples|
  {
    if |samples| == 0 {
      assert [] + [last] == [last];
    } else {
      assert (samples + [last])[1..] == samples[1..] + [last];
      KeepNewerAppend(samples[1..], last, cutoff);
    }
  }

  /** `update_price_history(price)` at time `now`. */
  function UpdatePriceHistory(history: seq<Sample>, now: real, price: real): (updated: seq<Sample>)
    // Only samples from the last day survive, the new one last.
    ensures forall i :: 0 <= i < |updated| ==> updated[i].time > now - OneDay
    ensures |updated| > 0 && updated[|updated| - 1] == Sample(now, price)
    // The old samples of the last day are all kept, in order; nothing is invented.
    ensures forall x :: x in history && x.time > now - OneDay ==> x in updated
    ensures updated == KeepNewer(history, now - OneDay) + [Sample(now, price)]
    ensures forall x :: x != Sample(now, price) ==>
      multiset(updated)[x] == (if x.time > now - OneDay then multiset(history)[x] else 0)
    ensures forall x :: x in updated ==> x in history || x == Sample(now, price)
    ensures IsSubsequence(updated, history + [Sample(now, price)])
    ensures |updated| <= |history| + 1
  {
    var sample := Sample(now, price);
    var cutoff := now - OneDay;
    KeepNewerAppend(history, sample, cutoff);
    KeepNewerMembers(history, cutoff);
    KeepNewerCounts(history, cutoff);
    KeepNewerIsSubsequence(history + [sample], cutoff);
    KeepNewer(history + [sample], cutoff)
  }

  /** The cut is strict: a sample exactly one day old is dropped. */
  lemma DayOldSampleDropped(now: real, oldPrice: real, price: real)
    ensures UpdatePriceHistory([Sample(now - OneDay, oldPrice)], now, price) == [Sample(now, price)]
  {
  }
}
