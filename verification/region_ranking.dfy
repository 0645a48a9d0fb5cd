/** The pure part of region selection in GameLiftClient.cs: the de-duplicated
    list of fleet locations, and the ranking of probed regions by latency
    (the LINQ expressions at lines 224 and 226). */
module RegionRanking {
  import opened Wrappers

  /** Regions at or under this round-trip time (ms) are acceptable. */
  const ACCEPTABLE_LATENCY := 100

  /** One entry of the region-to-latency dictionary. */
  datatype Sample = Sample(region: string, latency: int)

  /** The list GetFleetRegions builds: each location of the compute list,
      added the first time it is seen. */
  function Distinct(locations: seq<string>): (regions: seq<string>)
    ensures NoDuplicates(regions)
    ensures forall r :: r in regions <==> r in locations
    decreases |locations|
  {
    if locations == [] then []
    else
      var seen := Distinct(locations[..|locations| - 1]);
      var location := locations[|locations| - 1];
      assert forall r :: r in locations <==> r in locations[..|locations| - 1] || r == location by {
        assert locations == locations[..|locations| - 1] + [location];
      }
      if location in seen then seen else seen + [location]
  }

  /** The index of the first occurrence of `x` in `s`. */
  function FirstIndex(s: seq<string>, x: string): (i: nat)
    requires x in s
    ensures i < |s| && s[i] == x && x !in s[..i]
  {
    if s[0] == x then 0
    else
      var k := FirstIndex(s[1..], x);
      assert s[..k + 1] == [s[0]] + s[1..][..k];
      1 + k
  }

  lemma {:induction false} FirstIndexOfExtension(s: seq<string>, x: string, y: string)
    requires y in s
    ensures FirstIndex(s + [x], y) == FirstIndex(s, y)
  {
    if s[0] != y {
      assert (s + [x])[1..] == s[1..] + [x];
      FirstIndexOfExtension(s[1..], x, y);
    }
  }

  /** The distinct regions keep the order in which each was first seen. */
  lemma {:induction false} DistinctKeepsFirstSeenOrder(locations: seq<string>)
    ensures forall i, j | 0 <= i < j < |Distinct(locations)| ::
      FirstIndex(locations, Distinct(locations)[i]) < FirstIndex(locations, Distinct(locations)[j])
    decreases |locations|
  {
    if locations != [] {
      var prefix := locations[..|locations| - 1];
      var location := locations[|locations| - 1];
      assert locations == prefix + [location];
      DistinctKeepsFirstSeenOrder(prefix);
      var seen := Distinct(prefix);
      forall r | r in seen ensures FirstIndex(locations, r) == FirstIndex(prefix, r) {
        FirstIndexOfExtension(prefix, location, r);
      }
      if location !in seen {
        var last := FirstIndex(locations, location);
        assert last == |prefix| by {
          assert location !in prefix;
          assert locations[..|prefix|] == prefix;
        }
        forall r | r in seen ensures FirstIndex(locations, r) < last {
          assert FirstIndex(locations, r) == FirstIndex(prefix, r);
        }
      }
      var regions := Distinct(locations);
      forall i, j | 0 <= i < j < |regions|
        ensures FirstIndex(locations, regions[i]) < FirstIndex(locations, regions[j])
      {
        assert regions[i] == seen[i];
        if j < |seen| {
          assert regions[j] == seen[j];
          assert FirstIndex(prefix, seen[i]) < FirstIndex(prefix, seen[j]);
        }
      }
    }
  }

  predicate SortedByLatency(s: seq<Sample>) {
    forall i, j | 0 <= i < j < |s| :: s[i].latency <= s[j].latency
  }

  /** Inserts `x` in front of the first entry whose latency is not smaller,
      so that entries of equal latency keep their input order. */
  function InsertByLatency(x: Sample, sorted: seq<Sample>): (r: seq<Sample>)
    ensures multiset(r) == multiset(sorted) + multiset{x}
    ensures |r| == |sorted| + 1
  {
    if sorted == [] || x.latency <= sorted[0].latency then [x] + sorted
    else
      assert sorted == [sorted[0]] + sorted[1..];
      [sorted[0]] + InsertByLatency(x, sorted[1..])
  }

  /** Every entry of `s` has latency at least `bound`. */
  predicate AtLeast(bound: int, s: seq<Sample>) {
    forall k | 0 <= k < |s| :: bound <= s[k].latency
  }

  lemma SortedCons(head: Sample, tail: seq<Sample>)
    requires SortedByLatency(tail) && AtLeast(head.latency, tail)
    ensures SortedByLatency([head] + tail)
  {
    var r := [head] + tail;
    forall i, j | 0 <= i < j < |r| ensures r[i].latency <= r[j].latency {
      assert r[j] == tail[j - 1];
      if i > 0 {
        assert r[i] == tail[i - 1];
      }
    }
  }

  lemma {:induction false} InsertAtLeast(bound: int, x: Sample, s: seq<Sample>)
    requires AtLeast(bound, s) && bound <= x.latency
    ensures AtLeast(bound, InsertByLatency(x, s))
  {
    if s != [] && x.latency > s[0].latency {
      InsertAtLeast(bound, x, s[1..]);
      var tail := InsertByLatency(x, s[1..]);
      var r := [s[0]] + tail;
      forall k | 0 <= k < |r| ensures bound <= r[k].latency {
        if k > 0 {
          assert r[k] == tail[k - 1];
        }
      }
    }
  }

  lemma {:induction false} InsertKeepsSorted(x: Sample, sorted: seq<Sample>)
    requires SortedByLatency(sorted)
    ensures SortedByLatency(InsertByLatency(x, sorted))
  {
    if sorted == [] || x.latency <= sorted[0].latency {
      if sorted != [] {
        assert AtLeast(x.latency, sorted);
      }
      SortedCons(x, sorted);
    } else {
      InsertKeepsSorted(x, sorted[1..]);
      InsertAtLeast(sorted[0].latency, x, sorted[1..]);
      SortedCons(sorted[0], InsertByLatency(x, sorted[1..]));
    }
  }

  /** OrderBy(latency): a stable sort on latency. */
  function SortByLatency(samples: seq<Sample>): (sorted: seq<Sample>)
    ensures SortedByLatency(sorted)
    ensures multiset(sorted) == multiset(samples) && |sorted| == |samples|
  {
    if samples == [] then []
    else
      assert samples == [samples[0]] + samples[1..];
      InsertKeepsSorted(samples[0], SortByLatency(samples[1..]));
      InsertByLatency(samples[0], SortByLatency(samples[1..]))
  }

  /** Where(latency <= 100). */
  function WithinThreshold(samples: seq<Sample>): (kept: seq<Sample>)
    ensures forall x :: x in kept <==> x in samples && x.latency <= ACCEPTABLE_LATENCY
    ensures |kept| <= |samples|
  {
    if samples == [] then []
    else
      assert samples == [samples[0]] + samples[1..];
      (if samples[0].latency <= ACCEPTABLE_LATENCY then [samples[0]] else []) + WithinThreshold(samples[1..])
  }

  /** Where keeps each sample within the threshold as often as it occurs,
      and drops every other sample. */
  lemma {:induction false} WithinThresholdMultiplicity(samples: seq<Sample>)
    ensures forall x :: multiset(WithinThreshold(samples))[x] ==
                        (if x.latency <= ACCEPTABLE_LATENCY then multiset(samples)[x] else 0)
  {
    if samples != [] {
      assert samples == [samples[0]] + samples[1..];
      WithinThresholdMultiplicity(samples[1..]);
    }
  }

  /** Select(key). */
  function RegionsOf(samples: seq<Sample>): (regions: seq<string>)
    ensures |regions| == |samples|
    ensures forall i | 0 <= i < |samples| :: regions[i] == samples[i].region
  {
    if samples == [] then [] else [samples[0].region] + RegionsOf(samples[1..])
  }

  /** No two samples are for the same region: the keys of a dictionary. */
  predicate DistinctRegions(s: seq<Sample>) {
    forall i, j | 0 <= i < j < |s| :: s[i].region != s[j].region
  }

  lemma DistinctRegionsCons(head: Sample, tail: seq<Sample>)
    requires DistinctRegions(tail) && forall y | y in tail :: y.region != head.region
    ensures DistinctRegions([head] + tail)
  {
    var r := [head] + tail;
    forall i, j | 0 <= i < j < |r| ensures r[i].region != r[j].region {
      assert r[j] == tail[j - 1] && tail[j - 1] in tail;
      if i > 0 {
        assert r[i] == tail[i - 1];
      }
    }
  }

  lemma {:induction false} InsertKeepsDistinctRegions(x: Sample, s: seq<Sample>)
    requires DistinctRegions(s) && forall y | y in s :: y.region != x.region
    ensures DistinctRegions(InsertByLatency(x, s))
  {
    if s == [] || x.latency <= s[0].latency {
      DistinctRegionsCons(x, s);
    } else {
      var head, rest := s[0], s[1..];
      assert s == [head] + rest;
      assert DistinctRegions(rest) by {
        forall i, j | 0 <= i < j < |rest| ensures rest[i].region != rest[j].region {
          assert rest[i] == s[i + 1] && rest[j] == s[j + 1];
        }
      }
      InsertKeepsDistinctRegions(x, rest);
      var tail := InsertByLatency(x, rest);
      forall y | y in tail ensures y.region != head.region {
        assert y in multiset(tail);
        if y != x {
          assert y in multiset(rest);
          var k :| 0 <= k < |rest| && rest[k] == y;
          assert s[k + 1] == y;
        }
      }
      DistinctRegionsCons(head, tail);
    }
  }

  /** Sorting and filtering keep the regions of the samples distinct. */
  lemma {:induction false} SortKeepsDistinctRegions(samples: seq<Sample>)
    requires DistinctRegions(samples)
    ensures DistinctRegions(SortByLatency(samples))
  {
    if samples != [] {
      var head, rest := samples[0], samples[1..];
      assert DistinctRegions(rest) by {
        forall i, j | 0 <= i < j < |rest| ensures rest[i].region != rest[j].region {
          assert rest[i] == samples[i + 1] && rest[j] == samples[j + 1];
        }
      }
      SortKeepsDistinctRegions(rest);
      var sorted := SortByLatency(rest);
      forall y | y in sorted ensures y.region != head.region {
        assert y in multiset(sorted);
        assert y in multiset(rest);
        var k :| 0 <= k < |rest| && rest[k] == y;
        assert samples[k + 1] == y;
      }
      InsertKeepsDistinctRegions(head, sorted);
    }
  }

  lemma {:induction false} FilterKeepsDistinctRegions(samples: seq<Sample>)
    requires DistinctRegions(samples)
    ensures DistinctRegions(WithinThreshold(samples))
  {
    if samples != [] {
      var head, rest := samples[0], samples[1..];
      assert samples == [head] + rest;
      assert DistinctRegions(rest) by {
        forall i, j | 0 <= i < j < |rest| ensures rest[i].region != rest[j].region {
          assert rest[i] == samples[i + 1] && rest[j] == samples[j + 1];
        }
      }
      FilterKeepsDistinctRegions(rest);
      var kept := WithinThreshold(rest);
      if head.latency <= ACCEPTABLE_LATENCY {
        forall y | y in kept ensures y.region != head.region {
          var k :| 0 <= k < |rest| && rest[k] == y;
          assert samples[k + 1] == y;
        }
        DistinctRegionsCons(head, kept);
      } else {
        assert WithinThreshold(samples) == kept;
      }
    }
  }

  /** Where(latency <= 100).OrderBy(latency). */
  function AcceptableSamples(samples: seq<Sample>): (accepted: seq<Sample>)
    ensures SortedByLatency(accepted) && |accepted| <= |samples|
  {
    SortByLatency(WithinThreshold(samples))
  }

  /** The acceptable regions: those within the threshold, by ascending latency. */
  function AcceptableRegions(samples: seq<Sample>): (regions: seq<string>)
    ensures |regions| <= |samples|
  {
    RegionsOf(AcceptableSamples(samples))
  }

  /** OrderBy(latency).First(). */
  function BestSample(samples: seq<Sample>): (best: Sample)
    requires samples != []
    ensures best in samples
  {
    assert SortByLatency(samples)[0] in multiset(SortByLatency(samples));
    SortByLatency(samples)[0]
  }

  function BestRegion(samples: seq<Sample>): (region: string)
    requires samples != []
    ensures exists x | x in samples :: x.region == region
  {
    BestSample(samples).region
  }

  /** The acceptable samples are exactly the samples within the threshold,
      in non-decreasing latency order. */
  lemma AcceptableSamplesCharacterized(samples: seq<Sample>)
    ensures SortedByLatency(AcceptableSamples(samples))
    ensures multiset(AcceptableSamples(samples)) == multiset(WithinThreshold(samples))
    ensures forall x :: x in AcceptableSamples(samples) <==> x in samples && x.latency <= ACCEPTABLE_LATENCY
  {
    var a, w := AcceptableSamples(samples), WithinThreshold(samples);
    forall x ensures x in a <==> x in w {
      assert x in a <==> x in multiset(a);
      assert x in w <==> x in multiset(w);
    }
  }

  /** When the samples come from a dictionary, each acceptable region is
      listed once. */
  lemma AcceptableRegionsDistinct(samples: seq<Sample>)
    requires DistinctRegions(samples)
    ensures NoDuplicates(AcceptableRegions(samples))
  {
    FilterKeepsDistinctRegions(samples);
    SortKeepsDistinctRegions(WithinThreshold(samples));
  }

  /** The best sample has minimal latency among all probed samples, whether
      or not that latency is within the threshold. */
  lemma BestSampleIsMinimal(samples: seq<Sample>)
    requires samples != []
    ensures BestSample(samples) in samples
    ensures forall x | x in samples :: BestSample(samples).latency <= x.latency
  {
    var sorted := SortByLatency(samples);
    assert sorted[0] in multiset(samples);
    forall x | x in samples ensures sorted[0].latency <= x.latency {
      assert x in multiset(sorted);
      var k :| 0 <= k < |sorted| && sorted[k] == x;
      assert k == 0 || sorted[0].latency <= sorted[k].latency;
    }
  }

  /** The first sample of minimal latency, scanning from the front. */
  function FirstMinimal(samples: seq<Sample>): (m: Sample)
    requires samples != []
    ensures m in samples
    ensures forall x | x in samples :: m.latency <= x.latency
  {
    if |samples| == 1 then samples[0]
    else
      var m := FirstMinimal(samples[1..]);
      assert forall x | x in samples :: x == samples[0] || x in samples[1..];
      if samples[0].latency <= m.latency then samples[0] else m
  }

  /** Because the sort is stable, its head is the first sample of minimal
      latency. */
  lemma {:induction false} SortedHeadIsFirstMinimal(samples: seq<Sample>)
    requires samples != []
    ensures SortByLatency(samples)[0] == FirstMinimal(samples)
  {
    if |samples| > 1 {
      SortedHeadIsFirstMinimal(samples[1..]);
    }
  }

  lemma {:induction false} FirstMinimalWithinThreshold(samples: seq<Sample>)
    requires WithinThreshold(samples) != []
    ensures FirstMinimal(WithinThreshold(samples)) == FirstMinimal(samples)
  {
    var head, tail := samples[0], samples[1..];
    assert samples == [head] + tail;
    var w, wTail := WithinThreshold(samples), WithinThreshold(tail);
    if head.latency <= ACCEPTABLE_LATENCY {
      assert w == [head] + wTail;
      if wTail == [] {
        assert FirstMinimal(w) == head;
        if tail != [] {
          var m := FirstMinimal(tail);
          assert m in tail && m !in wTail;
        }
      } else {
        FirstMinimalWithinThreshold(tail);
        assert w[1..] == wTail;
      }
    } else {
      assert w == wTail;
      FirstMinimalWithinThreshold(tail);
      assert FirstMinimal(wTail) in wTail;
    }
  }

  /** Whenever some region is acceptable, the best region is the first
      acceptable region. */
  lemma FirstAcceptableIsBest(samples: seq<Sample>)
    requires WithinThreshold(samples) != []
    ensures samples != [] && AcceptableRegions(samples) != []
    ensures AcceptableRegions(samples)[0] == BestRegion(samples)
  {
    var w := WithinThreshold(samples);
    SortedHeadIsFirstMinimal(w);
    SortedHeadIsFirstMinimal(samples);
    FirstMinimalWithinThreshold(samples);
  }
}
