/** The per-variant aggregation of the dashboard's stats action: one pass
    over the subscriber list that fills a table of buckets keyed by the
    subscriber's experiment variant. */
module Aggregation {
  import opened Common

  /** A subscriber as the provider lists it: the custom field `ad_variant`
      (None when the field, or the whole field map, is absent or null) and
      the three activity counters. */
  datatype Subscriber = Subscriber(
    adVariant: Option<string>,
    openedCount: int,
    clickedCount: int,
    sentCount: int)

  /** The counters kept for one variant label. */
  datatype Bucket = Bucket(count: nat, numOpened: nat, numClicked: nat, numSent: nat)

  /** The label of subscribers that carry no variant. */
  const Unknown: string := "unknown"

  /** A bucket as it is created, before anyone is counted in it. */
  const EmptyBucket: Bucket := Bucket(0, 0, 0, 0)

  /** The bucket a subscriber is counted in: its variant, or "unknown"
      when the variant is missing or empty. */
  function Label(s: Subscriber): string
  {
    OrElse(s.adVariant, Unknown)
  }

  /** One subscriber counted in a bucket: `count` always grows, each of
      the other counters grows when the subscriber's matching activity
      counter is positive. */
  function Bump(b: Bucket, s: Subscriber): Bucket
  {
    Bucket(
      b.count + 1,
      if s.openedCount > 0 then b.numOpened + 1 else b.numOpened,
      if s.clickedCount > 0 then b.numClicked + 1 else b.numClicked,
      if s.sentCount > 0 then b.numSent + 1 else b.numSent)
  }

  /** Reference definition of the bucket for label `l`: the subscribers
      of `subs` whose label is `l`, counted one at a time. */
  function Tally(subs: seq<Subscriber>, l: string): Bucket
  {
    if subs == [] then EmptyBucket
    else
      var rest := Tally(subs[..|subs| - 1], l);
      if Label(subs[|subs| - 1]) == l then Bump(rest, subs[|subs| - 1]) else rest
  }

  /** The labels that occur in a subscriber list. */
  function Labels(subs: seq<Subscriber>): set<string>
  {
    set s | s in subs :: Label(s)
  }

  /** The table `aggregateStats` returns: one bucket for every label that
      occurs, holding that label's tally. */
  function Aggregated(subs: seq<Subscriber>): map<string, Bucket>
  {
    map l | l in Labels(subs) :: Tally(subs, l)
  }

  /** Number of subscribers counted under "unknown": those without a
      variant, and those whose variant is literally "unknown". */
  function UnknownCount(subs: seq<Subscriber>): nat
  {
    if subs == [] then 0
    else
      var s := subs[|subs| - 1];
      UnknownCount(subs[..|subs| - 1])
        + if !Truthy(s.adVariant) || s.adVariant == Some(Unknown) then 1 else 0
  }

  /** Sum of the `count` field over every bucket of a table. */
  ghost function SumCounts(m: map<string, Bucket>): nat
    decreases |m|
  {
    if m == map[] then 0
    else
      var k :| k in m;
      assert |m - {k}| < |m| by { assert m.Keys - {k} < m.Keys; }
      m[k].count + SumCounts(m - {k})
  }

  /** One pass over the subscribers, creating each bucket on first use
      and counting the subscriber in it. */
  method AggregateStats(subscribers: seq<Subscriber>) returns (variants: map<string, Bucket>)
    ensures variants == Aggregated(subscribers)
  {
    variants := map[];
    for i := 0 to |subscribers|
      invariant variants == Aggregated(subscribers[..i])
    {
      var sub := subscribers[i];
      var variant := Label(sub);
      if variant !in variants {
        variants := variants[variant := EmptyBucket];
      }
      variants := variants[variant := Bump(variants[variant], sub)];
      AggregatedSnoc(subscribers[..i], sub);
      assert subscribers[..i + 1] == subscribers[..i] + [sub];
    }
    assert subscribers[..|subscribers|] == subscribers;
  }

  /** A label that does not occur has an all-zero tally; one that occurs
      has counted at least one subscriber. */
  lemma {:induction false} TallyPresence(subs: seq<Subscriber>, l: string)
    ensures l !in Labels(subs) ==> Tally(subs, l) == EmptyBucket
    ensures l in Labels(subs) ==> Tally(subs, l).count > 0
  {
    if subs != [] {
      var init := subs[..|subs| - 1];
      var last := subs[|subs| - 1];
      assert subs == init + [last];
      assert Labels(subs) == Labels(init) + {Label(last)};
      TallyPresence(init, l);
    }
  }

  /** Within a tally, `numOpened`, `numClicked` and `numSent` never exceed `count`. */
  lemma {:induction false} TallyBounds(subs: seq<Subscriber>, l: string)
    ensures Tally(subs, l).numOpened <= Tally(subs, l).count
    ensures Tally(subs, l).numClicked <= Tally(subs, l).count
    ensures Tally(subs, l).numSent <= Tally(subs, l).count
  {
    if subs != [] {
      TallyBounds(subs[..|subs| - 1], l);
    }
  }

  /** Appending one subscriber updates exactly its own bucket: the bucket
      is created at all zeros when the label is new, then bumped. */
  lemma AggregatedSnoc(subs: seq<Subscriber>, s: Subscriber)
    ensures var m := Aggregated(subs);
            var l := Label(s);
            Aggregated(subs + [s])
              == m[l := Bump(if l in m then m[l] else EmptyBucket, s)]
  {
    var m := Aggregated(subs);
    var l := Label(s);
    var ext := subs + [s];
    assert ext[..|ext| - 1] == subs;
    assert Labels(ext) == Labels(subs) + {l};
    TallyPresence(subs, l);
    forall k | k in Labels(ext)
      ensures Tally(ext, k) == m[l := Bump(if l in m then m[l] else EmptyBucket, s)][k]
    {
    }
  }

  /** Every bucket of the aggregated table has counted someone, and its
      three activity counters are bounded by its member count. */
  lemma AggregatedBuckets(subs: seq<Subscriber>, l: string)
    requires l in Aggregated(subs)
    ensures 0 < Aggregated(subs)[l].count
    ensures Aggregated(subs)[l].numOpened <= Aggregated(subs)[l].count
    ensures Aggregated(subs)[l].numClicked <= Aggregated(subs)[l].count
    ensures Aggregated(subs)[l].numSent <= Aggregated(subs)[l].count
  {
    TallyPresence(subs, l);
    TallyBounds(subs, l);
  }

  /** A table has a bucket for `l` exactly when some subscriber's label
      is `l`. */
  lemma AggregatedKeys(subs: seq<Subscriber>, l: string)
    ensures l in Aggregated(subs) <==> exists i :: 0 <= i < |subs| && Label(subs[i]) == l
  {
    if l in Aggregated(subs) {
      var s :| s in subs && Label(s) == l;
      var i :| 0 <= i < |subs| && subs[i] == s;
    }
  }

  /** The "unknown" bucket collects the subscribers with a missing or
      empty variant together with those labelled "unknown" outright. */
  lemma {:induction false} UnknownBucket(subs: seq<Subscriber>)
    ensures Tally(subs, Unknown).count == UnknownCount(subs)
  {
    if subs != [] {
      UnknownBucket(subs[..|subs| - 1]);
    }
  }

  /** Removing one bucket removes exactly its count from the sum. */
  lemma {:induction false} SumCountsRemove(m: map<string, Bucket>, k: string)
    requires k in m
    ensures SumCounts(m) == m[k].count + SumCounts(m - {k})
    decreases |m|
  {
    var j :| j in m && SumCounts(m) == m[j].count + SumCounts(m - {j});
    if j != k {
      assert m.Keys - {j} < m.Keys;
      assert m.Keys - {k} < m.Keys;
      SumCountsRemove(m - {j}, k);
      SumCountsRemove(m - {k}, j);
      assert (m - {j}) - {k} == (m - {k}) - {j};
    }
  }

  /** Every bucket's count is at most the sum over the table. */
  lemma SumCountsBound(m: map<string, Bucket>, k: string)
    requires k in m
    ensures m[k].count <= SumCounts(m)
  {
    SumCountsRemove(m, k);
  }

  /** Replacing (or adding) one bucket changes the sum by the difference
      of that bucket's counts. */
  lemma SumCountsUpdate(m: map<string, Bucket>, k: string, b: Bucket)
    ensures SumCounts(m[k := b]) + (if k in m then m[k].count else 0) == SumCounts(m) + b.count
  {
    SumCountsRemove(m[k := b], k);
    if k in m {
      SumCountsRemove(m, k);
      assert m[k := b] - {k} == m - {k};
    } else {
      assert m[k := b] - {k} == m;
    }
  }

  /** Every subscriber is counted in exactly one bucket: the counts of
      all buckets add up to the number of subscribers. */
  lemma {:induction false} AggregatedTotal(subs: seq<Subscriber>)
    ensures SumCounts(Aggregated(subs)) == |subs|
  {
    if subs == [] {
      assert Aggregated(subs) == map[];
    } else {
      var init := subs[..|subs| - 1];
      var last := subs[|subs| - 1];
      assert subs == init + [last];
      AggregatedTotal(init);
      AggregatedSnoc(init, last);
      var m := Aggregated(init);
      var l := Label(last);
      SumCountsUpdate(m, l, Bump(if l in m then m[l] else EmptyBucket, last));
    }
  }
}
