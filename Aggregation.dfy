/** Counting the torrent list into per-label totals (the `stats` map of one cycle). */
module Aggregation {
  import opened Results
  import opened Labels

  /** One step of the counting loop: `stats.get(&l).unwrap_or(&0) + 1`, stored back under `l`. */
  function Bump(stats: map<Label, int>, l: Label): (r: map<Label, int>)
    ensures r.Keys == stats.Keys + {l}
    ensures l in stats ==> r[l] == stats[l] + 1
    ensures l !in stats ==> r[l] == 1
    ensures forall k :: k in stats && k != l ==> r[k] == stats[k]
  {
    var current := if l in stats then stats[l] else 0;
    stats[l := current + 1]
  }

  /** The map the counting loop holds after visiting every torrent of `ts`, in order. */
  function Tally(ts: seq<Torrent>): map<Label, int>
  {
    if ts == [] then map[] else Bump(Tally(ts[..|ts| - 1]), ExtractLabels(ts[|ts| - 1]))
  }

  /** The labels of the torrents in `ts`. */
  ghost function LabelSet(ts: seq<Torrent>): set<Label>
  {
    set i | 0 <= i < |ts| :: ExtractLabels(ts[i])
  }

  /** The positions in `ts` of the torrents counted under `l`. */
  ghost function Matching(ts: seq<Torrent>, l: Label): set<int>
  {
    set i | 0 <= i < |ts| && ExtractLabels(ts[i]) == l
  }

  /** The number of torrents in `ts` whose label is `l`. */
  ghost function CountOf(ts: seq<Torrent>, l: Label): nat
  {
    |Matching(ts, l)|
  }

  /** Some key of a non-empty map: the one SumValues splits off first. */
  ghost function Pick<K>(m: map<K, int>): (k: K)
    requires |m| > 0
    ensures k in m
  {
    assert exists k :: k in m.Keys by { assert |m.Keys| > 0; }
    var k :| k in m; k
  }

  /** The sum of all values of a map. */
  ghost function SumValues<K>(m: map<K, int>): int
    decreases |m|
  {
    if |m| == 0 then 0
    else
      var k := Pick(m);
      assert |m - {k}| == |m| - 1 by { assert (m - {k}).Keys == m.Keys - {k}; }
      m[k] + SumValues(m - {k})
  }

  /** Any key, not just the one SumValues happens to pick, can be split off the sum. */
  lemma {:induction false} SumValuesRemove<K>(m: map<K, int>, k: K)
    requires k in m
    ensures SumValues(m) == m[k] + SumValues(m - {k})
    decreases |m|
  {
    var j := Pick(m);
    if j != k {
      var mj, mk := m - {j}, m - {k};
      assert mj.Keys == m.Keys - {j} && mk.Keys == m.Keys - {k};
      assert |mj| == |m| - 1 && |mk| == |m| - 1;
      SumValuesRemove(mj, k);
      SumValuesRemove(mk, j);
      assert mj - {k} == mk - {j};
    }
  }

  /** Counting one more torrent raises the sum of the counts by one. */
  lemma SumValuesBump(stats: map<Label, int>, l: Label)
    ensures SumValues(Bump(stats, l)) == SumValues(stats) + 1
  {
    var r := Bump(stats, l);
    SumValuesRemove(r, l);
    if l in stats {
      SumValuesRemove(stats, l);
      assert r - {l} == stats - {l};
    } else {
      assert r - {l} == stats;
    }
  }

  /** Extending the list by one torrent adds its label to the label set. */
  lemma LabelSetSnoc(ts: seq<Torrent>)
    requires ts != []
    ensures LabelSet(ts) == LabelSet(ts[..|ts| - 1]) + {ExtractLabels(ts[|ts| - 1])}
  {
    var n := |ts| - 1;
    var prefix := ts[..n];
    forall l | l in LabelSet(ts) ensures l in LabelSet(prefix) + {ExtractLabels(ts[n])} {
      var i :| 0 <= i < |ts| && ExtractLabels(ts[i]) == l;
      if i < n { assert prefix[i] == ts[i]; }
    }
    forall l | l in LabelSet(prefix) ensures l in LabelSet(ts) {
      var i :| 0 <= i < n && ExtractLabels(prefix[i]) == l;
      assert prefix[i] == ts[i];
    }
  }

  /** Extending the list by one torrent adds its position to the matches of its own label only. */
  lemma CountOfSnoc(ts: seq<Torrent>, l: Label)
    requires ts != []
    ensures CountOf(ts, l) == CountOf(ts[..|ts| - 1], l) + (if ExtractLabels(ts[|ts| - 1]) == l then 1 else 0)
  {
    var n := |ts| - 1;
    var prefix := ts[..n];
    assert forall i :: 0 <= i < n ==> prefix[i] == ts[i];
    var earlier := Matching(prefix, l);
    assert n !in earlier;
    if ExtractLabels(ts[n]) == l {
      assert Matching(ts, l) == earlier + {n};
    } else {
      assert Matching(ts, l) == earlier;
    }
  }

  /** The keys of Tally(ts) are exactly the labels of ts, and each holds the number of torrents with that label. */
  lemma {:induction false} TallyCounts(ts: seq<Torrent>)
    ensures Tally(ts).Keys == LabelSet(ts)
    ensures forall l :: l in Tally(ts) ==> Tally(ts)[l] == CountOf(ts, l)
    decreases |ts|
  {
    if ts != [] {
      var n := |ts| - 1;
      TallyCounts(ts[..n]);
      LabelSetSnoc(ts);
      forall l | l in Tally(ts) ensures Tally(ts)[l] == CountOf(ts, l) {
        CountOfSnoc(ts, l);
        if l !in Tally(ts[..n]) {
          AbsentLabelCountsZero(ts[..n], l);
        }
      }
    }
  }

  /** A label that no torrent carries has count zero. */
  lemma AbsentLabelCountsZero(ts: seq<Torrent>, l: Label)
    requires l !in LabelSet(ts)
    ensures CountOf(ts, l) == 0
  {
    forall i | 0 <= i < |ts| ensures ExtractLabels(ts[i]) != l {
      assert ExtractLabels(ts[i]) in LabelSet(ts);
    }
    assert Matching(ts, l) == {};
  }

  /** A label missing from the map matches no torrent at all. */
  lemma UnlistedLabelCountsZero(ts: seq<Torrent>, l: Label)
    requires l !in Tally(ts)
    ensures CountOf(ts, l) == 0
  {
    TallyCounts(ts);
    AbsentLabelCountsZero(ts, l);
  }

  /** Every count held by Tally(ts) is at least one. */
  lemma {:induction false} TallyPositive(ts: seq<Torrent>)
    ensures forall l :: l in Tally(ts) ==> Tally(ts)[l] >= 1
    decreases |ts|
  {
    if ts != [] {
      TallyPositive(ts[..|ts| - 1]);
    }
  }

  /** The counts of Tally(ts) add up to the number of torrents. */
  lemma {:induction false} TallySum(ts: seq<Torrent>)
    ensures SumValues(Tally(ts)) == |ts|
    decreases |ts|
  {
    if ts != [] {
      var n := |ts| - 1;
      TallySum(ts[..n]);
      SumValuesBump(Tally(ts[..n]), ExtractLabels(ts[n]));
    }
  }

  /** The loop that fills `stats`, one torrent at a time. */
  method CountLabels(torrents: seq<Torrent>) returns (stats: map<Label, int>)
    ensures stats == Tally(torrents)
    ensures stats.Keys == LabelSet(torrents)
    ensures forall l :: l in stats ==> stats[l] == CountOf(torrents, l) && stats[l] >= 1
  {
    stats := map[];
    var i := 0;
    while i < |torrents|
      invariant 0 <= i <= |torrents|
      invariant stats == Tally(torrents[..i])
    {
      var labels := ExtractLabels(torrents[i]);
      stats := Bump(stats, labels);
      assert torrents[..i + 1][..i] == torrents[..i];
      i := i + 1;
    }
    assert torrents[..i] == torrents;
    TallyCounts(torrents);
    TallyPositive(torrents);
  }
}
