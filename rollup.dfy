/**
  Two-level counting rollup, the value of
  `d3.rollup(data, v => v.length, outerKey, innerKey)`: a map from each outer
  key to a map from each inner key to the number of records carrying that
  pair, both levels in first-seen key order. Records enter as the sequence
  of their (outer key, inner key) pairs.
 */
module Rollups {
  import opened Distinct

  /** The (outer key, inner key) pair read off one record. */
  type Pair = (string, string)

  /** One inner-map entry: an inner key and its record count. */
  datatype Tally = Tally(key: string, count: nat)

  /** One outer-map entry: an outer key and its inner map, in insertion order. */
  datatype Bucket = Bucket(key: string, tallies: seq<Tally>)

  /** One (outer key, inner key, count) triple of the flattened rollup. */
  datatype Entry = Entry(from: string, to: string, count: nat)

  // ----- the rollup, built record by record -----

  /** Count one more record with inner key `k`: bump its entry or append a new one. */
  function Bump(ts: seq<Tally>, k: string): seq<Tally> {
    if ts == [] then [Tally(k, 1)]
    else if ts[0].key == k then [Tally(k, ts[0].count + 1)] + ts[1..]
    else [ts[0]] + Bump(ts[1..], k)
  }

  /** Count one more record with pair (k1, k2). */
  function AddPair(bs: seq<Bucket>, k1: string, k2: string): seq<Bucket> {
    if bs == [] then [Bucket(k1, Bump([], k2))]
    else if bs[0].key == k1 then [Bucket(k1, Bump(bs[0].tallies, k2))] + bs[1..]
    else [bs[0]] + AddPair(bs[1..], k1, k2)
  }

  /** The rollup of the records whose pairs are `ps`, taken in order. */
  function Rollup(ps: seq<Pair>): seq<Bucket> {
    if ps == [] then []
    else AddPair(Rollup(ps[..|ps| - 1]), ps[|ps| - 1].0, ps[|ps| - 1].1)
  }

  // ----- views of a rollup -----

  /** The keys of an inner map, in map order. */
  function TallyKeys(ts: seq<Tally>): (r: seq<string>)
    ensures |r| == |ts| && forall i :: 0 <= i < |ts| ==> r[i] == ts[i].key
  {
    if ts == [] then [] else [ts[0].key] + TallyKeys(ts[1..])
  }

  /** The keys of the outer map, in map order: the outer-level counterpart of `TallyKeys`. */
  function BucketKeys(bs: seq<Bucket>): (r: seq<string>)
    ensures |r| == |bs| && forall i :: 0 <= i < |bs| ==> r[i] == bs[i].key
  {
    if bs == [] then [] else [bs[0].key] + BucketKeys(bs[1..])
  }

  /** Inner-map lookup `m.get(k)`, 0 when absent. */
  function CountOf(ts: seq<Tally>, k: string): nat {
    if ts == [] then 0
    else if ts[0].key == k then ts[0].count
    else CountOf(ts[1..], k)
  }

  /** Outer-map lookup `m.get(k)`, the empty inner map when absent. */
  function InnerOf(bs: seq<Bucket>, k: string): seq<Tally> {
    if bs == [] then []
    else if bs[0].key == k then bs[0].tallies
    else InnerOf(bs[1..], k)
  }

  /** The inner map of one bucket flattened into triples. */
  function TallyEntries(k: string, ts: seq<Tally>): seq<Entry> {
    if ts == [] then [] else [Entry(k, ts[0].key, ts[0].count)] + TallyEntries(k, ts[1..])
  }

  /** The nested map flattened, outer order first, inner order within. */
  function Entries(bs: seq<Bucket>): seq<Entry> {
    if bs == [] then [] else TallyEntries(bs[0].key, bs[0].tallies) + Entries(bs[1..])
  }

  function SumCounts(es: seq<Entry>): nat {
    if es == [] then 0 else es[0].count + SumCounts(es[1..])
  }

  /** Every key occurs once on each level. */
  predicate WellFormed(bs: seq<Bucket>) {
    && NoDuplicates(BucketKeys(bs))
    && forall i :: 0 <= i < |bs| ==> NoDuplicates(TallyKeys(bs[i].tallies))
  }

  /** No (outer key, inner key) pair is listed twice. */
  predicate DistinctPairs(es: seq<Entry>) {
    forall i, j :: 0 <= i < j < |es| ==> (es[i].from, es[i].to) != (es[j].from, es[j].to)
  }

  // ----- the reference description, read directly off the pairs -----

  /** The outer keys of the pairs, in record order. */
  function Firsts(ps: seq<Pair>): (r: seq<string>)
    ensures |r| == |ps|
  {
    if ps == [] then [] else Firsts(ps[..|ps| - 1]) + [ps[|ps| - 1].0]
  }

  /** The inner keys of the pairs whose outer key is `k`, in record order. */
  function SecondsOf(ps: seq<Pair>, k: string): seq<string> {
    if ps == [] then []
    else
      var rest := SecondsOf(ps[..|ps| - 1], k);
      if ps[|ps| - 1].0 == k then rest + [ps[|ps| - 1].1] else rest
  }

  lemma {:induction false} FirstsHas(ps: seq<Pair>, p: Pair)
    requires p in ps
    ensures p.0 in Firsts(ps)
  {
    var n := |ps| - 1;
    if ps[n] != p {
      assert ps == ps[..n] + [ps[n]];
      FirstsHas(ps[..n], p);
    }
  }

  lemma {:induction false} SecondsOfHas(ps: seq<Pair>, k: string, k2: string)
    ensures k2 in SecondsOf(ps, k) <==> (k, k2) in ps
  {
    if ps != [] {
      var n := |ps| - 1;
      assert ps == ps[..n] + [ps[n]];
      SecondsOfHas(ps[..n], k, k2);
    }
  }

  // ----- one step of the rollup -----

  lemma {:induction false} BumpKeys(ts: seq<Tally>, k: string)
    ensures TallyKeys(Bump(ts, k)) == if k in TallyKeys(ts) then TallyKeys(ts) else TallyKeys(ts) + [k]
  {
    if ts != [] && ts[0].key != k {
      BumpKeys(ts[1..], k);
      assert TallyKeys(ts) == [ts[0].key] + TallyKeys(ts[1..]);
    }
  }

  lemma {:induction false} BumpCount(ts: seq<Tally>, k: string, k': string)
    ensures CountOf(Bump(ts, k), k') == CountOf(ts, k') + if k == k' then 1 else 0
  {
    if ts != [] && ts[0].key != k {
      BumpCount(ts[1..], k, k');
    }
  }

  lemma {:induction false} AddPairKeys(bs: seq<Bucket>, k1: string, k2: string)
    ensures BucketKeys(AddPair(bs, k1, k2)) == if k1 in BucketKeys(bs) then BucketKeys(bs) else BucketKeys(bs) + [k1]
  {
    if bs != [] && bs[0].key != k1 {
      AddPairKeys(bs[1..], k1, k2);
      assert BucketKeys(bs) == [bs[0].key] + BucketKeys(bs[1..]);
    }
  }

  lemma {:induction false} AddPairInner(bs: seq<Bucket>, k1: string, k2: string, k: string)
    ensures InnerOf(AddPair(bs, k1, k2), k) == if k == k1 then Bump(InnerOf(bs, k1), k2) else InnerOf(bs, k)
  {
    if bs != [] && bs[0].key != k1 {
      AddPairInner(bs[1..], k1, k2, k);
    }
  }

  lemma {:induction false} SumCountsAppend(a: seq<Entry>, b: seq<Entry>)
    ensures SumCounts(a + b) == SumCounts(a) + SumCounts(b)
  {
    if a == [] {
      assert a + b == b;
    } else {
      assert (a + b)[1..] == a[1..] + b;
      SumCountsAppend(a[1..], b);
    }
  }

  lemma {:induction false} BumpSum(k: string, ts: seq<Tally>, k2: string)
    ensures SumCounts(TallyEntries(k, Bump(ts, k2))) == SumCounts(TallyEntries(k, ts)) + 1
  {
    if ts != [] && ts[0].key != k2 {
      BumpSum(k, ts[1..], k2);
    }
  }

  lemma {:induction false} AddPairSum(bs: seq<Bucket>, k1: string, k2: string)
    ensures SumCounts(Entries(AddPair(bs, k1, k2))) == SumCounts(Entries(bs)) + 1
  {
    if bs == [] {
      var ts := [Tally(k2, 1)];
      assert TallyEntries(k1, ts) == [Entry(k1, k2, 1)] by {
        assert ts[1..] == [];
      }
      assert Entries(AddPair(bs, k1, k2)) == [Entry(k1, k2, 1)] + [];
    } else {
      var b := bs[0];
      SumCountsAppend(TallyEntries(b.key, b.tallies), Entries(bs[1..]));
      if b.key == k1 {
        BumpSum(k1, b.tallies, k2);
        SumCountsAppend(TallyEntries(k1, Bump(b.tallies, k2)), Entries(bs[1..]));
      } else {
        AddPairSum(bs[1..], k1, k2);
        SumCountsAppend(TallyEntries(b.key, b.tallies), Entries(AddPair(bs[1..], k1, k2)));
      }
    }
  }

  lemma {:induction false} TallyEntriesAppend(k: string, a: seq<Tally>, b: seq<Tally>)
    ensures TallyEntries(k, a + b) == TallyEntries(k, a) + TallyEntries(k, b)
  {
    if a == [] {
      assert a + b == b;
    } else {
      assert (a + b)[1..] == a[1..] + b;
      TallyEntriesAppend(k, a[1..], b);
    }
  }

  lemma {:induction false} EntriesAppend(a: seq<Bucket>, b: seq<Bucket>)
    ensures Entries(a + b) == Entries(a) + Entries(b)
  {
    if a == [] {
      assert a + b == b;
    } else {
      assert (a + b)[1..] == a[1..] + b;
      EntriesAppend(a[1..], b);
    }
  }

  // ----- the rollup against the reference description -----

  /** Outer keys appear once each, in first-seen order. */
  lemma {:induction false} RollupOuterKeys(ps: seq<Pair>)
    ensures BucketKeys(Rollup(ps)) == Dedup(Firsts(ps))
  {
    if ps != [] {
      var n := |ps| - 1;
      RollupOuterKeys(ps[..n]);
      AddPairKeys(Rollup(ps[..n]), ps[n].0, ps[n].1);
      assert Firsts(ps)[..n] == Firsts(ps[..n]);
    }
  }

  /** Within the bucket of outer key `k`, inner keys appear once each, in first-seen order. */
  lemma {:induction false} RollupInnerKeys(ps: seq<Pair>, k: string)
    ensures TallyKeys(InnerOf(Rollup(ps), k)) == Dedup(SecondsOf(ps, k))
  {
    if ps != [] {
      var n := |ps| - 1;
      var prev := Rollup(ps[..n]);
      RollupInnerKeys(ps[..n], k);
      AddPairInner(prev, ps[n].0, ps[n].1, k);
      if ps[n].0 == k {
        BumpKeys(InnerOf(prev, k), ps[n].1);
        var s := SecondsOf(ps, k);
        assert s[..|s| - 1] == SecondsOf(ps[..n], k);
      }
    }
  }

  /** The count stored for (k, k2) is the number of records with that pair. */
  lemma {:induction false} RollupCounts(ps: seq<Pair>, k: string, k2: string)
    ensures CountOf(InnerOf(Rollup(ps), k), k2) == multiset(ps)[(k, k2)]
  {
    if ps != [] {
      var n := |ps| - 1;
      var prev := Rollup(ps[..n]);
      RollupCounts(ps[..n], k, k2);
      AddPairInner(prev, ps[n].0, ps[n].1, k);
      if ps[n].0 == k {
        BumpCount(InnerOf(prev, k), ps[n].1, k2);
      }
      assert ps == ps[..n] + [ps[n]];
    }
  }

  /** The counts add up to the number of records. */
  lemma {:induction false} RollupTotal(ps: seq<Pair>)
    ensures SumCounts(Entries(Rollup(ps))) == |ps|
  {
    if ps != [] {
      var n := |ps| - 1;
      RollupTotal(ps[..n]);
      AddPairSum(Rollup(ps[..n]), ps[n].0, ps[n].1);
    }
  }

  // ----- flattening a well-formed rollup -----

  lemma {:induction false} InnerOfAt(bs: seq<Bucket>, i: nat)
    requires i < |bs| && NoDuplicates(BucketKeys(bs))
    ensures InnerOf(bs, bs[i].key) == bs[i].tallies
  {
    if i > 0 {
      assert BucketKeys(bs)[0] != BucketKeys(bs)[i];
      assert BucketKeys(bs[1..]) == BucketKeys(bs)[1..];
      InnerOfAt(bs[1..], i - 1);
    }
  }

  lemma {:induction false} CountOfAt(ts: seq<Tally>, j: nat)
    requires j < |ts| && NoDuplicates(TallyKeys(ts))
    ensures CountOf(ts, ts[j].key) == ts[j].count
  {
    if j > 0 {
      assert TallyKeys(ts)[0] != TallyKeys(ts)[j];
      assert TallyKeys(ts[1..]) == TallyKeys(ts)[1..];
      CountOfAt(ts[1..], j - 1);
    }
  }

  lemma RollupWellFormed(ps: seq<Pair>)
    ensures WellFormed(Rollup(ps))
  {
    var bs := Rollup(ps);
    RollupOuterKeys(ps);
    forall i | 0 <= i < |bs| ensures NoDuplicates(TallyKeys(bs[i].tallies)) {
      InnerOfAt(bs, i);
      RollupInnerKeys(ps, bs[i].key);
    }
  }

  lemma {:induction false} TallyEntriesAt(k: string, ts: seq<Tally>, j: nat)
    requires j < |ts|
    ensures |TallyEntries(k, ts)| == |ts| && TallyEntries(k, ts)[j] == Entry(k, ts[j].key, ts[j].count)
  {
    if ts != [] {
      if j > 0 {
        TallyEntriesAt(k, ts[1..], j - 1);
      } else if |ts| > 1 {
        TallyEntriesAt(k, ts[1..], 0);
      }
    }
  }

  lemma {:induction false} TallyEntriesLength(k: string, ts: seq<Tally>)
    ensures |TallyEntries(k, ts)| == |ts|
  {
    if ts != [] {
      TallyEntriesLength(k, ts[1..]);
    }
  }

  /** Every triple of a well-formed rollup is a lookup that succeeds. */
  lemma {:induction false} EntriesLookup(bs: seq<Bucket>, i: nat)
    requires WellFormed(bs) && i < |Entries(bs)|
    ensures Entries(bs)[i].from in BucketKeys(bs)
    ensures Entries(bs)[i].to in TallyKeys(InnerOf(bs, Entries(bs)[i].from))
    ensures Entries(bs)[i].count == CountOf(InnerOf(bs, Entries(bs)[i].from), Entries(bs)[i].to)
  {
    var b := bs[0];
    var head := TallyEntries(b.key, b.tallies);
    TallyEntriesLength(b.key, b.tallies);
    assert BucketKeys(bs) == [b.key] + BucketKeys(bs[1..]);
    if i < |head| {
      TallyEntriesAt(b.key, b.tallies, i);
      CountOfAt(b.tallies, i);
      assert TallyKeys(b.tallies)[i] == b.tallies[i].key;
    } else {
      var rest := bs[1..];
      assert WellFormed(rest) by {
        forall j | 0 <= j < |rest| ensures NoDuplicates(TallyKeys(rest[j].tallies)) {
          assert rest[j] == bs[j + 1];
        }
      }
      EntriesLookup(rest, i - |head|);
      var e := Entries(rest)[i - |head|];
      assert Entries(bs)[i] == e;
      assert b.key != e.from by {
        var m :| 0 <= m < |rest| && BucketKeys(rest)[m] == e.from;
        assert BucketKeys(bs)[m + 1] == e.from;
      }
    }
  }

  /** A well-formed rollup lists no pair twice. */
  lemma {:induction false} EntriesDistinct(bs: seq<Bucket>)
    requires WellFormed(bs)
    ensures DistinctPairs(Entries(bs))
  {
    if bs != [] {
      var b := bs[0];
      var head := TallyEntries(b.key, b.tallies);
      var rest := bs[1..];
      var es := Entries(bs);
      TallyEntriesLength(b.key, b.tallies);
      assert BucketKeys(bs) == [b.key] + BucketKeys(rest);
      assert WellFormed(rest) by {
        forall j | 0 <= j < |rest| ensures NoDuplicates(TallyKeys(rest[j].tallies)) {
          assert rest[j] == bs[j + 1];
        }
      }
      EntriesDistinct(rest);
      forall i, j | 0 <= i < j < |es| ensures (es[i].from, es[i].to) != (es[j].from, es[j].to) {
        if j < |head| {
          TallyEntriesAt(b.key, b.tallies, i);
          TallyEntriesAt(b.key, b.tallies, j);
          assert TallyKeys(b.tallies)[i] != TallyKeys(b.tallies)[j];
        } else if i < |head| {
          TallyEntriesAt(b.key, b.tallies, i);
          EntriesLookup(rest, j - |head|);
          assert es[j] == Entries(rest)[j - |head|];
        } else {
          assert es[i] == Entries(rest)[i - |head|];
          assert es[j] == Entries(rest)[j - |head|];
        }
      }
    }
  }

  /** Every key pair stored in the nested maps appears among the triples. */
  lemma {:induction false} EntriesCover(bs: seq<Bucket>, k: string, k2: string)
    requires k in BucketKeys(bs) && k2 in TallyKeys(InnerOf(bs, k))
    ensures exists i :: 0 <= i < |Entries(bs)| && Entries(bs)[i].from == k && Entries(bs)[i].to == k2
  {
    var b := bs[0];
    var head := TallyEntries(b.key, b.tallies);
    TallyEntriesLength(b.key, b.tallies);
    if b.key == k {
      var j :| 0 <= j < |b.tallies| && TallyKeys(b.tallies)[j] == k2;
      TallyEntriesAt(b.key, b.tallies, j);
      assert Entries(bs)[j] == head[j];
    } else {
      assert BucketKeys(bs) == [b.key] + BucketKeys(bs[1..]);
      EntriesCover(bs[1..], k, k2);
      var i :| 0 <= i < |Entries(bs[1..])| && Entries(bs[1..])[i].from == k && Entries(bs[1..])[i].to == k2;
      assert Entries(bs)[|head| + i] == Entries(bs[1..])[i];
    }
  }

  /**
    The flattened rollup holds exactly one triple per distinct pair of the
    records, its count is the number of records with that pair (so at least
    one), and the counts add up to the number of records.
   */
  lemma RollupFlattened(ps: seq<Pair>)
    ensures DistinctPairs(Entries(Rollup(ps)))
    ensures forall i :: 0 <= i < |Entries(Rollup(ps))| ==>
      var e := Entries(Rollup(ps))[i];
      e.count == multiset(ps)[(e.from, e.to)] && e.count >= 1
    ensures forall p :: p in ps ==>
      exists i :: 0 <= i < |Entries(Rollup(ps))| && (Entries(Rollup(ps))[i].from, Entries(Rollup(ps))[i].to) == p
    ensures SumCounts(Entries(Rollup(ps))) == |ps|
  {
    var bs := Rollup(ps);
    var es := Entries(bs);
    RollupWellFormed(ps);
    EntriesDistinct(bs);
    RollupTotal(ps);
    forall i | 0 <= i < |es| ensures es[i].count == multiset(ps)[(es[i].from, es[i].to)] && es[i].count >= 1 {
      var e := es[i];
      EntriesLookup(bs, i);
      RollupCounts(ps, e.from, e.to);
      RollupInnerKeys(ps, e.from);
      SecondsOfHas(ps, e.from, e.to);
    }
    forall p | p in ps
      ensures exists i :: 0 <= i < |es| && (es[i].from, es[i].to) == p
    {
      FirstsHas(ps, p);
      RollupOuterKeys(ps);
      RollupInnerKeys(ps, p.0);
      SecondsOfHas(ps, p.0, p.1);
      EntriesCover(bs, p.0, p.1);
    }
  }
}
