/**
  `prepareSankeyData`: the node list and the weighted links of the Sankey
  diagram (experience level -> job group -> company size) built from the
  salary records.
 */
module Sankey {
  import opened Distinct
  import opened JobTitles
  import opened Rollups

  /** One salary record, reduced to the three columns the diagram reads. */
  datatype Record = Record(experienceLevel: string, companySize: string, jobTitle: string)

  /** The three node categories, in the order their nodes are listed. */
  datatype Column = ExperienceLevel | JobGroup | CompanySize

  /** A diagram node; its identity is its label. */
  datatype Node = Node(name: string)

  /** A weighted link between two positions of the node list. */
  datatype Link = Link(source: int, target: int, value: nat)

  datatype SankeyData = SankeyData(nodes: seq<Node>, links: seq<Link>)

  /** The label a record contributes to a column; job titles are classified first. */
  function Label(r: Record, c: Column): string {
    match c
    case ExperienceLevel => r.experienceLevel
    case JobGroup => MapJobTitle(r.jobTitle)
    case CompanySize => r.companySize
  }

  /** `data.map(d => ...)` for one column. */
  function Labels(data: seq<Record>, c: Column): (r: seq<string>)
    ensures |r| == |data|
  {
    seq(|data|, i requires 0 <= i < |data| => Label(data[i], c))
  }

  /** The (a, b) label pairs of the records, the keys a two-level rollup groups by. */
  function Pairs(data: seq<Record>, a: Column, b: Column): (r: seq<Pair>)
    ensures |r| == |data|
  {
    seq(|data|, i requires 0 <= i < |data| => (Label(data[i], a), Label(data[i], b)))
  }

  /** The number of records whose a-label is `x` and whose b-label is `y`. */
  function RecordsWith(data: seq<Record>, a: Column, b: Column, x: string, y: string): nat {
    multiset(Pairs(data, a, b))[(x, y)]
  }

  /** The distinct labels of one column, in first-seen order. */
  function Segment(data: seq<Record>, c: Column): seq<string> {
    Dedup(Labels(data, c))
  }

  /** Experience levels, then job groups, then company sizes. */
  function NodeNames(data: seq<Record>): seq<string> {
    Segment(data, ExperienceLevel) + Segment(data, JobGroup) + Segment(data, CompanySize)
  }

  /** `names.map(name => ({ name }))`. */
  function NodesFrom(names: seq<string>): (r: seq<Node>)
    ensures |r| == |names|
  {
    seq(|names|, i requires 0 <= i < |names| => Node(names[i]))
  }

  function Nodes(data: seq<Record>): seq<Node> {
    NodesFrom(NodeNames(data))
  }

  /** `nodeIndex`: the position of the first node labelled `name`, or -1. */
  function NodeIndex(nodes: seq<Node>, name: string): (r: int)
    ensures -1 <= r < |nodes|
    ensures r == -1 <==> forall k :: 0 <= k < |nodes| ==> nodes[k].name != name
    ensures r != -1 ==> nodes[r].name == name && forall k :: 0 <= k < r ==> nodes[k].name != name
  {
    if nodes == [] then -1
    else if nodes[0].name == name then 0
    else
      var k := NodeIndex(nodes[1..], name);
      if k == -1 then -1 else k + 1
  }

  /** The link pushed for one (outer key, inner key, count) triple. */
  function LinkOf(nodes: seq<Node>, e: Entry): Link {
    Link(NodeIndex(nodes, e.from), NodeIndex(nodes, e.to), e.count)
  }

  function LinksOf(nodes: seq<Node>, es: seq<Entry>): (r: seq<Link>)
    ensures |r| == |es|
  {
    seq(|es|, i requires 0 <= i < |es| => LinkOf(nodes, es[i]))
  }

  /** The flattened counting rollup of the records by columns a and b. */
  function FlowEntries(data: seq<Record>, a: Column, b: Column): seq<Entry> {
    Entries(Rollup(Pairs(data, a, b)))
  }

  function SumValues(ls: seq<Link>): int {
    if ls == [] then 0 else ls[0].value + SumValues(ls[1..])
  }

  /**
    The nested `for ... of` loops over a two-level rollup that push one link
    per inner entry, outer keys first.
   */
  method FlattenRollup(nodes: seq<Node>, groups: seq<Bucket>) returns (links: seq<Link>)
    ensures links == LinksOf(nodes, Entries(groups))
  {
    links := [];
    var i := 0;
    while i < |groups|
      invariant 0 <= i <= |groups|
      invariant links == LinksOf(nodes, Entries(groups[..i]))
    {
      var bucket := groups[i];
      ghost var done := Entries(groups[..i]);
      var j := 0;
      while j < |bucket.tallies|
        invariant 0 <= j <= |bucket.tallies|
        invariant links == LinksOf(nodes, done + TallyEntries(bucket.key, bucket.tallies[..j]))
      {
        var tally := bucket.tallies[j];
        TallyEntriesStep(bucket.key, bucket.tallies, j);
        LinksOfSnoc(nodes, done + TallyEntries(bucket.key, bucket.tallies[..j]), Entry(bucket.key, tally.key, tally.count));
        links := links + [Link(NodeIndex(nodes, bucket.key), NodeIndex(nodes, tally.key), tally.count)];
        j := j + 1;
      }
      EntriesStep(groups, i);
      i := i + 1;
    }
    assert groups[..i] == groups;
  }

  lemma LinksOfSnoc(nodes: seq<Node>, es: seq<Entry>, e: Entry)
    ensures LinksOf(nodes, es + [e]) == LinksOf(nodes, es) + [LinkOf(nodes, e)]
  {
    assert forall k :: 0 <= k < |es| ==> (es + [e])[k] == es[k];
  }

  lemma TallyEntriesStep(k: string, ts: seq<Tally>, j: nat)
    requires j < |ts|
    ensures TallyEntries(k, ts[..j + 1]) == TallyEntries(k, ts[..j]) + [Entry(k, ts[j].key, ts[j].count)]
  {
    assert ts[..j + 1] == ts[..j] + [ts[j]];
    TallyEntriesAppend(k, ts[..j], [ts[j]]);
    assert TallyEntries(k, [ts[j]]) == [Entry(k, ts[j].key, ts[j].count)] by {
      assert [ts[j]][1..] == [];
    }
  }

  lemma EntriesStep(groups: seq<Bucket>, i: nat)
    requires i < |groups|
    ensures Entries(groups[..i + 1]) == Entries(groups[..i]) + TallyEntries(groups[i].key, groups[i].tallies[..|groups[i].tallies|])
  {
    assert groups[..i + 1] == groups[..i] + [groups[i]];
    EntriesAppend(groups[..i], [groups[i]]);
    assert groups[i].tallies[..|groups[i].tallies|] == groups[i].tallies;
    assert Entries([groups[i]]) == TallyEntries(groups[i].key, groups[i].tallies) + Entries([]);
  }

  /** `prepareSankeyData`. */
  method PrepareSankeyData(data: seq<Record>) returns (g: SankeyData)
    ensures g.nodes == Nodes(data)
    ensures g.links == LinksOf(g.nodes, FlowEntries(data, ExperienceLevel, JobGroup))
                     + LinksOf(g.nodes, FlowEntries(data, JobGroup, CompanySize))
    ensures forall l :: l in g.links ==> 0 <= l.source < |g.nodes| && 0 <= l.target < |g.nodes|
    ensures data == [] ==> g.nodes == [] && g.links == []
  {
    var experienceLevels := Dedup(Labels(data, ExperienceLevel));
    var companySizes := Dedup(Labels(data, CompanySize));
    var groupedJobTitles := Dedup(Labels(data, JobGroup));
    var names := experienceLevels + groupedJobTitles + companySizes;
    var nodes := NodesFrom(names);

    var expToJobMap := Rollup(Pairs(data, ExperienceLevel, JobGroup));
    var links1 := FlattenRollup(nodes, expToJobMap);

    var jobToCompMap := Rollup(Pairs(data, JobGroup, CompanySize));
    var links2 := FlattenRollup(nodes, jobToCompMap);

    g := SankeyData(nodes, links1 + links2);
    FlowLinkEndpoints(data, ExperienceLevel, JobGroup);
    FlowLinkEndpoints(data, JobGroup, CompanySize);
  }

  // ----- nodes -----

  /** Every label of every record has a node. */
  lemma LabelHasNode(data: seq<Record>, r: Record, c: Column)
    requires r in data
    ensures 0 <= NodeIndex(Nodes(data), Label(r, c)) < |Nodes(data)|
    ensures Nodes(data)[NodeIndex(Nodes(data), Label(r, c))].name == Label(r, c)
  {
    var x := Label(r, c);
    var i :| 0 <= i < |data| && data[i] == r;
    assert Labels(data, c)[i] == x;
    assert x in Segment(data, c);
    NodeIndexInSegments(Segment(data, ExperienceLevel), Segment(data, JobGroup), Segment(data, CompanySize), x);
  }

  /**
    The node list is the three segments one after the other; each segment
    holds exactly the labels of its column, once each, in first-seen order.
   */
  lemma NodeSegments(data: seq<Record>, c: Column)
    ensures NodeNames(data) == Segment(data, ExperienceLevel) + Segment(data, JobGroup) + Segment(data, CompanySize)
    ensures |Nodes(data)| == |NodeNames(data)|
    ensures forall i :: 0 <= i < |Nodes(data)| ==> Nodes(data)[i].name == NodeNames(data)[i]
    ensures NoDuplicates(Segment(data, c))
    ensures forall x :: x in Segment(data, c) <==> exists r :: r in data && Label(r, c) == x
    ensures forall i, j :: 0 <= i < j < |Segment(data, c)| ==>
      FirstIndex(Labels(data, c), Segment(data, c)[i]) < FirstIndex(Labels(data, c), Segment(data, c)[j])
  {
    DedupFirstSeenOrder(Labels(data, c));
    forall x | x in Segment(data, c) ensures exists r :: r in data && Label(r, c) == x {
      var i :| 0 <= i < |data| && Labels(data, c)[i] == x;
      assert data[i] in data;
    }
    forall r | r in data ensures Label(r, c) in Segment(data, c) {
      var i :| 0 <= i < |data| && data[i] == r;
      assert Labels(data, c)[i] == Label(r, c);
    }
  }

  /**
    A label is looked up at its first occurrence: when an experience level
    and a company size carry the same label, both flows attach to the
    experience-level node; a job group resolves into the job-group segment
    only when no experience level has its label.
   */
  lemma NodeIndexSegment(data: seq<Record>, x: string)
    ensures var n := NodeIndex(Nodes(data), x);
      var e, j := Segment(data, ExperienceLevel), Segment(data, JobGroup);
      && (x in e ==> 0 <= n < |e|)
      && (x !in e && x in j ==> |e| <= n < |e| + |j|)
      && (x !in e && x !in j && x in Segment(data, CompanySize) ==> |e| + |j| <= n < |Nodes(data)|)
      && (x !in NodeNames(data) ==> n == -1)
  {
    NodeIndexInSegments(Segment(data, ExperienceLevel), Segment(data, JobGroup), Segment(data, CompanySize), x);
  }

  lemma NodeIndexInSegments(e: seq<string>, j: seq<string>, s: seq<string>, x: string)
    ensures var n := NodeIndex(NodesFrom(e + j + s), x);
      && (x in e ==> 0 <= n < |e|)
      && (x !in e && x in j ==> |e| <= n < |e| + |j|)
      && (x !in e && x !in j && x in s ==> |e| + |j| <= n < |e| + |j| + |s|)
      && (x !in e + j + s ==> n == -1)
  {
    var names := e + j + s;
    var nodes := NodesFrom(names);
    var n := NodeIndex(nodes, x);
    if x in e {
      var m :| 0 <= m < |e| && e[m] == x;
      assert nodes[m].name == x;
    } else if x in j {
      var m :| 0 <= m < |j| && j[m] == x;
      assert nodes[|e| + m].name == x;
    } else if x in s {
      var m :| 0 <= m < |s| && s[m] == x;
      assert nodes[|e| + |j| + m].name == x;
    }
  }

  // ----- links -----

  /** Every link of a flow joins two valid node positions whose labels form the link's pair. */
  lemma FlowLinkEndpoints(data: seq<Record>, a: Column, b: Column)
    ensures forall l :: l in LinksOf(Nodes(data), FlowEntries(data, a, b)) ==>
      0 <= l.source < |Nodes(data)| && 0 <= l.target < |Nodes(data)|
    ensures forall i :: 0 <= i < |FlowEntries(data, a, b)| ==>
      && 0 <= LinksOf(Nodes(data), FlowEntries(data, a, b))[i].source
      && 0 <= LinksOf(Nodes(data), FlowEntries(data, a, b))[i].target
      && Nodes(data)[LinksOf(Nodes(data), FlowEntries(data, a, b))[i].source].name == FlowEntries(data, a, b)[i].from
      && Nodes(data)[LinksOf(Nodes(data), FlowEntries(data, a, b))[i].target].name == FlowEntries(data, a, b)[i].to
  {
    var nodes := Nodes(data);
    var es := FlowEntries(data, a, b);
    var ps := Pairs(data, a, b);
    var ls := LinksOf(nodes, es);
    RollupFlattened(ps);
    forall i | 0 <= i < |es|
      ensures 0 <= ls[i].source && 0 <= ls[i].target
      ensures nodes[ls[i].source].name == es[i].from && nodes[ls[i].target].name == es[i].to
    {
      assert (es[i].from, es[i].to) in multiset(ps);
      var k :| 0 <= k < |ps| && ps[k] == (es[i].from, es[i].to);
      assert data[k] in data;
      LabelHasNode(data, data[k], a);
      LabelHasNode(data, data[k], b);
    }
  }

  lemma {:induction false} SumValuesOfLinks(nodes: seq<Node>, es: seq<Entry>)
    ensures SumValues(LinksOf(nodes, es)) == SumCounts(es)
  {
    if es != [] {
      assert LinksOf(nodes, es)[1..] == LinksOf(nodes, es[1..]);
      SumValuesOfLinks(nodes, es[1..]);
    }
  }

  /** Each link's value is the number of records with its pair, so at least one. */
  lemma FlowLinkValues(data: seq<Record>, a: Column, b: Column)
    ensures forall i :: 0 <= i < |FlowEntries(data, a, b)| ==>
      var l := LinksOf(Nodes(data), FlowEntries(data, a, b))[i];
      var e := FlowEntries(data, a, b)[i];
      l.value == RecordsWith(data, a, b, e.from, e.to) && l.value >= 1
  {
    RollupFlattened(Pairs(data, a, b));
  }

  /** No two links of a flow join the same two nodes. */
  lemma FlowLinksDistinct(data: seq<Record>, a: Column, b: Column)
    ensures forall i, j :: 0 <= i < j < |FlowEntries(data, a, b)| ==>
      var ls := LinksOf(Nodes(data), FlowEntries(data, a, b));
      (ls[i].source, ls[i].target) != (ls[j].source, ls[j].target)
  {
    var nodes := Nodes(data);
    var es := FlowEntries(data, a, b);
    var ls := LinksOf(nodes, es);
    RollupFlattened(Pairs(data, a, b));
    FlowLinkEndpoints(data, a, b);
    forall i, j | 0 <= i < j < |es| ensures (ls[i].source, ls[i].target) != (ls[j].source, ls[j].target) {
      assert (es[i].from, es[i].to) != (es[j].from, es[j].to);
    }
  }

  /** Every record is carried by a link of each flow: the one joining its two labels. */
  lemma FlowLinksCover(data: seq<Record>, a: Column, b: Column, r: Record)
    requires r in data
    ensures exists i ::
      && 0 <= i < |FlowEntries(data, a, b)|
      && LinksOf(Nodes(data), FlowEntries(data, a, b))[i].source == NodeIndex(Nodes(data), Label(r, a))
      && LinksOf(Nodes(data), FlowEntries(data, a, b))[i].target == NodeIndex(Nodes(data), Label(r, b))
  {
    var ps := Pairs(data, a, b);
    var es := FlowEntries(data, a, b);
    RollupFlattened(ps);
    var k :| 0 <= k < |data| && data[k] == r;
    assert ps[k] in ps;
    var i :| 0 <= i < |es| && (es[i].from, es[i].to) == ps[k];
    assert LinksOf(Nodes(data), es)[i] == LinkOf(Nodes(data), es[i]);
  }

  /** The values of each flow add up to the number of records. */
  lemma FlowConservation(data: seq<Record>, a: Column, b: Column)
    ensures SumValues(LinksOf(Nodes(data), FlowEntries(data, a, b))) == |data|
  {
    RollupTotal(Pairs(data, a, b));
    SumValuesOfLinks(Nodes(data), FlowEntries(data, a, b));
  }

  // ----- a worked example -----

  lemma DedupRepeatThenNew(x: string, y: string)
    requires x != y
    ensures Dedup([x, x, y]) == [x, y]
  {
    assert [x, x, y][..2] == [x, x];
    assert [x, x][..1] == [x];
    assert [x][..0] == [];
  }

  lemma RollupRepeatThenNew(p: Pair, q: Pair)
    requires p.0 != q.0
    ensures Entries(Rollup([p, p, q])) == [Entry(p.0, p.1, 2), Entry(q.0, q.1, 1)]
  {
    assert [p, p, q][..2] == [p, p];
    assert [p, p][..1] == [p];
    assert [p][..0] == [];
    var b1 := [Bucket(p.0, [Tally(p.1, 1)])];
    assert Rollup([p]) == b1;
    var b2 := [Bucket(p.0, [Tally(p.1, 2)])];
    assert [Tally(p.1, 1)][1..] == [];
    assert Bump([Tally(p.1, 1)], p.1) == [Tally(p.1, 2)];
    assert b1[1..] == [];
    assert Rollup([p, p]) == AddPair(b1, p.0, p.1) == b2;
    var bs := [Bucket(p.0, [Tally(p.1, 2)]), Bucket(q.0, [Tally(q.1, 1)])];
    assert AddPair(b2, q.0, q.1) == [b2[0]] + AddPair([], q.0, q.1);
    assert Rollup([p, p, q]) == bs;
    assert [Tally(q.1, 1)][1..] == [] && [Tally(p.1, 2)][1..] == [];
    assert TallyEntries(q.0, bs[1].tallies) == [Entry(q.0, q.1, 1)];
    assert TallyEntries(p.0, bs[0].tallies) == [Entry(p.0, p.1, 2)];
    assert bs[1..][1..] == [];
    assert Entries(bs[1..]) == [Entry(q.0, q.1, 1)];
  }

  lemma LabelsOfThree(x: Record, y: Record, z: Record, c: Column)
    ensures Labels([x, y, z], c) == [Label(x, c), Label(y, c), Label(z, c)]
  {
  }

  lemma PairsOfThree(x: Record, y: Record, z: Record, a: Column, b: Column)
    ensures Pairs([x, y, z], a, b) == [(Label(x, a), Label(x, b)), (Label(y, a), Label(y, b)), (Label(z, a), Label(z, b))]
  {
  }

  lemma RepeatedPathCore(d: seq<Record>, e1: string, e2: string, g1: string, g2: string, s1: string, s2: string)
    requires Labels(d, ExperienceLevel) == [e1, e1, e2]
    requires Labels(d, JobGroup) == [g1, g1, g2]
    requires Labels(d, CompanySize) == [s1, s1, s2]
    requires Pairs(d, ExperienceLevel, JobGroup) == [(e1, g1), (e1, g1), (e2, g2)]
    requires Pairs(d, JobGroup, CompanySize) == [(g1, s1), (g1, s1), (g2, s2)]
    requires forall i, j :: 0 <= i < j < 6 ==> [e1, e2, g1, g2, s1, s2][i] != [e1, e2, g1, g2, s1, s2][j]
    ensures Nodes(d) == NodesFrom([e1, e2, g1, g2, s1, s2])
    ensures LinksOf(Nodes(d), FlowEntries(d, ExperienceLevel, JobGroup)) == [Link(0, 2, 2), Link(1, 3, 1)]
    ensures LinksOf(Nodes(d), FlowEntries(d, JobGroup, CompanySize)) == [Link(2, 4, 2), Link(3, 5, 1)]
  {
    var names := [e1, e2, g1, g2, s1, s2];
    assert names[0] != names[1] && names[2] != names[3] && names[4] != names[5];
    DedupRepeatThenNew(e1, e2);
    DedupRepeatThenNew(g1, g2);
    DedupRepeatThenNew(s1, s2);
    assert NodeNames(d) == names;
    var nodes := NodesFrom(names);
    DistinctNamesIndexed(names);
    RollupRepeatThenNew((e1, g1), (e2, g2));
    LinksOfTwo(nodes, Entry(e1, g1, 2), Entry(e2, g2, 1));
    RollupRepeatThenNew((g1, s1), (g2, s2));
    LinksOfTwo(nodes, Entry(g1, s1, 2), Entry(g2, s2, 1));
  }

  lemma DistinctNamesIndexed(names: seq<string>)
    requires forall i, j :: 0 <= i < j < |names| ==> names[i] != names[j]
    ensures forall k :: 0 <= k < |names| ==> NodeIndex(NodesFrom(names), names[k]) == k
  {
    var nodes := NodesFrom(names);
    forall k | 0 <= k < |names| ensures NodeIndex(nodes, names[k]) == k {
      assert nodes[k].name == names[k];
    }
  }

  lemma LinksOfTwo(nodes: seq<Node>, x: Entry, y: Entry)
    ensures LinksOf(nodes, [x, y]) == [LinkOf(nodes, x), LinkOf(nodes, y)]
  {
  }

  /**
    Two identical records and a third that differs in every column give six
    nodes and two links per flow, the repeated path weighing 2.
   */
  lemma RepeatedPathGraph(r1: Record, r2: Record)
    requires var names := [Label(r1, ExperienceLevel), Label(r2, ExperienceLevel), Label(r1, JobGroup),
                           Label(r2, JobGroup), Label(r1, CompanySize), Label(r2, CompanySize)];
      forall i, j :: 0 <= i < j < 6 ==> names[i] != names[j]
    ensures Nodes([r1, r1, r2]) == NodesFrom([Label(r1, ExperienceLevel), Label(r2, ExperienceLevel), Label(r1, JobGroup),
                                             Label(r2, JobGroup), Label(r1, CompanySize), Label(r2, CompanySize)])
    ensures LinksOf(Nodes([r1, r1, r2]), FlowEntries([r1, r1, r2], ExperienceLevel, JobGroup)) == [Link(0, 2, 2), Link(1, 3, 1)]
    ensures LinksOf(Nodes([r1, r1, r2]), FlowEntries([r1, r1, r2], JobGroup, CompanySize)) == [Link(2, 4, 2), Link(3, 5, 1)]
  {
    LabelsOfThree(r1, r1, r2, ExperienceLevel);
    LabelsOfThree(r1, r1, r2, JobGroup);
    LabelsOfThree(r1, r1, r2, CompanySize);
    PairsOfThree(r1, r1, r2, ExperienceLevel, JobGroup);
    PairsOfThree(r1, r1, r2, JobGroup, CompanySize);
    RepeatedPathCore([r1, r1, r2], Label(r1, ExperienceLevel), Label(r2, ExperienceLevel), Label(r1, JobGroup),
                     Label(r2, JobGroup), Label(r1, CompanySize), Label(r2, CompanySize));
  }

  const ExampleNames: seq<string> := ["EN", "SE", "Scientist", "Engineer", "S", "M"]

  lemma ExampleNamesDistinct()
    ensures forall i, j :: 0 <= i < j < |ExampleNames| ==> ExampleNames[i] != ExampleNames[j]
    ensures NodesFrom(ExampleNames) == [Node("EN"), Node("SE"), Node("Scientist"), Node("Engineer"), Node("S"), Node("M")]
  {
  }

  lemma ExampleLabels(scientist: Record, engineer: Record)
    requires scientist == Record("EN", "S", "Data Scientist")
    requires engineer == Record("SE", "M", "Data Engineer")
    ensures [Label(scientist, ExperienceLevel), Label(engineer, ExperienceLevel), Label(scientist, JobGroup),
             Label(engineer, JobGroup), Label(scientist, CompanySize), Label(engineer, CompanySize)] == ExampleNames
  {
    ClassifierListedExample();
    ListedTitleMapsToItsGroup(0, "Data Engineer");
  }

  /**
    Two entry-level data scientists at small companies and one senior data
    engineer at a medium one.
   */
  lemma ExampleGraph(scientist: Record, engineer: Record)
    requires scientist == Record("EN", "S", "Data Scientist")
    requires engineer == Record("SE", "M", "Data Engineer")
    ensures Nodes([scientist, scientist, engineer])
         == [Node("EN"), Node("SE"), Node("Scientist"), Node("Engineer"), Node("S"), Node("M")]
    ensures LinksOf(Nodes([scientist, scientist, engineer]), FlowEntries([scientist, scientist, engineer], ExperienceLevel, JobGroup))
         == [Link(0, 2, 2), Link(1, 3, 1)]
    ensures LinksOf(Nodes([scientist, scientist, engineer]), FlowEntries([scientist, scientist, engineer], JobGroup, CompanySize))
         == [Link(2, 4, 2), Link(3, 5, 1)]
  {
    ExampleNamesDistinct();
    ExampleLabels(scientist, engineer);
    RepeatedPathGraph(scientist, engineer);
  }
}
