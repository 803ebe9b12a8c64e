/** Links (the edges of the knowledge map): lane assignment for parallel links,
    link ids, the adjacency lists, and the path of a link drawn with its lane's
    perpendicular offset. */
module Links {
  import opened Seqs
  import opened Geometry
  import opened Topics

  /** A link as written in the data file. */
  datatype RawLink = RawLink(source: TopicId, target: TopicId)

  /** A link after lane assignment: the laneIndex-th of laneCount links joining the same pair. */
  datatype Link = Link(id: string, source: TopicId, target: TopicId, laneIndex: nat, laneCount: nat)

  // ---------------------------------------------------------------- strings

  /** The default `Array.prototype.sort` order on strings: lexicographic by character code. */
  predicate StrLess(a: string, b: string) {
    if a == [] then b != []
    else if b == [] then false
    else if a[0] != b[0] then a[0] < b[0]
    else StrLess(a[1..], b[1..])
  }

  lemma {:induction false} StrLessTotal(a: string, b: string)
    ensures !(StrLess(a, b) && StrLess(b, a))
    ensures a != b ==> StrLess(a, b) || StrLess(b, a)
  {
    if a != [] && b != [] && a[0] == b[0] {
      StrLessTotal(a[1..], b[1..]);
      if a != b {
        assert a == [a[0]] + a[1..] && b == [b[0]] + b[1..];
      }
    }
  }

  /** `[s, t].sort()`: the two ends in ascending order. */
  function Sort2(s: string, t: string): (r: (string, string))
    ensures (r.0 == s && r.1 == t) || (r.0 == t && r.1 == s)
    ensures !StrLess(r.1, r.0)
  {
    StrLessTotal(s, t);
    if StrLess(t, s) then (t, s) else (s, t)
  }

  function DigitChar(d: nat): (c: char)
    requires d < 10
    ensures '0' <= c <= '9'
  {
    ('0' as int + d) as char
  }

  /** The decimal text of n, as in a template literal. */
  function NatToString(n: nat): (s: string)
    ensures |s| >= 1
    ensures n >= 10 ==> |s| >= 2
    ensures forall i :: 0 <= i < |s| ==> '0' <= s[i] <= '9'
  {
    if n < 10 then [DigitChar(n)] else NatToString(n / 10) + [DigitChar(n % 10)]
  }

  lemma {:induction false} NatToStringInjective(a: nat, b: nat)
    requires NatToString(a) == NatToString(b)
    ensures a == b
  {
    if a >= 10 && b >= 10 {
      var sa := NatToString(a);
      assert sa[..|sa| - 1] == NatToString(a / 10);
      assert NatToString(b)[..|sa| - 1] == NatToString(b / 10);
      NatToStringInjective(a / 10, b / 10);
      assert DigitChar(a % 10) == DigitChar(b % 10);
    }
  }

  /** The link id `${source}-${target}-${rawIndex}`. */
  function LinkId(r: RawLink, rawIndex: nat): string {
    r.source + "-" + r.target + "-" + NatToString(rawIndex)
  }

  /** What follows the last '-' of s (all of s when it has none). */
  function AfterLastDash(s: string): string {
    if s == [] then []
    else if s[|s| - 1] == '-' then []
    else AfterLastDash(s[..|s| - 1]) + [s[|s| - 1]]
  }

  lemma {:induction false} AfterLastDashOf(p: string, d: string)
    requires |p| > 0 && p[|p| - 1] == '-'
    requires forall i :: 0 <= i < |d| ==> d[i] != '-'
    ensures AfterLastDash(p + d) == d
  {
    if d != [] {
      var init := d[..|d| - 1];
      assert (p + d)[..|p + d| - 1] == p + init;
      AfterLastDashOf(p, init);
      assert d == init + [d[|d| - 1]];
    } else {
      assert p + d == p;
    }
  }

  /** Links at different raw positions get different ids, whatever their ends. */
  lemma LinkIdsDistinct(a: RawLink, i: nat, b: RawLink, j: nat)
    requires i != j
    ensures LinkId(a, i) != LinkId(b, j)
  {
    if LinkId(a, i) == LinkId(b, j) {
      var p := a.source + "-" + a.target + "-";
      var q := b.source + "-" + b.target + "-";
      assert LinkId(a, i) == p + NatToString(i);
      assert LinkId(b, j) == q + NatToString(j);
      AfterLastDashOf(p, NatToString(i));
      AfterLastDashOf(q, NatToString(j));
      NatToStringInjective(i, j);
    }
  }

  // ---------------------------------------------------------------- lane assignment

  /** The grouping key as written: `[source, target].sort().join("__")`. */
  function JoinedPairKey(l: RawLink): string {
    var ends := Sort2(l.source, l.target);
    ends.0 + "__" + ends.1
  }

  /** The grouping key the lanes need: the unordered pair of ends itself. */
  function PairKey(l: RawLink): (string, string) {
    Sort2(l.source, l.target)
  }

  /** Two links share a `PairKey` exactly when they join the same two topics, in either direction. */
  lemma PairKeySameIffSamePair(a: RawLink, b: RawLink)
    ensures PairKey(a) == PairKey(b) <==>
      (a.source == b.source && a.target == b.target) || (a.source == b.target && a.target == b.source)
  {
    StrLessTotal(a.source, a.target);
    StrLessTotal(b.source, b.target);
  }

  /** The joined key merges two different pairs: "a__b"/"c" and "a"/"b__c" both give "a__b__c". */
  lemma JoinedPairKeyCollides()
    ensures JoinedPairKey(RawLink("a__b", "c")) == JoinedPairKey(RawLink("a", "b__c"))
    ensures PairKey(RawLink("a__b", "c")) != PairKey(RawLink("a", "b__c"))
  {
    assert StrLess("a__b", "c");
    assert StrLess("a", "b__c");
    assert Sort2("a__b", "c") == ("a__b", "c");
    assert Sort2("a", "b__c") == ("a", "b__c");
  }

  /** How many links of raw have group key k. */
  function CountKey<K(==)>(raw: seq<RawLink>, key: RawLink -> K, k: K): nat {
    if raw == [] then 0 else CountKey(raw[..|raw| - 1], key, k) + (if key(raw[|raw| - 1]) == k then 1 else 0)
  }

  /** The raw indices of the links with group key k, ascending: the group `groups.get(k)`. */
  function KeyIndices<K(==)>(raw: seq<RawLink>, key: RawLink -> K, k: K): seq<nat> {
    if raw == [] then [] else KeyIndices(raw[..|raw| - 1], key, k) + (if key(raw[|raw| - 1]) == k then [|raw| - 1] else [])
  }

  /** The i-th output link: the lane is the number of earlier links in its group, the
      count the size of its group. */
  function LaneLink<K(==)>(raw: seq<RawLink>, key: RawLink -> K, i: nat): Link
    requires i < |raw|
  {
    Link(LinkId(raw[i], i), raw[i].source, raw[i].target,
      CountKey(raw[..i], key, key(raw[i])), CountKey(raw, key, key(raw[i])))
  }

  function Lanes<K(==)>(raw: seq<RawLink>, key: RawLink -> K): seq<Link> {
    seq(|raw|, i requires 0 <= i < |raw| => LaneLink(raw, key, i))
  }

  /** A group lists its members in raw order, each one where its lane says, and nothing else. */
  lemma {:induction false} KeyIndicesSpec<K>(raw: seq<RawLink>, key: RawLink -> K, k: K)
    ensures |KeyIndices(raw, key, k)| == CountKey(raw, key, k)
    ensures forall j :: 0 <= j < |KeyIndices(raw, key, k)| ==>
      KeyIndices(raw, key, k)[j] < |raw| && key(raw[KeyIndices(raw, key, k)[j]]) == k &&
      CountKey(raw[..KeyIndices(raw, key, k)[j]], key, k) == j
    ensures forall i :: 0 <= i < |raw| && key(raw[i]) == k ==> i in KeyIndices(raw, key, k)
    ensures forall j1, j2 :: 0 <= j1 < j2 < |KeyIndices(raw, key, k)| ==>
      KeyIndices(raw, key, k)[j1] < KeyIndices(raw, key, k)[j2]
  {
    if raw != [] {
      var init := raw[..|raw| - 1];
      KeyIndicesSpec(init, key, k);
      var ks := KeyIndices(init, key, k);
      forall j | 0 <= j < |ks| ensures raw[..ks[j]] == init[..ks[j]] && raw[ks[j]] == init[ks[j]] {
      }
      if key(raw[|raw| - 1]) == k {
        assert raw[..|raw| - 1] == init;
      }
      forall i | 0 <= i < |raw| - 1 && key(raw[i]) == k ensures i in KeyIndices(raw, key, k) {
        assert init[i] == raw[i];
      }
    }
  }

  /** Lanes inside one group are distinct and in raw order, and lie in 0..laneCount-1. */
  lemma LanesWithinGroup<K>(raw: seq<RawLink>, key: RawLink -> K, i: nat, j: nat)
    requires i < j < |raw| && key(raw[i]) == key(raw[j])
    ensures LaneLink(raw, key, i).laneIndex < LaneLink(raw, key, j).laneIndex < LaneLink(raw, key, j).laneCount
    ensures LaneLink(raw, key, i).laneCount == LaneLink(raw, key, j).laneCount
  {
    var k := key(raw[i]);
    KeyIndicesSpec(raw, key, k);
    var ks := KeyIndices(raw, key, k);
    var a :| 0 <= a < |ks| && ks[a] == i;
    var b :| 0 <= b < |ks| && ks[b] == j;
  }

  /** Every output link is within its lane count. */
  lemma LaneBelowCount<K>(raw: seq<RawLink>, key: RawLink -> K, i: nat)
    requires i < |raw|
    ensures LaneLink(raw, key, i).laneIndex < LaneLink(raw, key, i).laneCount
  {
    var k := key(raw[i]);
    KeyIndicesSpec(raw, key, k);
    var ks := KeyIndices(raw, key, k);
    var a :| 0 <= a < |ks| && ks[a] == i;
  }

  /** A group of the `groups` map, empty when its key has not been seen. */
  function GroupOf<K(==)>(groups: map<K, seq<nat>>, k: K): seq<nat> {
    if k in groups then groups[k] else []
  }

  /** The first pass of `laneifyLinks`: `groups.get(pairKey).push(...)` for each raw link,
      creating the group on first sight; `keys` is the Map's insertion order. */
  method GroupByKey<K(==)>(raw: seq<RawLink>, key: RawLink -> K) returns (groups: map<K, seq<nat>>, keys: seq<K>)
    ensures NoDup(keys)
    ensures forall k :: k in groups <==> k in keys
    ensures forall k :: GroupOf(groups, k) == KeyIndices(raw, key, k)
    ensures forall i :: 0 <= i < |raw| ==> key(raw[i]) in groups
  {
    groups := map[];
    keys := [];
    for i := 0 to |raw|
      invariant NoDup(keys)
      invariant forall k :: k in groups <==> k in keys
      invariant forall k :: GroupOf(groups, k) == KeyIndices(raw[..i], key, k)
    {
      assert raw[..i + 1][..i] == raw[..i];
      var k := key(raw[i]);
      ghost var before := groups;
      if k !in groups {
        groups := groups[k := []];
        keys := keys + [k];
      }
      groups := groups[k := groups[k] + [i]];
      forall k' ensures GroupOf(groups, k') == KeyIndices(raw[..i + 1], key, k') {
        assert GroupOf(groups, k') == GroupOf(before, k') + (if k' == k then [i] else []);
      }
    }
    assert raw[..|raw|] == raw;
    forall i | 0 <= i < |raw| ensures key(raw[i]) in groups {
      KeyIndicesSpec(raw, key, key(raw[i]));
      assert i in GroupOf(groups, key(raw[i]));
    }
  }

  /** `linksForPair.forEach((link, laneIndex) => ordered.push(...))` for the group with key
      k, each entry written at its raw index. */
  method FillGroup<K(==)>(out: array<Link>, raw: seq<RawLink>, key: RawLink -> K, k: K, members: seq<nat>)
    requires out.Length == |raw| && members == KeyIndices(raw, key, k)
    modifies out
    ensures forall i :: 0 <= i < |raw| && key(raw[i]) == k ==> out[i] == LaneLink(raw, key, i)
    ensures forall i :: 0 <= i < |raw| && key(raw[i]) != k ==> out[i] == old(out[i])
  {
    KeyIndicesSpec(raw, key, k);
    for j := 0 to |members|
      invariant forall jj :: 0 <= jj < j ==> out[members[jj]] == LaneLink(raw, key, members[jj])
      invariant forall i :: 0 <= i < |raw| && key(raw[i]) != k ==> out[i] == old(out[i])
    {
      var idx := members[j];
      out[idx] := Link(LinkId(raw[idx], idx), raw[idx].source, raw[idx].target, j, |members|);
    }
    forall i | 0 <= i < |raw| && key(raw[i]) == k ensures out[i] == LaneLink(raw, key, i) {
      var jj :| 0 <= jj < |members| && members[jj] == i;
    }
  }

  /** `laneifyLinks` with a given group key: group the links by key in first-seen order,
      number each group's members in raw order (the `rawIndex` sort of a group, which
      is already in that order), then order the output by `rawIndex`. Since the raw
      indices are 0..n-1, that last sort places each entry at its raw index. */
  method LaneifyLinksBy<K(==)>(raw: seq<RawLink>, key: RawLink -> K) returns (links: seq<Link>)
    ensures links == Lanes(raw, key)
    ensures |links| == |raw|
    ensures forall i :: 0 <= i < |raw| ==>
      links[i].source == raw[i].source && links[i].target == raw[i].target &&
      links[i].id == LinkId(raw[i], i) && links[i].laneIndex < links[i].laneCount
  {
    var groups, keys := GroupByKey(raw, key);
    var out := new Link[|raw|](_ => Link("", "", "", 0, 0));
    for g := 0 to |keys|
      invariant forall i :: 0 <= i < |raw| && key(raw[i]) in keys[..g] ==> out[i] == LaneLink(raw, key, i)
    {
      assert keys[g] !in keys[..g];
      assert groups[keys[g]] == GroupOf(groups, keys[g]);
      FillGroup(out, raw, key, keys[g], groups[keys[g]]);
      assert keys[..g + 1] == keys[..g] + [keys[g]];
    }
    assert keys[..|keys|] == keys;
    links := out[..];
    forall i | 0 <= i < |raw| ensures links[i].laneIndex < links[i].laneCount {
      LaneBelowCount(raw, key, i);
    }
  }

  /** `laneifyLinks` (and the inline copy in the component), grouping by unordered pair. */
  method LaneifyLinks(raw: seq<RawLink>) returns (links: seq<Link>)
    ensures links == Lanes(raw, PairKey)
    ensures |links| == |raw|
    ensures forall i, j :: 0 <= i < j < |links| ==> links[i].id != links[j].id
    ensures forall i, j :: 0 <= i < j < |links| && links[i].source == links[j].target && links[i].target == links[j].source ==>
      links[i].laneIndex < links[j].laneIndex && links[i].laneCount == links[j].laneCount
  {
    links := LaneifyLinksBy(raw, PairKey);
    forall i, j | 0 <= i < j < |links| ensures links[i].id != links[j].id {
      LinkIdsDistinct(raw[i], i, raw[j], j);
    }
    forall i, j | 0 <= i < j < |links| && links[i].source == links[j].target && links[i].target == links[j].source
      ensures links[i].laneIndex < links[j].laneIndex && links[i].laneCount == links[j].laneCount
    {
      PairKeySameIffSamePair(raw[i], raw[j]);
      LanesWithinGroup(raw, PairKey, i, j);
    }
  }

  /** Links joining the same pair in the same direction also share a group. */
  lemma SameDirectionSameGroup(raw: seq<RawLink>, i: nat, j: nat)
    requires i < j < |raw| && raw[i] == raw[j]
    ensures Lanes(raw, PairKey)[i].laneIndex < Lanes(raw, PairKey)[j].laneIndex
    ensures Lanes(raw, PairKey)[i].laneCount == Lanes(raw, PairKey)[j].laneCount
  {
    LanesWithinGroup(raw, PairKey, i, j);
  }

  /** With the joined key, two links with different ends are put into lanes of one group. */
  lemma JoinedKeyMergesLanes()
    ensures Lanes([RawLink("a__b", "c"), RawLink("a", "b__c")], JoinedPairKey)[1].laneIndex == 1
    ensures Lanes([RawLink("a__b", "c"), RawLink("a", "b__c")], PairKey)[1].laneIndex == 0
  {
    var raw := [RawLink("a__b", "c"), RawLink("a", "b__c")];
    JoinedPairKeyCollides();
    assert raw[..1] == [raw[0]];
    assert raw[..1][..0] == [];
  }

  // ---------------------------------------------------------------- buildAdjacency

  /** The links that `buildAdjacency` pushes onto k's list, in order: a link once per end equal to k. */
  function Incident(links: seq<Link>, k: TopicId): seq<Link> {
    if links == [] then []
    else
      var l := links[|links| - 1];
      Incident(links[..|links| - 1], k) + (if l.source == k then [l] else []) + (if l.target == k then [l] else [])
  }

  function Endpoints(links: seq<Link>): set<TopicId> {
    (set l | l in links :: l.source) + (set l | l in links :: l.target)
  }

  /** `if (!a.has(k)) a.set(k, []); a.get(k).push(l)` */
  function Push(adj: map<TopicId, seq<Link>>, k: TopicId, l: Link): map<TopicId, seq<Link>> {
    adj[k := (if k in adj then adj[k] else []) + [l]]
  }

  function AdjacencyOf(links: seq<Link>): map<TopicId, seq<Link>> {
    if links == [] then map[]
    else
      var l := links[|links| - 1];
      Push(Push(AdjacencyOf(links[..|links| - 1]), l.source, l), l.target, l)
  }

  /** k's list in an adjacency map, empty when k is not a key. */
  function ListOf(adj: map<TopicId, seq<Link>>, k: TopicId): seq<Link> {
    if k in adj then adj[k] else []
  }

  /** Every list holds exactly the links incident to its node, in input order, a link
      once per end (so a self-loop twice); a node is a key iff its list is non-empty. */
  lemma {:induction false} AdjacencyIsIncident(links: seq<Link>)
    ensures forall k :: ListOf(AdjacencyOf(links), k) == Incident(links, k)
    ensures forall k :: k in AdjacencyOf(links) <==> Incident(links, k) != []
  {
    if links != [] {
      var init := links[..|links| - 1];
      var l := links[|links| - 1];
      AdjacencyIsIncident(init);
      var a := AdjacencyOf(init);
      var b := Push(a, l.source, l);
      forall k ensures ListOf(b, k) == ListOf(a, k) + (if l.source == k then [l] else []) {
      }
      forall k ensures ListOf(Push(b, l.target, l), k) == ListOf(b, k) + (if l.target == k then [l] else []) {
      }
    }
  }

  /** The keys are exactly the ends of the links. */
  lemma AdjacencyKeys(links: seq<Link>)
    ensures AdjacencyOf(links).Keys == Endpoints(links)
  {
    AdjacencyIsIncident(links);
    forall k ensures k in AdjacencyOf(links) <==> k in Endpoints(links) {
      if k in Endpoints(links) {
        var l :| l in links && (l.source == k || l.target == k);
        InIncident(links, k, l);
      } else if Incident(links, k) != [] {
        InIncident(links, k, Incident(links, k)[0]);
      }
    }
  }

  /** How often l occurs in k's list: once for each of its ends that is k, so a self-loop twice. */
  lemma {:induction false} IncidentCount(links: seq<Link>, k: TopicId, l: Link)
    ensures Count(Incident(links, k), l) ==
      (if l.source == k then Count(links, l) else 0) + (if l.target == k then Count(links, l) else 0)
  {
    if links != [] {
      var init := links[..|links| - 1];
      var last := links[|links| - 1];
      IncidentCount(init, k, l);
      assert links == init + [last];
      CountAppend(init, [last], l);
      var fromSource := if last.source == k then [last] else [];
      var fromTarget := if last.target == k then [last] else [];
      CountAppend(Incident(init, k), fromSource, l);
      CountAppend(Incident(init, k) + fromSource, fromTarget, l);
    }
  }

  /** Sum of the list lengths over the keys ks (a missing key counts 0). */
  function TotalLength(adj: map<TopicId, seq<Link>>, ks: seq<TopicId>): nat {
    if ks == [] then 0 else (if ks[0] in adj then |adj[ks[0]]| else 0) + TotalLength(adj, ks[1..])
  }

  lemma {:induction false} TotalLengthPush(adj: map<TopicId, seq<Link>>, ks: seq<TopicId>, k: TopicId, l: Link)
    requires NoDup(ks)
    ensures TotalLength(Push(adj, k, l), ks) == TotalLength(adj, ks) + (if k in ks then 1 else 0)
  {
    if ks != [] {
      TotalLengthPush(adj, ks[1..], k, l);
      assert ks[0] == k ==> k !in ks[1..];
      assert k in ks <==> k == ks[0] || k in ks[1..];
    }
  }

  /** Over any duplicate-free listing of the ends, the lists hold 2 * |links| entries. */
  lemma {:induction false} AdjacencyTotal(links: seq<Link>, ks: seq<TopicId>)
    requires NoDup(ks) && Endpoints(links) <= Elems(ks)
    ensures TotalLength(AdjacencyOf(links), ks) == 2 * |links|
  {
    if links == [] {
      TotalLengthEmpty(ks);
    } else {
      var init := links[..|links| - 1];
      var l := links[|links| - 1];
      assert links == init + [l];
      assert Endpoints(init) <= Endpoints(links);
      AdjacencyTotal(init, ks);
      assert l.source in Endpoints(links) && l.target in Endpoints(links);
      TotalLengthPush(AdjacencyOf(init), ks, l.source, l);
      TotalLengthPush(Push(AdjacencyOf(init), l.source, l), ks, l.target, l);
    }
  }

  lemma {:induction false} TotalLengthEmpty(ks: seq<TopicId>)
    ensures TotalLength(map[], ks) == 0
  {
    if ks != [] { TotalLengthEmpty(ks[1..]); }
  }

  /** Every link listed under a node is listed under both of its ends. */
  predicate AdjacencyClosed(adj: map<TopicId, seq<Link>>) {
    forall k, l :: k in adj && l in adj[k] ==>
      l.source in adj && l in adj[l.source] && l.target in adj && l in adj[l.target]
  }

  lemma {:induction false} InIncident(links: seq<Link>, k: TopicId, l: Link)
    ensures l in Incident(links, k) <==> l in links && (l.source == k || l.target == k)
  {
    if links != [] {
      InIncident(links[..|links| - 1], k, l);
      assert links == links[..|links| - 1] + [links[|links| - 1]];
    }
  }

  lemma AdjacencyOfClosed(links: seq<Link>)
    ensures AdjacencyClosed(AdjacencyOf(links))
  {
    AdjacencyIsIncident(links);
    var adj := AdjacencyOf(links);
    forall k: TopicId, l: Link | k in adj && l in adj[k]
      ensures l.source in adj && l in adj[l.source] && l.target in adj && l in adj[l.target]
    {
      assert ListOf(adj, k) == adj[k];
      InIncident(links, k, l);
      InIncident(links, l.source, l);
      InIncident(links, l.target, l);
      assert l in Incident(links, l.source) && l in Incident(links, l.target);
    }
  }

  /** `buildAdjacency` */
  method BuildAdjacency(links: seq<Link>) returns (adj: map<TopicId, seq<Link>>)
    ensures adj == AdjacencyOf(links)
    ensures adj.Keys == Endpoints(links)
    ensures forall k :: k in adj ==> adj[k] == Incident(links, k)
    ensures AdjacencyClosed(adj)
  {
    adj := map[];
    for i := 0 to |links|
      invariant adj == AdjacencyOf(links[..i])
    {
      assert links[..i + 1][..i] == links[..i];
      var l := links[i];
      if l.source !in adj { adj := adj[l.source := []]; }
      if l.target !in adj { adj := adj[l.target := []]; }
      adj := adj[l.source := adj[l.source] + [l]];
      adj := adj[l.target := adj[l.target] + [l]];
    }
    assert links[..|links|] == links;
    AdjacencyIsIncident(links);
    AdjacencyKeys(links);
    AdjacencyOfClosed(links);
  }

  // ---------------------------------------------------------------- computeLinkPath / computePaths

  /** The drawn segment of a link, in the SVG frame (world shifted by CANVAS_EXTENT). */
  datatype Segment = Segment(start: Point, end: Point)

  /** `baseOffset`: lanes are 18 units apart, centred on the straight line. */
  function BaseOffset(laneIndex: nat, laneCount: nat): (r: real)
    ensures laneCount <= 1 ==> r == 0.0
  {
    if laneCount > 1 then (laneIndex as real - (laneCount as real - 1.0) / 2.0) * 18.0 else 0.0
  }

  /** Mirror lanes lie on opposite sides, at the same distance. */
  lemma BaseOffsetMirror(i: nat, c: nat)
    requires i < c
    ensures BaseOffset(c - 1 - i, c) == -BaseOffset(i, c)
  {
  }

  function ToSvg(p: Point): Point {
    Point(p.x + CANVAS_EXTENT, p.y + CANVAS_EXTENT)
  }

  /** `computeLinkPath(link, lookup, { laneSpacing, wiggle })`; the graph-utility version is
      laneSpacing 1 and wiggle 0. Null when either end is not in the lookup. */
  function LinkPath(link: Link, lookup: map<TopicId, Topic>, h: Hypot, laneSpacing: real, wiggle: real): (r: Option<Segment>)
    requires IsHypot(h)
    ensures r.None? <==> link.source !in lookup || link.target !in lookup
  {
    if link.source !in lookup || link.target !in lookup then None
    else
      var p1 := ToSvg(lookup[link.source].position);
      var p2 := ToSvg(lookup[link.target].position);
      var dx := p2.x - p1.x;
      var dy := p2.y - p1.y;
      var distance := DistanceOrOne(h, dx, dy);
      var normalX := -dy / distance;
      var normalY := dx / distance;
      var laneOffset := BaseOffset(link.laneIndex, link.laneCount) * laneSpacing + wiggle;
      Some(Segment(
        Point(p1.x + normalX * laneOffset, p1.y + normalY * laneOffset),
        Point(p2.x + normalX * laneOffset, p2.y + normalY * laneOffset)))
  }

  /** The normal (-dy, dx) scaled by k has |k| times the length of (dx, dy). */
  lemma ScaledNormal(h: Hypot, dx: real, dy: real, k: real, ox: real, oy: real)
    requires IsHypot(h) && ox == -dy * k && oy == dx * k
    ensures h(ox, oy) == Abs(k) * h(dx, dy)
  {
    var mdx := -dx;
    var mdy := -dy;
    HypotRotate(h, dx, dy);
    HypotRotate(h, mdx, mdy);
    if k >= 0.0 {
      HypotScale(h, k, mdy, dx);
      assert ox == k * mdy && oy == k * dx;
    } else {
      var m := -k;
      HypotScale(h, m, dy, mdx);
      assert ox == m * dy && oy == m * mdx;
    }
  }

  /** Moving by the unit normal (-dy, dx)/d scaled by off is perpendicular to (dx, dy), has
      length |off| when (dx, dy) is not zero, and is no move at all when it is. */
  lemma NormalOffset(h: Hypot, dx: real, dy: real, off: real, ox: real, oy: real)
    requires IsHypot(h)
    requires ox == -dy / DistanceOrOne(h, dx, dy) * off && oy == dx / DistanceOrOne(h, dx, dy) * off
    ensures ox * dx + oy * dy == 0.0
    ensures (dx, dy) != (0.0, 0.0) ==> h(ox, oy) == Abs(off)
    ensures (dx, dy) == (0.0, 0.0) ==> ox == 0.0 && oy == 0.0
  {
    var d := DistanceOrOne(h, dx, dy);
    var k := off / d;
    DivThenScale(-dy, d, off);
    DivThenScale(dx, d, off);
    NormalPerpendicular(dx, dy, k, ox, oy);
    ScaledNormal(h, dx, dy, k, ox, oy);
    if (dx, dy) != (0.0, 0.0) {
      HypotZeroIff(h, dx, dy);
      AbsOfQuotient(off, d, k);
    }
  }

  lemma DivThenScale(a: real, d: real, p: real)
    requires d != 0.0
    ensures a / d * p == a * (p / d)
  {
  }

  /** (-dy, dx) * k is perpendicular to (dx, dy). */
  lemma NormalPerpendicular(dx: real, dy: real, k: real, ox: real, oy: real)
    requires ox == -dy * k && oy == dx * k
    ensures ox * dx + oy * dy == 0.0
  {
  }

  lemma AbsOfQuotient(off: real, d: real, k: real)
    requires d > 0.0 && k == off / d
    ensures Abs(k) * d == Abs(off)
  {
    assert k * d == off;
    if off >= 0.0 {
      assert k >= 0.0;
    } else {
      assert k < 0.0;
    }
  }

  /** The drawn segment is the centre line moved sideways: perpendicular to the link, by
      exactly |laneOffset| when the ends differ, and not at all when they coincide. */
  lemma LinkPathOffset(link: Link, lookup: map<TopicId, Topic>, h: Hypot, laneSpacing: real, wiggle: real)
    requires IsHypot(h) && link.source in lookup && link.target in lookup
    ensures
      var seg := LinkPath(link, lookup, h, laneSpacing, wiggle).value;
      var p1 := ToSvg(lookup[link.source].position);
      var p2 := ToSvg(lookup[link.target].position);
      var ox := seg.start.x - p1.x;
      var oy := seg.start.y - p1.y;
      var laneOffset := BaseOffset(link.laneIndex, link.laneCount) * laneSpacing + wiggle;
      seg.end.x - seg.start.x == p2.x - p1.x && seg.end.y - seg.start.y == p2.y - p1.y &&
      ox * (p2.x - p1.x) + oy * (p2.y - p1.y) == 0.0 &&
      (p1 != p2 ==> h(ox, oy) == Abs(laneOffset)) &&
      (p1 == p2 ==> ox == 0.0 && oy == 0.0)
  {
    var seg := LinkPath(link, lookup, h, laneSpacing, wiggle).value;
    var p1 := ToSvg(lookup[link.source].position);
    var p2 := ToSvg(lookup[link.target].position);
    var dx := p2.x - p1.x;
    var dy := p2.y - p1.y;
    var off := BaseOffset(link.laneIndex, link.laneCount) * laneSpacing + wiggle;
    var ox := seg.start.x - p1.x;
    var oy := seg.start.y - p1.y;
    NormalOffset(h, dx, dy, off, ox, oy);
    assert p1 == p2 <==> (dx, dy) == (0.0, 0.0);
  }

  /** A link with its drawn segment. */
  datatype PathedLink = PathedLink(link: Link, segment: Segment)

  predicate Resolves(l: Link, lookup: map<TopicId, Topic>) {
    l.source in lookup && l.target in lookup
  }

  function LinksOf(ps: seq<PathedLink>): (r: seq<Link>)
    ensures |r| == |ps| && forall i :: 0 <= i < |ps| ==> r[i] == ps[i].link
  {
    if ps == [] then [] else [ps[0].link] + LinksOf(ps[1..])
  }

  /** The map-then-filter of `computePaths` over a lookup. */
  function PathsOver(links: seq<Link>, lookup: map<TopicId, Topic>, h: Hypot, laneSpacing: real): (r: seq<PathedLink>)
    requires IsHypot(h)
    ensures IsSubseq(LinksOf(r), links)
    ensures forall l :: l in LinksOf(r) <==> l in links && Resolves(l, lookup)
    ensures forall l :: Count(LinksOf(r), l) == (if Resolves(l, lookup) then Count(links, l) else 0)
    ensures forall i :: 0 <= i < |r| ==> LinkPath(r[i].link, lookup, h, laneSpacing, 0.0) == Some(r[i].segment)
  {
    if links == [] then []
    else
      var rest := PathsOver(links[1..], lookup, h, laneSpacing);
      var path := LinkPath(links[0], lookup, h, laneSpacing, 0.0);
      assert links == [links[0]] + links[1..];
      CountCons(links[0], links[1..]);
      if path.Some? then
        assert LinksOf([PathedLink(links[0], path.value)] + rest) == [links[0]] + LinksOf(rest);
        CountCons(links[0], LinksOf(rest));
        [PathedLink(links[0], path.value)] + rest
      else
        assert IsSubseq(LinksOf(rest), links) by { SubseqOfTail(LinksOf(rest), links); }
        rest
  }

  /** Occurrences in a sequence with one more element in front. */
  lemma CountCons(x: Link, s: seq<Link>)
    ensures forall y :: Count([x] + s, y) == (if x == y then 1 else 0) + Count(s, y)
  {
    forall y ensures Count([x] + s, y) == (if x == y then 1 else 0) + Count(s, y) {
      CountAppend([x], s, y);
      assert [x][..0] == [];
    }
  }

  /** A subsequence of the tail is a subsequence of the whole. */
  lemma {:induction false} SubseqOfTail(a: seq<Link>, b: seq<Link>)
    requires b != [] && IsSubseq(a, b[1..])
    ensures IsSubseq(a, b)
    decreases |b|, 0
  {
    if a != [] && a[0] == b[0] {
      SubseqDropHead(a, b[1..]);
    }
  }

  lemma {:induction false} SubseqDropHead(a: seq<Link>, c: seq<Link>)
    requires a != [] && IsSubseq(a, c)
    ensures IsSubseq(a[1..], c)
    decreases |c|, 1
  {
    if a[1..] != [] {
      if a[0] == c[0] {
        SubseqOfTail(a[1..], c);
      } else {
        SubseqDropHead(a, c[1..]);
        SubseqOfTail(a[1..], c);
      }
    }
  }

  /** `computePaths(topics, links, laneSpacing)`: the links whose ends both resolve, in
      order, each with its path. */
  function ComputePaths(topics: seq<Topic>, links: seq<Link>, h: Hypot, laneSpacing: real): (r: seq<PathedLink>)
    requires IsHypot(h)
    ensures IsSubseq(LinksOf(r), links)
    ensures forall l :: l in LinksOf(r) <==> l in links && l.source in Ids(topics) && l.target in Ids(topics)
    ensures forall l :: Count(LinksOf(r), l) == (if l.source in Ids(topics) && l.target in Ids(topics) then Count(links, l) else 0)
  {
    IndexOfLastOccurrence(topics);
    LookupAgreesWithIndex(topics);
    PathsOver(links, LookupOf(topics), h, laneSpacing)
  }
}
