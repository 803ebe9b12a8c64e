/** Topics (the nodes of the knowledge map): normalisation of the raw records,
    the id hash that phases the idle animation, and the two indices built over
    the topic array, `buildLookup` (id -> topic) and `buildIndex` (id -> position
    in the array). */
module Topics {
  import opened Seqs
  import opened Geometry

  type TopicId = string

  /** `labelText` is the records' `label` field (`label` is a Dafny keyword). */
  datatype Resource = Resource(labelText: string, href: string)
  datatype Detail = Detail(overview: string, deepDives: seq<string>, resources: seq<Resource>)

  /** A normalised topic; `position` is the only field that changes after load. */
  datatype Topic = Topic(id: TopicId, labelText: string, position: Point, anchor: string, detail: Detail)

  /** A raw record as it comes from the data file: every field but the id may be
      missing, and `deepDives`/`resources` are only used when they are arrays. */
  datatype RawField<T> = ArrayValue(items: seq<T>) | NotAnArray
  datatype RawPosition = RawPosition(x: Option<real>, y: Option<real>)
  datatype RawDetail = RawDetail(overview: Option<string>, deepDives: RawField<string>, resources: RawField<Resource>)
  datatype RawTopic = RawTopic(
    id: TopicId, labelText: string, position: Option<RawPosition>, anchor: Option<string>, detail: Option<RawDetail>)

  // ---------------------------------------------------------------- normalizeTopic

  /** `topic.anchor && topic.anchor !== "center"`: a present, non-empty anchor other than "center". */
  predicate CornerAnchored(r: RawTopic) {
    r.anchor.Some? && r.anchor.value != "" && r.anchor.value != "center"
  }

  /** `topic.position?.x ?? 0` */
  function RawX(r: RawTopic): real {
    if r.position.Some? && r.position.value.x.Some? then r.position.value.x.value else 0.0
  }

  /** `topic.position?.y ?? 0` */
  function RawY(r: RawTopic): real {
    if r.position.Some? && r.position.value.y.Some? then r.position.value.y.value else 0.0
  }

  function ArrayOrEmpty<T>(f: RawField<T>): seq<T> {
    if f.ArrayValue? then f.items else []
  }

  /** `normalizeTopic`: corner anchors are moved to the node centre and missing
      detail fields get empty defaults. */
  function Normalize(r: RawTopic): (t: Topic)
    ensures t.id == r.id && t.labelText == r.labelText && t.anchor == "center"
    ensures CornerAnchored(r) <==> t.position == Point(RawX(r) + NODE_RADIUS, RawY(r) + NODE_RADIUS)
    ensures !CornerAnchored(r) <==> t.position == Point(RawX(r), RawY(r))
    ensures r.position.None? && !CornerAnchored(r) ==> t.position == Point(0.0, 0.0)
    ensures r.detail.None? ==> t.detail == Detail("", [], [])
    ensures r.detail.Some? && r.detail.value.overview.None? ==> t.detail.overview == ""
    ensures r.detail.Some? && r.detail.value.overview.Some? ==> t.detail.overview == r.detail.value.overview.value
    ensures r.detail.Some? && r.detail.value.deepDives.NotAnArray? ==> t.detail.deepDives == []
    ensures r.detail.Some? && r.detail.value.deepDives.ArrayValue? ==> t.detail.deepDives == r.detail.value.deepDives.items
    ensures r.detail.Some? && r.detail.value.resources.NotAnArray? ==> t.detail.resources == []
    ensures r.detail.Some? && r.detail.value.resources.ArrayValue? ==> t.detail.resources == r.detail.value.resources.items
  {
    var shift := if CornerAnchored(r) then NODE_RADIUS else 0.0;
    var detail := if r.detail.Some? then r.detail.value else RawDetail(None, NotAnArray, NotAnArray);
    Topic(
      r.id, r.labelText,
      Point(RawX(r) + shift, RawY(r) + shift),
      "center",
      Detail(
        if detail.overview.Some? then detail.overview.value else "",
        ArrayOrEmpty(detail.deepDives),
        ArrayOrEmpty(detail.resources)))
  }

  /** A normalised topic read back as a raw record (the `...topic` spread). */
  function AsRaw(t: Topic): RawTopic {
    RawTopic(
      t.id, t.labelText, Some(RawPosition(Some(t.position.x), Some(t.position.y))), Some(t.anchor),
      Some(RawDetail(Some(t.detail.overview), ArrayValue(t.detail.deepDives), ArrayValue(t.detail.resources))))
  }

  /** The anchor correction is applied once: normalising a normalised topic changes nothing. */
  lemma NormalizeIdempotent(r: RawTopic)
    ensures Normalize(AsRaw(Normalize(r))) == Normalize(r)
  {
  }

  // ---------------------------------------------------------------- computeIdleDelay

  /** The running hash after the characters of s: hash = (hash * 31 + code) % 1024. */
  function IdleHash(s: string): (hash: nat)
    ensures hash < 1024
  {
    if s == [] then 0 else (IdleHash(s[..|s| - 1]) * 31 + s[|s| - 1] as int) % 1024
  }

  /** `computeIdleDelay`: the idle-animation phase of a topic, one of 0.0, 0.1, ..., 0.9. */
  method ComputeIdleDelay(id: string) returns (delay: real)
    ensures delay == (IdleHash(id) % 10) as real / 10.0
    ensures (delay * 10.0).Floor as real == delay * 10.0
    ensures 0.0 <= delay <= 0.9
    ensures id == [] ==> delay == 0.0
  {
    var hash := 0;
    for i := 0 to |id|
      invariant 0 <= hash < 1024
      invariant hash == IdleHash(id[..i])
    {
      assert id[..i + 1][..i] == id[..i];
      hash := (hash * 31 + id[i] as int) % 1024;
    }
    assert id[..|id|] == id;
    var d := hash % 10;
    delay := d as real / 10.0;
  }

  // ---------------------------------------------------------------- buildLookup / buildIndex

  function Ids(ts: seq<Topic>): set<TopicId> {
    set i | 0 <= i < |ts| :: ts[i].id
  }

  predicate DistinctIds(ts: seq<Topic>) {
    forall i, j :: 0 <= i < j < |ts| ==> ts[i].id != ts[j].id
  }

  /** The map that `buildLookup` fills: `m.set(t.id, t)` for each topic in order. */
  function LookupOf(ts: seq<Topic>): map<TopicId, Topic> {
    if ts == [] then map[] else LookupOf(ts[..|ts| - 1])[ts[|ts| - 1].id := ts[|ts| - 1]]
  }

  /** The map that `buildIndex` fills: `m.set(t.id, i)` for each topic in order. */
  function IndexOf(ts: seq<Topic>): map<TopicId, nat> {
    if ts == [] then map[] else IndexOf(ts[..|ts| - 1])[ts[|ts| - 1].id := |ts| - 1]
  }

  /** The index knows exactly the ids of the array. */
  lemma {:induction false} IndexOfKeys(ts: seq<Topic>)
    ensures IndexOf(ts).Keys == Ids(ts)
  {
    if ts != [] {
      var init := ts[..|ts| - 1];
      IndexOfKeys(init);
      assert Ids(ts) == Ids(init) + {ts[|ts| - 1].id} by {
        forall id | id in Ids(ts) ensures id in Ids(init) + {ts[|ts| - 1].id} {
          var i :| 0 <= i < |ts| && ts[i].id == id;
          if i < |ts| - 1 { assert init[i] == ts[i]; }
        }
        forall id | id in Ids(init) ensures id in Ids(ts) {
          var i :| 0 <= i < |init| && init[i].id == id;
          assert ts[i] == init[i];
        }
      }
    }
  }

  /** The index knows exactly the ids of the array, and each id maps to the LAST
      position that carries it (a repeated id is overwritten by later topics). */
  lemma {:induction false} IndexOfLastOccurrence(ts: seq<Topic>)
    ensures IndexOf(ts).Keys == Ids(ts)
    ensures forall id :: id in IndexOf(ts) ==>
      IndexOf(ts)[id] < |ts| && ts[IndexOf(ts)[id]].id == id &&
      forall j :: IndexOf(ts)[id] < j < |ts| ==> ts[j].id != id
  {
    IndexOfKeys(ts);
    if ts != [] {
      var init := ts[..|ts| - 1];
      var last := ts[|ts| - 1];
      IndexOfLastOccurrence(init);
      forall id | id in IndexOf(ts)
        ensures IndexOf(ts)[id] < |ts| && ts[IndexOf(ts)[id]].id == id &&
          forall j :: IndexOf(ts)[id] < j < |ts| ==> ts[j].id != id
      {
        if id != last.id {
          var k := IndexOf(init)[id];
          assert IndexOf(ts)[id] == k && ts[k] == init[k];
          forall j | k < j < |ts| ensures ts[j].id != id {
            if j < |init| { assert ts[j] == init[j]; }
          }
        }
      }
    }
  }

  /** With distinct ids, every topic is found at its own position: `topics[index[id]].id == id`
      and `index[topics[i].id] == i`. */
  lemma IndexOfDistinct(ts: seq<Topic>)
    requires DistinctIds(ts)
    ensures IndexOf(ts).Keys == Ids(ts)
    ensures forall i :: 0 <= i < |ts| ==> ts[i].id in IndexOf(ts) && IndexOf(ts)[ts[i].id] == i
    ensures forall id :: id in IndexOf(ts) ==> IndexOf(ts)[id] < |ts| && ts[IndexOf(ts)[id]].id == id
  {
    IndexOfLastOccurrence(ts);
    forall i | 0 <= i < |ts| ensures ts[i].id in IndexOf(ts) && IndexOf(ts)[ts[i].id] == i {
      assert ts[i].id in Ids(ts);
    }
  }

  /** Whatever the ids, the lookup holds the topic the index points at: lookup[id] == topics[index[id]]. */
  lemma {:induction false} LookupAgreesWithIndex(ts: seq<Topic>)
    ensures LookupOf(ts).Keys == IndexOf(ts).Keys
    ensures forall id :: id in LookupOf(ts) ==> IndexOf(ts)[id] < |ts| && LookupOf(ts)[id] == ts[IndexOf(ts)[id]]
  {
    IndexOfLastOccurrence(ts);
    if ts != [] {
      var init := ts[..|ts| - 1];
      LookupAgreesWithIndex(init);
      IndexOfLastOccurrence(init);
      forall id | id in LookupOf(ts) ensures LookupOf(ts)[id] == ts[IndexOf(ts)[id]] {
        if id != ts[|ts| - 1].id {
          assert init[IndexOf(init)[id]] == ts[IndexOf(init)[id]];
        }
      }
    }
  }

  /** With distinct ids there are as many ids as topics. */
  lemma {:induction false} DistinctIdsCard(ts: seq<Topic>)
    requires DistinctIds(ts)
    ensures |Ids(ts)| == |ts|
  {
    if ts != [] {
      var init := ts[..|ts| - 1];
      DistinctIdsCard(init);
      assert Ids(ts) == Ids(init) + {ts[|ts| - 1].id} by {
        forall id | id in Ids(ts) ensures id in Ids(init) + {ts[|ts| - 1].id} {
          var i :| 0 <= i < |ts| && ts[i].id == id;
          if i < |ts| - 1 { assert init[i] == ts[i]; }
        }
        forall id | id in Ids(init) ensures id in Ids(ts) {
          var i :| 0 <= i < |init| && init[i].id == id;
          assert ts[i] == init[i];
        }
      }
      assert ts[|ts| - 1].id !in Ids(init);
    }
  }

  /** `buildLookup` */
  method BuildLookup(ts: seq<Topic>) returns (m: map<TopicId, Topic>)
    ensures m == LookupOf(ts)
    ensures m.Keys == Ids(ts)
    ensures forall id :: id in m ==> m[id].id == id
  {
    m := map[];
    for i := 0 to |ts|
      invariant m == LookupOf(ts[..i])
    {
      assert ts[..i + 1][..i] == ts[..i];
      m := m[ts[i].id := ts[i]];
    }
    assert ts[..|ts|] == ts;
    LookupAgreesWithIndex(ts);
    IndexOfLastOccurrence(ts);
  }

  /** `buildIndex` */
  method BuildIndex(ts: seq<Topic>) returns (m: map<TopicId, nat>)
    ensures m == IndexOf(ts)
    ensures m.Keys == Ids(ts)
    ensures forall id :: id in m ==> m[id] < |ts| && ts[m[id]].id == id
  {
    m := map[];
    for i := 0 to |ts|
      invariant m == IndexOf(ts[..i])
    {
      assert ts[..i + 1][..i] == ts[..i];
      m := m[ts[i].id := i];
    }
    assert ts[..|ts|] == ts;
    IndexOfLastOccurrence(ts);
  }
}
