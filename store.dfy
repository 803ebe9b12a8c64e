/** The live topic store shared by the layout and the drag: the topics array
    (`topicsRef`), the id -> topic map (`lookupRef`) and the id -> array position
    map (`indexRef`), plus the position each node element was last drawn at.

    In the original, the map and the array hold the same objects, so moving a topic
    through one is seen through the other. As values, the store says how the two
    agree: `Indexed` (index and array agree, the map has a record for each indexed
    id that differs from the array's at most in its position) and `Synced` (the
    map's records are the array's). A cancelled drag in the hook version leaves the
    store `Indexed` but not `Synced`. */
module TopicStore {
  import opened Seqs
  import opened Geometry
  import opened Topics

  /** The same topic record, apart from where it stands. */
  predicate SameButPosition(a: Topic, b: Topic) {
    a.id == b.id && a.labelText == b.labelText && a.anchor == b.anchor && a.detail == b.detail
  }

  predicate IsIndexed(ts: seq<Topic>, lookup: map<TopicId, Topic>, index: map<TopicId, nat>) {
    (forall i :: 0 <= i < |ts| ==> ts[i].id in index && index[ts[i].id] == i) &&
    (forall id :: id in index ==> index[id] < |ts| && ts[index[id]].id == id) &&
    lookup.Keys == index.Keys &&
    (forall id :: id in lookup ==> SameButPosition(lookup[id], ts[index[id]]))
  }

  predicate IsSynced(ts: seq<Topic>, lookup: map<TopicId, Topic>, index: map<TopicId, nat>) {
    IsIndexed(ts, lookup, index) && forall id :: id in lookup ==> lookup[id] == ts[index[id]]
  }

  /** An indexed store has distinct ids. */
  lemma IndexedDistinct(ts: seq<Topic>, lookup: map<TopicId, Topic>, index: map<TopicId, nat>)
    requires IsIndexed(ts, lookup, index)
    ensures DistinctIds(ts)
    ensures index.Keys == Ids(ts)
  {
  }

  /** Building the map and the index from an array with distinct ids gives a synced store. */
  lemma BuiltIsSynced(ts: seq<Topic>)
    requires DistinctIds(ts)
    ensures IsSynced(ts, LookupOf(ts), IndexOf(ts))
  {
    IndexOfDistinct(ts);
    LookupAgreesWithIndex(ts);
  }

  /** The drawn positions after `items.forEach(item => updateVisualForTopic(item.id))`:
      each indexed id of items is drawn where the array holds it. */
  function Redrawn(shown: map<TopicId, Point>, items: seq<Topic>, ts: seq<Topic>, index: map<TopicId, nat>): map<TopicId, Point> {
    if items == [] then shown
    else
      var before := Redrawn(shown, items[..|items| - 1], ts, index);
      var id := items[|items| - 1].id;
      if id in index && index[id] < |ts| then before[id := ts[index[id]].position] else before
  }

  /** Redrawing touches exactly the indexed ids of items, and draws each where it stands. */
  lemma {:induction false} RedrawnSpec(shown: map<TopicId, Point>, items: seq<Topic>, ts: seq<Topic>, index: map<TopicId, nat>)
    ensures forall id :: id in index && index[id] < |ts| && id in Ids(items) ==>
      id in Redrawn(shown, items, ts, index) && Redrawn(shown, items, ts, index)[id] == ts[index[id]].position
    ensures forall id :: !(id in index && index[id] < |ts| && id in Ids(items)) ==>
      (id in Redrawn(shown, items, ts, index) <==> id in shown) &&
      (id in shown ==> Redrawn(shown, items, ts, index)[id] == shown[id])
  {
    if items != [] {
      var init := items[..|items| - 1];
      RedrawnSpec(shown, init, ts, index);
      assert Ids(items) == Ids(init) + {items[|items| - 1].id} by {
        forall id | id in Ids(items) ensures id in Ids(init) + {items[|items| - 1].id} {
          var i :| 0 <= i < |items| && items[i].id == id;
          if i < |items| - 1 { assert init[i] == items[i]; }
        }
        forall id | id in Ids(init) ensures id in Ids(items) {
          var i :| 0 <= i < |init| && init[i].id == id;
          assert items[i] == init[i];
        }
      }
    }
  }

  /** What a layout pass reads and writes: the array, the map and the drawn positions. */
  datatype Layout = Layout(topics: seq<Topic>, lookup: map<TopicId, Topic>, shown: map<TopicId, Point>)

  /** Every indexed position lies inside the array. */
  predicate Fits(index: map<TopicId, nat>, ts: seq<Topic>) {
    forall id :: id in index ==> index[id] < |ts|
  }

  /** `obj.position = p; lookup.set(id, obj); topics[at] = obj; updateVisualForTopic(id)`,
      where obj is the record base: the moved record is written to the map under id and to
      the array at `at`, and the node id is drawn at p. */
  function Placing(b: Layout, at: nat, id: TopicId, base: Topic, p: Point): (r: Layout)
    requires at < |b.topics|
    ensures |r.topics| == |b.topics|
  {
    var rec := base.(position := p);
    Layout(b.topics[at := rec], b.lookup[id := rec], b.shown[id := p])
  }

  /** What a layout pass needs of the store to write a record back where it came from:
      the index places every array slot's id at that slot, and the map files each record
      under its own id. `Indexed` implies it (IndexedAligned). */
  predicate IsAligned(ts: seq<Topic>, lookup: map<TopicId, Topic>, index: map<TopicId, nat>) {
    Fits(index, ts) &&
    (forall k :: 0 <= k < |ts| ==> ts[k].id in index && index[ts[k].id] == k) &&
    (forall id :: id in lookup ==> lookup[id].id == id)
  }

  lemma IndexedAligned(ts: seq<Topic>, lookup: map<TopicId, Topic>, index: map<TopicId, nat>)
    requires IsIndexed(ts, lookup, index)
    ensures IsAligned(ts, lookup, index)
  {
  }

  /** Every id the array or the map holds a record of is indexed. */
  predicate IdsIn(b: Layout, index: map<TopicId, nat>) {
    (forall k :: 0 <= k < |b.topics| ==> b.topics[k].id in index) &&
    (forall id :: id in b.lookup ==> b.lookup[id].id in index)
  }

  class Store {
    var topics: seq<Topic>
    var lookup: map<TopicId, Topic>
    var index: map<TopicId, nat>
    /** The position each node element was last drawn at by `updateVisualForTopic`. */
    var shown: map<TopicId, Point>

    /** The fields a layout pass writes, as one value. */
    function Current(): Layout
      reads this
    {
      Layout(topics, lookup, shown)
    }

    ghost predicate Indexed()
      reads this
    {
      IsIndexed(topics, lookup, index)
    }

    ghost predicate Aligned()
      reads this
    {
      IsAligned(topics, lookup, index)
    }

    ghost predicate Synced()
      reads this
    {
      IsSynced(topics, lookup, index)
    }

    /** `topicsRef = useRef(cloneTopics(ts))`, `lookupRef = useRef(buildLookup(...))`,
        `indexRef = useRef(buildIndex(...))`; no node has been drawn by the layout yet. */
    constructor(ts: seq<Topic>)
      ensures topics == ts && lookup == LookupOf(ts) && index == IndexOf(ts) && shown == map[]
      ensures DistinctIds(ts) ==> Synced()
    {
      var m := BuildLookup(ts);
      var ix := BuildIndex(ts);
      topics := ts;
      lookup := m;
      index := ix;
      shown := map[];
      if DistinctIds(ts) {
        BuiltIsSynced(ts);
      }
    }

    /** Replace the array and rebuild both maps from it (the resync effect, and the end
        of a drag in the component). */
    method Reset(ts: seq<Topic>)
      modifies this
      ensures topics == ts && lookup == LookupOf(ts) && index == IndexOf(ts)
      ensures shown == old(shown)
      ensures DistinctIds(ts) ==> Synced()
    {
      topics := ts;
      lookup := BuildLookup(ts);
      index := BuildIndex(ts);
      if DistinctIds(ts) {
        BuiltIsSynced(ts);
      }
    }

    /** `obj.position = p; lookup.set(id, obj); topics[index.get(id)] = obj`, where obj is
        the record for id taken from the map or from the array. */
    method SetPosition(id: TopicId, base: Topic, p: Point)
      requires Indexed() && id in index && SameButPosition(base, topics[index[id]])
      modifies this
      ensures topics == old(topics)[old(index)[id] := base.(position := p)]
      ensures lookup == old(lookup)[id := base.(position := p)]
      ensures index == old(index) && shown == old(shown)
      ensures Indexed()
      ensures old(Synced()) ==> Synced()
    {
      var moved := base.(position := p);
      topics := topics[index[id] := moved];
      lookup := lookup[id := moved];
    }

    /** `obj.position = p; lookup.set(id, obj); topics[at] = obj; updateVisualForTopic(id)`
        inside a layout pass, where obj is the record base of the topic at `at`. */
    method Place(at: nat, id: TopicId, base: Topic, p: Point)
      requires Aligned() && id in index && index[id] == at && base.id == id
      modifies this
      ensures index == old(index) && Aligned()
      ensures Current() == Placing(old(Current()), at, id, base, p)
    {
      var moved := base.(position := p);
      topics := topics[at := moved];
      lookup := lookup[id := moved];
      shown := shown[id := p];
    }

    /** `topicsRef.current = ts` alone: the array is replaced by records that differ from
        it at most in their positions, and both maps are kept. */
    method Restore(ts: seq<Topic>)
      requires Indexed() && |ts| == |topics| && forall i :: 0 <= i < |ts| ==> SameButPosition(ts[i], topics[i])
      modifies this
      ensures topics == ts && lookup == old(lookup) && index == old(index) && shown == old(shown)
      ensures Indexed()
    {
      topics := ts;
    }

    /** `items.forEach(item => updateVisualForTopic(item.id))` */
    method RefreshAll(items: seq<Topic>)
      requires Indexed()
      modifies this
      ensures topics == old(topics) && lookup == old(lookup) && index == old(index)
      ensures shown == Redrawn(old(shown), items, topics, index)
    {
      for j := 0 to |items|
        invariant topics == old(topics) && lookup == old(lookup) && index == old(index)
        invariant shown == Redrawn(old(shown), items[..j], topics, index)
      {
        assert items[..j + 1][..j] == items[..j];
        Refresh(items[j].id);
      }
      assert items[..|items|] == items;
    }

    /** `updateVisualForTopic(id)`: draw the node at its position in the array, if indexed. */
    method Refresh(id: TopicId)
      requires Indexed()
      modifies this
      ensures topics == old(topics) && lookup == old(lookup) && index == old(index)
      ensures id in index ==> shown == old(shown)[id := topics[index[id]].position]
      ensures id !in index ==> shown == old(shown)
    {
      if id in index {
        shown := shown[id := topics[index[id]].position];
      }
    }
  }
}
