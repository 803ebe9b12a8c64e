/** Dragging a node with the secondary mouse button (`startNodeDrag`). A drag session
    remembers where the pointer and the node started and a copy of the topic array;
    every pointer move puts the node at its start position plus the pointer's travel
    divided by the zoom, then runs `pullConnected` from it and `resolveCollisions` from
    everything that moved; the session ends once, by committing the new layout
    (pointer up) or restoring the copy (pointer cancel).

    The component's version (`KnowledgeMap.jsx`) and the hook's (`useDragNodes.jsx`)
    differ only in how they end: the component rebuilds the lookup and the index from
    the array it keeps, the hook replaces only the array. */
module NodeDrag {
  import opened Seqs
  import opened Geometry
  import opened Topics
  import opened Links
  import opened TopicStore
  import opened LayoutSteps
  import opened LayoutPhysics

  /** `clampWithinCanvas(startPos + (client - startPointer) / zoom)` on each axis. */
  function DragTarget(startPos: Point, startPointer: Point, client: Point, zoom: real): (r: Point)
    requires zoom > 0.0
    ensures InCanvas(r)
  {
    ClampPoint(Point(startPos.x + (client.x - startPointer.x) / zoom, startPos.y + (client.y - startPointer.y) / zoom))
  }

  /** The target is absolute, not incremental: a pointer back at its start puts the node
      back at its start. */
  lemma DragTargetAtStart(startPos: Point, startPointer: Point, zoom: real)
    requires zoom > 0.0 && InCanvas(startPos)
    ensures DragTarget(startPos, startPointer, startPointer, zoom) == startPos
  {
    assert (startPointer.x - startPointer.x) / zoom == 0.0;
    assert (startPointer.y - startPointer.y) / zoom == 0.0;
  }

  /** Every point of the world square is the target of some pointer position: the one
      that has travelled (p - startPos) * zoom from the start. */
  lemma DragTargetReaches(startPos: Point, startPointer: Point, p: Point, zoom: real)
    requires zoom > 0.0 && InCanvas(p)
    ensures DragTarget(startPos, startPointer,
      Point(startPointer.x + (p.x - startPos.x) * zoom, startPointer.y + (p.y - startPos.y) * zoom), zoom) == p
  {
    var client := Point(startPointer.x + (p.x - startPos.x) * zoom, startPointer.y + (p.y - startPos.y) * zoom);
    assert (client.x - startPointer.x) / zoom == p.x - startPos.x;
    assert (client.y - startPointer.y) / zoom == p.y - startPos.y;
  }

  /** `collisionMoves.forEach(id => movedIds.add(id))`, as a value: every id of t added
      in turn. */
  function InsertAll(s: seq<TopicId>, t: seq<TopicId>): seq<TopicId>
    decreases |t|
  {
    if t == [] then s else Insert(InsertAll(s, t[..|t| - 1]), t[|t| - 1])
  }

  /** The union keeps s in front, adds no duplicate, and holds exactly the ids of both. */
  lemma {:induction false} InsertAllSpec(s: seq<TopicId>, t: seq<TopicId>)
    ensures var r := InsertAll(s, t);
      (NoDup(s) ==> NoDup(r)) && (forall id :: id in r <==> id in s || id in t) && |s| <= |r| && r[..|s|] == s
    decreases |t|
  {
    if t != [] {
      var init := t[..|t| - 1];
      InsertAllSpec(s, init);
      assert t == init + [t[|t| - 1]];
      var r0 := InsertAll(s, init);
      if t[|t| - 1] !in r0 {
        assert (r0 + [t[|t| - 1]])[..|s|] == r0[..|s|];
      }
    }
  }

  /** The `forEach` itself. */
  method AddAll(s: seq<TopicId>, t: seq<TopicId>) returns (r: seq<TopicId>)
    ensures r == InsertAll(s, t)
  {
    r := s;
    for j := 0 to |t|
      invariant r == InsertAll(s, t[..j])
    {
      assert t[..j + 1][..j] == t[..j];
      r := Insert(r, t[j]);
    }
    assert t[..|t|] == t;
  }

  /** The array copies differ at most in positions, and a copy of an array with distinct
      ids has distinct ids. */
  lemma CopyDistinct(a: seq<Topic>, b: seq<Topic>)
    requires |a| == |b| && forall i :: 0 <= i < |a| ==> SameButPosition(a[i], b[i])
    requires DistinctIds(b)
    ensures DistinctIds(a)
  {
    forall i, j | 0 <= i < j < |a| ensures a[i].id != a[j].id {
      assert a[i].id == b[i].id && a[j].id == b[j].id;
    }
  }

  /** What one live `handleMove` leaves: the layout and `movedIds`. */
  datatype Moved = Moved(layout: Layout, movedIds: seq<TopicId>)

  /** One live `handleMove` from the layout b: the dragged id's record base is placed at
      target, `pullConnected` runs from it, the dragged id joins the pulled ids,
      `resolveCollisions` runs from those, and what it pushed joins them too. rnd stands
      for the `Math.random()` values the pushes draw. */
  function DragMoveOf(
    index: map<TopicId, nat>, adjacency: map<TopicId, seq<Link>>, h: Hypot, rnd: Random,
    b: Layout, topicId: TopicId, base: Topic, target: Point): (r: Moved)
    requires IsHypot(h) && Fits(index, b.topics) && topicId in index
    ensures |r.layout.topics| == |b.topics|
  {
    var placed := Placing(b, index[topicId], topicId, base, target);
    var pulled := PullConnectedOf(index, adjacency, h, placed, topicId);
    var movedIds := Insert(pulled.moved, topicId);
    var swept := ResolveCollisionsOf(index, h, rnd, pulled.layout, Some(movedIds));
    Moved(swept.layout, InsertAll(movedIds, swept.moved))
  }

  /** Two layout passes, one after the other, are one pass over the ids either moved. */
  lemma PassedThen(index: map<TopicId, nat>, b0: Layout, b1: Layout, b2: Layout, first: seq<TopicId>, second: seq<TopicId>, all: seq<TopicId>)
    requires Passed(index, b0, b1, first) && Passed(index, b1, b2, second)
    requires NoDup(all) && forall id :: id in all <==> id in first || id in second
    ensures Passed(index, b0, b2, all)
  {
    RelayoutCompose(index, b0.topics, b0.lookup, b0.shown, b1.topics, b1.lookup, b1.shown,
      b2.topics, b2.lookup, b2.shown, first, second, all);
  }

  /** Placing the dragged node inside the world square is a pass that moves only it. */
  lemma PlacedPassed(index: map<TopicId, nat>, b: Layout, topicId: TopicId, base: Topic, target: Point)
    requires IsIndexed(b.topics, b.lookup, index) && topicId in index
    requires SameButPosition(base, b.topics[index[topicId]]) && InCanvas(target)
    ensures Passed(index, b, Placing(b, index[topicId], topicId, base, target), [topicId])
  {
    RelayoutStart(index, b.topics, b.lookup, b.shown);
    PassedStep(index, b, b, [], topicId, base, target);
    assert Insert([], topicId) == [topicId];
  }

  /** The placing and the pull together are a pass over `movedIds`, and the pull has
      moved the far end of every unique over-long link of the dragged node. */
  lemma DragPullSpec(
    index: map<TopicId, nat>, adjacency: map<TopicId, seq<Link>>, h: Hypot,
    b: Layout, topicId: TopicId, base: Topic, target: Point)
    requires IsHypot(h) && IsIndexed(b.topics, b.lookup, index) && Fits(index, b.topics)
    requires topicId in index && SameButPosition(base, b.topics[index[topicId]]) && InCanvas(target)
    ensures var placed := Placing(b, index[topicId], topicId, base, target);
      var pulled := PullConnectedOf(index, adjacency, h, placed, topicId);
      var movedIds := Insert(pulled.moved, topicId);
      Passed(index, placed, pulled.layout, pulled.moved) && Passed(index, b, pulled.layout, movedIds) &&
      topicId in placed.lookup && RootPulled(index, adjacency, h, topicId, placed, movedIds)
  {
    var placed := Placing(b, index[topicId], topicId, base, target);
    var pulled := PullConnectedOf(index, adjacency, h, placed, topicId);
    PlacedPassed(index, b, topicId, base, target);
    PullConnectedSpec(index, adjacency, h, placed, topicId);
    var movedIds := Insert(pulled.moved, topicId);
    RootPulledGrows(index, adjacency, h, topicId, placed, pulled.moved, movedIds);
    PassedThen(index, b, placed, pulled.layout, [topicId], pulled.moved, movedIds);
  }

  /** The push from the pulled layout, with `movedIds` as its origins, ends the pass over
      every id moved, and has pushed every topic that touched the first origin. */
  lemma DragCollideSpec(index: map<TopicId, nat>, h: Hypot, rnd: Random, b: Layout, b1: Layout, movedIds: seq<TopicId>)
    requires IsHypot(h) && Fits(index, b.topics) && Passed(index, b, b1, movedIds)
    ensures var swept := ResolveCollisionsOf(index, h, rnd, b1, Some(movedIds));
      var moved := InsertAll(movedIds, swept.moved);
      Passed(index, b, swept.layout, moved) &&
      (movedIds != [] ==>
        (movedIds[0] in index && movedIds[0] in b1.lookup && OriginPushed(index, h, movedIds[0], b1, moved)))
  {
    var swept := ResolveCollisionsOf(index, h, rnd, b1, Some(movedIds));
    var moved := InsertAll(movedIds, swept.moved);
    ResolveCollisionsSpec(index, h, rnd, b1, Some(movedIds));
    InsertAllSpec(movedIds, swept.moved);
    PassedThen(index, b, b1, swept.layout, movedIds, swept.moved, moved);
    if movedIds != [] {
      assert movedIds[0] in movedIds;
      OriginPushedGrows(index, h, movedIds[0], b1, swept.moved, moved);
    }
  }

  /** One live `handleMove` is a layout pass from b whose moved ids hold the dragged one,
      the far end of every unique link of the dragged node longer than 420 after the
      placing, and every topic that touched the first origin of the push when it began. */
  lemma DragMoveSpec(
    index: map<TopicId, nat>, adjacency: map<TopicId, seq<Link>>, h: Hypot, rnd: Random,
    b: Layout, topicId: TopicId, base: Topic, target: Point)
    requires IsHypot(h) && IsIndexed(b.topics, b.lookup, index) && Fits(index, b.topics)
    requires topicId in index && SameButPosition(base, b.topics[index[topicId]]) && InCanvas(target)
    ensures var r := DragMoveOf(index, adjacency, h, rnd, b, topicId, base, target);
      var placed := Placing(b, index[topicId], topicId, base, target);
      var pulled := PullConnectedOf(index, adjacency, h, placed, topicId);
      var movedIds := Insert(pulled.moved, topicId);
      Passed(index, b, r.layout, r.movedIds) && topicId in r.movedIds &&
      topicId in placed.lookup && RootPulled(index, adjacency, h, topicId, placed, r.movedIds) &&
      movedIds[0] in index && movedIds[0] in pulled.layout.lookup &&
      OriginPushed(index, h, movedIds[0], pulled.layout, r.movedIds)
  {
    var placed := Placing(b, index[topicId], topicId, base, target);
    var pulled := PullConnectedOf(index, adjacency, h, placed, topicId);
    var movedIds := Insert(pulled.moved, topicId);
    var r := DragMoveOf(index, adjacency, h, rnd, b, topicId, base, target);
    DragPullSpec(index, adjacency, h, b, topicId, base, target);
    DragCollideSpec(index, h, rnd, b, pulled.layout, movedIds);
    var swept := ResolveCollisionsOf(index, h, rnd, pulled.layout, Some(movedIds));
    InsertAllSpec(movedIds, swept.moved);
    assert r.movedIds == InsertAll(movedIds, swept.moved);
    RootPulledGrows(index, adjacency, h, topicId, placed, movedIds, r.movedIds);
  }

  /** `pullConnected(topicId)` and `movedIds.add(topicId)`. */
  method PullPhase(store: Store, topicId: TopicId, adjacency: map<TopicId, seq<Link>>, h: Hypot)
    returns (movedIds: seq<TopicId>)
    requires IsHypot(h) && store.Indexed()
    modifies store
    ensures store.index == old(store.index) && store.Indexed()
    ensures var w := PullConnectedOf(store.index, adjacency, h, old(store.Current()), topicId);
      store.Current() == w.layout && movedIds == Insert(w.moved, topicId)
    ensures NoDup(movedIds) && topicId in movedIds
    ensures topicId in store.index ==> RootPulled(store.index, adjacency, h, topicId, old(store.Current()), movedIds)
  {
    ghost var b := store.Current();
    PullConnectedSpec(store.index, adjacency, h, b, topicId);
    var pulled := PullConnected(store, topicId, adjacency, h);
    movedIds := Insert(pulled, topicId);
    if topicId in store.index {
      RootPulledGrows(store.index, adjacency, h, topicId, b, pulled, movedIds);
    }
  }

  /** `resolveCollisions(movedIds)` and the union of its result into movedIds. */
  method CollidePhase(store: Store, movedIds: seq<TopicId>, h: Hypot, rnd: Random) returns (moved: seq<TopicId>)
    requires IsHypot(h) && store.Indexed() && NoDup(movedIds)
    modifies store
    ensures store.index == old(store.index) && store.Indexed()
    ensures var s := ResolveCollisionsOf(store.index, h, rnd, old(store.Current()), Some(movedIds));
      store.Current() == s.layout && moved == InsertAll(movedIds, s.moved)
    ensures movedIds != [] && movedIds[0] in store.index ==>
      OriginPushed(store.index, h, movedIds[0], old(store.Current()), moved)
  {
    ghost var b := store.Current();
    ResolveCollisionsSpec(store.index, h, rnd, b, Some(movedIds));
    var collisionMoves := ResolveCollisions(store, Some(movedIds), h, rnd);
    moved := AddAll(movedIds, collisionMoves);
    InsertAllSpec(movedIds, collisionMoves);
    if movedIds != [] && movedIds[0] in store.index {
      OriginPushedGrows(store.index, h, movedIds[0], b, collisionMoves, moved);
    }
  }

  /** What a finished drag hands to React: the new topics state and the new paths. */
  datatype Published = Published(topics: seq<Topic>, paths: seq<PathedLink>)

  class DragSession {
    const store: Store
    const topicId: TopicId
    /** `indexRef.current.get(topicId)` at the start. */
    const index: nat
    const startPointer: Point
    const startPos: Point
    /** The deep copy of the array taken at the start. */
    const snapshot: seq<Topic>
    const zoom: real
    var finished: bool

    /** The dragged id is indexed at `index` and the copy has the array's records, up to
        their positions. */
    ghost predicate Valid()
      reads this, store
    {
      zoom > 0.0 && store.Indexed() && topicId in store.index && store.index[topicId] == index &&
      |snapshot| == |store.topics| &&
      forall i :: 0 <= i < |snapshot| ==> SameButPosition(snapshot[i], store.topics[i])
    }

    constructor(store: Store, topicId: TopicId, index: nat, startPointer: Point, startPos: Point, snapshot: seq<Topic>, zoom: real)
      ensures this.store == store && this.topicId == topicId && this.index == index
      ensures this.startPointer == startPointer && this.startPos == startPos
      ensures this.snapshot == snapshot && this.zoom == zoom && !finished
    {
      this.store := store;
      this.topicId := topicId;
      this.index := index;
      this.startPointer := startPointer;
      this.startPos := startPos;
      this.snapshot := snapshot;
      this.zoom := zoom;
      finished := false;
    }

    /** `topic.position = clamp(startPos + delta / zoom)`, written to the map and the array,
        and drawn. (The record written is the one captured when the drag started; the
        array's record at `index` differs from it at most in its position.) */
    method PlaceDragged(client: Point)
      requires Valid()
      modifies store
      ensures Valid() && store.index == old(store.index)
      ensures store.Current() ==
        Placing(old(store.Current()), index, topicId, old(store.topics)[index], DragTarget(startPos, startPointer, client, zoom))
    {
      var topic := store.topics[index];
      var target := DragTarget(startPos, startPointer, client, zoom);
      store.SetPosition(topicId, topic, target);
      store.Refresh(topicId);
    }

    /** `handleMove`: place the dragged node, pull its over-long links from it, push apart
        whatever then overlaps starting from the pulled nodes and the dragged one, and
        rebuild the stretch map. After the session has ended its listener is gone, so a
        move does nothing. */
    method HandleMove(client: Point, adjacency: map<TopicId, seq<Link>>, links: seq<Link>, h: Hypot, rnd: Random)
      returns (stretch: Option<map<string, real>>, moved: seq<TopicId>)
      requires Valid() && IsHypot(h)
      modifies store
      ensures Valid() && store.index == old(store.index)
      ensures finished ==> stretch.None? && moved == [] && store.Current() == old(store.Current())
      ensures !finished ==>
        var r := DragMoveOf(store.index, adjacency, h, rnd, old(store.Current()), topicId, old(store.topics)[index],
          DragTarget(startPos, startPointer, client, zoom));
        store.Current() == r.layout && moved == r.movedIds && stretch == Some(StretchMapOf(links, store.lookup, h))
    {
      if finished {
        return None, [];
      }
      var m;
      m, moved := DragTo(client, adjacency, links, h, rnd);
      stretch := Some(m);
    }

    /** The body of `handleMove` while the session is live. */
    method DragTo(client: Point, adjacency: map<TopicId, seq<Link>>, links: seq<Link>, h: Hypot, rnd: Random)
      returns (stretch: map<string, real>, moved: seq<TopicId>)
      requires Valid() && IsHypot(h)
      modifies store
      ensures Valid() && store.index == old(store.index)
      ensures var r := DragMoveOf(store.index, adjacency, h, rnd, old(store.Current()), topicId, old(store.topics)[index],
          DragTarget(startPos, startPointer, client, zoom));
        store.Current() == r.layout && moved == r.movedIds
      ensures topicId in moved && Passed(store.index, old(store.Current()), store.Current(), moved)
      ensures stretch == StretchMapOf(links, store.lookup, h)
    {
      ghost var b := store.Current();
      ghost var base := store.topics[index];
      ghost var target := DragTarget(startPos, startPointer, client, zoom);
      DragMoveSpec(store.index, adjacency, h, rnd, b, topicId, base, target);
      PlaceDragged(client);
      var movedIds := PullPhase(store, topicId, adjacency, h);
      moved := CollidePhase(store, movedIds, h, rnd);
      stretch := RebuildStretchMap(links, store.lookup, h);
      SnapshotKept(b.topics);
    }

    /** A layout pass keeps the records up to positions, so the copy still matches. */
    lemma SnapshotKept(t0: seq<Topic>)
      requires |snapshot| == |t0| && forall i :: 0 <= i < |snapshot| ==> SameButPosition(snapshot[i], t0[i])
      requires |store.topics| == |t0| && forall i :: 0 <= i < |t0| ==> SameButPosition(store.topics[i], t0[i])
      ensures |snapshot| == |store.topics| && forall i :: 0 <= i < |snapshot| ==> SameButPosition(snapshot[i], store.topics[i])
    {
    }

    /** `finishDrag(commit)` of the component, at most once per session. Commit keeps the
        array and rebuilds both maps from it; cancel puts the copy back, rebuilds both maps
        from it and draws every node where the copy has it. Either way the stretch map is
        rebuilt from the new lookup and the array and its paths are published. */
    method FinishDrag(commit: bool, links: seq<Link>, h: Hypot)
      returns (published: Option<Published>, stretch: Option<map<string, real>>)
      requires Valid() && IsHypot(h)
      modifies this, store
      ensures Valid() && finished
      ensures old(finished) ==> (published.None? && stretch.None? &&
        store.topics == old(store.topics) && store.lookup == old(store.lookup) &&
        store.index == old(store.index) && store.shown == old(store.shown))
      ensures !old(finished) && commit ==>
        store.topics == old(store.topics) && store.lookup == LookupOf(store.topics) && store.index == IndexOf(store.topics) &&
        store.Synced() && store.shown == old(store.shown) &&
        published == Some(Published(old(store.topics), ComputePaths(old(store.topics), links, h, 1.0)))
      ensures !old(finished) && !commit ==>
        store.topics == snapshot && store.lookup == LookupOf(snapshot) && store.index == IndexOf(snapshot) &&
        store.Synced() &&
        (forall i :: 0 <= i < |snapshot| ==> snapshot[i].id in store.shown && store.shown[snapshot[i].id] == snapshot[i].position) &&
        published == Some(Published(snapshot, ComputePaths(snapshot, links, h, 1.0)))
      ensures !old(finished) ==> stretch == Some(StretchMapOf(links, store.lookup, h))
    {
      if finished {
        return None, None;
      }
      finished := true;
      var p, m;
      if commit {
        p, m := CommitDrag(links, h);
      } else {
        p, m := CancelDrag(links, h);
      }
      published, stretch := Some(p), Some(m);
    }

    /** The commit branch of the component's `finishDrag`. */
    method CommitDrag(links: seq<Link>, h: Hypot) returns (published: Published, stretch: map<string, real>)
      requires Valid() && IsHypot(h)
      modifies store
      ensures Valid()
      ensures store.topics == old(store.topics) && store.lookup == LookupOf(store.topics) && store.index == IndexOf(store.topics)
      ensures store.Synced() && store.shown == old(store.shown)
      ensures published == Published(old(store.topics), ComputePaths(old(store.topics), links, h, 1.0))
      ensures stretch == StretchMapOf(links, store.lookup, h)
    {
      IndexedDistinct(store.topics, store.lookup, store.index);
      var nextTopics := store.topics;
      store.Reset(nextTopics);
      IndexOfDistinct(nextTopics);
      stretch := RebuildStretchMap(links, store.lookup, h);
      published := Published(nextTopics, ComputePaths(nextTopics, links, h, 1.0));
    }

    /** The cancel branch of the component's `finishDrag`. */
    method CancelDrag(links: seq<Link>, h: Hypot) returns (published: Published, stretch: map<string, real>)
      requires Valid() && IsHypot(h)
      modifies store
      ensures Valid()
      ensures store.topics == snapshot && store.lookup == LookupOf(snapshot) && store.index == IndexOf(snapshot)
      ensures store.Synced()
      ensures forall i :: 0 <= i < |snapshot| ==> snapshot[i].id in store.shown && store.shown[snapshot[i].id] == snapshot[i].position
      ensures published == Published(snapshot, ComputePaths(snapshot, links, h, 1.0))
      ensures stretch == StretchMapOf(links, store.lookup, h)
    {
      IndexedDistinct(store.topics, store.lookup, store.index);
      CopyDistinct(snapshot, store.topics);
      store.Reset(snapshot);
      IndexOfDistinct(snapshot);
      store.RefreshAll(store.topics);
      RedrawnSpec(old(store.shown), snapshot, snapshot, IndexOf(snapshot));
      forall i | 0 <= i < |snapshot| ensures snapshot[i].id in Ids(snapshot) {
      }
      stretch := RebuildStretchMap(links, store.lookup, h);
      published := Published(snapshot, ComputePaths(snapshot, links, h, 1.0));
    }

    /** `finishDrag(commit)` of the hook, at most once per session. Commit publishes the
        array; cancel puts the copy back as the array alone, draws every node where the
        copy has it and publishes the copy. Either way the stretch map is rebuilt from the
        lookup, which a cancel has left as the drag made it. */
    method FinishDragHook(commit: bool, links: seq<Link>, h: Hypot)
      returns (published: Option<seq<Topic>>, stretch: Option<map<string, real>>)
      requires Valid() && IsHypot(h)
      modifies this, store
      ensures Valid() && finished
      ensures store.lookup == old(store.lookup) && store.index == old(store.index)
      ensures old(finished) ==> (published.None? && stretch.None? &&
        store.topics == old(store.topics) && store.shown == old(store.shown))
      ensures !old(finished) && commit ==>
        store.topics == old(store.topics) && store.shown == old(store.shown) && published == Some(old(store.topics))
      ensures !old(finished) && !commit ==>
        store.topics == snapshot &&
        (forall i :: 0 <= i < |snapshot| ==> snapshot[i].id in store.shown && store.shown[snapshot[i].id] == snapshot[i].position) &&
        published == Some(snapshot)
      ensures !old(finished) ==> stretch == Some(StretchMapOf(links, old(store.lookup), h))
    {
      if finished {
        return None, None;
      }
      finished := true;
      if commit {
        published := Some(store.topics);
      } else {
        store.Restore(snapshot);
        store.RefreshAll(snapshot);
        RedrawnSpec(old(store.shown), snapshot, snapshot, store.index);
        forall i | 0 <= i < |snapshot| ensures snapshot[i].id in Ids(snapshot) {
        }
        published := Some(snapshot);
      }
      var m := RebuildStretchMap(links, store.lookup, h);
      stretch := Some(m);
    }
  }

  /** `startNodeDrag(topicId, event)`: only the secondary button on an indexed topic starts
      a session, and starting one changes nothing in the store. */
  method StartNodeDrag(store: Store, topicId: TopicId, button: int, client: Point, zoom: real)
    returns (session: DragSession?)
    requires store.Indexed() && zoom > 0.0
    ensures session == null <==> button != 2 || topicId !in store.index
    ensures session != null ==>
      fresh(session) && session.Valid() && !session.finished &&
      session.store == store && session.topicId == topicId && session.index == store.index[topicId] &&
      session.startPointer == client && session.startPos == store.topics[store.index[topicId]].position &&
      session.snapshot == store.topics && session.zoom == zoom
  {
    if button != 2 {
      return null;
    }
    if topicId !in store.index {
      return null;
    }
    var index := store.index[topicId];
    var topic := store.topics[index];
    session := new DragSession(store, topicId, index, client, topic.position, store.topics, zoom);
  }

  // ---------------------------------------------------------------- the stale stretch map

  const A: Topic := Topic("a", "A", Point(0.0, 0.0), "center", Detail("", [], []))
  const B: Topic := Topic("b", "B", Point(300.0, 0.0), "center", Detail("", [], []))
  const AB: Link := Link("a-b-0", "a", "b", 0, 1)

  /** The restored array's lookup. */
  lemma LookupOfAB()
    ensures LookupOf([A, B]) == map["a" := A, "b" := B]
  {
    assert [A, B][..1] == [A];
    assert [A][..0] == [];
    assert LookupOf([A]) == LookupOf([])[A.id := A];
    assert LookupOf([A, B]) == LookupOf([A])[B.id := B];
  }

  /** Dragging a to (-300, 0) leaves b 600 away, so the pull moves b 45 toward a. */
  lemma StalePull(h: Hypot)
    requires IsHypot(h)
    ensures PullStep(h, Point(-300.0, 0.0), B.position) == Some(Point(255.0, 0.0))
  {
    var current, neighbor := Point(-300.0, 0.0), B.position;
    HypotOf(h, -600.0, 0.0, 600.0);
    assert h(current.x - neighbor.x, current.y - neighbor.y) == 600.0;
    assert PullAmount(600.0) == 45.0;
    PullDirection(h, current, neighbor);
    var u := PullTarget(h, current, neighbor);
    assert u.x - neighbor.x == 45.0 / 600.0 * -600.0;
    assert u.y - neighbor.y == 45.0 / 600.0 * 0.0;
  }

  /** At (-300, 0) and (255, 0) the two nodes are 555 apart: nothing collides. */
  lemma StaleApart(h: Hypot)
    requires IsHypot(h)
    ensures ContactOf(h, Point(-300.0, 0.0), Point(255.0, 0.0)).Apart?
  {
    HypotOf(h, 555.0, 0.0, 555.0);
  }

  /** 555 apart, the link is fully stretched. */
  lemma StaleRatio(h: Hypot)
    requires IsHypot(h)
    ensures StretchMapOf([AB], map["a" := A.(position := Point(-300.0, 0.0)), "b" := B.(position := Point(255.0, 0.0))], h)
      == map["a-b-0" := 1.0]
  {
    HypotOf(h, -555.0, 0.0, 555.0);
    assert [AB][..0] == [];
  }

  /** 300 apart, the link is not stretched. */
  lemma RestoredRatio(h: Hypot)
    requires IsHypot(h)
    ensures StretchMapOf([AB], map["a" := A, "b" := B], h) == map[]
  {
    HypotOf(h, -300.0, 0.0, 300.0);
    assert [AB][..0] == [];
  }

  // The trace itself: the store of [A, B], a drag of a to (-300, 0), then a cancel.

  const West: Point := Point(-300.0, 0.0)
  const Pulled: Point := Point(255.0, 0.0)
  const A1: Topic := A.(position := West)
  const B1: Topic := B.(position := Pulled)

  lemma IndexOfAB()
    ensures IndexOf([A, B]) == map["a" := 0, "b" := 1]
  {
    assert [A, B][..1] == [A];
    assert [A][..0] == [];
    assert IndexOf([A]) == map["a" := 0];
  }

  lemma AdjacencyOfAB()
    ensures AdjacencyOf([AB]) == map["a" := [AB], "b" := [AB]]
  {
    var links := [AB];
    var none: map<TopicId, seq<Link>> := map[];
    assert links[..|links| - 1] == [];
    assert links[|links| - 1] == AB;
    assert AdjacencyOf(links[..|links| - 1]) == none;
    assert AdjacencyOf(links) == Push(Push(none, AB.source, AB), AB.target, AB);
    var empty: seq<Link> := [];
    assert "a" !in none && empty + [AB] == [AB];
    assert Push(none, "a", AB) == map["a" := [AB]];
    assert "b" !in map["a" := [AB]];
  }

  /** The pull from a at (-300, 0): b moves to (255, 0) in the map, the array and the
      drawing, and its own turn finds the one link processed. */
  lemma StalePulled(h: Hypot)
    requires IsHypot(h)
    ensures PullConnectedOf(map["a" := 0, "b" := 1], map["a" := [AB], "b" := [AB]], h,
        Layout([A1, B], map["a" := A1, "b" := B], map["a" := West]), "a")
      == Walk(Layout([A1, B1], map["a" := A1, "b" := B1], map["a" := West, "b" := Pulled]), {"a", "b"}, [], {"a-b-0"}, ["b"])
  {
    var index := map["a" := 0, "b" := 1];
    var adjacency := map["a" := [AB], "b" := [AB]];
    var placed := Layout([A1, B], map["a" := A1, "b" := B], map["a" := West]);
    PullConnectedUnfolds(index, adjacency, h, placed, "a");
    var w0 := Walk(placed, {"a"}, ["a"], {}, []);
    var start := w0.(queue := []);
    assert w0.queue[1..] == [];
    assert PullNextOf(index, adjacency, h, w0) == PullLinksOf(index, h, "a", West, [AB], start);
    StalePull(h);
    var w1 := Walk(Layout([A1, B1], map["a" := A1, "b" := B1], map["a" := West, "b" := Pulled]), {"a", "b"}, ["b"], {"a-b-0"}, ["b"]);
    assert Other(AB, "a") == "b";
    assert Placing(placed, 1, "b", B, Pulled) == w1.layout;
    assert Insert([], "b") == ["b"];
    assert PullOneOf(index, h, "a", West, AB, start) == w1;
    assert [AB][1..] == [];
    assert PullLinksOf(index, h, "a", West, [AB], start) == w1;
    assert |index| == 2;
    var w2 := w1.(queue := []);
    assert w1.queue[1..] == [];
    assert PullNextOf(index, adjacency, h, w1) == PullLinksOf(index, h, "b", Pulled, [AB], w2);
    assert PullLinksOf(index, h, "b", Pulled, [AB], w2) == w2;
    assert PullRunOf(index, adjacency, h, w1, 2) == PullRunOf(index, adjacency, h, w2, 1);
  }

  /** After the pull the two nodes stand 555 apart, so the push moves nothing. */
  lemma StaleSwept(h: Hypot, rnd: Random)
    requires IsHypot(h)
    ensures var b := Layout([A1, B1], map["a" := A1, "b" := B1], map["a" := West, "b" := Pulled]);
      var s := ResolveCollisionsOf(map["a" := 0, "b" := 1], h, rnd, b, Some(["b", "a"]));
      s.layout == b && s.moved == []
  {
    var index := map["a" := 0, "b" := 1];
    var ts := [A1, B1];
    var b := Layout(ts, map["a" := A1, "b" := B1], map["a" := West, "b" := Pulled]);
    HypotOf(h, 555.0, 0.0, 555.0);
    HypotOf(h, -555.0, 0.0, 555.0);
    assert PairApart(ts, h, 0, 1) && PairApart(ts, h, 1, 0);
    assert IsSynced(ts, b.lookup, index);
    ResolveCollisionsSpread(index, h, rnd, b, Some(["b", "a"]));
  }

  /** The whole move: b is pulled to (255, 0), nothing collides, and a and b have moved. */
  lemma StaleMove(h: Hypot, rnd: Random)
    requires IsHypot(h)
    ensures DragMoveOf(map["a" := 0, "b" := 1], map["a" := [AB], "b" := [AB]], h, rnd,
        Layout([A, B], map["a" := A, "b" := B], map[]), "a", A, West)
      == Moved(Layout([A1, B1], map["a" := A1, "b" := B1], map["a" := West, "b" := Pulled]), ["b", "a"])
  {
    var b := Layout([A, B], map["a" := A, "b" := B], map[]);
    assert Placing(b, 0, "a", A, West) == Layout([A1, B], map["a" := A1, "b" := B], map["a" := West]);
    StalePulled(h);
    assert Insert(["b"], "a") == ["b", "a"];
    StaleSwept(h, rnd);
  }

  /** The store of [A, B] and `startNodeDrag("a", event)` on it with the secondary button
      at (0, 0) and zoom 1. */
  method StartAB() returns (session: DragSession)
    ensures fresh(session) && fresh(session.store) && session.Valid() && !session.finished
    ensures session.topicId == "a" && session.index == 0 && session.zoom == 1.0 && session.snapshot == [A, B]
    ensures session.startPos == Point(0.0, 0.0) && session.startPointer == Point(0.0, 0.0)
    ensures session.store.topics == [A, B] && session.store.lookup == map["a" := A, "b" := B]
    ensures session.store.index == map["a" := 0, "b" := 1] && session.store.shown == map[]
  {
    assert DistinctIds([A, B]);
    var store := new Store([A, B]);
    IndexOfAB();
    LookupOfAB();
    var s := StartNodeDrag(store, "a", 2, Point(0.0, 0.0), 1.0);
    assert s != null;
    session := s;
  }

  /** Then one `handleMove` to (-300, 0). */
  method DragAWest(h: Hypot, rnd: Random) returns (session: DragSession)
    requires IsHypot(h)
    ensures fresh(session) && fresh(session.store)
    ensures session.Valid() && !session.finished && session.snapshot == [A, B]
    ensures session.store.lookup == map["a" := A1, "b" := B1]
    ensures session.store.topics == [A1, B1]
  {
    session := StartAB();
    var adjacency := BuildAdjacency([AB]);
    AdjacencyOfAB();
    assert DragTarget(Point(0.0, 0.0), Point(0.0, 0.0), West, 1.0) == West;
    StaleMove(h, rnd);
    var stretch, moved := session.HandleMove(West, adjacency, [AB], h, rnd);
  }

  /** The hook's cancel after that move: the stretch map it publishes shows the link
      fully stretched, though the array is back at the start, 300 apart. */
  method StaleStretchTrace(h: Hypot, rnd: Random) returns (stretch: Option<map<string, real>>)
    requires IsHypot(h)
    ensures stretch == Some(map["a-b-0" := 1.0])
  {
    var session := DragAWest(h, rnd);
    var published;
    published, stretch := session.FinishDragHook(false, [AB], h);
    StaleRatio(h);
  }

  /** The component's cancel after the same move rebuilds the lookup from the copy, so
      the stretch map it publishes is the one of the restored positions: empty. */
  method RestoredStretchTrace(h: Hypot, rnd: Random) returns (stretch: Option<map<string, real>>)
    requires IsHypot(h)
    ensures stretch == Some(map[])
  {
    var session := DragAWest(h, rnd);
    var published;
    published, stretch := session.FinishDrag(false, [AB], h);
    LookupOfAB();
    RestoredRatio(h);
  }

  /** Two topics 300 apart and linked; the hook drags a to (-300, 0). The pull moves b 45
      toward it, to (255, 0), and nothing collides. A cancel then puts the array back but
      keeps this lookup, so the stretch map it rebuilds shows the link fully stretched,
      while at the restored positions the link is not stretched at all. */
  lemma StaleStretchOnCancel(h: Hypot)
    requires IsHypot(h)
    ensures PullStep(h, Point(-300.0, 0.0), B.position) == Some(Point(255.0, 0.0))
    ensures ContactOf(h, Point(-300.0, 0.0), Point(255.0, 0.0)).Apart?
    ensures StretchMapOf([AB], map["a" := A.(position := Point(-300.0, 0.0)), "b" := B.(position := Point(255.0, 0.0))], h)
      == map["a-b-0" := 1.0]
    ensures StretchMapOf([AB], LookupOf([A, B]), h) == map[]
  {
    StalePull(h);
    StaleApart(h);
    StaleRatio(h);
    LookupOfAB();
    RestoredRatio(h);
  }
}
