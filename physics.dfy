/** The three passes that re-lay-out the map after every drag move, over the topic
    store: `rebuildStretchMap` (which links are drawn stretched, and how much),
    `pullConnected` (a breadth-first walk from the dragged node that drags the far
    end of every over-long link toward it) and `resolveCollisions` (a worklist that
    pushes overlapping nodes apart). */
module LayoutPhysics {
  import opened Seqs
  import opened Geometry
  import opened Topics
  import opened Links
  import opened TopicStore
  import opened LayoutSteps

  // ---------------------------------------------------------------- rebuildStretchMap

  /** The stretch ratio of a link whose two ends resolve in the lookup. */
  function LinkRatio(l: Link, lookup: map<TopicId, Topic>, h: Hypot): Option<real>
    requires IsHypot(h)
  {
    if l.source in lookup && l.target in lookup then
      StretchRatio(h, lookup[l.source].position, lookup[l.target].position)
    else None
  }

  /** The map `rebuildStretchMap` fills: `map.set(link.id, ratio)` for each link in order. */
  function StretchMapOf(links: seq<Link>, lookup: map<TopicId, Topic>, h: Hypot): map<string, real>
    requires IsHypot(h)
  {
    if links == [] then map[]
    else
      var l := links[|links| - 1];
      var m := StretchMapOf(links[..|links| - 1], lookup, h);
      var r := LinkRatio(l, lookup, h);
      if r.Some? then m[l.id := r.value] else m
  }

  /** No other link carries the id of links[i]. */
  predicate OnlyWithId(links: seq<Link>, i: nat)
    requires i < |links|
  {
    forall j :: 0 <= j < |links| && j != i ==> links[j].id != links[i].id
  }

  /** A link's ratio, when it has one, is in (0.001, 1]. */
  lemma LinkRatioBounds(l: Link, lookup: map<TopicId, Topic>, h: Hypot)
    requires IsHypot(h) && LinkRatio(l, lookup, h).Some?
    ensures 0.001 < LinkRatio(l, lookup, h).value <= 1.0
  {
  }

  /** The stretch map holds an id iff some link with that id has both ends resolved and is
      longer than MAX_LINK_LENGTH by more than a thousandth of STRETCH_BAND. */
  lemma {:induction false} StretchMapKeys(links: seq<Link>, lookup: map<TopicId, Topic>, h: Hypot)
    requires IsHypot(h)
    ensures forall id :: id in StretchMapOf(links, lookup, h) <==>
      exists i :: 0 <= i < |links| && links[i].id == id && LinkRatio(links[i], lookup, h).Some?
  {
    if links != [] {
      var init := links[..|links| - 1];
      var l := links[|links| - 1];
      StretchMapKeys(init, lookup, h);
      var m0 := StretchMapOf(init, lookup, h);
      var m := StretchMapOf(links, lookup, h);
      var r := LinkRatio(l, lookup, h);
      assert m == if r.Some? then m0[l.id := r.value] else m0;
      forall id | id in m
        ensures exists i :: 0 <= i < |links| && links[i].id == id && LinkRatio(links[i], lookup, h).Some?
      {
        if id == l.id && r.Some? {
          assert links[|links| - 1] == l;
        } else {
          var i :| 0 <= i < |init| && init[i].id == id && LinkRatio(init[i], lookup, h).Some?;
          assert links[i] == init[i];
        }
      }
      forall id | exists i :: 0 <= i < |links| && links[i].id == id && LinkRatio(links[i], lookup, h).Some?
        ensures id in m
      {
        var i :| 0 <= i < |links| && links[i].id == id && LinkRatio(links[i], lookup, h).Some?;
        if i < |init| {
          assert init[i] == links[i];
        }
      }
    }
  }

  /** The value stored for an id is the ratio of some link with that id. */
  lemma {:induction false} StretchMapValues(links: seq<Link>, lookup: map<TopicId, Topic>, h: Hypot)
    requires IsHypot(h)
    ensures forall id :: id in StretchMapOf(links, lookup, h) ==>
      exists i :: 0 <= i < |links| && links[i].id == id && LinkRatio(links[i], lookup, h) == Some(StretchMapOf(links, lookup, h)[id])
  {
    if links != [] {
      var init := links[..|links| - 1];
      var l := links[|links| - 1];
      StretchMapValues(init, lookup, h);
      var m0 := StretchMapOf(init, lookup, h);
      var m := StretchMapOf(links, lookup, h);
      var r := LinkRatio(l, lookup, h);
      assert m == if r.Some? then m0[l.id := r.value] else m0;
      forall id | id in m
        ensures exists i :: 0 <= i < |links| && links[i].id == id && LinkRatio(links[i], lookup, h) == Some(m[id])
      {
        if id == l.id && r.Some? {
          assert links[|links| - 1] == l;
        } else {
          var i :| 0 <= i < |init| && init[i].id == id && LinkRatio(init[i], lookup, h) == Some(m0[id]);
          assert links[i] == init[i];
        }
      }
    }
  }

  /** Every stretch ratio is in (0.001, 1]. */
  lemma StretchMapBounds(links: seq<Link>, lookup: map<TopicId, Topic>, h: Hypot)
    requires IsHypot(h)
    ensures forall id :: id in StretchMapOf(links, lookup, h) ==> 0.001 < StretchMapOf(links, lookup, h)[id] <= 1.0
  {
    StretchMapValues(links, lookup, h);
    forall id | id in StretchMapOf(links, lookup, h) ensures 0.001 < StretchMapOf(links, lookup, h)[id] <= 1.0 {
      var i :| 0 <= i < |links| && links[i].id == id && LinkRatio(links[i], lookup, h) == Some(StretchMapOf(links, lookup, h)[id]);
      LinkRatioBounds(links[i], lookup, h);
    }
  }

  /** A link whose id no other link carries is keyed iff it has a ratio, and then by that
      ratio (the laneified links have distinct ids). */
  lemma {:induction false} StretchMapLast(links: seq<Link>, lookup: map<TopicId, Topic>, h: Hypot, i: nat)
    requires IsHypot(h) && i < |links| && OnlyWithId(links, i)
    ensures links[i].id in StretchMapOf(links, lookup, h) <==> LinkRatio(links[i], lookup, h).Some?
    ensures links[i].id in StretchMapOf(links, lookup, h) ==>
      StretchMapOf(links, lookup, h)[links[i].id] == LinkRatio(links[i], lookup, h).value
  {
    var init := links[..|links| - 1];
    var l := links[|links| - 1];
    var m0 := StretchMapOf(init, lookup, h);
    var r := LinkRatio(l, lookup, h);
    assert StretchMapOf(links, lookup, h) == if r.Some? then m0[l.id := r.value] else m0;
    if i < |init| {
      assert init[i] == links[i];
      assert OnlyWithId(init, i);
      assert links[i].id != l.id;
      StretchMapLast(init, lookup, h, i);
    } else {
      StretchMapKeys(init, lookup, h);
      assert forall j :: 0 <= j < |init| ==> init[j] == links[j];
    }
  }

  /** `rebuildStretchMap` */
  method RebuildStretchMap(links: seq<Link>, lookup: map<TopicId, Topic>, h: Hypot) returns (m: map<string, real>)
    requires IsHypot(h)
    ensures m == StretchMapOf(links, lookup, h)
  {
    m := map[];
    for j := 0 to |links|
      invariant m == StretchMapOf(links[..j], lookup, h)
    {
      assert links[..j + 1][..j] == links[..j];
      var link := links[j];
      if link.source in lookup && link.target in lookup {
        var ratio := StretchRatio(h, lookup[link.source].position, lookup[link.target].position);
        if ratio.Some? {
          m := m[link.id := ratio.value];
        }
      }
    }
    assert links[..|links|] == links;
  }

  // ---------------------------------------------------------------- pullConnected

  /** The far end of a link seen from c: `link.source === c ? link.target : link.source`. */
  function Other(l: Link, c: TopicId): (r: TopicId)
    ensures r == l.source || r == l.target
    ensures l.source == c ==> r == l.target
    ensures l.source != c ==> r == l.source
  {
    if l.source == c then l.target else l.source
  }

  /** No link listed under a resolved node, with its far end resolved too, is longer than
      MAX_LINK_LENGTH: the layout has nothing to pull. */
  ghost predicate Slack(adjacency: map<TopicId, seq<Link>>, lookup: map<TopicId, Topic>, h: Hypot)
    requires IsHypot(h)
  {
    forall k, l :: k in lookup && l in ListOf(adjacency, k) && Other(l, k) in lookup ==>
      h(lookup[k].position.x - lookup[Other(l, k)].position.x,
        lookup[k].position.y - lookup[Other(l, k)].position.y) <= MAX_LINK_LENGTH
  }

  /** Under Slack, no link pulls. */
  lemma SlackNoPull(adjacency: map<TopicId, seq<Link>>, lookup: map<TopicId, Topic>, h: Hypot, k: TopicId, l: Link)
    requires IsHypot(h) && Slack(adjacency, lookup, h)
    requires k in lookup && l in ListOf(adjacency, k) && Other(l, k) in lookup
    ensures PullStep(h, lookup[k].position, lookup[Other(l, k)].position).None?
  {
  }

  /** The far ends of the links not processed before, seen from c. */
  function Reached(links: seq<Link>, processed0: set<string>, c: TopicId): (r: set<TopicId>)
    ensures forall l :: l in links && l.id !in processed0 ==> Other(l, c) in r
  {
    set l | l in links && l.id !in processed0 :: Other(l, c)
  }

  /** No link of links whose far end resolves would pull that end toward current. */
  ghost predicate NoPull(h: Hypot, c: TopicId, current: Point, links: seq<Link>, lookup: map<TopicId, Topic>)
    requires IsHypot(h)
  {
    forall l :: l in links && Other(l, c) in lookup ==> PullStep(h, current, lookup[Other(l, c)].position).None?
  }

  /** links[j] is the first link of the list with its id. */
  predicate FirstWithId(links: seq<Link>, j: nat)
    requires j < |links|
  {
    forall k :: 0 <= k < j ==> links[k].id != links[j].id
  }

  /** The state of the `pullConnected` walk: the layout it writes, and its `visited`,
      `queue`, `processedLinks` and `moved` (kept in insertion order). */
  datatype Walk = Walk(layout: Layout, visited: set<TopicId>, queue: seq<TopicId>, processed: set<string>, moved: seq<TopicId>)

  /** One link of the `neighbors.forEach` of c, which stands at current: unless processed
      already it is marked processed, and a far end that is indexed, resolved and more than
      MAX_LINK_LENGTH away is put at PullStep's point in the map and the array, drawn there,
      recorded as moved and, unless visited, marked visited and enqueued. */
  function PullOneOf(index: map<TopicId, nat>, h: Hypot, c: TopicId, current: Point, link: Link, w: Walk): (r: Walk)
    requires IsHypot(h) && Fits(index, w.layout.topics)
    ensures |r.layout.topics| == |w.layout.topics|
  {
    if link.id in w.processed then w
    else
      var processed := w.processed + {link.id};
      var neighborId := Other(link, c);
      if neighborId in index && neighborId in w.layout.lookup then
        var neighbor := w.layout.lookup[neighborId];
        var step := PullStep(h, current, neighbor.position);
        if step.Some? then
          var e := Enqueue(w.queue, w.visited, neighborId);
          Walk(Placing(w.layout, index[neighborId], neighborId, neighbor, step.value), e.1, e.0, processed, Insert(w.moved, neighborId))
        else w.(processed := processed)
      else w.(processed := processed)
  }

  /** The `neighbors.forEach` of c over links, in order. */
  function PullLinksOf(index: map<TopicId, nat>, h: Hypot, c: TopicId, current: Point, links: seq<Link>, w: Walk): (r: Walk)
    requires IsHypot(h) && Fits(index, w.layout.topics)
    ensures |r.layout.topics| == |w.layout.topics|
    decreases |links|
  {
    if links == [] then w
    else PullLinksOf(index, h, c, current, links[1..], PullOneOf(index, h, c, current, links[0], w))
  }

  /** One turn of `while (queue.length)`: dequeue the head and, if the map resolves it, run
      its `forEach` over `adjacency.get(currentId) || []` from where the map has it. */
  function PullNextOf(index: map<TopicId, nat>, adjacency: map<TopicId, seq<Link>>, h: Hypot, w: Walk): (r: Walk)
    requires IsHypot(h) && Fits(index, w.layout.topics) && w.queue != []
    ensures |r.layout.topics| == |w.layout.topics|
  {
    var c := w.queue[0];
    var w1 := w.(queue := w.queue[1..]);
    if c in w.layout.lookup then PullLinksOf(index, h, c, w.layout.lookup[c].position, ListOf(adjacency, c), w1)
    else w1
  }

  /** The loop, for at most fuel turns. */
  function PullRunOf(index: map<TopicId, nat>, adjacency: map<TopicId, seq<Link>>, h: Hypot, w: Walk, fuel: nat): (r: Walk)
    requires IsHypot(h) && Fits(index, w.layout.topics)
    ensures |r.layout.topics| == |w.layout.topics|
    decreases fuel
  {
    if w.queue == [] || fuel == 0 then w
    else PullRunOf(index, adjacency, h, PullNextOf(index, adjacency, h, w), fuel - 1)
  }

  /** The turns the walk is given: one per indexed id and one for the root. */
  function Rounds(index: map<TopicId, nat>): nat {
    |index| + 1
  }

  /** `pullConnected(rootId)` from the layout b. Every id is dequeued at most once, so
      |index| + 1 turns drain the queue (PullConnectedSpec). */
  function PullConnectedOf(index: map<TopicId, nat>, adjacency: map<TopicId, seq<Link>>, h: Hypot, b: Layout, rootId: TopicId): (r: Walk)
    requires IsHypot(h) && Fits(index, b.topics)
    ensures |r.layout.topics| == |b.topics|
  {
    PullRunOf(index, adjacency, h, Walk(b, {rootId}, [rootId], {}, []), Rounds(index))
  }

  // The queue discipline: each id is enqueued at most once, and only indexed ids are.

  lemma PullOneWorklist(index: map<TopicId, nat>, h: Hypot, c: TopicId, current: Point, link: Link, w: Walk, done: seq<TopicId>)
    requires IsHypot(h) && Fits(index, w.layout.topics) && Worklist(done, w.queue, w.visited)
    ensures var r := PullOneOf(index, h, c, current, link, w);
      Worklist(done, r.queue, r.visited) && r.visited <= w.visited + index.Keys
  {
    var neighborId := Other(link, c);
    if link.id !in w.processed && neighborId in index && neighborId in w.layout.lookup {
      WorklistEnqueue(done, w.queue, w.visited, neighborId);
    }
  }

  lemma {:induction false} PullLinksWorklist(
    index: map<TopicId, nat>, h: Hypot, c: TopicId, current: Point, links: seq<Link>, w: Walk, done: seq<TopicId>)
    requires IsHypot(h) && Fits(index, w.layout.topics) && Worklist(done, w.queue, w.visited)
    ensures var r := PullLinksOf(index, h, c, current, links, w);
      Worklist(done, r.queue, r.visited) && r.visited <= w.visited + index.Keys
    decreases |links|
  {
    if links != [] {
      PullOneWorklist(index, h, c, current, links[0], w, done);
      PullLinksWorklist(index, h, c, current, links[1..], PullOneOf(index, h, c, current, links[0], w), done);
    }
  }

  lemma PullNextWorklist(index: map<TopicId, nat>, adjacency: map<TopicId, seq<Link>>, h: Hypot, w: Walk, done: seq<TopicId>)
    requires IsHypot(h) && Fits(index, w.layout.topics) && w.queue != [] && Worklist(done, w.queue, w.visited)
    ensures var r := PullNextOf(index, adjacency, h, w);
      Worklist(done + [w.queue[0]], r.queue, r.visited) && r.visited <= w.visited + index.Keys
  {
    var c := w.queue[0];
    WorklistDequeue(done, w.queue, w.visited);
    if c in w.layout.lookup {
      PullLinksWorklist(index, h, c, w.layout.lookup[c].position, ListOf(adjacency, c), w.(queue := w.queue[1..]), done + [c]);
    }
  }

  /** Dequeuing ids of a finite universe that holds every indexed id, the walk has drained
      its queue once it has had as many turns as the universe has ids. */
  lemma {:induction false} PullRunDrains(
    index: map<TopicId, nat>, adjacency: map<TopicId, seq<Link>>, h: Hypot, universe: set<TopicId>,
    done: seq<TopicId>, w: Walk, fuel: nat)
    requires IsHypot(h) && Fits(index, w.layout.topics) && Worklist(done, w.queue, w.visited)
    requires w.visited <= universe && index.Keys <= universe && |done| + fuel >= |universe|
    ensures PullRunOf(index, adjacency, h, w, fuel).queue == []
    decreases fuel
  {
    WorklistBound(done, w.queue, w.visited, universe);
    if w.queue != [] {
      PullNextWorklist(index, adjacency, h, w, done);
      PullRunDrains(index, adjacency, h, universe, done + [w.queue[0]], PullNextOf(index, adjacency, h, w), fuel - 1);
    }
  }

  // What one link, one node's links and one turn do.

  /** One link: c stays put, the link is processed, and `moved` only grows. The far end is
      moved iff the link was not processed before and the end is indexed, resolved and too
      far; it then stands at PullStep's point in both records, is drawn there, is the one
      id added to `moved` and is visited. Otherwise only `processed` changes. */
  lemma PullOneFacts(index: map<TopicId, nat>, h: Hypot, c: TopicId, current: Point, link: Link, w: Walk)
    requires IsHypot(h) && Fits(index, w.layout.topics)
    requires c in w.layout.lookup && w.layout.lookup[c].position == current
    ensures var r := PullOneOf(index, h, c, current, link, w);
      c in r.layout.lookup && r.layout.lookup[c] == w.layout.lookup[c] &&
      r.processed == w.processed + {link.id} &&
      (forall id :: id in w.moved ==> id in r.moved) &&
      (forall id :: id in r.moved && id !in w.moved ==> id == Other(link, c) && id != c && link.id !in w.processed)
    ensures var r := PullOneOf(index, h, c, current, link, w);
      var nb := Other(link, c);
      if link.id !in w.processed && nb in index && nb in w.layout.lookup &&
         PullStep(h, current, w.layout.lookup[nb].position).Some?
      then
        var rec := w.layout.lookup[nb].(position := PullStep(h, current, w.layout.lookup[nb].position).value);
        nb in r.layout.lookup && r.layout.lookup[nb] == rec &&
        r.layout.topics[index[nb]] == rec && nb in r.layout.shown && r.layout.shown[nb] == rec.position &&
        r.moved == Insert(w.moved, nb) && nb in r.visited
      else r.layout == w.layout && r.moved == w.moved && r.queue == w.queue && r.visited == w.visited
  {
    var nb := Other(link, c);
    if link.id !in w.processed && nb in index && nb in w.layout.lookup {
      if PullStep(h, current, w.layout.lookup[nb].position).Some? {
        NoSelfPull(h, current);
      }
    }
  }

  /** One link keeps the layout a pass from b0 that moved the ids in `moved`. */
  lemma PullOnePassed(index: map<TopicId, nat>, h: Hypot, c: TopicId, current: Point, link: Link, w: Walk, b0: Layout)
    requires IsHypot(h) && Passed(index, b0, w.layout, w.moved)
    ensures var r := PullOneOf(index, h, c, current, link, w);
      Passed(index, b0, r.layout, r.moved)
  {
    var nb := Other(link, c);
    if link.id !in w.processed && nb in index && nb in w.layout.lookup {
      var neighbor := w.layout.lookup[nb];
      var step := PullStep(h, current, neighbor.position);
      if step.Some? {
        PassedStep(index, b0, w.layout, w.moved, nb, neighbor, step.value);
      }
    }
  }

  /** The `forEach` of c: c stays put, every link of the list ends up processed, `moved`
      only grows, and what it gains is the far end of a link not processed before. When no
      link would pull, nothing changes. */
  lemma {:induction false} PullLinksFacts(
    index: map<TopicId, nat>, h: Hypot, c: TopicId, current: Point, links: seq<Link>, w: Walk)
    requires IsHypot(h) && Fits(index, w.layout.topics)
    requires c in w.layout.lookup && w.layout.lookup[c].position == current
    ensures var r := PullLinksOf(index, h, c, current, links, w);
      c in r.layout.lookup && r.layout.lookup[c] == w.layout.lookup[c] &&
      w.processed <= r.processed && (forall l :: l in links ==> l.id in r.processed) &&
      (forall id :: id in w.moved ==> id in r.moved) &&
      (forall id :: id in r.moved && id !in w.moved ==> id != c && id in Reached(links, w.processed, c)) &&
      (NoPull(h, c, current, links, w.layout.lookup) ==> r.layout == w.layout && r.moved == w.moved)
    decreases |links|
  {
    if links != [] {
      var w1 := PullOneOf(index, h, c, current, links[0], w);
      PullOneFacts(index, h, c, current, links[0], w);
      PullLinksFacts(index, h, c, current, links[1..], w1);
      var r := PullLinksOf(index, h, c, current, links, w);
      assert links[0] in links;
      assert forall l :: l in links[1..] ==> l in links;
      forall id | id in r.moved && id !in w.moved ensures id in Reached(links, w.processed, c) {
        if id !in w1.moved {
          var l :| l in links[1..] && l.id !in w1.processed && Other(l, c) == id;
          assert l in links;
        }
      }
    }
  }

  lemma {:induction false} PullLinksPassed(
    index: map<TopicId, nat>, h: Hypot, c: TopicId, current: Point, links: seq<Link>, w: Walk, b0: Layout)
    requires IsHypot(h) && Passed(index, b0, w.layout, w.moved)
    ensures var r := PullLinksOf(index, h, c, current, links, w);
      Passed(index, b0, r.layout, r.moved)
    decreases |links|
  {
    if links != [] {
      PullOnePassed(index, h, c, current, links[0], w, b0);
      PullLinksPassed(index, h, c, current, links[1..], PullOneOf(index, h, c, current, links[0], w), b0);
    }
  }

  /** Every link of the list that is the first with its id and was not processed before
      pulls its far end when that end is indexed, resolved and too far from current: the
      end is then among the moved. */
  lemma {:induction false} PullLinksReach(
    index: map<TopicId, nat>, h: Hypot, c: TopicId, current: Point, links: seq<Link>, w: Walk)
    requires IsHypot(h) && Fits(index, w.layout.topics)
    requires c in w.layout.lookup && w.layout.lookup[c].position == current
    ensures var r := PullLinksOf(index, h, c, current, links, w);
      forall j :: (0 <= j < |links| && FirstWithId(links, j) && links[j].id !in w.processed &&
        Other(links[j], c) in index && Other(links[j], c) in w.layout.lookup &&
        PullStep(h, current, w.layout.lookup[Other(links[j], c)].position).Some?) ==>
        Other(links[j], c) in r.moved
    decreases |links|
  {
    if links != [] {
      var w1 := PullOneOf(index, h, c, current, links[0], w);
      var r := PullLinksOf(index, h, c, current, links, w);
      PullOneFacts(index, h, c, current, links[0], w);
      PullLinksFacts(index, h, c, current, links[1..], w1);
      PullLinksReach(index, h, c, current, links[1..], w1);
      forall j | 0 <= j < |links| && FirstWithId(links, j) && links[j].id !in w.processed &&
        Other(links[j], c) in index && Other(links[j], c) in w.layout.lookup &&
        PullStep(h, current, w.layout.lookup[Other(links[j], c)].position).Some?
        ensures Other(links[j], c) in r.moved
      {
        var nb := Other(links[j], c);
        if j > 0 && nb !in w1.moved {
          assert links[1..][j - 1] == links[j];
          assert FirstWithId(links[1..], j - 1) by {
            forall k | 0 <= k < j - 1 ensures links[1..][k].id != links[j].id {
              assert links[1..][k] == links[k + 1];
            }
          }
          assert links[j].id != links[0].id;
          assert w1.layout.lookup[nb] == w.layout.lookup[nb];
        }
      }
    }
  }

  /** One turn: `processed` and `moved` only grow, what `moved` gains is the far end of a
      link of the dequeued node not processed before, and that node's links are all
      processed if the map resolves it. When no link of the layout would pull, nothing
      changes. */
  lemma PullNextFacts(index: map<TopicId, nat>, adjacency: map<TopicId, seq<Link>>, h: Hypot, w: Walk)
    requires IsHypot(h) && Fits(index, w.layout.topics) && w.queue != []
    ensures var r := PullNextOf(index, adjacency, h, w);
      var c := w.queue[0];
      w.processed <= r.processed &&
      (forall id :: id in w.moved ==> id in r.moved) &&
      (c in w.layout.lookup ==> forall l :: l in ListOf(adjacency, c) ==> l.id in r.processed) &&
      (forall id :: id in r.moved && id !in w.moved ==> id != c && id in Reached(ListOf(adjacency, c), w.processed, c)) &&
      (Slack(adjacency, w.layout.lookup, h) ==> r.layout == w.layout && r.moved == w.moved)
  {
    var c := w.queue[0];
    if c in w.layout.lookup {
      var current := w.layout.lookup[c].position;
      PullLinksFacts(index, h, c, current, ListOf(adjacency, c), w.(queue := w.queue[1..]));
      if Slack(adjacency, w.layout.lookup, h) {
        forall l | l in ListOf(adjacency, c) && Other(l, c) in w.layout.lookup
          ensures PullStep(h, current, w.layout.lookup[Other(l, c)].position).None?
        {
          SlackNoPull(adjacency, w.layout.lookup, h, c, l);
        }
      }
    }
  }

  lemma PullNextPassed(index: map<TopicId, nat>, adjacency: map<TopicId, seq<Link>>, h: Hypot, w: Walk, b0: Layout)
    requires IsHypot(h) && Passed(index, b0, w.layout, w.moved) && w.queue != []
    ensures var r := PullNextOf(index, adjacency, h, w);
      Passed(index, b0, r.layout, r.moved)
  {
    var c := w.queue[0];
    if c in w.layout.lookup {
      PullLinksPassed(index, h, c, w.layout.lookup[c].position, ListOf(adjacency, c), w.(queue := w.queue[1..]), b0);
    }
  }

  // What the whole loop does.

  lemma {:induction false} PullRunPassed(
    index: map<TopicId, nat>, adjacency: map<TopicId, seq<Link>>, h: Hypot, b0: Layout, w: Walk, fuel: nat)
    requires IsHypot(h) && Passed(index, b0, w.layout, w.moved)
    ensures var r := PullRunOf(index, adjacency, h, w, fuel);
      Passed(index, b0, r.layout, r.moved)
    decreases fuel
  {
    if w.queue != [] && fuel > 0 {
      PullNextPassed(index, adjacency, h, w, b0);
      PullRunPassed(index, adjacency, h, b0, PullNextOf(index, adjacency, h, w), fuel - 1);
    }
  }

  /** `processed` and `moved` only grow. */
  lemma {:induction false} PullRunGrows(
    index: map<TopicId, nat>, adjacency: map<TopicId, seq<Link>>, h: Hypot, w: Walk, fuel: nat)
    requires IsHypot(h) && Fits(index, w.layout.topics)
    ensures var r := PullRunOf(index, adjacency, h, w, fuel);
      w.processed <= r.processed && forall id :: id in w.moved ==> id in r.moved
    decreases fuel
  {
    if w.queue != [] && fuel > 0 {
      PullNextFacts(index, adjacency, h, w);
      PullRunGrows(index, adjacency, h, PullNextOf(index, adjacency, h, w), fuel - 1);
    }
  }

  /** A layout with nothing to pull is left as it is. */
  lemma {:induction false} PullRunSlack(
    index: map<TopicId, nat>, adjacency: map<TopicId, seq<Link>>, h: Hypot, w: Walk, fuel: nat)
    requires IsHypot(h) && Fits(index, w.layout.topics) && Slack(adjacency, w.layout.lookup, h)
    ensures var r := PullRunOf(index, adjacency, h, w, fuel);
      r.layout == w.layout && r.moved == w.moved
    decreases fuel
  {
    if w.queue != [] && fuel > 0 {
      PullNextFacts(index, adjacency, h, w);
      PullRunSlack(index, adjacency, h, PullNextOf(index, adjacency, h, w), fuel - 1);
    }
  }

  /** The root's links were all processed on its dequeue, so a later node reaching the root
      over a link would need a link the adjacency lists under the root too. */
  lemma RootStaysPut(
    adjacency: map<TopicId, seq<Link>>, rootId: TopicId, c: TopicId,
    processed0: set<string>, moved0: seq<TopicId>, moved: seq<TopicId>)
    requires AdjacencyClosed(adjacency)
    requires forall l :: l in ListOf(adjacency, rootId) ==> l.id in processed0
    requires rootId !in moved0
    requires forall id :: id in moved && id !in moved0 ==> id != c && id in Reached(ListOf(adjacency, c), processed0, c)
    ensures rootId !in moved
  {
  }

  /** Once the root's links are processed, the root is never moved. */
  lemma {:induction false} PullRunRootStays(
    index: map<TopicId, nat>, adjacency: map<TopicId, seq<Link>>, h: Hypot, rootId: TopicId, w: Walk, fuel: nat)
    requires IsHypot(h) && Fits(index, w.layout.topics) && AdjacencyClosed(adjacency)
    requires forall l :: l in ListOf(adjacency, rootId) ==> l.id in w.processed
    requires rootId !in w.moved
    ensures rootId !in PullRunOf(index, adjacency, h, w, fuel).moved
    decreases fuel
  {
    if w.queue != [] && fuel > 0 {
      var r := PullNextOf(index, adjacency, h, w);
      PullNextFacts(index, adjacency, h, w);
      RootStaysPut(adjacency, rootId, w.queue[0], w.processed, w.moved, r.moved);
      PullRunRootStays(index, adjacency, h, rootId, r, fuel - 1);
    }
  }

  /** Every over-long link of the root (the first with its id) whose far end is indexed and
      resolved in b0 has pulled that end. */
  ghost predicate RootPulled(
    index: map<TopicId, nat>, adjacency: map<TopicId, seq<Link>>, h: Hypot, rootId: TopicId, b0: Layout, moved: seq<TopicId>)
    requires IsHypot(h) && rootId in b0.lookup
  {
    var links := ListOf(adjacency, rootId);
    forall j :: (0 <= j < |links| && FirstWithId(links, j) &&
      Other(links[j], rootId) in index && Other(links[j], rootId) in b0.lookup &&
      PullStep(h, b0.lookup[rootId].position, b0.lookup[Other(links[j], rootId)].position).Some?) ==>
      Other(links[j], rootId) in moved
  }

  /** The walk starts with a turn for the root. */
  lemma PullConnectedUnfolds(index: map<TopicId, nat>, adjacency: map<TopicId, seq<Link>>, h: Hypot, b: Layout, rootId: TopicId)
    requires IsHypot(h) && Fits(index, b.topics)
    ensures var w1 := PullNextOf(index, adjacency, h, Walk(b, {rootId}, [rootId], {}, []));
      PullConnectedOf(index, adjacency, h, b, rootId) == PullRunOf(index, adjacency, h, w1, Rounds(index) - 1)
  {
  }

  /** The first turn dequeues the root and runs its `forEach` from the layout b. */
  lemma PullFirstTurn(index: map<TopicId, nat>, adjacency: map<TopicId, seq<Link>>, h: Hypot, b: Layout, rootId: TopicId)
    requires IsHypot(h) && IsIndexed(b.topics, b.lookup, index) && Fits(index, b.topics)
    ensures var w0 := Walk(b, {rootId}, [rootId], {}, []);
      var w1 := PullNextOf(index, adjacency, h, w0);
      rootId !in w1.moved &&
      (rootId !in index ==> w1.layout == b && w1.moved == [] && w1.queue == []) &&
      (rootId in index ==>
        (forall l :: l in ListOf(adjacency, rootId) ==> l.id in w1.processed) &&
        RootPulled(index, adjacency, h, rootId, b, w1.moved))
  {
    var w0 := Walk(b, {rootId}, [rootId], {}, []);
    PullNextFacts(index, adjacency, h, w0);
    if rootId in index {
      assert rootId in b.lookup;
      var start := w0.(queue := []);
      assert w0.queue[1..] == [];
      assert PullNextOf(index, adjacency, h, w0) ==
        PullLinksOf(index, h, rootId, b.lookup[rootId].position, ListOf(adjacency, rootId), start);
      PullLinksReach(index, h, rootId, b.lookup[rootId].position, ListOf(adjacency, rootId), start);
    }
  }

  lemma RootPulledGrows(
    index: map<TopicId, nat>, adjacency: map<TopicId, seq<Link>>, h: Hypot, rootId: TopicId, b0: Layout,
    moved: seq<TopicId>, moved': seq<TopicId>)
    requires IsHypot(h) && rootId in b0.lookup && RootPulled(index, adjacency, h, rootId, b0, moved)
    requires forall id :: id in moved ==> id in moved'
    ensures RootPulled(index, adjacency, h, rootId, b0, moved')
  {
  }

  /** `pullConnected` is a layout pass from b: it drains its queue; the root never moves
      when the adjacency lists every link under both of its ends; an unresolved root moves
      nothing; a layout with nothing to pull is left as it is; and every over-long link of
      the root pulls its indexed, resolved far end. */
  lemma PullConnectedSpec(index: map<TopicId, nat>, adjacency: map<TopicId, seq<Link>>, h: Hypot, b: Layout, rootId: TopicId)
    requires IsHypot(h) && IsIndexed(b.topics, b.lookup, index) && Fits(index, b.topics)
    ensures var r := PullConnectedOf(index, adjacency, h, b, rootId);
      Passed(index, b, r.layout, r.moved) && r.queue == [] &&
      (AdjacencyClosed(adjacency) ==> rootId !in r.moved) &&
      (rootId !in index ==> r.layout == b && r.moved == []) &&
      (Slack(adjacency, b.lookup, h) ==> r.layout == b && r.moved == []) &&
      (rootId in index ==> RootPulled(index, adjacency, h, rootId, b, r.moved))
  {
    var w0 := Walk(b, {rootId}, [rootId], {}, []);
    var fuel := Rounds(index);
    var r := PullConnectedOf(index, adjacency, h, b, rootId);
    PullConnectedPassed(index, adjacency, h, b, rootId);
    PullConnectedDrains(index, adjacency, h, b, rootId);
    if Slack(adjacency, b.lookup, h) {
      PullRunSlack(index, adjacency, h, w0, fuel);
    }
    PullConnectedUnfolds(index, adjacency, h, b, rootId);
    PullFirstTurn(index, adjacency, h, b, rootId);
    var w1 := PullNextOf(index, adjacency, h, w0);
    PullRunGrows(index, adjacency, h, w1, fuel - 1);
    if rootId in index {
      RootPulledGrows(index, adjacency, h, rootId, b, w1.moved, r.moved);
      if AdjacencyClosed(adjacency) {
        PullRunRootStays(index, adjacency, h, rootId, w1, fuel - 1);
      }
    }
  }

  /** PullConnectedOf is a layout pass from b. */
  lemma PullConnectedPassed(index: map<TopicId, nat>, adjacency: map<TopicId, seq<Link>>, h: Hypot, b: Layout, rootId: TopicId)
    requires IsHypot(h) && IsIndexed(b.topics, b.lookup, index) && Fits(index, b.topics)
    ensures var r := PullConnectedOf(index, adjacency, h, b, rootId);
      Passed(index, b, r.layout, r.moved)
  {
    RelayoutStart(index, b.topics, b.lookup, b.shown);
    PullRunPassed(index, adjacency, h, b, Walk(b, {rootId}, [rootId], {}, []), Rounds(index));
  }

  /** The queue drains within the fuel PullConnectedOf gives it. */
  lemma PullConnectedDrains(index: map<TopicId, nat>, adjacency: map<TopicId, seq<Link>>, h: Hypot, b: Layout, rootId: TopicId)
    requires IsHypot(h) && IsIndexed(b.topics, b.lookup, index) && Fits(index, b.topics)
    ensures PullConnectedOf(index, adjacency, h, b, rootId).queue == []
  {
    assert [] + [rootId] == [rootId];
    CardAddOne(index.Keys, rootId);
    PullRunDrains(index, adjacency, h, index.Keys + {rootId}, [], Walk(b, {rootId}, [rootId], {}, []), Rounds(index));
  }

  /** A turn of the loop with fuel left is one turn of PullRunOf. */
  lemma PullRunNext(index: map<TopicId, nat>, adjacency: map<TopicId, seq<Link>>, h: Hypot, w: Walk, next: Walk, fuel: nat, final: Walk)
    returns (rest: nat)
    requires IsHypot(h) && Fits(index, w.layout.topics) && w.queue != [] && fuel > 0
    requires next == PullNextOf(index, adjacency, h, w) && PullRunOf(index, adjacency, h, w, fuel) == final
    ensures rest < fuel && Fits(index, next.layout.topics) && PullRunOf(index, adjacency, h, next, rest) == final
  {
    rest := fuel - 1;
  }

  /** With nothing clamped, the pulled end stands exactly `pull` closer to the current node. */
  lemma PullOneShortens(index: map<TopicId, nat>, h: Hypot, c: TopicId, current: Point, link: Link, w: Walk)
    requires IsHypot(h) && Fits(index, w.layout.topics)
    requires link.id !in w.processed && Other(link, c) in index && Other(link, c) in w.layout.lookup
    requires h(current.x - w.layout.lookup[Other(link, c)].position.x, current.y - w.layout.lookup[Other(link, c)].position.y) > MAX_LINK_LENGTH
    requires InCanvas(PullTarget(h, current, w.layout.lookup[Other(link, c)].position))
    ensures var r := PullOneOf(index, h, c, current, link, w);
      var n := w.layout.lookup[Other(link, c)].position;
      var d := h(current.x - n.x, current.y - n.y);
      var p := r.layout.lookup[Other(link, c)].position;
      h(current.x - p.x, current.y - p.y) == d - PullAmount(d) && d - PullAmount(d) > MAX_LINK_LENGTH
  {
    PullGeometry(h, current, w.layout.lookup[Other(link, c)].position);
  }

  // The methods: each computes its function on the store.

  /** One link of the `neighbors.forEach`. */
  method PullOne(
    store: Store, c: TopicId, current: Point, link: Link, h: Hypot,
    visited1: set<TopicId>, queue1: seq<TopicId>, processed1: set<string>, moved1: seq<TopicId>)
    returns (visited: set<TopicId>, queue: seq<TopicId>, processed: set<string>, moved: seq<TopicId>)
    requires IsHypot(h) && store.Aligned()
    modifies store
    ensures store.index == old(store.index) && store.Aligned()
    ensures Walk(store.Current(), visited, queue, processed, moved) ==
      PullOneOf(store.index, h, c, current, link, Walk(old(store.Current()), visited1, queue1, processed1, moved1))
  {
    visited, queue, processed, moved := visited1, queue1, processed1, moved1;
    if link.id in processed1 {
      return;
    }
    processed := processed1 + {link.id};
    var neighborId := Other(link, c);
    if neighborId in store.index && neighborId in store.lookup {
      var neighbor := store.lookup[neighborId];
      var step := PullStep(h, current, neighbor.position);
      if step.Some? {
        store.Place(store.index[neighborId], neighborId, neighbor, step.value);
        moved := Insert(moved, neighborId);
        queue, visited := Enqueue(queue, visited, neighborId).0, Enqueue(queue, visited, neighborId).1;
      }
    }
  }

  /** The `neighbors.forEach` of c over links. */
  method PullLinks(
    store: Store, c: TopicId, current: Point, links: seq<Link>, h: Hypot,
    visited0: set<TopicId>, queue0: seq<TopicId>, processed0: set<string>, moved0: seq<TopicId>)
    returns (visited: set<TopicId>, queue: seq<TopicId>, processed: set<string>, moved: seq<TopicId>)
    requires IsHypot(h) && store.Aligned()
    modifies store
    ensures store.index == old(store.index) && store.Aligned()
    ensures Walk(store.Current(), visited, queue, processed, moved) ==
      PullLinksOf(store.index, h, c, current, links, Walk(old(store.Current()), visited0, queue0, processed0, moved0))
  {
    visited, queue, processed, moved := visited0, queue0, processed0, moved0;
    for j := 0 to |links|
      invariant store.index == old(store.index) && store.Aligned()
      invariant PullLinksOf(store.index, h, c, current, links[j..], Walk(store.Current(), visited, queue, processed, moved)) ==
        PullLinksOf(store.index, h, c, current, links, Walk(old(store.Current()), visited0, queue0, processed0, moved0))
    {
      assert links[j..][1..] == links[j + 1..];
      visited, queue, processed, moved := PullOne(store, c, current, links[j], h, visited, queue, processed, moved);
    }
  }

  /** One turn of the `while (queue.length)` loop. */
  method PullNext(
    store: Store, adjacency: map<TopicId, seq<Link>>, h: Hypot,
    visited1: set<TopicId>, queue1: seq<TopicId>, processed1: set<string>, moved1: seq<TopicId>)
    returns (visited: set<TopicId>, queue: seq<TopicId>, processed: set<string>, moved: seq<TopicId>)
    requires IsHypot(h) && store.Aligned() && queue1 != []
    modifies store
    ensures store.index == old(store.index) && store.Aligned()
    ensures Walk(store.Current(), visited, queue, processed, moved) ==
      PullNextOf(store.index, adjacency, h, Walk(old(store.Current()), visited1, queue1, processed1, moved1))
  {
    var currentId := queue1[0];
    visited, queue, processed, moved := visited1, queue1[1..], processed1, moved1;
    if currentId in store.lookup {
      var current := store.lookup[currentId].position;
      visited, queue, processed, moved := PullLinks(store, currentId, current, ListOf(adjacency, currentId), h, visited, queue, processed, moved);
    }
  }

  /** `pullConnected(rootId)`. */
  method PullConnected(store: Store, rootId: TopicId, adjacency: map<TopicId, seq<Link>>, h: Hypot)
    returns (moved: seq<TopicId>)
    requires IsHypot(h) && store.Indexed()
    modifies store
    ensures store.index == old(store.index) && store.Indexed()
    ensures store.Current() == PullConnectedOf(store.index, adjacency, h, old(store.Current()), rootId).layout
    ensures moved == PullConnectedOf(store.index, adjacency, h, old(store.Current()), rootId).moved
  {
    IndexedAligned(store.topics, store.lookup, store.index);
    ghost var final := PullConnectedOf(store.index, adjacency, h, store.Current(), rootId);
    PullConnectedDrains(store.index, adjacency, h, store.Current(), rootId);
    PullConnectedPassed(store.index, adjacency, h, store.Current(), rootId);
    ghost var fuel: nat := Rounds(store.index);
    var visited := {rootId};
    var queue := [rootId];
    var processedLinks: set<string> := {};
    moved := [];
    ghost var w := Walk(store.Current(), visited, queue, processedLinks, moved);
    while queue != []
      invariant store.index == old(store.index) && store.Aligned()
      invariant w == Walk(store.Current(), visited, queue, processedLinks, moved)
      invariant Fits(store.index, w.layout.topics) && PullRunOf(store.index, adjacency, h, w, fuel) == final
      decreases fuel
    {
      ghost var next := PullNextOf(store.index, adjacency, h, w);
      ghost var rest := PullRunNext(store.index, adjacency, h, w, next, fuel, final);
      visited, queue, processedLinks, moved := PullNext(store, adjacency, h, visited, queue, processedLinks, moved);
      w, fuel := next, rest;
    }
  }

  // ---------------------------------------------------------------- resolveCollisions

  /** No two topics of the array stand closer than MIN_NODE_DISTANCE: nothing collides. */
  ghost predicate Spread(ts: seq<Topic>, h: Hypot)
    requires IsHypot(h)
  {
    forall i, j :: 0 <= i < |ts| && 0 <= j < |ts| && i != j ==> PairApart(ts, h, i, j)
  }

  /** The topics at i and j stand at least MIN_NODE_DISTANCE apart. */
  ghost predicate PairApart(ts: seq<Topic>, h: Hypot, i: nat, j: nat)
    requires IsHypot(h) && i < |ts| && j < |ts|
  {
    h(ts[j].position.x - ts[i].position.x, ts[j].position.y - ts[i].position.y) >= MIN_NODE_DISTANCE
  }

  /** In a synced, spread-out store no other topic touches a given node. */
  lemma SpreadApart(ts: seq<Topic>, lk: map<TopicId, Topic>, index: map<TopicId, nat>, h: Hypot, id: TopicId, i: nat)
    requires IsHypot(h) && IsSynced(ts, lk, index) && Spread(ts, h)
    requires id in index && i < |ts| && i != index[id]
    ensures ContactOf(h, lk[id].position, ts[i].position).Apart?
  {
    assert lk[id] == ts[index[id]];
    assert PairApart(ts, h, index[id], i);
  }

  /** The state of the `resolveCollisions` worklist: the layout it writes, its `queue`,
      `processed` and `moved` (kept in insertion order), and how many random numbers it
      has drawn. */
  datatype Sweep = Sweep(layout: Layout, queue: seq<TopicId>, processed: set<TopicId>, moved: seq<TopicId>, draws: nat)

  /** Push one node: place it at p in the map and the array (at `at`) and draw it there,
      `moved.add(id)`, and enqueue it unless processed. */
  function PushTo(s: Sweep, at: nat, id: TopicId, base: Topic, p: Point): (r: Sweep)
    requires at < |s.layout.topics|
    ensures |r.layout.topics| == |s.layout.topics|
  {
    var e := Enqueue(s.queue, s.processed, id);
    Sweep(Placing(s.layout, at, id, base, p), e.0, e.1, Insert(s.moved, id), s.draws)
  }

  /** One step of the `for` over the array, for the topic at i, seen from the dequeued node
      c (read from the map): overlapping, the other is pushed half the overlap away and,
      unless c is an origin, c first the other way; on the very same spot, the other is
      jittered on each axis by the next two random numbers; apart, nothing happens. */
  function PushPairOf(index: map<TopicId, nat>, h: Hypot, rnd: Random, c: TopicId, isOrigin: bool, i: nat, s: Sweep): (r: Sweep)
    requires IsHypot(h) && Fits(index, s.layout.topics)
    requires c in index && c in s.layout.lookup && i < |s.layout.topics|
    ensures |r.layout.topics| == |s.layout.topics| && c in r.layout.lookup
  {
    var current := s.layout.lookup[c];
    var other := s.layout.topics[i];
    var contact := ContactOf(h, current.position, other.position);
    if contact.Overlap? then
      var s1 := if isOrigin then s else PushTo(s, index[c], c, current, PushedBack(current.position, contact));
      PushTo(s1, i, other.id, other, PushedAway(other.position, contact))
    else if contact.Coincident? then
      PushTo(s.(draws := s.draws + 2), i, other.id, other, Jittered(other.position, rnd(s.draws), rnd(s.draws + 1)))
    else s
  }

  /** The `for` over the array from i on, skipping c's own position. */
  function PushFromOf(index: map<TopicId, nat>, h: Hypot, rnd: Random, c: TopicId, isOrigin: bool, i: nat, s: Sweep): (r: Sweep)
    requires IsHypot(h) && Fits(index, s.layout.topics) && c in index && c in s.layout.lookup
    ensures |r.layout.topics| == |s.layout.topics| && c in r.layout.lookup
    decreases |s.layout.topics| - i
  {
    if i >= |s.layout.topics| then s
    else if i == index[c] then PushFromOf(index, h, rnd, c, isOrigin, i + 1, s)
    else PushFromOf(index, h, rnd, c, isOrigin, i + 1, PushPairOf(index, h, rnd, c, isOrigin, i, s))
  }

  /** One turn of `while (queue.length)`: dequeue the head; skip it unless both the index
      and the map know it; otherwise run its `for`, as an origin iff it is in origin. */
  function PushNextOf(index: map<TopicId, nat>, h: Hypot, rnd: Random, origin: seq<TopicId>, s: Sweep): (r: Sweep)
    requires IsHypot(h) && Fits(index, s.layout.topics) && s.queue != []
    ensures |r.layout.topics| == |s.layout.topics|
  {
    var c := s.queue[0];
    var s1 := s.(queue := s.queue[1..]);
    if c in index && c in s.layout.lookup then PushFromOf(index, h, rnd, c, c in origin, 0, s1) else s1
  }

  /** The loop, for at most fuel turns. */
  function PushRunOf(index: map<TopicId, nat>, h: Hypot, rnd: Random, origin: seq<TopicId>, s: Sweep, fuel: nat): (r: Sweep)
    requires IsHypot(h) && Fits(index, s.layout.topics)
    ensures |r.layout.topics| == |s.layout.topics|
    decreases fuel
  {
    if s.queue == [] || fuel == 0 then s
    else PushRunOf(index, h, rnd, origin, PushNextOf(index, h, rnd, origin, s), fuel - 1)
  }

  /** The turns the sweep from origin is given: one per origin and one per indexed id. */
  function Budget(origin: seq<TopicId>, index: map<TopicId, nat>): nat {
    |origin| + |index|
  }

  /** `resolveCollisions(originIds)` from the layout b, drawing rnd(0), rnd(1), ... in turn:
      a missing or empty set does nothing; otherwise the queue starts as the set, in order,
      all of it processed. Every id is enqueued at most once, so |origin| + |index| turns
      drain the queue of a duplicate-free set (ResolveCollisionsSpec). */
  function ResolveCollisionsOf(index: map<TopicId, nat>, h: Hypot, rnd: Random, b: Layout, originIds: Option<seq<TopicId>>): (r: Sweep)
    requires IsHypot(h) && Fits(index, b.topics)
    ensures |r.layout.topics| == |b.topics|
  {
    if originIds.None? || originIds.value == [] then Sweep(b, [], {}, [], 0)
    else
      var origin := originIds.value;
      PushRunOf(index, h, rnd, origin, Sweep(b, origin, Elems(origin), [], 0), Budget(origin, index))
  }

  // The queue discipline.

  lemma PushToWorklist(index: map<TopicId, nat>, s: Sweep, at: nat, id: TopicId, base: Topic, p: Point, done: seq<TopicId>)
    requires IdsIn(s.layout, index) && Worklist(done, s.queue, s.processed)
    requires at < |s.layout.topics| && id in index && base.id in index
    ensures var r := PushTo(s, at, id, base, p);
      IdsIn(r.layout, index) && Worklist(done, r.queue, r.processed) && r.processed <= s.processed + index.Keys
  {
    WorklistEnqueue(done, s.queue, s.processed, id);
  }

  lemma PushPairWorklist(index: map<TopicId, nat>, h: Hypot, rnd: Random, c: TopicId, isOrigin: bool, i: nat, s: Sweep, done: seq<TopicId>)
    requires IsHypot(h) && Fits(index, s.layout.topics) && IdsIn(s.layout, index) && Worklist(done, s.queue, s.processed)
    requires c in index && c in s.layout.lookup && i < |s.layout.topics|
    ensures var r := PushPairOf(index, h, rnd, c, isOrigin, i, s);
      IdsIn(r.layout, index) && Worklist(done, r.queue, r.processed) && r.processed <= s.processed + index.Keys
  {
    var current := s.layout.lookup[c];
    var other := s.layout.topics[i];
    var contact := ContactOf(h, current.position, other.position);
    if contact.Overlap? {
      var o := PushedAway(other.position, contact);
      if isOrigin {
        PushToWorklist(index, s, i, other.id, other, o, done);
      } else {
        var p := PushedBack(current.position, contact);
        PushToWorklist(index, s, index[c], c, current, p, done);
        PushToWorklist(index, PushTo(s, index[c], c, current, p), i, other.id, other, o, done);
      }
    } else if contact.Coincident? {
      PushToWorklist(index, s.(draws := s.draws + 2), i, other.id, other, Jittered(other.position, rnd(s.draws), rnd(s.draws + 1)), done);
    }
  }

  lemma {:induction false} PushFromWorklist(index: map<TopicId, nat>, h: Hypot, rnd: Random, c: TopicId, isOrigin: bool, i: nat, s: Sweep, done: seq<TopicId>)
    requires IsHypot(h) && Fits(index, s.layout.topics) && IdsIn(s.layout, index) && Worklist(done, s.queue, s.processed)
    requires c in index && c in s.layout.lookup
    ensures var r := PushFromOf(index, h, rnd, c, isOrigin, i, s);
      IdsIn(r.layout, index) && Worklist(done, r.queue, r.processed) && r.processed <= s.processed + index.Keys
    decreases |s.layout.topics| - i
  {
    // Only the contracts of the lemmas about one pair are needed here.
    hide PushPairOf, ContactOf;
    if i < |s.layout.topics| {
      var s1 := PushWorklistStep(index, h, rnd, c, isOrigin, i, s, done);
      PushFromWorklist(index, h, rnd, c, isOrigin, i + 1, s1, done);
    }
  }

  /** The position i of the `for`, as the sweep the rest of it starts from. */
  lemma PushWorklistStep(index: map<TopicId, nat>, h: Hypot, rnd: Random, c: TopicId, isOrigin: bool, i: nat, s: Sweep, done: seq<TopicId>)
    returns (s1: Sweep)
    requires IsHypot(h) && Fits(index, s.layout.topics) && IdsIn(s.layout, index) && Worklist(done, s.queue, s.processed)
    requires c in index && c in s.layout.lookup && i < |s.layout.topics|
    ensures Fits(index, s1.layout.topics) && c in s1.layout.lookup
    ensures IdsIn(s1.layout, index) && Worklist(done, s1.queue, s1.processed) && s1.processed <= s.processed + index.Keys
    ensures PushFromOf(index, h, rnd, c, isOrigin, i, s) == PushFromOf(index, h, rnd, c, isOrigin, i + 1, s1)
  {
    // Only the contracts of the lemmas about one pair are needed here.
    hide PushPairOf, ContactOf;
    if i == index[c] {
      s1 := s;
    } else {
      s1 := PushPairOf(index, h, rnd, c, isOrigin, i, s);
      PushPairWorklist(index, h, rnd, c, isOrigin, i, s, done);
    }
  }

  lemma PushNextWorklist(index: map<TopicId, nat>, h: Hypot, rnd: Random, origin: seq<TopicId>, s: Sweep, done: seq<TopicId>)
    requires IsHypot(h) && Fits(index, s.layout.topics) && IdsIn(s.layout, index) && Worklist(done, s.queue, s.processed)
    requires s.queue != []
    ensures var r := PushNextOf(index, h, rnd, origin, s);
      IdsIn(r.layout, index) && Worklist(done + [s.queue[0]], r.queue, r.processed) && r.processed <= s.processed + index.Keys
  {
    var c := s.queue[0];
    WorklistDequeue(done, s.queue, s.processed);
    if c in index && c in s.layout.lookup {
      PushFromWorklist(index, h, rnd, c, c in origin, 0, s.(queue := s.queue[1..]), done + [c]);
    }
  }

  // The layout effect.

  /** The sweep s is a layout step away from b0 (stated as one fact about the sweep). */
  ghost predicate SweepPassed(index: map<TopicId, nat>, b0: Layout, s: Sweep) {
    match s case Sweep(layout, _, _, moved, _) => Passed(index, b0, layout, moved)
  }

  lemma PushToKeeps(index: map<TopicId, nat>, b0: Layout, s: Sweep, id: TopicId, base: Topic, p: Point)
    requires Passed(index, b0, s.layout, s.moved)
    requires id in index && SameButPosition(base, s.layout.topics[index[id]]) && InCanvas(p)
    ensures Passed(index, b0, PushTo(s, index[id], id, base, p).layout, PushTo(s, index[id], id, base, p).moved)
  {
    PassedStep(index, b0, s.layout, s.moved, id, base, p);
  }

  /** One pair is a layout step: the relation to the start of the pass is kept. */
  lemma PushPairPassed(index: map<TopicId, nat>, h: Hypot, rnd: Random, c: TopicId, isOrigin: bool, i: nat, s: Sweep, b0: Layout)
    requires IsHypot(h) && SweepPassed(index, b0, s)
    requires Fits(index, s.layout.topics) && c in index && c in s.layout.lookup && i < |s.layout.topics| && i != index[c]
    ensures SweepPassed(index, b0, PushPairOf(index, h, rnd, c, isOrigin, i, s))
  {
    var contact := ContactOf(h, s.layout.lookup[c].position, s.layout.topics[i].position);
    if contact.Overlap? && !isOrigin {
      PushBothPassed(index, h, rnd, c, isOrigin, i, s, b0);
    } else if contact.Overlap? {
      PushAwayPassed(index, h, rnd, c, isOrigin, i, s, b0);
    } else if contact.Coincident? {
      PushJitterPassed(index, h, rnd, c, isOrigin, i, s, b0);
    }
  }

  /** A non-origin c overlapping the other node: both are pushed. */
  lemma PushBothPassed(index: map<TopicId, nat>, h: Hypot, rnd: Random, c: TopicId, isOrigin: bool, i: nat, s: Sweep, b0: Layout)
    requires IsHypot(h) && Passed(index, b0, s.layout, s.moved)
    requires Fits(index, s.layout.topics) && c in index && c in s.layout.lookup && i < |s.layout.topics| && i != index[c]
    requires !isOrigin && ContactOf(h, s.layout.lookup[c].position, s.layout.topics[i].position).Overlap?
    ensures var r := PushPairOf(index, h, rnd, c, isOrigin, i, s);
      Passed(index, b0, r.layout, r.moved)
  {
    var current := s.layout.lookup[c];
    var other := s.layout.topics[i];
    var contact := ContactOf(h, current.position, other.position);
    assert index[other.id] == i;
    var p := PushedBack(current.position, contact);
    PushToKeeps(index, b0, s, c, current, p);
    var s1 := PushTo(s, index[c], c, current, p);
    assert s1.layout.topics[i] == other;
    PushToKeeps(index, b0, s1, other.id, other, PushedAway(other.position, contact));
  }

  /** An origin c overlapping the other node: only the other is pushed. */
  lemma PushAwayPassed(index: map<TopicId, nat>, h: Hypot, rnd: Random, c: TopicId, isOrigin: bool, i: nat, s: Sweep, b0: Layout)
    requires IsHypot(h) && Passed(index, b0, s.layout, s.moved)
    requires Fits(index, s.layout.topics) && c in index && c in s.layout.lookup && i < |s.layout.topics| && i != index[c]
    requires isOrigin && ContactOf(h, s.layout.lookup[c].position, s.layout.topics[i].position).Overlap?
    ensures var r := PushPairOf(index, h, rnd, c, isOrigin, i, s);
      Passed(index, b0, r.layout, r.moved)
  {
    var other := s.layout.topics[i];
    var contact := ContactOf(h, s.layout.lookup[c].position, other.position);
    assert index[other.id] == i;
    PushToKeeps(index, b0, s, other.id, other, PushedAway(other.position, contact));
  }

  /** On the very same spot: the other node is jittered, drawing two numbers. */
  lemma PushJitterPassed(index: map<TopicId, nat>, h: Hypot, rnd: Random, c: TopicId, isOrigin: bool, i: nat, s: Sweep, b0: Layout)
    requires IsHypot(h) && Passed(index, b0, s.layout, s.moved)
    requires Fits(index, s.layout.topics) && c in index && c in s.layout.lookup && i < |s.layout.topics| && i != index[c]
    requires ContactOf(h, s.layout.lookup[c].position, s.layout.topics[i].position).Coincident?
    ensures var r := PushPairOf(index, h, rnd, c, isOrigin, i, s);
      Passed(index, b0, r.layout, r.moved)
  {
    var other := s.layout.topics[i];
    assert index[other.id] == i;
    var s1 := Sweep(s.layout, s.queue, s.processed, s.moved, s.draws + 2);
    var o := Jittered(other.position, rnd(s.draws), rnd(s.draws + 1));
    PushJitterIs(index, h, rnd, c, isOrigin, i, s);
    PushToKeeps(index, b0, s1, other.id, other, o);
  }

  lemma PushJitterIs(index: map<TopicId, nat>, h: Hypot, rnd: Random, c: TopicId, isOrigin: bool, i: nat, s: Sweep)
    requires IsHypot(h) && Fits(index, s.layout.topics) && c in index && c in s.layout.lookup && i < |s.layout.topics|
    requires ContactOf(h, s.layout.lookup[c].position, s.layout.topics[i].position).Coincident?
    requires s.layout.topics[i].id in index && index[s.layout.topics[i].id] == i
    ensures var other := s.layout.topics[i];
      PushPairOf(index, h, rnd, c, isOrigin, i, s) ==
      PushTo(Sweep(s.layout, s.queue, s.processed, s.moved, s.draws + 2), index[other.id], other.id, other,
        Jittered(other.position, rnd(s.draws), rnd(s.draws + 1)))
  {
  }

  /** One pair: the store stays aligned and nothing moved stops being moved; only the
      cells at i and at c's position change; an origin c stays put; two nodes apart change
      nothing, and an other node that is not apart is pushed. */
  lemma PushPairFacts(index: map<TopicId, nat>, h: Hypot, rnd: Random, c: TopicId, isOrigin: bool, i: nat, s: Sweep)
    requires IsHypot(h) && IsAligned(s.layout.topics, s.layout.lookup, index)
    requires c in index && c in s.layout.lookup && i < |s.layout.topics| && i != index[c]
    ensures var r := PushPairOf(index, h, rnd, c, isOrigin, i, s);
      var contact := ContactOf(h, s.layout.lookup[c].position, s.layout.topics[i].position);
      IsAligned(r.layout.topics, r.layout.lookup, index) &&
      (forall id :: id in s.moved ==> id in r.moved) &&
      (forall k :: 0 <= k < |s.layout.topics| && k != i && k != index[c] ==> r.layout.topics[k] == s.layout.topics[k]) &&
      (isOrigin ==> r.layout.lookup[c] == s.layout.lookup[c] && (c in r.moved <==> c in s.moved)) &&
      (contact.Apart? ==> r == s) &&
      (!contact.Apart? ==> s.layout.topics[i].id in r.moved)
  {
    assert index[s.layout.topics[i].id] == i;
  }

  /** Where one pair leaves its two nodes. Overlapping: the other node is half the overlap
      farther along the line from c, and a non-origin c half the overlap the other way; with
      nothing clamped the two then stand exactly MIN_NODE_DISTANCE apart, or, c an origin,
      halfway between their distance and MIN_NODE_DISTANCE (PushPairSeparates). On the same
      spot: the other node is offset on each axis by a jitter in [-95, 95) from the next two
      random numbers. */
  lemma PushPairMoves(index: map<TopicId, nat>, h: Hypot, rnd: Random, c: TopicId, isOrigin: bool, i: nat, s: Sweep)
    requires IsHypot(h) && IsRandom(rnd) && IsIndexed(s.layout.topics, s.layout.lookup, index)
    requires c in index && i < |s.layout.topics| && i != index[c]
    ensures var r := PushPairOf(index, h, rnd, c, isOrigin, i, s);
      var cur := s.layout.lookup[c].position;
      var oth := s.layout.topics[i].position;
      var id := s.layout.topics[i].id;
      var contact := ContactOf(h, cur, oth);
      (contact.Apart? ==> r == s) &&
      (contact.Overlap? ==>
        r.layout.topics[i].position == PushedAway(oth, contact) && r.layout.lookup[id].position == PushedAway(oth, contact) &&
        (isOrigin ==> r.layout.lookup[c].position == cur && r.moved == Insert(s.moved, id)) &&
        (!isOrigin ==> r.layout.lookup[c].position == PushedBack(cur, contact) && r.moved == Insert(Insert(s.moved, c), id))) &&
      (contact.Coincident? ==>
        r.layout.topics[i].position == Jittered(oth, rnd(s.draws), rnd(s.draws + 1)) &&
        IsJitter(Jitter(rnd(s.draws))) && IsJitter(Jitter(rnd(s.draws + 1))) &&
        r.layout.lookup[c] == s.layout.lookup[c] && r.moved == Insert(s.moved, id) && r.draws == s.draws + 2)
  {
    var oth := s.layout.topics[i].position;
    assert index[s.layout.topics[i].id] == i && s.layout.topics[i].id != c;
    JitterRange(rnd(s.draws), 0.0);
    JitterRange(rnd(s.draws + 1), 0.0);
  }

  /** With nothing clamped, an overlap push leaves the two nodes exactly MIN_NODE_DISTANCE
      apart, or, when c is an origin and stays put, halfway between their distance and
      MIN_NODE_DISTANCE. */
  lemma PushPairSeparates(h: Hypot, cur: Point, oth: Point, ux: real, uy: real, push: real)
    requires IsHypot(h) && ContactOf(h, cur, oth) == Overlap(ux, uy, push)
    ensures var o := Point(oth.x + ux * push, oth.y + uy * push);
      var p := Point(cur.x - ux * push, cur.y - uy * push);
      var a := PushedAway(oth, Overlap(ux, uy, push));
      var b := PushedBack(cur, Overlap(ux, uy, push));
      (InCanvas(o) && InCanvas(p) ==> h(a.x - b.x, a.y - b.y) == MIN_NODE_DISTANCE) &&
      (InCanvas(o) ==> h(a.x - cur.x, a.y - cur.y) == (h(oth.x - cur.x, oth.y - cur.y) + MIN_NODE_DISTANCE) / 2.0)
  {
    PushGeometry(h, cur, oth, ux, uy, push);
    var o := Point(oth.x + ux * push, oth.y + uy * push);
    var p := Point(cur.x - ux * push, cur.y - uy * push);
    if InCanvas(o) {
      assert ClampPoint(o) == o;
      assert PushedAway(oth, Overlap(ux, uy, push)) == o;
      if InCanvas(p) {
        assert PushedBack(cur, Overlap(ux, uy, push)) == p;
        assert h(o.x - p.x, o.y - p.y) == MIN_NODE_DISTANCE;
      }
    }
  }

  /** What a node leaves pushed: every topic at a position from i on, other than its own,
      that touched c at the start of its `for`. */
  ghost predicate PushedFrom(index: map<TopicId, nat>, h: Hypot, c: TopicId, i: nat, b: Layout, moved: seq<TopicId>)
    requires IsHypot(h) && c in index && c in b.lookup
  {
    forall k :: i <= k < |b.topics| && k != index[c] && !ContactOf(h, b.lookup[c].position, b.topics[k].position).Apart? ==>
      b.topics[k].id in moved
  }

  /** The `for` of c from i: the store stays aligned and nothing moved stops being moved;
      an origin c stays put and pushes every topic it touches. */
  lemma {:induction false} PushFromFacts(index: map<TopicId, nat>, h: Hypot, rnd: Random, c: TopicId, isOrigin: bool, i: nat, s: Sweep)
    requires IsHypot(h) && IsAligned(s.layout.topics, s.layout.lookup, index) && c in index && c in s.layout.lookup
    ensures var r := PushFromOf(index, h, rnd, c, isOrigin, i, s);
      IsAligned(r.layout.topics, r.layout.lookup, index) &&
      (forall id :: id in s.moved ==> id in r.moved) &&
      (isOrigin ==> r.layout.lookup[c] == s.layout.lookup[c] && (c in r.moved <==> c in s.moved)) &&
      (isOrigin ==> PushedFrom(index, h, c, i, s.layout, r.moved))
    decreases |s.layout.topics| - i
  {
    // Only the contracts of the lemmas about one pair are needed here.
    hide PushPairOf, ContactOf;
    if i < |s.layout.topics| {
      var s1 := PushFactsStep(index, h, rnd, c, isOrigin, i, s);
      PushFromFacts(index, h, rnd, c, isOrigin, i + 1, s1);
    }
  }

  /** The position i of the `for`, as the sweep the rest of it starts from. */
  lemma PushFactsStep(index: map<TopicId, nat>, h: Hypot, rnd: Random, c: TopicId, isOrigin: bool, i: nat, s: Sweep)
    returns (s1: Sweep)
    requires IsHypot(h) && IsAligned(s.layout.topics, s.layout.lookup, index) && c in index && c in s.layout.lookup
    requires i < |s.layout.topics|
    ensures IsAligned(s1.layout.topics, s1.layout.lookup, index) && c in s1.layout.lookup
    ensures |s1.layout.topics| == |s.layout.topics|
    ensures forall id :: id in s.moved ==> id in s1.moved
    ensures forall k :: 0 <= k < |s.layout.topics| && k != i && k != index[c] ==> s1.layout.topics[k] == s.layout.topics[k]
    ensures isOrigin ==> s1.layout.lookup[c] == s.layout.lookup[c] && (c in s1.moved <==> c in s.moved)
    ensures i != index[c] && !ContactOf(h, s.layout.lookup[c].position, s.layout.topics[i].position).Apart? ==>
      s.layout.topics[i].id in s1.moved
    ensures PushFromOf(index, h, rnd, c, isOrigin, i, s) == PushFromOf(index, h, rnd, c, isOrigin, i + 1, s1)
  {
    // Only the contracts of the lemmas about one pair are needed here.
    hide PushPairOf, ContactOf;
    if i == index[c] {
      s1 := s;
    } else {
      s1 := PushPairOf(index, h, rnd, c, isOrigin, i, s);
      PushPairFacts(index, h, rnd, c, isOrigin, i, s);
    }
  }

  /** The `for` of c from i is a layout step. */
  lemma {:induction false} PushFromPassed(index: map<TopicId, nat>, h: Hypot, rnd: Random, c: TopicId, isOrigin: bool, i: nat, s: Sweep, b0: Layout)
    requires IsHypot(h) && SweepPassed(index, b0, s)
    requires Fits(index, s.layout.topics) && c in index && c in s.layout.lookup
    ensures SweepPassed(index, b0, PushFromOf(index, h, rnd, c, isOrigin, i, s))
    decreases |s.layout.topics| - i
  {
    // Only the contracts of the lemmas about one pair are needed here.
    hide PushPairOf, ContactOf, Passed;
    if i < |s.layout.topics| {
      if i == index[c] {
        PushFromPassed(index, h, rnd, c, isOrigin, i + 1, s, b0);
      } else {
        PushPairPassed(index, h, rnd, c, isOrigin, i, s, b0);
        PushFromPassed(index, h, rnd, c, isOrigin, i + 1, PushPairOf(index, h, rnd, c, isOrigin, i, s), b0);
      }
    }
  }

  /** In a synced layout where nothing collides, the `for` of c changes nothing. */
  lemma {:induction false} PushFromSpread(index: map<TopicId, nat>, h: Hypot, rnd: Random, c: TopicId, isOrigin: bool, i: nat, s: Sweep)
    requires IsHypot(h) && IsSynced(s.layout.topics, s.layout.lookup, index) && Spread(s.layout.topics, h) && c in index
    ensures PushFromOf(index, h, rnd, c, isOrigin, i, s) == s
    decreases |s.layout.topics| - i
  {
    if i < |s.layout.topics| {
      PushSpreadStep(index, h, rnd, c, isOrigin, i, s);
      PushFromSpread(index, h, rnd, c, isOrigin, i + 1, s);
    }
  }

  /** In a synced layout where nothing collides, position i of the `for` changes nothing. */
  lemma PushSpreadStep(index: map<TopicId, nat>, h: Hypot, rnd: Random, c: TopicId, isOrigin: bool, i: nat, s: Sweep)
    requires IsHypot(h) && IsSynced(s.layout.topics, s.layout.lookup, index) && Spread(s.layout.topics, h) && c in index
    requires i < |s.layout.topics|
    ensures PushFromOf(index, h, rnd, c, isOrigin, i, s) == PushFromOf(index, h, rnd, c, isOrigin, i + 1, s)
  {
    if i != index[c] {
      SpreadApart(s.layout.topics, s.layout.lookup, index, h, c, i);
    }
  }

  /** One turn: moved only grows and the store stays aligned. */
  lemma PushNextGrows(index: map<TopicId, nat>, h: Hypot, rnd: Random, origin: seq<TopicId>, s: Sweep)
    requires IsHypot(h) && IsAligned(s.layout.topics, s.layout.lookup, index) && s.queue != []
    ensures var r := PushNextOf(index, h, rnd, origin, s);
      IsAligned(r.layout.topics, r.layout.lookup, index) && forall id :: id in s.moved ==> id in r.moved
  {
    var c := s.queue[0];
    if c in index && c in s.layout.lookup {
      PushFromFacts(index, h, rnd, c, c in origin, 0, s.(queue := s.queue[1..]));
    }
  }

  lemma {:induction false} PushRunGrows(index: map<TopicId, nat>, h: Hypot, rnd: Random, origin: seq<TopicId>, s: Sweep, fuel: nat)
    requires IsHypot(h) && IsAligned(s.layout.topics, s.layout.lookup, index)
    ensures forall id :: id in s.moved ==> id in PushRunOf(index, h, rnd, origin, s, fuel).moved
    decreases fuel
  {
    if s.queue != [] && fuel > 0 {
      PushNextGrows(index, h, rnd, origin, s);
      PushRunGrows(index, h, rnd, origin, PushNextOf(index, h, rnd, origin, s), fuel - 1);
    }
  }

  lemma PushNextPassed(index: map<TopicId, nat>, h: Hypot, rnd: Random, origin: seq<TopicId>, s: Sweep, b0: Layout)
    requires IsHypot(h) && Passed(index, b0, s.layout, s.moved) && Fits(index, s.layout.topics) && s.queue != []
    ensures var r := PushNextOf(index, h, rnd, origin, s);
      Passed(index, b0, r.layout, r.moved)
  {
    var c := s.queue[0];
    if c in index && c in s.layout.lookup {
      var s1 := s.(queue := s.queue[1..]);
      PushFromPassed(index, h, rnd, c, c in origin, 0, s1, b0);
    }
  }

  lemma {:induction false} PushRunPassed(index: map<TopicId, nat>, h: Hypot, rnd: Random, origin: seq<TopicId>, s: Sweep, fuel: nat, b0: Layout)
    requires IsHypot(h) && Passed(index, b0, s.layout, s.moved) && Fits(index, s.layout.topics)
    ensures var r := PushRunOf(index, h, rnd, origin, s, fuel);
      Passed(index, b0, r.layout, r.moved)
    decreases fuel
  {
    if s.queue != [] && fuel > 0 {
      PushNextPassed(index, h, rnd, origin, s, b0);
      PushRunPassed(index, h, rnd, origin, PushNextOf(index, h, rnd, origin, s), fuel - 1, b0);
    }
  }

  /** In a synced layout where nothing collides, the loop only empties its queue. */
  lemma {:induction false} PushRunSpread(index: map<TopicId, nat>, h: Hypot, rnd: Random, origin: seq<TopicId>, s: Sweep, fuel: nat)
    requires IsHypot(h) && Fits(index, s.layout.topics) && IsSynced(s.layout.topics, s.layout.lookup, index) && Spread(s.layout.topics, h)
    ensures var r := PushRunOf(index, h, rnd, origin, s, fuel);
      r.layout == s.layout && r.moved == s.moved
    decreases fuel
  {
    if s.queue != [] && fuel > 0 {
      var c := s.queue[0];
      var s1 := s.(queue := s.queue[1..]);
      if c in index && c in s.layout.lookup {
        PushFromSpread(index, h, rnd, c, c in origin, 0, s1);
      }
      assert PushNextOf(index, h, rnd, origin, s) == s1;
      PushRunSpread(index, h, rnd, origin, s1, fuel - 1);
    }
  }

  /** Dequeuing ids of a finite universe that holds every indexed id, the sweep has drained
      its queue once it has had as many turns as the universe has ids. */
  lemma {:induction false} PushRunDrains(
    index: map<TopicId, nat>, h: Hypot, rnd: Random, origin: seq<TopicId>, universe: set<TopicId>,
    done: seq<TopicId>, s: Sweep, fuel: nat)
    requires IsHypot(h) && Fits(index, s.layout.topics) && IdsIn(s.layout, index) && Worklist(done, s.queue, s.processed)
    requires s.processed <= universe && index.Keys <= universe && |done| + fuel >= |universe|
    ensures PushRunOf(index, h, rnd, origin, s, fuel).queue == []
    decreases fuel
  {
    WorklistBound(done, s.queue, s.processed, universe);
    if s.queue != [] {
      PushNextWorklist(index, h, rnd, origin, s, done);
      PushRunDrains(index, h, rnd, origin, universe, done + [s.queue[0]], PushNextOf(index, h, rnd, origin, s), fuel - 1);
    }
  }

  /** Every topic that touched the origin first in the queue when the pass began. */
  ghost predicate OriginPushed(index: map<TopicId, nat>, h: Hypot, o: TopicId, b0: Layout, moved: seq<TopicId>)
    requires IsHypot(h) && o in index && o in b0.lookup
  {
    PushedFrom(index, h, o, 0, b0, moved)
  }

  /** More moved ids keep every touching topic among them. */
  lemma OriginPushedGrows(index: map<TopicId, nat>, h: Hypot, o: TopicId, b0: Layout, moved: seq<TopicId>, moved': seq<TopicId>)
    requires IsHypot(h) && o in index && o in b0.lookup && OriginPushed(index, h, o, b0, moved)
    requires forall id :: id in moved ==> id in moved'
    ensures OriginPushed(index, h, o, b0, moved')
  {
  }

  /** The first turn of the sweep runs the `for` of the first origin over the layout as
      it was when the pass began. */
  lemma ResolveFirstTurn(index: map<TopicId, nat>, h: Hypot, rnd: Random, b: Layout, origin: seq<TopicId>)
    requires IsHypot(h) && IsAligned(b.topics, b.lookup, index) && origin != [] && origin[0] in index && origin[0] in b.lookup
    ensures var s1 := PushNextOf(index, h, rnd, origin, Sweep(b, origin, Elems(origin), [], 0));
      IsAligned(s1.layout.topics, s1.layout.lookup, index) && OriginPushed(index, h, origin[0], b, s1.moved)
  {
    PushFromFacts(index, h, rnd, origin[0], true, 0, Sweep(b, origin[1..], Elems(origin), [], 0));
  }

  /** A non-empty set runs the loop from the set as the queue. */
  lemma ResolveCollisionsRuns(index: map<TopicId, nat>, h: Hypot, rnd: Random, b: Layout, originIds: Option<seq<TopicId>>)
    requires IsHypot(h) && Fits(index, b.topics) && originIds.Some? && originIds.value != []
    ensures ResolveCollisionsOf(index, h, rnd, b, originIds) ==
      PushRunOf(index, h, rnd, originIds.value, Sweep(b, originIds.value, Elems(originIds.value), [], 0), Budget(originIds.value, index))
  {
  }

  /** A missing or empty set leaves the layout as it is. */
  lemma ResolveCollisionsIdle(index: map<TopicId, nat>, h: Hypot, rnd: Random, b: Layout, originIds: Option<seq<TopicId>>)
    requires IsHypot(h) && Fits(index, b.topics) && (originIds.None? || originIds.value == [])
    ensures ResolveCollisionsOf(index, h, rnd, b, originIds) == Sweep(b, [], {}, [], 0)
  {
  }

  /** `resolveCollisions` is a layout pass from b. */
  lemma ResolveCollisionsPassed(index: map<TopicId, nat>, h: Hypot, rnd: Random, b: Layout, originIds: Option<seq<TopicId>>)
    requires IsHypot(h) && IsIndexed(b.topics, b.lookup, index) && Fits(index, b.topics)
    ensures var r := ResolveCollisionsOf(index, h, rnd, b, originIds);
      Passed(index, b, r.layout, r.moved)
  {
    if originIds.Some? && originIds.value != [] {
      ResolveCollisionsRuns(index, h, rnd, b, originIds);
      PushRunFromPassed(index, h, rnd, b, originIds.value);
    } else {
      ResolveCollisionsIdle(index, h, rnd, b, originIds);
      RelayoutStart(index, b.topics, b.lookup, b.shown);
    }
  }

  lemma PushRunFromPassed(index: map<TopicId, nat>, h: Hypot, rnd: Random, b: Layout, origin: seq<TopicId>)
    requires IsHypot(h) && IsIndexed(b.topics, b.lookup, index) && Fits(index, b.topics)
    ensures var r := PushRunOf(index, h, rnd, origin, Sweep(b, origin, Elems(origin), [], 0), Budget(origin, index));
      Passed(index, b, r.layout, r.moved)
  {
    RelayoutStart(index, b.topics, b.lookup, b.shown);
    PushRunPassed(index, h, rnd, origin, Sweep(b, origin, Elems(origin), [], 0), Budget(origin, index), b);
  }

  /** The queue drains within the fuel ResolveCollisionsOf gives it. */
  lemma ResolveCollisionsDrains(index: map<TopicId, nat>, h: Hypot, rnd: Random, b: Layout, originIds: Option<seq<TopicId>>)
    requires IsHypot(h) && IsIndexed(b.topics, b.lookup, index) && Fits(index, b.topics)
    requires originIds.Some? ==> NoDup(originIds.value)
    ensures ResolveCollisionsOf(index, h, rnd, b, originIds).queue == []
  {
    if originIds.Some? && originIds.value != [] {
      ResolveCollisionsRuns(index, h, rnd, b, originIds);
      PushRunFromDrains(index, h, rnd, b, originIds.value);
    } else {
      ResolveCollisionsIdle(index, h, rnd, b, originIds);
    }
  }

  lemma PushRunFromDrains(index: map<TopicId, nat>, h: Hypot, rnd: Random, b: Layout, origin: seq<TopicId>)
    requires IsHypot(h) && IdsIn(b, index) && Fits(index, b.topics) && NoDup(origin)
    ensures PushRunOf(index, h, rnd, origin, Sweep(b, origin, Elems(origin), [], 0), Budget(origin, index)).queue == []
  {
    var universe := Elems(origin) + index.Keys;
    NoDupCard(origin);
    UnionCard(Elems(origin), index.Keys);
    assert [] + origin == origin;
    PushRunDrains(index, h, rnd, origin, universe, [], Sweep(b, origin, Elems(origin), [], 0), Budget(origin, index));
  }

  /** In a synced layout where nothing collides, the pass moves nothing. */
  lemma ResolveCollisionsSpread(index: map<TopicId, nat>, h: Hypot, rnd: Random, b: Layout, originIds: Option<seq<TopicId>>)
    requires IsHypot(h) && Fits(index, b.topics) && IsSynced(b.topics, b.lookup, index) && Spread(b.topics, h)
    ensures var r := ResolveCollisionsOf(index, h, rnd, b, originIds);
      r.layout == b && r.moved == []
  {
    var r := ResolveCollisionsOf(index, h, rnd, b, originIds);
    if originIds.Some? && originIds.value != [] {
      var origin := originIds.value;
      var s0 := Sweep(b, origin, Elems(origin), [], 0);
      ResolveCollisionsRuns(index, h, rnd, b, originIds);
      assert r == PushRunOf(index, h, rnd, origin, s0, Budget(origin, index));
      PushRunSpread(index, h, rnd, origin, s0, Budget(origin, index));
      assert r.layout == s0.layout && r.moved == s0.moved;
    } else {
      ResolveCollisionsIdle(index, h, rnd, b, originIds);
      assert r == Sweep(b, [], {}, [], 0);
    }
  }

  /** Every topic that touched the first origin when the pass began is pushed. */
  lemma ResolveCollisionsPushes(index: map<TopicId, nat>, h: Hypot, rnd: Random, b: Layout, originIds: Option<seq<TopicId>>)
    requires IsHypot(h) && Fits(index, b.topics) && IsAligned(b.topics, b.lookup, index)
    requires originIds.Some? && originIds.value != [] && originIds.value[0] in index && originIds.value[0] in b.lookup
    ensures OriginPushed(index, h, originIds.value[0], b, ResolveCollisionsOf(index, h, rnd, b, originIds).moved)
  {
    var origin := originIds.value;
    var s0 := Sweep(b, origin, Elems(origin), [], 0);
    var fuel := Budget(origin, index);
    ResolveCollisionsRuns(index, h, rnd, b, originIds);
    assert PushRunOf(index, h, rnd, origin, s0, fuel) == PushRunOf(index, h, rnd, origin, PushNextOf(index, h, rnd, origin, s0), fuel - 1);
    ResolveFirstTurn(index, h, rnd, b, origin);
    PushRunGrows(index, h, rnd, origin, PushNextOf(index, h, rnd, origin, s0), fuel - 1);
  }

  /** `resolveCollisions` is a layout pass from b that drains its queue; a missing or empty
      set, or a synced layout where nothing collides, is left as it is; and every topic
      that touched the first origin when the pass began is pushed. */
  lemma ResolveCollisionsSpec(index: map<TopicId, nat>, h: Hypot, rnd: Random, b: Layout, originIds: Option<seq<TopicId>>)
    requires IsHypot(h) && IsIndexed(b.topics, b.lookup, index) && Fits(index, b.topics)
    requires originIds.Some? ==> NoDup(originIds.value)
    ensures var r := ResolveCollisionsOf(index, h, rnd, b, originIds);
      Passed(index, b, r.layout, r.moved) && r.queue == [] &&
      (originIds.None? || originIds.value == [] ==> r.layout == b && r.moved == []) &&
      (IsSynced(b.topics, b.lookup, index) && Spread(b.topics, h) ==> r.layout == b && r.moved == []) &&
      (originIds.Some? && originIds.value != [] && originIds.value[0] in index ==>
        OriginPushed(index, h, originIds.value[0], b, r.moved))
  {
    ResolveCollisionsPassed(index, h, rnd, b, originIds);
    ResolveCollisionsDrains(index, h, rnd, b, originIds);
    if originIds.None? || originIds.value == [] {
      ResolveCollisionsIdle(index, h, rnd, b, originIds);
    } else if originIds.value[0] in index {
      assert originIds.value[0] in b.lookup;
      IndexedAligned(b.topics, b.lookup, index);
      ResolveCollisionsPushes(index, h, rnd, b, originIds);
    }
    if IsSynced(b.topics, b.lookup, index) && Spread(b.topics, h) {
      ResolveCollisionsSpread(index, h, rnd, b, originIds);
    }
  }

  /** A turn of the loop with fuel left is one turn of PushRunOf. */
  lemma PushRunNext(index: map<TopicId, nat>, h: Hypot, rnd: Random, origin: seq<TopicId>, s: Sweep, next: Sweep, fuel: nat, final: Sweep)
    returns (rest: nat)
    requires IsHypot(h) && Fits(index, s.layout.topics) && s.queue != [] && fuel > 0
    requires next == PushNextOf(index, h, rnd, origin, s) && PushRunOf(index, h, rnd, origin, s, fuel) == final
    ensures rest < fuel && Fits(index, next.layout.topics) && PushRunOf(index, h, rnd, origin, next, rest) == final
  {
    rest := fuel - 1;
  }

  // The methods.

  /** One step of the `for` over the array. */
  method PushPair(
    store: Store, c: TopicId, isOrigin: bool, i: nat, h: Hypot, rnd: Random,
    queue1: seq<TopicId>, processed1: set<TopicId>, moved1: seq<TopicId>, draws1: nat)
    returns (queue: seq<TopicId>, processed: set<TopicId>, moved: seq<TopicId>, draws: nat)
    requires IsHypot(h) && store.Aligned() && c in store.index && c in store.lookup
    requires i < |store.topics| && i != store.index[c]
    modifies store
    ensures store.index == old(store.index) && store.Aligned()
    ensures Sweep(store.Current(), queue, processed, moved, draws) ==
      PushPairOf(store.index, h, rnd, c, isOrigin, i, Sweep(old(store.Current()), queue1, processed1, moved1, draws1))
  {
    var current := store.lookup[c];
    var other := store.topics[i];
    queue, processed, moved, draws := queue1, processed1, moved1, draws1;
    var contact := ContactOf(h, current.position, other.position);
    if contact.Overlap? {
      if !isOrigin {
        store.Place(store.index[c], c, current, PushedBack(current.position, contact));
        moved := Insert(moved, c);
        queue, processed := Enqueue(queue, processed, c).0, Enqueue(queue, processed, c).1;
      }
      store.Place(i, other.id, other, PushedAway(other.position, contact));
      moved := Insert(moved, other.id);
      queue, processed := Enqueue(queue, processed, other.id).0, Enqueue(queue, processed, other.id).1;
    } else if contact.Coincident? {
      var o := Jittered(other.position, rnd(draws), rnd(draws + 1));
      draws := draws + 2;
      store.Place(i, other.id, other, o);
      moved := Insert(moved, other.id);
      queue, processed := Enqueue(queue, processed, other.id).0, Enqueue(queue, processed, other.id).1;
    }
  }

  /** The `for` over the array of one dequeued node. */
  method PushFrom(
    store: Store, c: TopicId, isOrigin: bool, h: Hypot, rnd: Random,
    queue0: seq<TopicId>, processed0: set<TopicId>, moved0: seq<TopicId>, draws0: nat)
    returns (queue: seq<TopicId>, processed: set<TopicId>, moved: seq<TopicId>, draws: nat)
    requires IsHypot(h) && store.Aligned() && c in store.index && c in store.lookup
    modifies store
    ensures store.index == old(store.index) && store.Aligned()
    ensures Sweep(store.Current(), queue, processed, moved, draws) ==
      PushFromOf(store.index, h, rnd, c, isOrigin, 0, Sweep(old(store.Current()), queue0, processed0, moved0, draws0))
  {
    var currentIndex := store.index[c];
    queue, processed, moved, draws := queue0, processed0, moved0, draws0;
    for i := 0 to |store.topics|
      invariant store.index == old(store.index) && store.Aligned() && c in store.lookup
      invariant |store.topics| == |old(store.topics)|
      invariant PushFromOf(store.index, h, rnd, c, isOrigin, i, Sweep(store.Current(), queue, processed, moved, draws)) ==
        PushFromOf(store.index, h, rnd, c, isOrigin, 0, Sweep(old(store.Current()), queue0, processed0, moved0, draws0))
    {
      if i != currentIndex {
        queue, processed, moved, draws := PushPair(store, c, isOrigin, i, h, rnd, queue, processed, moved, draws);
      }
    }
  }

  /** One turn of the `while (queue.length)` loop. */
  method PushNext(
    store: Store, origin: seq<TopicId>, h: Hypot, rnd: Random,
    queue1: seq<TopicId>, processed1: set<TopicId>, moved1: seq<TopicId>, draws1: nat)
    returns (queue: seq<TopicId>, processed: set<TopicId>, moved: seq<TopicId>, draws: nat)
    requires IsHypot(h) && store.Aligned() && queue1 != []
    modifies store
    ensures store.index == old(store.index) && store.Aligned()
    ensures Sweep(store.Current(), queue, processed, moved, draws) ==
      PushNextOf(store.index, h, rnd, origin, Sweep(old(store.Current()), queue1, processed1, moved1, draws1))
  {
    var currentId := queue1[0];
    queue, processed, moved, draws := queue1[1..], processed1, moved1, draws1;
    if currentId in store.index && currentId in store.lookup {
      queue, processed, moved, draws := PushFrom(store, currentId, currentId in origin, h, rnd, queue, processed, moved, draws);
    }
  }

  /** `resolveCollisions(originIds)`, None standing for a missing set. */
  method ResolveCollisions(store: Store, originIds: Option<seq<TopicId>>, h: Hypot, rnd: Random)
    returns (moved: seq<TopicId>)
    requires IsHypot(h) && store.Indexed()
    requires originIds.Some? ==> NoDup(originIds.value)
    modifies store
    ensures store.index == old(store.index) && store.Indexed()
    ensures store.Current() == ResolveCollisionsOf(store.index, h, rnd, old(store.Current()), originIds).layout
    ensures moved == ResolveCollisionsOf(store.index, h, rnd, old(store.Current()), originIds).moved
  {
    moved := [];
    if originIds.None? || |originIds.value| == 0 {
      return;
    }
    IndexedAligned(store.topics, store.lookup, store.index);
    ghost var final := ResolveCollisionsOf(store.index, h, rnd, store.Current(), originIds);
    ResolveCollisionsDrains(store.index, h, rnd, store.Current(), originIds);
    ResolveCollisionsPassed(store.index, h, rnd, store.Current(), originIds);
    var origin := originIds.value;
    ghost var fuel: nat := Budget(origin, store.index);
    var queue := origin;
    var processed := Elems(origin);
    var draws := 0;
    ghost var s := Sweep(store.Current(), queue, processed, moved, draws);
    while queue != []
      invariant store.index == old(store.index) && store.Aligned()
      invariant s == Sweep(store.Current(), queue, processed, moved, draws)
      invariant Fits(store.index, s.layout.topics) && PushRunOf(store.index, h, rnd, origin, s, fuel) == final
      decreases fuel
    {
      ghost var next := PushNextOf(store.index, h, rnd, origin, s);
      ghost var rest := PushRunNext(store.index, h, rnd, origin, s, next, fuel, final);
      queue, processed, moved, draws := PushNext(store, origin, h, rnd, queue, processed, moved, draws);
      s, fuel := next, rest;
    }
  }
}
