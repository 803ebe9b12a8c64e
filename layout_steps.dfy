/** The single steps of the layout physics, as pure geometry: the pull of an
    over-long link's far end, the contact test and push of two overlapping nodes,
    the stretch ratio of a link, and the relation between the store before and after
    a layout pass. */
module LayoutSteps {
  import opened Seqs
  import opened Geometry
  import opened Topics
  import opened TopicStore

  // ---------------------------------------------------------------- the pull (pullConnected)

  /** `Math.min(excess, STRETCH_BAND) * FOLLOW_FACTOR` for a link of length distance. */
  function PullAmount(distance: real): real {
    Min(distance - MAX_LINK_LENGTH, STRETCH_BAND) * FOLLOW_FACTOR
  }

  /** Where the neighbour goes before clamping: along the unit vector toward the current node. */
  function PullTarget(h: Hypot, current: Point, neighbor: Point): Point
    requires IsHypot(h)
  {
    var dx := current.x - neighbor.x;
    var dy := current.y - neighbor.y;
    var distance := DistanceOrOne(h, dx, dy);
    var pull := PullAmount(distance);
    Point(neighbor.x + dx / distance * pull, neighbor.y + dy / distance * pull)
  }

  /** One link of `pullConnected`: the neighbour's new position, or None when the link is
      not longer than MAX_LINK_LENGTH. */
  function PullStep(h: Hypot, current: Point, neighbor: Point): (r: Option<Point>)
    requires IsHypot(h)
    ensures r.Some? <==> h(current.x - neighbor.x, current.y - neighbor.y) > MAX_LINK_LENGTH
    ensures r.Some? ==> InCanvas(r.value)
    ensures r.Some? ==> r.value == ClampPoint(PullTarget(h, current, neighbor))
  {
    var distance := DistanceOrOne(h, current.x - neighbor.x, current.y - neighbor.y);
    if distance > MAX_LINK_LENGTH then Some(ClampPoint(PullTarget(h, current, neighbor))) else None
  }

  /** A node never pulls itself: a zero-length link has distance `0 || 1`, which is 1. */
  lemma NoSelfPull(h: Hypot, p: Point)
    requires IsHypot(h)
    ensures PullStep(h, p, p).None?
  {
    HypotZeroIff(h, 0.0, 0.0);
  }

  /** The pull over a link longer than MAX_LINK_LENGTH is positive, at most 45, and shorter
      than the excess, as a fraction k of the link's length strictly between 0 and 1. */
  lemma PullAmountBounds(d: real)
    requires d > MAX_LINK_LENGTH
    ensures 0.0 < PullAmount(d) <= STRETCH_BAND * FOLLOW_FACTOR
    ensures d - PullAmount(d) > MAX_LINK_LENGTH
    ensures 0.0 < PullAmount(d) / d < 1.0
  {
    var pull := PullAmount(d);
    calc { pull / d; > 0.0; }
    calc { pull / d; < d / d; == 1.0; }
  }

  /** Before clamping, a pull moves the neighbour straight toward the current node: its
      offset is the fraction pull / distance of the link. */
  lemma PullDirection(h: Hypot, current: Point, neighbor: Point)
    requires IsHypot(h)
    requires h(current.x - neighbor.x, current.y - neighbor.y) > MAX_LINK_LENGTH
    ensures
      var distance := h(current.x - neighbor.x, current.y - neighbor.y);
      var u := PullTarget(h, current, neighbor);
      var pull := PullAmount(distance);
      u.x - neighbor.x == pull / distance * (current.x - neighbor.x) &&
      u.y - neighbor.y == pull / distance * (current.y - neighbor.y)
  {
    var dx := current.x - neighbor.x;
    var dy := current.y - neighbor.y;
    var d := h(dx, dy);
    var dist := DistanceOrOne(h, dx, dy);
    assert dist == d;
    var pull := PullAmount(d);
    var u := PullTarget(h, current, neighbor);
    assert u.x - neighbor.x == dx / dist * pull && u.y - neighbor.y == dy / dist * pull;
    DivMulSwap(dx, d, pull);
    DivMulSwap(dy, d, pull);
  }

  lemma DivMulSwap(a: real, d: real, p: real)
    requires d != 0.0
    ensures a / d * p == p / d * a
  {
  }

  /** The pull moves the neighbour by min(excess, 100) * 0.45 (so by more than 0 and at
      most 45), and the link is then exactly that much shorter and still longer than
      MAX_LINK_LENGTH: no overshoot. */
  lemma PullGeometry(h: Hypot, current: Point, neighbor: Point)
    requires IsHypot(h)
    requires h(current.x - neighbor.x, current.y - neighbor.y) > MAX_LINK_LENGTH
    ensures
      var distance := h(current.x - neighbor.x, current.y - neighbor.y);
      var u := PullTarget(h, current, neighbor);
      var pull := PullAmount(distance);
      0.0 < pull <= STRETCH_BAND * FOLLOW_FACTOR &&
      h(u.x - neighbor.x, u.y - neighbor.y) == pull &&
      h(current.x - u.x, current.y - u.y) == distance - pull &&
      distance - pull > MAX_LINK_LENGTH
  {
    var dx := current.x - neighbor.x;
    var dy := current.y - neighbor.y;
    var d := h(dx, dy);
    var pull := PullAmount(d);
    PullAmountBounds(d);
    PullDirection(h, current, neighbor);
    var k := pull / d;
    var u := PullTarget(h, current, neighbor);
    HypotScaled(h, k, dx, dy, u.x - neighbor.x, u.y - neighbor.y);
    assert k * d == pull;
    HypotScaled(h, 1.0 - k, dx, dy, current.x - u.x, current.y - u.y);
  }

  // ---------------------------------------------------------------- the push (resolveCollisions)

  /** How an other node stands to the current one: apart, overlapping (with the unit
      vector from current to other and half the overlap), or on the very same spot. */
  datatype Contact = Apart | Overlap(ux: real, uy: real, push: real) | Coincident

  function ContactOf(h: Hypot, current: Point, other: Point): (c: Contact)
    requires IsHypot(h)
    ensures c.Overlap? <==> 0.0 < h(other.x - current.x, other.y - current.y) < MIN_NODE_DISTANCE
    ensures c.Coincident? <==> other == current
    ensures c.Apart? <==> h(other.x - current.x, other.y - current.y) >= MIN_NODE_DISTANCE
    ensures c.Overlap? ==> 0.0 < c.push < MIN_NODE_DISTANCE / 2.0
  {
    var dx := other.x - current.x;
    var dy := other.y - current.y;
    var distance := h(dx, dy);
    HypotZeroIff(h, dx, dy);
    if distance < MIN_NODE_DISTANCE && distance > 0.0 then
      Overlap(dx / distance, dy / distance, (MIN_NODE_DISTANCE - distance) / 2.0)
    else if distance == 0.0 then Coincident
    else Apart
  }

  /** Before clamping, pushing both nodes apart by half the overlap each leaves them exactly
      MIN_NODE_DISTANCE apart; pushing only the other one leaves them halfway between their
      distance and MIN_NODE_DISTANCE, so still closer than that but farther than before. */
  lemma PushGeometry(h: Hypot, current: Point, other: Point, ux: real, uy: real, push: real)
    requires IsHypot(h) && ContactOf(h, current, other) == Overlap(ux, uy, push)
    ensures
      var distance := h(other.x - current.x, other.y - current.y);
      var o' := Point(other.x + ux * push, other.y + uy * push);
      var c' := Point(current.x - ux * push, current.y - uy * push);
      h(o'.x - c'.x, o'.y - c'.y) == MIN_NODE_DISTANCE &&
      h(o'.x - current.x, o'.y - current.y) == (distance + MIN_NODE_DISTANCE) / 2.0 &&
      distance < (distance + MIN_NODE_DISTANCE) / 2.0 < MIN_NODE_DISTANCE
  {
    var dx := other.x - current.x;
    var dy := other.y - current.y;
    var d := h(dx, dy);
    assert ux == dx / d && uy == dy / d && push == (MIN_NODE_DISTANCE - d) / 2.0;
    var o' := Point(other.x + ux * push, other.y + uy * push);
    var c' := Point(current.x - ux * push, current.y - uy * push);
    var both := MIN_NODE_DISTANCE / d;
    calc { both; == MIN_NODE_DISTANCE / d; > 0.0; }
    assert 1.0 + 2.0 * push / d == both;
    assert o'.x - c'.x == both * dx && o'.y - c'.y == both * dy;
    HypotScaled(h, both, dx, dy, o'.x - c'.x, o'.y - c'.y);
    assert both * d == MIN_NODE_DISTANCE;
    var one := 1.0 + push / d;
    calc { one; == 1.0 + push / d; > 0.0; }
    assert o'.x - current.x == one * dx && o'.y - current.y == one * dy;
    HypotScaled(h, one, dx, dy, o'.x - current.x, o'.y - current.y);
    assert one * d == d + push == (d + MIN_NODE_DISTANCE) / 2.0;
  }

  /** The numbers `Math.random()` returns, in the order a pass draws them. */
  type Random = nat -> real

  ghost predicate IsRandom(rnd: Random) {
    forall n :: 0.0 <= rnd(n) < 1.0
  }

  /** `Math.random() * MIN_NODE_DISTANCE - MIN_NODE_DISTANCE / 2` for the random number r. */
  function Jitter(r: real): real {
    r * MIN_NODE_DISTANCE - MIN_NODE_DISTANCE / 2.0
  }

  /** An offset of at most half MIN_NODE_DISTANCE either way, the far end excluded. */
  predicate IsJitter(j: real) {
    -MIN_NODE_DISTANCE / 2.0 <= j < MIN_NODE_DISTANCE / 2.0
  }

  /** Where an overlap pushes the other node: half the overlap farther along the line from
      the current node, clamped to the world square. */
  function PushedAway(p: Point, contact: Contact): Point
    requires contact.Overlap?
  {
    ClampPoint(Point(p.x + contact.ux * contact.push, p.y + contact.uy * contact.push))
  }

  /** Where an overlap pushes a current node that is not an origin: half the overlap the
      other way, clamped. */
  function PushedBack(p: Point, contact: Contact): Point
    requires contact.Overlap?
  {
    ClampPoint(Point(p.x - contact.ux * contact.push, p.y - contact.uy * contact.push))
  }

  /** Where a node on the very same spot is put: offset by the jitters of r1 and r2, clamped. */
  function Jittered(p: Point, r1: real, r2: real): Point {
    ClampPoint(Point(p.x + Jitter(r1), p.y + Jitter(r2)))
  }

  /** The jitters of the numbers in [0, 1) are exactly the offsets in [-95, 95). */
  lemma JitterRange(r: real, j: real)
    ensures 0.0 <= r < 1.0 ==> IsJitter(Jitter(r))
    ensures IsJitter(j) ==> 0.0 <= (j + MIN_NODE_DISTANCE / 2.0) / MIN_NODE_DISTANCE < 1.0
    ensures Jitter((j + MIN_NODE_DISTANCE / 2.0) / MIN_NODE_DISTANCE) == j
  {
  }

  // ---------------------------------------------------------------- rebuildStretchMap

  /** The stretch ratio of a link whose ends stand at s and t: `(dist - 420) / 100` capped
      to [0, 1], kept only above 0.001. */
  function StretchRatio(h: Hypot, s: Point, t: Point): (r: Option<real>)
    requires IsHypot(h)
    ensures r.Some? <==> h(s.x - t.x, s.y - t.y) > MAX_LINK_LENGTH + STRETCH_BAND * 0.001
    ensures r.Some? ==> 0.001 < r.value <= 1.0
    ensures r.Some? ==> r.value == Min(1.0, (h(s.x - t.x, s.y - t.y) - MAX_LINK_LENGTH) / STRETCH_BAND)
  {
    var distance := h(s.x - t.x, s.y - t.y);
    if distance > MAX_LINK_LENGTH then
      var ratio := Max(0.0, Min(1.0, (distance - MAX_LINK_LENGTH) / STRETCH_BAND));
      if ratio > 0.001 then Some(ratio) else None
    else None
  }

  // ---------------------------------------------------------------- a layout pass as a relation

  /** The records of (ts, lk) are those of (t0, l0) up to their positions, over the same index. */
  ghost predicate SameShape(
    index: map<TopicId, nat>, t0: seq<Topic>, l0: map<TopicId, Topic>, ts: seq<Topic>, lk: map<TopicId, Topic>)
  {
    IsIndexed(t0, l0, index) && IsIndexed(ts, lk, index) && |ts| == |t0| &&
    (forall i :: 0 <= i < |ts| ==> SameButPosition(ts[i], t0[i])) &&
    (forall id :: id in lk ==> SameButPosition(lk[id], l0[id]))
  }

  /** An id outside `moved` keeps both of its records and its drawn position. */
  ghost predicate Kept(
    index: map<TopicId, nat>,
    t0: seq<Topic>, l0: map<TopicId, Topic>, s0: map<TopicId, Point>,
    ts: seq<Topic>, lk: map<TopicId, Topic>, sh: map<TopicId, Point>,
    moved: seq<TopicId>)
    requires SameShape(index, t0, l0, ts, lk)
  {
    (forall id :: id in index && id !in moved ==> lk[id] == l0[id] && ts[index[id]] == t0[index[id]]) &&
    (forall id :: id !in moved ==> (id in sh <==> id in s0) && (id in sh ==> sh[id] == s0[id]))
  }

  /** An id in `moved` stands inside the world square, its two records agree, and its
      node is drawn where it stands. */
  ghost predicate Placed(index: map<TopicId, nat>, ts: seq<Topic>, lk: map<TopicId, Topic>, sh: map<TopicId, Point>, moved: seq<TopicId>)
    requires IsIndexed(ts, lk, index)
  {
    NoDup(moved) && (forall id :: id in moved ==> id in index) &&
    (forall id :: id in moved ==> InCanvas(lk[id].position) && ts[index[id]] == lk[id]) &&
    (forall id :: id in moved ==> id in sh && sh[id] == lk[id].position)
  }

  /** The store (ts, lk, sh) after a layout pass that started from (t0, l0, s0) and moved
      exactly the ids in `moved`, over an index that does not change. */
  ghost predicate Relayout(
    index: map<TopicId, nat>,
    t0: seq<Topic>, l0: map<TopicId, Topic>, s0: map<TopicId, Point>,
    ts: seq<Topic>, lk: map<TopicId, Topic>, sh: map<TopicId, Point>,
    moved: seq<TopicId>)
  {
    SameShape(index, t0, l0, ts, lk) && Kept(index, t0, l0, s0, ts, lk, sh, moved) && Placed(index, ts, lk, sh, moved)
  }

  /** Relayout between two layouts. */
  ghost predicate Passed(index: map<TopicId, nat>, b0: Layout, b: Layout, moved: seq<TopicId>) {
    Relayout(index, b0.topics, b0.lookup, b0.shown, b.topics, b.lookup, b.shown, moved)
  }

  /** Placing one more indexed id, from a record that differs from its array record only
      in position, at a point inside the world square keeps the relation. */
  lemma PassedStep(index: map<TopicId, nat>, b0: Layout, b: Layout, moved: seq<TopicId>, id: TopicId, base: Topic, p: Point)
    requires Passed(index, b0, b, moved)
    requires id in index && SameButPosition(base, b.topics[index[id]]) && InCanvas(p)
    ensures Passed(index, b0, Placing(b, index[id], id, base, p), Insert(moved, id))
  {
    RelayoutStep(index, b0.topics, b0.lookup, b0.shown, b.topics, b.lookup, b.shown, moved, id, base, p);
  }

  /** Nothing moved yet. */
  lemma RelayoutStart(index: map<TopicId, nat>, t0: seq<Topic>, l0: map<TopicId, Topic>, s0: map<TopicId, Point>)
    requires IsIndexed(t0, l0, index)
    ensures Relayout(index, t0, l0, s0, t0, l0, s0, [])
  {
  }

  /** Writing a record that differs from an id's array record only in its position to
      both the array and the map keeps them indexed. */
  lemma IndexedUpdate(ts: seq<Topic>, lk: map<TopicId, Topic>, index: map<TopicId, nat>, id: TopicId, rec: Topic)
    requires IsIndexed(ts, lk, index) && id in index && SameButPosition(rec, ts[index[id]])
    ensures IsIndexed(ts[index[id] := rec], lk[id := rec], index)
  {
    var ts' := ts[index[id] := rec];
    var lk' := lk[id := rec];
    forall k | k in lk' ensures SameButPosition(lk'[k], ts'[index[k]]) {
      if k != id {
        assert index[k] != index[id];
      }
    }
  }

  lemma SameShapeStep(
    index: map<TopicId, nat>, t0: seq<Topic>, l0: map<TopicId, Topic>, ts: seq<Topic>, lk: map<TopicId, Topic>,
    id: TopicId, rec: Topic)
    requires SameShape(index, t0, l0, ts, lk)
    requires id in index && SameButPosition(rec, ts[index[id]])
    ensures SameShape(index, t0, l0, ts[index[id] := rec], lk[id := rec])
  {
    IndexedUpdate(ts, lk, index, id, rec);
    var ts' := ts[index[id] := rec];
    var lk' := lk[id := rec];
    forall i | 0 <= i < |ts'| ensures SameButPosition(ts'[i], t0[i]) {
      if i == index[id] {
        assert SameButPosition(ts[i], t0[i]);
      }
    }
    forall k | k in lk' ensures SameButPosition(lk'[k], l0[k]) {
      if k == id {
        assert SameButPosition(ts[index[k]], t0[index[k]]);
        assert SameButPosition(l0[k], t0[index[k]]);
      }
    }
  }

  lemma KeptStep(
    index: map<TopicId, nat>,
    t0: seq<Topic>, l0: map<TopicId, Topic>, s0: map<TopicId, Point>,
    ts: seq<Topic>, lk: map<TopicId, Topic>, sh: map<TopicId, Point>,
    moved: seq<TopicId>, id: TopicId, rec: Topic, p: Point)
    requires SameShape(index, t0, l0, ts, lk) && Kept(index, t0, l0, s0, ts, lk, sh, moved)
    requires id in index && SameButPosition(rec, ts[index[id]])
    requires SameShape(index, t0, l0, ts[index[id] := rec], lk[id := rec])
    ensures Kept(index, t0, l0, s0, ts[index[id] := rec], lk[id := rec], sh[id := p], Insert(moved, id))
  {
    var ts' := ts[index[id] := rec];
    forall k | k in index && k !in Insert(moved, id) ensures ts'[index[k]] == t0[index[k]] {
      assert index[k] != index[id];
    }
  }

  lemma PlacedStep(
    index: map<TopicId, nat>, ts: seq<Topic>, lk: map<TopicId, Topic>, sh: map<TopicId, Point>,
    moved: seq<TopicId>, id: TopicId, rec: Topic)
    requires IsIndexed(ts, lk, index) && Placed(index, ts, lk, sh, moved)
    requires id in index && SameButPosition(rec, ts[index[id]]) && InCanvas(rec.position)
    requires IsIndexed(ts[index[id] := rec], lk[id := rec], index)
    ensures Placed(index, ts[index[id] := rec], lk[id := rec], sh[id := rec.position], Insert(moved, id))
  {
    var ts' := ts[index[id] := rec];
    var lk' := lk[id := rec];
    forall k | k in Insert(moved, id) ensures ts'[index[k]] == lk'[k] {
      if k != id {
        assert index[k] != index[id];
      }
    }
  }

  /** Moving one more id to a point inside the world square (writing the record taken from
      the map or the array to both, then drawing it) keeps the relation. */
  lemma RelayoutStep(
    index: map<TopicId, nat>,
    t0: seq<Topic>, l0: map<TopicId, Topic>, s0: map<TopicId, Point>,
    ts: seq<Topic>, lk: map<TopicId, Topic>, sh: map<TopicId, Point>,
    moved: seq<TopicId>, id: TopicId, base: Topic, p: Point)
    requires Relayout(index, t0, l0, s0, ts, lk, sh, moved)
    requires id in index && SameButPosition(base, ts[index[id]]) && InCanvas(p)
    ensures
      var rec := base.(position := p);
      Relayout(index, t0, l0, s0, ts[index[id] := rec], lk[id := rec], sh[id := p], Insert(moved, id))
  {
    var rec := base.(position := p);
    SameShapeStep(index, t0, l0, ts, lk, id, rec);
    KeptStep(index, t0, l0, s0, ts, lk, sh, moved, id, rec, p);
    PlacedStep(index, ts, lk, sh, moved, id, rec);
  }

  /** With the ids distinct, an id that did not move is where it was and drawn where it was. */
  lemma RelayoutUnmoved(
    index: map<TopicId, nat>,
    t0: seq<Topic>, l0: map<TopicId, Topic>, s0: map<TopicId, Point>,
    ts: seq<Topic>, lk: map<TopicId, Topic>, sh: map<TopicId, Point>,
    moved: seq<TopicId>, id: TopicId)
    requires Relayout(index, t0, l0, s0, ts, lk, sh, moved)
    requires id in index && id !in moved
    ensures lk[id].position == l0[id].position && ts[index[id]].position == t0[index[id]].position
  {
  }

  /** Two passes in a row are one pass that moved the ids of either. */
  lemma RelayoutCompose(
    index: map<TopicId, nat>,
    t0: seq<Topic>, l0: map<TopicId, Topic>, s0: map<TopicId, Point>,
    t1: seq<Topic>, l1: map<TopicId, Topic>, s1: map<TopicId, Point>,
    t2: seq<Topic>, l2: map<TopicId, Topic>, s2: map<TopicId, Point>,
    first: seq<TopicId>, second: seq<TopicId>, all: seq<TopicId>)
    requires Relayout(index, t0, l0, s0, t1, l1, s1, first)
    requires Relayout(index, t1, l1, s1, t2, l2, s2, second)
    requires NoDup(all) && forall id :: id in all <==> id in first || id in second
    ensures Relayout(index, t0, l0, s0, t2, l2, s2, all)
  {
    forall i | 0 <= i < |t2| ensures SameButPosition(t2[i], t0[i]) {
      assert SameButPosition(t1[i], t0[i]);
    }
    forall id | id in l2 ensures SameButPosition(l2[id], l0[id]) {
      assert SameButPosition(l1[id], l0[id]);
    }
  }

  /** A pass that started from a synced store leaves it synced. */
  lemma RelayoutKeepsSync(
    index: map<TopicId, nat>,
    t0: seq<Topic>, l0: map<TopicId, Topic>, s0: map<TopicId, Point>,
    ts: seq<Topic>, lk: map<TopicId, Topic>, sh: map<TopicId, Point>,
    moved: seq<TopicId>)
    requires Relayout(index, t0, l0, s0, ts, lk, sh, moved)
    requires IsSynced(t0, l0, index)
    ensures IsSynced(ts, lk, index)
  {
  }
}
