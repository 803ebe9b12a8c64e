# Knowledge Map graph engine, modelled in Dafny

The Knowledge Map is an interactive graph of topics (nodes) and links (edges) on a
bounded world square, 8000 units across and centred on the origin. This project models
its engine and proves properties of the model:

- **Graph model** (`graph/graphUtils.jsx`, duplicated inline in `KnowledgeMap.jsx`):
  - clamping a coordinate into [-4000, 4000];
  - the id hash that phases the idle animation;
  - topic normalisation;
  - the id -> topic lookup and id -> array position index;
  - adjacency lists;
  - lane assignment for parallel links;
  - link paths with a per-lane perpendicular offset;
  - the path list, which drops links with a missing end.
- **Layout physics** (`graph/layoutPhysics.jsx`, duplicated in `KnowledgeMap.jsx`):
  - `pullConnected`: a breadth-first pass from a moved node that pulls the far ends of over-long links inward;
  - `resolveCollisions`: a worklist that pushes overlapping nodes apart;
  - `rebuildStretchMap`: the per-link stretch ratio.
- **Node drag** (`hooks/useDragNodes.jsx` and `startNodeDrag` in `KnowledgeMap.jsx`):
  - a session started by the secondary button;
  - each move places the node, then pulls, then resolves collisions;
  - the session ends once, by commit or by rollback to the copy taken at the start.
- **Pan and zoom** (`hooks/usePanZoom.jsx` and the inline handlers of `KnowledgeMap.jsx`):
  - the wheel zoom, clamped to [0.5, 2.4] and anchored at the cursor;
  - the pan state machine;
  - in the component, gating by the id of the pointer that started the pan.

Modules, one file each:

- `Geometry` (`geometry.dfy`): the layout constants (`KnowledgeMap.jsx:5-10`), points, the clamp and `Math.hypot`.
  - `Math.hypot` is a parameter `h`, constrained by `IsHypot(h)`: h is non-negative and h(dx, dy)² = dx² + dy².
- `Seqs` (`seqs.dfy`): insertion-ordered sets as duplicate-free sequences, and the worklist discipline the two physics loops share.
- `Topics` (`topics.dfy`): raw and normalised topics, the idle hash, `buildLookup` and `buildIndex`.
- `Links` (`links.dfy`): lane assignment, link ids, adjacency, link paths and `computePaths`.
- `TopicStore` (`store.dfy`): the live store, as a class.
  - Fields: `topicsRef` (the array), `lookupRef` (the lookup), `indexRef` (the index), and the position each node element was last drawn at.
  - `Indexed()`: the array and the index agree, and the lookup's records differ from the array's at most in their positions.
  - `Synced()`: the lookup's records are exactly the array's.
- `LayoutSteps` (`layout_steps.dfy`): the arithmetic of one pull, one push and one stretch ratio.
  - It also holds `Relayout`, which relates the store before and after a layout pass.
  - `Relayout` says: the array shape and each record up to its position are kept; only ids listed as moved change position; each moved node lies in the world square and is drawn where it stands.
- `LayoutPhysics` (`physics.dfy`): `rebuildStretchMap`, `pullConnected` and `resolveCollisions`.
  - Each loop body is a method of its own: one link of the pull, one dequeue of the pull, one pair of the collision scan, one node of the collision scan.
- `NodeDrag` (`drag.dfy`): the drag session, its moves and both versions of `finishDrag`.
- `PanZoom` (`panzoom.dfy`): the wheel step, the cursor anchor, the hook's pan state, and the component's pointer-gated handlers.

Floating-point numbers are modelled as `real`. JavaScript `Set`s and `Map`s whose
insertion order matters (moved ids, queues) are duplicate-free sequences. A `Map` that
is only looked up is a Dafny `map`.

`KnowledgeMap.jsx` does not import `graph/` or `hooks/`; it carries its own copies.
Each shared step is modelled once, and where the copies diverge:

- The component's cancel rebuilds the lookup and the index from the restored array (`NodeDrag.DragSession.FinishDrag`). The hook only replaces the array (`NodeDrag.DragSession.FinishDragHook`).
- Only the component's pan handlers check the pointer id (`PanZoom.MapView`). Only the component handles pointer cancel for panning.
- Only the component's `computeLinkPath` takes `laneSpacing` and `wiggle`. `Links.LinkPath` takes both; the graph-utility version is laneSpacing 1 and wiggle 0.
- The hook's commit publishes the path strings read back from the DOM. The component's commit computes them with `computePaths`, which is what the model publishes.

Where the written description and the code disagree, the model follows the code:

- Drag moves are not gated by pointer id; only the component's pan handlers are.
- The collision jitter is `Math.random() * 190 - 95`, which lies in [-95, 95), a half-open interval.
- The hook's cancel does not restore the whole state: the lookup keeps the dragged positions (see Findings).

## Model

| member | source | states |
|---|---|---|
| Geometry.Clamp | personal-website/src/components/KnowledgeMap/graph/graphUtils.jsx:3-4 | the result lies in [-4000, 4000]; it is the identity on values already in range and saturates at the bound that was crossed |
| Geometry.ClampPoint | personal-website/src/components/KnowledgeMap/hooks/useDragNodes.jsx:55 | clamping both coordinates lands in the world square and leaves a point already inside unchanged |
| Geometry.DistanceOrOne | personal-website/src/components/KnowledgeMap/graph/layoutPhysics.jsx:46 | `Math.hypot(dx, dy)`, or 1 when that is 0, is positive; it is 1 exactly for a zero vector, and the length otherwise |
| Topics.Normalize | personal-website/src/components/KnowledgeMap/graph/graphUtils.jsx:14-31 | the anchor becomes "center"; both coordinates shift by NODE_RADIUS exactly when an anchor other than "center" is present; a missing position is (0, 0); present detail fields are kept, and missing ones default to "" and [] |
| Topics.NormalizeIdempotent | personal-website/src/components/KnowledgeMap/graph/graphUtils.jsx:14-31 | normalising a normalised topic changes nothing |
| Topics.IdleHash | personal-website/src/components/KnowledgeMap/graph/graphUtils.jsx:6-10 | the running hash `(hash * 31 + code) % 1024` stays below 1024 |
| Topics.ComputeIdleDelay | personal-website/src/components/KnowledgeMap/graph/graphUtils.jsx:6-12 | the loop computes the hash of the whole id; the delay is d/10 for a digit d, between 0 and 0.9; the empty id gives 0 |
| Topics.IndexOfKeys | personal-website/src/components/KnowledgeMap/graph/graphUtils.jsx:42-46 | the index knows exactly the ids of the array |
| Topics.IndexOfLastOccurrence | personal-website/src/components/KnowledgeMap/graph/graphUtils.jsx:42-46 | with repeated ids, the later `m.set` wins: each id maps to its last position in the array |
| Topics.IndexOfDistinct | personal-website/src/components/KnowledgeMap/graph/graphUtils.jsx:42-46 | with distinct ids, the index is the inverse of the array |
| Topics.LookupAgreesWithIndex | personal-website/src/components/KnowledgeMap/graph/graphUtils.jsx:36-46 | the lookup and the index have the same keys, and the lookup holds the record at the indexed position |
| Topics.BuildLookup | personal-website/src/components/KnowledgeMap/graph/graphUtils.jsx:36-40 | the loop builds the lookup; its keys are the array's ids, and each maps to a record with that id |
| Topics.BuildIndex | personal-website/src/components/KnowledgeMap/graph/graphUtils.jsx:42-46 | the loop builds the index; its keys are the array's ids, and each maps to a position holding that id |
| Links.StrLessTotal | personal-website/src/components/KnowledgeMap/graph/graphUtils.jsx:94 | the default string sort order is a strict total order on distinct strings |
| Links.Sort2 | personal-website/src/components/KnowledgeMap/graph/graphUtils.jsx:94 | sorting the two ends gives the same two strings, in ascending order |
| Links.NatToStringInjective | personal-website/src/components/KnowledgeMap/graph/graphUtils.jsx:105 | distinct raw indices print as distinct decimal strings |
| Links.LinkIdsDistinct | personal-website/src/components/KnowledgeMap/graph/graphUtils.jsx:105 | the ids `${source}-${target}-${rawIndex}` of links at different raw indices differ, whatever their ends |
| Links.PairKeySameIffSamePair | personal-website/src/components/KnowledgeMap/graph/graphUtils.jsx:94 | two links share a pair key exactly when they join the same two topics, in either direction |
| Links.JoinedPairKeyCollides | personal-website/src/components/KnowledgeMap/graph/graphUtils.jsx:94 | the joined string key is the same for links a__b→c and a→b__c, while their pairs differ |
| Links.KeyIndicesSpec | personal-website/src/components/KnowledgeMap/graph/graphUtils.jsx:92-101 | a group lists exactly the raw indices with its key, in ascending order, each at the position its lane says |
| Links.LanesWithinGroup | personal-website/src/components/KnowledgeMap/graph/graphUtils.jsx:100-112 | within a group, an earlier raw link gets a lower lane, all members get the same lane count, and each lane is below the count |
| Links.LaneBelowCount | personal-website/src/components/KnowledgeMap/graph/graphUtils.jsx:103-109 | every lane index is below its lane count |
| Links.GroupByKey | personal-website/src/components/KnowledgeMap/graph/graphUtils.jsx:92-97 | the first pass creates one group per key, in first-seen order, holding that key's raw indices in order |
| Links.LaneifyLinksBy | personal-website/src/components/KnowledgeMap/graph/graphUtils.jsx:91-117 | for any grouping key, the output has one link per raw link, in raw order, with its ends and id, and the lane and count from its group; the component's copy at KnowledgeMap.jsx:128-158 performs the same steps |
| Links.FillGroup | personal-website/src/components/KnowledgeMap/graph/graphUtils.jsx:103-112 | one group's inner loop writes, at the raw index of each of its members, the link with that member's lane and the group's count, and leaves every other slot as it was |
| Links.LaneifyLinks | personal-website/src/components/KnowledgeMap/graph/graphUtils.jsx:91-117 | with the pair key, the ids are distinct, and links joining the same two topics in opposite directions share a lane count and get different lanes |
| Links.SameDirectionSameGroup | personal-website/src/components/KnowledgeMap/graph/graphUtils.jsx:94-109 | repeated links between the same ends get increasing lanes under one count |
| Links.JoinedKeyMergesLanes | personal-website/src/components/KnowledgeMap/graph/graphUtils.jsx:94 | under the joined string key, the link a→b__c is put in lane 1, in a group with the unrelated a__b→c; under the pair key it is put in lane 0 |
| Links.AdjacencyIsIncident | personal-website/src/components/KnowledgeMap/graph/graphUtils.jsx:48-57 | each list holds the links incident to its node, in input order, once per matching end; a node is a key exactly when its list is non-empty |
| Links.AdjacencyKeys | personal-website/src/components/KnowledgeMap/graph/graphUtils.jsx:48-57 | the keys are exactly the link endpoints |
| Links.IncidentCount | personal-website/src/components/KnowledgeMap/graph/graphUtils.jsx:53-54 | a link occurs in a node's list once per end at that node, per occurrence in the input (so a self-loop twice) |
| Links.AdjacencyTotal | personal-website/src/components/KnowledgeMap/graph/graphUtils.jsx:48-57 | the lists hold 2 × (number of links) entries in all |
| Links.AdjacencyOfClosed | personal-website/src/components/KnowledgeMap/graph/graphUtils.jsx:48-57 | every link in a node's list has that node as an end |
| Links.BuildAdjacency | personal-website/src/components/KnowledgeMap/graph/graphUtils.jsx:48-57 | the loop builds the adjacency map; its keys are the endpoints and each list is the node's incident links |
| Links.BaseOffset | personal-website/src/components/KnowledgeMap/KnowledgeMap.jsx:82 | the base offset is 0 when there is at most one lane |
| Links.BaseOffsetMirror | personal-website/src/components/KnowledgeMap/KnowledgeMap.jsx:82 | lanes i and count-1-i sit symmetrically about the centre line |
| Links.LinkPath | personal-website/src/components/KnowledgeMap/KnowledgeMap.jsx:66-94 | there is no path exactly when either end is missing from the lookup |
| Links.NormalOffset | personal-website/src/components/KnowledgeMap/KnowledgeMap.jsx:77-86 | the offset vector is perpendicular to the link, has length abs(laneOffset), and is zero for coincident ends |
| Links.LinkPathOffset | personal-website/src/components/KnowledgeMap/KnowledgeMap.jsx:66-94 | the segment is the link shifted to SVG coordinates and moved perpendicularly by exactly abs(baseOffset × laneSpacing + wiggle) |
| Links.PathsOver | personal-website/src/components/KnowledgeMap/KnowledgeMap.jsx:98-104 | the kept links are, in order, exactly the links whose two ends resolve, each with its lane path, and each as often as in the input |
| Links.ComputePaths | personal-website/src/components/KnowledgeMap/KnowledgeMap.jsx:96-105 | the kept links are, in order, exactly the links whose two ends are topics of the array |
| TopicStore.BuiltIsSynced | personal-website/src/components/KnowledgeMap/KnowledgeMap.jsx:171-173 | a lookup and an index built from an array with distinct ids agree with it |
| TopicStore.RedrawnSpec | personal-website/src/components/KnowledgeMap/hooks/useDragNodes.jsx:101 | redrawing a list of items draws each indexed item where the array holds it and leaves every other drawn node as it was |
| TopicStore.Store.constructor | personal-website/src/components/KnowledgeMap/KnowledgeMap.jsx:171-173 | the store starts as the array with its built lookup and index, synced when the ids are distinct |
| TopicStore.Store.Reset | personal-website/src/components/KnowledgeMap/KnowledgeMap.jsx:179-184 | resync: the array is replaced and both maps are rebuilt from it |
| TopicStore.Store.SetPosition | personal-website/src/components/KnowledgeMap/graph/layoutPhysics.jsx:53-59 | the new position is written to the array and the lookup; the store stays indexed, and stays synced if it was |
| TopicStore.Store.Restore | personal-website/src/components/KnowledgeMap/hooks/useDragNodes.jsx:100 | `topicsRef.current = snapshot` alone: the array is replaced, the maps are kept, and the store stays indexed |
| TopicStore.Store.RefreshAll | personal-website/src/components/KnowledgeMap/hooks/useDragNodes.jsx:101 | the drawn positions become those of the loop applying `updateVisualForTopic` to each item in turn |
| TopicStore.Store.Refresh | personal-website/src/components/KnowledgeMap/hooks/useDragNodes.jsx:9-18 | an indexed node is drawn at its array position; an unindexed id changes nothing |
| LayoutSteps.PullStep | personal-website/src/components/KnowledgeMap/graph/layoutPhysics.jsx:44-56 | a neighbour moves exactly when it is farther than MAX_LINK_LENGTH, and lands clamped in the world square |
| LayoutSteps.NoSelfPull | personal-website/src/components/KnowledgeMap/graph/layoutPhysics.jsx:44-48 | a node never pulls a neighbour at its own position |
| LayoutSteps.PullAmountBounds | personal-website/src/components/KnowledgeMap/graph/layoutPhysics.jsx:49-50 | the pull is positive, at most STRETCH_BAND × FOLLOW_FACTOR = 45, and smaller than the excess, so the link stays longer than MAX_LINK_LENGTH |
| LayoutSteps.PullDirection | personal-website/src/components/KnowledgeMap/graph/layoutPhysics.jsx:51-55 | before clamping, the neighbour moves along the link toward the current node, by pull/distance of the gap |
| LayoutSteps.PullGeometry | personal-website/src/components/KnowledgeMap/graph/layoutPhysics.jsx:48-56 | before clamping, the neighbour moves exactly `pull` toward the node, and the link shortens by exactly `pull` |
| LayoutSteps.ContactOf | personal-website/src/components/KnowledgeMap/graph/layoutPhysics.jsx:93-125 | the three cases are exact: overlap when 0 < distance < 190, coincident when the positions are equal, apart otherwise; an overlap push lies between 0 and 95 |
| LayoutSteps.PushGeometry | personal-website/src/components/KnowledgeMap/graph/layoutPhysics.jsx:97-111 | an unclamped push of both nodes leaves them exactly MIN_NODE_DISTANCE apart; a push of the other node alone increases the gap without closing it |
| LayoutSteps.StretchRatio | personal-website/src/components/KnowledgeMap/graph/layoutPhysics.jsx:12-17 | a link gets a ratio exactly when it is longer than 420.1; the ratio is min(1, (d - 420)/100), which lies in (0.001, 1] |
| LayoutSteps.IndexedUpdate | personal-website/src/components/KnowledgeMap/graph/layoutPhysics.jsx:58-59 | writing a repositioned record to both the lookup and the array keeps them indexed |
| LayoutSteps.RelayoutStart | personal-website/src/components/KnowledgeMap/graph/layoutPhysics.jsx:23-28 | an untouched indexed store is a layout pass that moved nothing |
| LayoutSteps.RelayoutStep | personal-website/src/components/KnowledgeMap/graph/layoutPhysics.jsx:53-61 | moving one node into the world square, writing it to both maps and drawing it extends a layout pass by that id |
| LayoutSteps.RelayoutUnmoved | personal-website/src/components/KnowledgeMap/graph/layoutPhysics.jsx:23-71 | a node not listed as moved keeps its position in the lookup and the array |
| LayoutSteps.RelayoutCompose | personal-website/src/components/KnowledgeMap/hooks/useDragNodes.jsx:60-76 | two passes in a row are one pass over the union of their moved ids |
| LayoutSteps.RelayoutKeepsSync | personal-website/src/components/KnowledgeMap/graph/layoutPhysics.jsx:58-59 | a pass started on a synced store leaves it synced |
| LayoutPhysics.LinkRatioBounds | personal-website/src/components/KnowledgeMap/graph/layoutPhysics.jsx:9-17 | every ratio lies in (0.001, 1] |
| LayoutPhysics.StretchMapKeys | personal-website/src/components/KnowledgeMap/graph/layoutPhysics.jsx:6-21 | an id is a key exactly when some link with that id has both ends resolved and a ratio |
| LayoutPhysics.StretchMapValues | personal-website/src/components/KnowledgeMap/graph/layoutPhysics.jsx:6-21 | each value is the ratio of some link with that id |
| LayoutPhysics.StretchMapBounds | personal-website/src/components/KnowledgeMap/graph/layoutPhysics.jsx:16-17 | every value in the map lies in (0.001, 1] |
| LayoutPhysics.StretchMapLast | personal-website/src/components/KnowledgeMap/graph/layoutPhysics.jsx:17 | for a link whose id is unique, the map holds the link's own ratio, present exactly when it has one |
| LayoutPhysics.RebuildStretchMap | personal-website/src/components/KnowledgeMap/graph/layoutPhysics.jsx:6-21 | the loop computes the stretch map of the links over the lookup |
| LayoutPhysics.Other | personal-website/src/components/KnowledgeMap/graph/layoutPhysics.jsx:39 | the neighbour is the end other than the current node (the current node itself for a self-loop) |
| LayoutPhysics.SlackNoPull | personal-website/src/components/KnowledgeMap/graph/layoutPhysics.jsx:48 | a layout with no over-long link has nothing to pull |
| LayoutPhysics.PullOneFacts | personal-website/src/components/KnowledgeMap/graph/layoutPhysics.jsx:35-67 | one link: the current node stays put and the link ends processed; an unprocessed link whose far end is indexed, resolved and more than 420 away puts that end at the pull target in the lookup, the array and the drawing, adds it to the moved ids and marks it visited; any other link changes only the processed set |
| LayoutPhysics.PullOneShortens | personal-website/src/components/KnowledgeMap/graph/layoutPhysics.jsx:48-56 | with nothing clamped, the pulled end stands exactly `pull` closer to the current node, and still more than 420 from it |
| LayoutPhysics.PullOnePassed | personal-website/src/components/KnowledgeMap/graph/layoutPhysics.jsx:53-61 | one link keeps the walk a layout pass from where the pass began, over its moved ids |
| LayoutPhysics.PullOne | personal-website/src/components/KnowledgeMap/graph/layoutPhysics.jsx:35-67 | the new store and the returned walk state are exactly one link of the walk (PullOneOf) applied to the old ones; the index is unchanged and the store stays aligned |
| LayoutPhysics.PullLinksFacts | personal-website/src/components/KnowledgeMap/graph/layoutPhysics.jsx:34-68 | the current node stays put, every link of its list ends processed, the moved ids only grow, and each new one is the far end of a link not processed before, never the current node; when no link would pull, nothing changes |
| LayoutPhysics.PullLinksReach | personal-website/src/components/KnowledgeMap/graph/layoutPhysics.jsx:35-61 | every link of the list that is the first with its id and not yet processed, whose far end is indexed, resolved and more than 420 away, has pulled that end |
| LayoutPhysics.PullLinks | personal-website/src/components/KnowledgeMap/graph/layoutPhysics.jsx:34-68 | the new store and walk state are exactly the `forEach` over the list (PullLinksOf) applied to the old ones; the store stays aligned |
| LayoutPhysics.PullNextWorklist | personal-website/src/components/KnowledgeMap/graph/layoutPhysics.jsx:29-32 | one dequeue keeps the breadth-first discipline: the ids dequeued and queued hold every visited id once, and visited ids come only from the index and the ones seen before |
| LayoutPhysics.PullNextFacts | personal-website/src/components/KnowledgeMap/graph/layoutPhysics.jsx:29-68 | one dequeue: processed links and moved ids only grow; a new moved id is the far end of an unprocessed link of the dequeued node, never that node; a resolved node ends with all its links processed; a layout with no over-long link is left as it is |
| LayoutPhysics.PullNext | personal-website/src/components/KnowledgeMap/graph/layoutPhysics.jsx:29-68 | the new store and walk state are exactly one turn of the loop (PullNextOf) applied to the old ones; the store stays aligned |
| LayoutPhysics.PullRunDrains | personal-website/src/components/KnowledgeMap/graph/layoutPhysics.jsx:29-30 | as every id is dequeued at most once, one turn per id drains the queue |
| LayoutPhysics.RootStaysPut | personal-website/src/components/KnowledgeMap/graph/layoutPhysics.jsx:24-37 | once the root's own links are processed, later pulls never move the root |
| LayoutPhysics.PullRunRootStays | personal-website/src/components/KnowledgeMap/graph/layoutPhysics.jsx:29-68 | once the root's links are all processed, no later turn moves the root, when the adjacency lists every link under both ends |
| LayoutPhysics.PullFirstTurn | personal-website/src/components/KnowledgeMap/graph/layoutPhysics.jsx:24-37 | the first turn dequeues the root: an unindexed root leaves the layout and ends the walk; an indexed one processes all its links and pulls the far end of each over-long one |
| LayoutPhysics.PullConnectedSpec | personal-website/src/components/KnowledgeMap/graph/layoutPhysics.jsx:23-71 | `pullConnected` is a layout pass from the store it starts on (only the moved ids change position, each into the world square and drawn there; every record is otherwise kept); its queue drains; with incident adjacency lists the root never moves; an unindexed root or a layout with no over-long link changes nothing; the far end of every over-long link of the root, indexed and resolved, is pulled |
| LayoutPhysics.PullConnected | personal-website/src/components/KnowledgeMap/graph/layoutPhysics.jsx:23-71 | the loop leaves the store at the final layout of the pass (PullConnectedOf) and returns its moved ids; the index is unchanged and the store stays indexed |
| LayoutPhysics.SpreadApart | personal-website/src/components/KnowledgeMap/graph/layoutPhysics.jsx:97 | in a synced layout with no two nodes closer than 190, every pair is apart |
| LayoutPhysics.PushPairFacts | personal-website/src/components/KnowledgeMap/graph/layoutPhysics.jsx:89-135 | one pair keeps the store aligned and every moved id; only the slots of the other node and of c change; an origin c stays put; two nodes apart change nothing, and an other node that is not apart is among the moved |
| LayoutPhysics.PushPairMoves | personal-website/src/components/KnowledgeMap/graph/layoutPhysics.jsx:93-135 | where one pair leaves its nodes: overlapping, the other is pushed half the overlap away from c in both records, and c, unless an origin, half the overlap back, each added to the moved ids (c first); on the same spot, the other is offset on each axis by a jitter in [-95, 95) from the next two random numbers, c stays and two numbers are drawn; apart, nothing changes |
| LayoutPhysics.PushPairSeparates | personal-website/src/components/KnowledgeMap/graph/layoutPhysics.jsx:97-111 | with nothing clamped, a push of both nodes leaves them exactly 190 apart, and a push of the other alone leaves them halfway between their distance and 190 |
| LayoutPhysics.PushPairPassed | personal-website/src/components/KnowledgeMap/graph/layoutPhysics.jsx:102-134 | one pair keeps the sweep a layout pass from where the pass began, over its moved ids |
| LayoutPhysics.PushPair | personal-website/src/components/KnowledgeMap/graph/layoutPhysics.jsx:89-135 | the new store and sweep state are exactly one pair (PushPairOf) applied to the old ones; the store stays aligned |
| LayoutPhysics.PushFromFacts | personal-website/src/components/KnowledgeMap/graph/layoutPhysics.jsx:88-136 | the `for` of c keeps the store aligned and every moved id; an origin c stays put and pushes every topic that touched it when its `for` began |
| LayoutPhysics.PushFromSpread | personal-website/src/components/KnowledgeMap/graph/layoutPhysics.jsx:88-136 | in a synced layout where no two topics are closer than 190, the `for` changes nothing |
| LayoutPhysics.PushFrom | personal-website/src/components/KnowledgeMap/graph/layoutPhysics.jsx:88-136 | the new store and sweep state are exactly the `for` from position 0 (PushFromOf) applied to the old ones; the store stays aligned |
| LayoutPhysics.PushNextWorklist | personal-website/src/components/KnowledgeMap/graph/layoutPhysics.jsx:80-86 | one dequeue keeps the worklist discipline: every id is enqueued at most once, and only ids of the origins and the index enter |
| LayoutPhysics.PushNext | personal-website/src/components/KnowledgeMap/graph/layoutPhysics.jsx:80-136 | the new store and sweep state are exactly one turn of the loop (PushNextOf) applied to the old ones; the store stays aligned |
| LayoutPhysics.PushRunDrains | personal-website/src/components/KnowledgeMap/graph/layoutPhysics.jsx:80-81 | as every id is enqueued at most once, one turn per origin and per indexed id drains the queue |
| LayoutPhysics.ResolveCollisionsSpread | personal-website/src/components/KnowledgeMap/graph/layoutPhysics.jsx:73-139 | in a synced layout where no two topics are closer than 190, the pass moves nothing |
| LayoutPhysics.ResolveCollisionsPushes | personal-website/src/components/KnowledgeMap/graph/layoutPhysics.jsx:76-136 | every topic that touched the first origin when the pass began is among the moved ids |
| LayoutPhysics.ResolveCollisionsSpec | personal-website/src/components/KnowledgeMap/graph/layoutPhysics.jsx:73-139 | `resolveCollisions` is a layout pass from the store it starts on, whose queue drains; a missing or empty set, or a synced layout where nothing collides, changes nothing; every topic that touched the first origin is pushed |
| LayoutPhysics.ResolveCollisions | personal-website/src/components/KnowledgeMap/graph/layoutPhysics.jsx:73-139 | the loop leaves the store at the final layout of the pass (ResolveCollisionsOf) and returns its moved ids; the index is unchanged and the store stays indexed |
| NodeDrag.DragTarget | personal-website/src/components/KnowledgeMap/hooks/useDragNodes.jsx:52-55 | the dragged node's target lies in the world square |
| NodeDrag.DragTargetAtStart | personal-website/src/components/KnowledgeMap/hooks/useDragNodes.jsx:52-55 | the target is absolute, not incremental: a pointer back at its start puts the node back at its start |
| NodeDrag.DragTargetReaches | personal-website/src/components/KnowledgeMap/hooks/useDragNodes.jsx:52-55 | every point of the world square is the target of the pointer that travelled (p - start) × zoom |
| NodeDrag.InsertAllSpec | personal-website/src/components/KnowledgeMap/hooks/useDragNodes.jsx:76 | adding ids one by one keeps the existing ids first, in order, holds exactly the ids of both, and adds no duplicate |
| NodeDrag.AddAll | personal-website/src/components/KnowledgeMap/hooks/useDragNodes.jsx:76 | the `forEach` computes that union (InsertAll) |
| NodeDrag.PlacedPassed | personal-website/src/components/KnowledgeMap/hooks/useDragNodes.jsx:55-58 | placing the dragged node inside the world square is a layout pass that moves only it |
| NodeDrag.PassedThen | personal-website/src/components/KnowledgeMap/hooks/useDragNodes.jsx:55-76 | two layout passes in a row are one pass over the ids either moved |
| NodeDrag.DragPullSpec | personal-website/src/components/KnowledgeMap/hooks/useDragNodes.jsx:55-68 | the placing and the pull together are one layout pass over `movedIds`, and the far end of every over-long link of the dragged node is among them |
| NodeDrag.DragCollideSpec | personal-website/src/components/KnowledgeMap/hooks/useDragNodes.jsx:69-76 | the push seeded with `movedIds` extends the pass over their union with its own moves, and pushes every topic that touched the first origin |
| NodeDrag.DragMoveSpec | personal-website/src/components/KnowledgeMap/hooks/useDragNodes.jsx:50-79 | one live move is a layout pass from the store before it; its moved ids hold the dragged id, the far end of every over-long link of the dragged node, and every topic that touched the first origin of the push |
| NodeDrag.PullPhase | personal-website/src/components/KnowledgeMap/hooks/useDragNodes.jsx:60-68 | the store becomes the pull's final layout, and `movedIds` its moved ids with the dragged id added: duplicate-free, holding the dragged id and the far end of every over-long link of it |
| NodeDrag.CollidePhase | personal-website/src/components/KnowledgeMap/hooks/useDragNodes.jsx:69-76 | the store becomes the final layout of the push seeded with `movedIds`, and the result is `movedIds` with the push's moves added, holding every topic that touched the first origin |
| NodeDrag.DragSession.constructor | personal-website/src/components/KnowledgeMap/hooks/useDragNodes.jsx:41-48 | the session records the dragged id, its index, the start pointer and position, the copy and the zoom, and is not finished |
| NodeDrag.DragSession.PlaceDragged | personal-website/src/components/KnowledgeMap/hooks/useDragNodes.jsx:55-58 | the record captured at the start, at the clamped target, is written to the array slot and the lookup and drawn there; nothing else changes |
| NodeDrag.DragSession.HandleMove | personal-website/src/components/KnowledgeMap/hooks/useDragNodes.jsx:50-80 | after the session has finished, a move changes nothing; otherwise the store and the moved ids are those of one live move (DragMoveOf) to the pointer's target, and the stretch map is that of the new lookup |
| NodeDrag.DragSession.DragTo | personal-website/src/components/KnowledgeMap/hooks/useDragNodes.jsx:52-79 | place, pull, collide, rebuild: the store and the moved ids are those of one live move (DragMoveOf); the dragged id is among them, the store is one layout pass from before the move, the copy still matches, and the stretch map is that of the new lookup |
| NodeDrag.DragSession.SnapshotKept | personal-website/src/components/KnowledgeMap/hooks/useDragNodes.jsx:44 | moves replace positions only, so the copy still matches the array up to positions |
| NodeDrag.DragSession.FinishDrag | personal-website/src/components/KnowledgeMap/KnowledgeMap.jsx:564-594 | takes effect at most once; commit and cancel both leave a synced store and publish the array with its paths |
| NodeDrag.DragSession.CommitDrag | personal-website/src/components/KnowledgeMap/KnowledgeMap.jsx:574-582 | the array is kept and both maps are rebuilt from it, so every lookup record is the array's; the array is published with its paths |
| NodeDrag.DragSession.CancelDrag | personal-website/src/components/KnowledgeMap/KnowledgeMap.jsx:583-593 | the copy is restored with rebuilt maps; every node is drawn at its copied position; the copy is published with its paths; the stretch map is that of the copy |
| NodeDrag.DragSession.FinishDragHook | personal-website/src/components/KnowledgeMap/hooks/useDragNodes.jsx:82-106 | takes effect at most once; commit publishes the array; cancel restores the array alone and draws every node at its copied position; both keep the maps, so the stretch map is that of the pre-finish lookup |
| NodeDrag.StartNodeDrag | personal-website/src/components/KnowledgeMap/hooks/useDragNodes.jsx:29-48 | no session exactly when the button is not 2 or the id is not indexed; a session starts with the dragged node's position and a copy of the array, and changes nothing in the store |
| NodeDrag.StalePull | personal-website/src/components/KnowledgeMap/graph/layoutPhysics.jsx:44-56 | with a at (-300, 0), the pull moves b from (300, 0) to (255, 0) |
| NodeDrag.StaleApart | personal-website/src/components/KnowledgeMap/graph/layoutPhysics.jsx:93-97 | (-300, 0) and (255, 0) do not collide |
| NodeDrag.StaleRatio | personal-website/src/components/KnowledgeMap/graph/layoutPhysics.jsx:6-21 | at the dragged positions, the link a-b-0 has stretch ratio 1 |
| NodeDrag.RestoredRatio | personal-website/src/components/KnowledgeMap/graph/layoutPhysics.jsx:6-21 | at the restored positions, the link is not stretched |
| NodeDrag.StaleStretchOnCancel | personal-website/src/components/KnowledgeMap/hooks/useDragNodes.jsx:99-105 | the arithmetic of the scenario: b is pulled from (300, 0) to (255, 0), the two do not collide, the dragged lookup marks a-b-0 fully stretched, and the lookup rebuilt from the restored array gives the empty map (the run through the session's own methods is NodeDrag.StaleStretchTrace) |
| NodeDrag.LookupOfAB | personal-website/src/components/KnowledgeMap/graph/graphUtils.jsx:36-40 | the lookup of [a, b] maps each id to its record |
| NodeDrag.IndexOfAB | personal-website/src/components/KnowledgeMap/graph/graphUtils.jsx:42-46 | the index of [a, b] maps a to 0 and b to 1 |
| NodeDrag.AdjacencyOfAB | personal-website/src/components/KnowledgeMap/graph/graphUtils.jsx:48-57 | the one link a-b is listed under both of its ends |
| NodeDrag.StalePulled | personal-website/src/components/KnowledgeMap/graph/layoutPhysics.jsx:23-71 | with a at (-300, 0), `pullConnected` from a moves b to (255, 0) in the lookup, the array and the drawing; b's own turn finds the link processed, and the moved ids are [b] |
| NodeDrag.StaleSwept | personal-website/src/components/KnowledgeMap/graph/layoutPhysics.jsx:73-139 | from [b, a] at (255, 0) and (-300, 0), the push finds nothing touching and changes nothing |
| NodeDrag.StaleMove | personal-website/src/components/KnowledgeMap/hooks/useDragNodes.jsx:50-79 | the move of a to (-300, 0) from a at (0, 0) and b at (300, 0) ends with b at (255, 0) and moved ids [b, a] |
| NodeDrag.StartAB | personal-website/src/components/KnowledgeMap/hooks/useDragNodes.jsx:29-48 | the store of [a, b] and a session on a started with the secondary button at (0, 0) and zoom 1: the copy is [a, b] and nothing is drawn yet |
| NodeDrag.DragAWest | personal-website/src/components/KnowledgeMap/hooks/useDragNodes.jsx:50-79 | after one move of the pointer to (-300, 0), the array and the lookup hold a at (-300, 0) and b at (255, 0), and the copy is still [a, b] |
| NodeDrag.StaleStretchTrace | personal-website/src/components/KnowledgeMap/hooks/useDragNodes.jsx:99-105 | start, move, then the hook's cancel: the stretch map it publishes marks a-b-0 fully stretched, though the array is back at the start |
| NodeDrag.RestoredStretchTrace | personal-website/src/components/KnowledgeMap/KnowledgeMap.jsx:583-589 | start, the same move, then the component's cancel: the stretch map it publishes is empty, as the restored link is 300 long |
| PanZoom.NextZoom | personal-website/src/components/KnowledgeMap/hooks/usePanZoom.jsx:21-22 | the next zoom is zoom × 0.9 (scrolling down) or × 1.1, clamped into [0.5, 2.4] |
| PanZoom.NextZoomDirection | personal-website/src/components/KnowledgeMap/hooks/usePanZoom.jsx:21-22 | within the range, scrolling down never zooms in and scrolling up never zooms out |
| PanZoom.NextZoomFixed | personal-website/src/components/KnowledgeMap/hooks/usePanZoom.jsx:22-23 | the early return happens exactly at 0.5 scrolling down and at 2.4 scrolling up |
| PanZoom.AnchoredOffset | personal-website/src/components/KnowledgeMap/hooks/usePanZoom.jsx:28-32 | (mouse - newOffset)/nextZoom = (mouse - offset)/zoom: the world point under the cursor stays under it |
| PanZoom.AnchoredSameZoom | personal-website/src/components/KnowledgeMap/hooks/usePanZoom.jsx:28-32 | at an unchanged zoom the anchored offset is the old offset |
| PanZoom.AnchoredUnique | personal-website/src/components/KnowledgeMap/hooks/usePanZoom.jsx:28-32 | the anchored offset is the only offset that keeps the cursor's world point |
| PanZoom.PanFollowsPointer | personal-website/src/components/KnowledgeMap/hooks/usePanZoom.jsx:39-46 | while panning, the offset is the start offset plus the pointer's travel; a move at the start point changes nothing |
| PanZoom.View.constructor | personal-website/src/components/KnowledgeMap/hooks/usePanZoom.jsx:4-7 | the view starts at offset (0, 0) and zoom 1, not panning |
| PanZoom.View.OnWheel | personal-website/src/components/KnowledgeMap/hooks/usePanZoom.jsx:16-33 | without a viewport nothing changes; otherwise the zoom steps within [0.5, 2.4], an unchanged zoom leaves the offset too, and the cursor's world point is kept |
| PanZoom.View.PointerDown | personal-website/src/components/KnowledgeMap/hooks/usePanZoom.jsx:35-42 | a pan starts only on button 0 off the nodes, with origin = client - offset; otherwise nothing changes |
| PanZoom.View.PointerMove | personal-website/src/components/KnowledgeMap/hooks/usePanZoom.jsx:44-47 | while panning, offset = client - origin; otherwise nothing changes |
| PanZoom.View.PointerUp | personal-website/src/components/KnowledgeMap/hooks/usePanZoom.jsx:49-52 | pointer-up always ends the pan and moves nothing |
| PanZoom.MapView.constructor | personal-website/src/components/KnowledgeMap/KnowledgeMap.jsx:165-168 | the view starts at offset (0, 0) and zoom 1, not panning, with no pointer remembered |
| PanZoom.MapView.Wheel | personal-website/src/components/KnowledgeMap/KnowledgeMap.jsx:220-239 | the same clamped, cursor-anchored zoom step as the hook's |
| PanZoom.MapView.PointerDown | personal-website/src/components/KnowledgeMap/KnowledgeMap.jsx:245-254 | a pan starts only on button 0 off the nodes and remembers the pointer; a pan is under way exactly when a pointer is remembered |
| PanZoom.MapView.PointerMove | personal-website/src/components/KnowledgeMap/KnowledgeMap.jsx:256-259 | only the remembered pointer moves the view |
| PanZoom.MapView.PointerEnd | personal-website/src/components/KnowledgeMap/KnowledgeMap.jsx:261-273 | only the remembered pointer ends the pan (pointer up or cancel) and forgets the pointer; any other pointer changes nothing |

## Left out

- DOM and React plumbing becomes parameters or is dropped. This covers element styles, class toggling, pointer capture, `preventDefault`, listener registration, and `useState`/`useRef`/`useEffect` wiring.
  - `updateVisualForTopic` is modelled only as the position last drawn for each node.
  - The per-link DOM path updates inside it are not modelled; their geometry is `Links.LinkPath`.
- React state updates are modelled as applied at once. The model has no batching and no stale closures between renders.
- `getBoundingClientRect` is a parameter (`Rect`). The initial centring of the offset on the viewport is not modelled, in the hook (usePanZoom.jsx:9-14) or in the component (KnowledgeMap.jsx:209-214).
- The JSON data load and the entry point are not modelled. Topics and links are inputs.
- `cloneTopics` and the spread copies are the identity: Dafny records are values, so a copy can never alias the original.
  - The copy at the start of a drag therefore cannot be changed by later moves.
  - The object aliasing between the lookup and the array is represented instead by the `Indexed`/`Synced` relation of the store.
- The idle animation (`requestAnimationFrame`, `Math.sin`/`Math.cos`) is not modelled. Only the hash that phases it is.
- `toFixed` and the SVG path strings are not modelled. Paths are the numeric segment endpoints.
- `useStretchStyles` and `useGraphState` are not part of this model.
- IEEE-754 doubles are modelled as reals. `Math.hypot` is any function meeting `IsHypot`. Float equality in the zoom's early return is real equality.
- Characters are Dafny characters, not UTF-16 code units. This concerns the idle hash and the default string sort, for ids outside the Basic Multilingual Plane.
- `Math.random` is a parameter `rnd` of type `nat -> real`: the pass draws rnd(0), rnd(1), ... in turn. For values in [0, 1), each jitter lies in [-95, 95) (`LayoutPhysics.PushPairMoves`).
- The topic field `label` is named `labelText` in the model: `label` is a Dafny keyword.
- The resync effect (KnowledgeMap.jsx:179-184) is `TopicStore.Store.Reset`. Its interleaving with a drag in progress is not modelled.
- The hook's commit publishes path strings read back from the DOM. The model publishes the topics alone for that path.
- NodeDrag.DragSession.HandleMove: the final moved-id set is returned but, as in the source, used for nothing. The stretch map is returned instead of styled.
- LayoutPhysics.PullConnected: the breadth-first pass's final positions have no closed form. PullConnectedSpec states who may move, where they may go, which links must pull and the store invariants; PullOneFacts states each single step exactly.
- LayoutPhysics.ResolveCollisions: does not promise a collision-free result, and the source does not either. Clamping at the world edge and later pushes can reintroduce overlap.
- LayoutPhysics.ResolveCollisions: the origin ids must be duplicate-free. They come from a JavaScript `Set`.
- NodeDrag.DragSession.Valid, NodeDrag.StartNodeDrag, LayoutPhysics.PullConnected, LayoutPhysics.ResolveCollisions: they require an indexed store, so the topic ids are distinct. The source does not check this, but it renders each topic with its id as a React `key` (KnowledgeMap.jsx:674), which must be unique; with repeated ids the lookup, the index and the array disagree and the model does not describe the result.

## Findings

| source | as written | input that shows it | evidently intended | confidence | as-written member | corrected member |
|---|---|---|---|---|---|---|
| personal-website/src/components/KnowledgeMap/graph/graphUtils.jsx:94 | links are grouped into lanes by the string `[source, target].sort().join("__")` | links a__b→c and a→b__c get the same key, so the second is put in lane 1 of a two-lane group although the links join different topics | group by the unordered pair of ends itself | high; not executed | Links.JoinedKeyMergesLanes | Links.LaneifyLinks |
| personal-website/src/components/KnowledgeMap/hooks/useDragNodes.jsx:99-105 | the hook's cancel replaces only `topicsRef`, then builds the stretch map from `lookupRef`, which still holds the dragged positions | topics a at (0, 0) and b at (300, 0) joined by one link; drag a to (-300, 0) (b is pulled to (255, 0)), then cancel: the link is styled fully stretched while its restored length is 300 | rebuild the lookup and the index from the restored array, as the component does at KnowledgeMap.jsx:584-588 | high; not executed | NodeDrag.StaleStretchTrace | NodeDrag.RestoredStretchTrace |
