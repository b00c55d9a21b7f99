/** Breadth-first search: what its queue and its labels keep, and why a label is
    the least number of hops. Both searches of module Graph that count hops, and
    the one of module JavaConfig, rest on the lemmas here. */
module BreadthFirst {
  import opened Walks

  datatype Visit = Visit(region: string, dist: nat)

  /** How far a search expands the regions it takes from its queue. */
  datatype Reach = Anywhere | Within(hops: int) {
    predicate Expands(dist: nat) { Anywhere? || dist < hops }
  }

  ghost predicate ReachedIn(adj: Adjacency, src: string, r: string, n: nat) {
    exists es :: IsWalk(adj, src, es, r) && |es| == n
  }

  /** Every labelled region can be reached in as many hops as its label says. */
  ghost predicate Labelled(adj: Adjacency, src: string, level: map<string, nat>) {
    && src in level && level[src] == 0
    && level.Keys <= Universe(adj, src)
    && forall r | r in level :: ReachedIn(adj, src, r, level[r])
  }

  /** The first `n` edges of `es` lead to regions with a label of at most `bound`. */
  predicate Covered(es: seq<Edge>, n: nat, level: map<string, nat>, bound: nat) {
    n <= |es| && forall k | 0 <= k < n :: es[k].to in level && level[es[k].to] <= bound
  }

  /** The neighbours of a finished region are labelled, with one more at most. */
  ghost predicate Finished(adj: Adjacency, reach: Reach, level: map<string, nat>, done: set<string>) {
    && done <= level.Keys
    && forall r | r in done && reach.Expands(level[r]) ::
         Covered(EdgesFrom(adj, r), |EdgesFrom(adj, r)|, level, level[r] + 1)
  }

  /** The queue holds exactly the regions that are labelled but not finished. */
  ghost predicate Queued(level: map<string, nat>, done: set<string>, queue: seq<Visit>) {
    && (forall v | v in queue :: v.region in level && level[v.region] == v.dist && v.region !in done)
    && (forall r | r in level && r !in done :: Visit(r, level[r]) in queue)
    && (forall i, j | 0 <= i < j < |queue| :: queue[i].region != queue[j].region)
  }

  /** The queue is sorted and no label is two above its front. */
  predicate Layered(level: map<string, nat>, queue: seq<Visit>) {
    && (forall i, j | 0 <= i <= j < |queue| :: queue[i].dist <= queue[j].dist)
    && (queue != [] ==> forall r | r in level :: level[r] <= queue[0].dist + 1)
  }

  ghost predicate Frontier(
      adj: Adjacency, reach: Reach, src: string, level: map<string, nat>, done: set<string>, queue: seq<Visit>)
  {
    && Labelled(adj, src, level)
    && Finished(adj, reach, level, done)
    && Queued(level, done, queue)
    && Layered(level, queue)
  }

  lemma StartFrontier(adj: Adjacency, reach: Reach, src: string)
    ensures Frontier(adj, reach, src, map[src := 0], {}, [Visit(src, 0)])
  {}

  lemma ReachedNext(adj: Adjacency, src: string, r: string, n: nat, e: Edge)
    requires ReachedIn(adj, src, r, n)
    requires e in EdgesFrom(adj, r)
    ensures ReachedIn(adj, src, e.to, n + 1)
  {
    var es :| IsWalk(adj, src, es, r) && |es| == n;
    ExtendWalk(adj, src, es, r, e);
    assert |es + [e]| == n + 1;
  }

  lemma LabelNeighbour(adj: Adjacency, src: string, level: map<string, nat>, cur: string, e: Edge)
    requires Labelled(adj, src, level)
    requires cur in level && e in EdgesFrom(adj, cur) && e.to !in level
    ensures Labelled(adj, src, level[e.to := level[cur] + 1])
  {
    hide IsWalk, FollowsEdges, ReachedIn;
    ReachedNext(adj, src, cur, level[cur], e);
    EdgeInUniverse(adj, src, cur, e);
  }

  lemma QueueNeighbour(level: map<string, nat>, done: set<string>, queue: seq<Visit>, v: Visit)
    requires Queued(level, done, queue) && done <= level.Keys
    requires v.region !in level
    ensures Queued(level[v.region := v.dist], done, queue + [v])
  {}

  lemma LayerNeighbour(level: map<string, nat>, done: set<string>, queue: seq<Visit>, v: Visit)
    requires Layered(level, queue) && Queued(level, done, queue)
    requires queue != [] && v.dist == queue[0].dist + 1
    ensures Layered(level[v.region := v.dist], queue + [v])
  {}

  lemma FinishedNeighbour(adj: Adjacency, reach: Reach, level: map<string, nat>, done: set<string>, r: string, d: nat)
    requires Finished(adj, reach, level, done) && r !in level
    ensures Finished(adj, reach, level[r := d], done)
  {}

  lemma QueueHead(level: map<string, nat>, done: set<string>, cur: Visit, queue: seq<Visit>)
    requires Queued(level, done, [cur] + queue)
    ensures cur.region in level && level[cur.region] == cur.dist && cur.region !in done
  {}

  lemma NothingQueued(level: map<string, nat>, done: set<string>)
    requires Queued(level, done, [])
    ensures level.Keys <= done
  {
  }

  /** Scanning an edge to an unlabelled region: label it and put it at the back. */
  lemma Discover(
      adj: Adjacency, reach: Reach, src: string, level: map<string, nat>, done: set<string>, cur: Visit,
      queue: seq<Visit>, e: Edge)
    requires Frontier(adj, reach, src, level, done, [cur] + queue)
    requires e in EdgesFrom(adj, cur.region) && e.to !in level
    ensures Frontier(adj, reach, src, level[e.to := cur.dist + 1], done, [cur] + (queue + [Visit(e.to, cur.dist + 1)]))
  {
    hide Frontier, Labelled, Finished, Queued, Layered;
    var v := Visit(e.to, cur.dist + 1);
    FrontierParts(adj, reach, src, level, done, [cur] + queue);
    QueueHead(level, done, cur, queue);
    LabelNeighbour(adj, src, level, cur.region, e);
    FinishedNeighbour(adj, reach, level, done, e.to, cur.dist + 1);
    QueueNeighbour(level, done, [cur] + queue, v);
    LayerNeighbour(level, done, [cur] + queue, v);
    assert [cur] + queue + [v] == [cur] + (queue + [v]);
    FrontierWhole(adj, reach, src, level[e.to := cur.dist + 1], done, [cur] + (queue + [v]));
  }

  lemma FrontierParts(
      adj: Adjacency, reach: Reach, src: string, level: map<string, nat>, done: set<string>, queue: seq<Visit>)
    requires Frontier(adj, reach, src, level, done, queue)
    ensures Labelled(adj, src, level) && Finished(adj, reach, level, done) && Queued(level, done, queue)
    ensures Layered(level, queue) && done <= level.Keys
  {
    hide Labelled, Queued, Layered;
  }

  lemma FrontierWhole(
      adj: Adjacency, reach: Reach, src: string, level: map<string, nat>, done: set<string>, queue: seq<Visit>)
    requires Labelled(adj, src, level) && Finished(adj, reach, level, done)
    requires Queued(level, done, queue) && Layered(level, queue)
    ensures Frontier(adj, reach, src, level, done, queue)
  {
    hide Labelled, Finished, Queued, Layered;
  }

  /** All edges scanned: the region at the front is finished. */
  lemma Finish(
      adj: Adjacency, reach: Reach, src: string, level: map<string, nat>, done: set<string>, cur: Visit,
      queue: seq<Visit>)
    requires Frontier(adj, reach, src, level, done, [cur] + queue)
    requires reach.Expands(cur.dist) ==>
               Covered(EdgesFrom(adj, cur.region), |EdgesFrom(adj, cur.region)|, level, cur.dist + 1)
    ensures Frontier(adj, reach, src, level, done + {cur.region}, queue)
  {
    hide Labelled, Universe;
    var all := [cur] + queue;
    assert cur in all;
    forall v | v in queue ensures v in all && v.region != cur.region {
      var i :| 0 <= i < |queue| && queue[i] == v;
      assert all[i + 1] == v && all[0] == cur;
    }
    forall i, j | 0 <= i <= j < |queue|
      ensures queue[i].dist <= queue[j].dist && (i < j ==> queue[i].region != queue[j].region)
          && cur.dist <= queue[i].dist
    {
      assert all[i + 1] == queue[i] && all[j + 1] == queue[j] && all[0] == cur;
    }
    forall r | r in level && r !in done + {cur.region} ensures Visit(r, level[r]) in queue {
      assert Visit(r, level[r]) in all;
    }
  }

  /** While every unfinished label is at least `bound`, a walk either is longer
      than `bound` or ends in a labelled region no deeper than its length. */
  lemma {:induction false} WalkMeetsFrontier(
      adj: Adjacency, reach: Reach, src: string, level: map<string, nat>, done: set<string>, bound: nat, es: seq<Edge>)
    requires src in level && level[src] == 0
    requires Finished(adj, reach, level, done)
    requires forall r | r in level && r !in done :: level[r] >= bound
    requires forall d: nat | d < bound :: reach.Expands(d)
    requires FollowsEdges(adj, src, es)
    ensures |es| > bound || (End(src, es) in level && level[End(src, es)] <= |es|)
  {
    if es != [] {
      var init, last := es[..|es| - 1], es[|es| - 1];
      WalkMeetsFrontier(adj, reach, src, level, done, bound, init);
      var u := End(src, init);
      if |es| <= bound {
        assert u in done && reach.Expands(level[u]);
        assert Covered(EdgesFrom(adj, u), |EdgesFrom(adj, u)|, level, level[u] + 1);
      }
    }
  }

  /** A label is final as soon as no unfinished label is smaller. */
  lemma LabelIsMinHops(adj: Adjacency, reach: Reach, src: string, level: map<string, nat>, done: set<string>, r: string)
    requires Labelled(adj, src, level) && Finished(adj, reach, level, done)
    requires r in level
    requires forall x | x in level && x !in done :: level[x] >= level[r]
    requires forall d: nat | d < level[r] :: reach.Expands(d)
    ensures MinHops(adj, src, r) == level[r]
  {
    assert ReachedIn(adj, src, r, level[r]);
    forall es | IsWalk(adj, src, es, r) ensures level[r] <= |es| {
      WalkMeetsFrontier(adj, reach, src, level, done, level[r], es);
    }
    MinHopsIs(adj, src, r, level[r]);
  }

  /** The first time an edge leads to an unlabelled region, its distance is known. */
  lemma FirstDiscoveryIsMinHops(
      adj: Adjacency, src: string, level: map<string, nat>, done: set<string>, cur: Visit, queue: seq<Visit>, n: nat)
    requires Scanning(adj, Anywhere, src, level, done, cur, queue, n) && n < |EdgesFrom(adj, cur.region)|
    requires EdgesFrom(adj, cur.region)[n].to !in level
    ensures MinHops(adj, src, EdgesFrom(adj, cur.region)[n].to) == cur.dist + 1
  {
    var e := EdgesFrom(adj, cur.region)[n];
    var all := [cur] + queue;
    assert cur in all;
    ReachedNext(adj, src, cur.region, cur.dist, e);
    forall x | x in level && x !in done ensures level[x] >= cur.dist {
      var i :| 0 <= i < |all| && all[i] == Visit(x, level[x]);
      assert all[0].dist <= all[i].dist;
    }
    forall es | IsWalk(adj, src, es, e.to) ensures cur.dist + 1 <= |es| {
      WalkMeetsFrontier(adj, Anywhere, src, level, done, cur.dist, es);
    }
    MinHopsIs(adj, src, e.to, cur.dist + 1);
  }

  /** An empty queue leaves exactly the unreachable regions without a label. */
  lemma ExhaustedMeansUnreachable(adj: Adjacency, src: string, level: map<string, nat>, done: set<string>, r: string)
    requires Frontier(adj, Anywhere, src, level, done, [])
    requires r !in level
    ensures MinHops(adj, src, r) == -1
  {
    NothingQueued(level, done);
    if es :| IsWalk(adj, src, es, r) {
      WalkMeetsFrontier(adj, Anywhere, src, level, done, |es|, es);
    }
  }

  /** After a search bounded by `k` hops the labels are the exact distances up to `k`. */
  lemma ExhaustedWithin(adj: Adjacency, src: string, k: int, level: map<string, nat>, done: set<string>, r: string)
    requires Frontier(adj, Within(k), src, level, done, [])
    requires forall x | x in level :: level[x] == 0 || level[x] <= k
    ensures r in level ==> MinHops(adj, src, r) == level[r]
    ensures 0 <= MinHops(adj, src, r) <= k ==> r in level
  {
    NothingQueued(level, done);
    if r in level {
      LabelIsMinHops(adj, Within(k), src, level, done, r);
    }
    if 0 <= MinHops(adj, src, r) <= k {
      var es :| IsWalk(adj, src, es, r) && |es| == MinHops(adj, src, r);
      WalkMeetsFrontier(adj, Within(k), src, level, done, k, es);
    }
  }

  /** How many regions a search from `src` may still label. */
  function Unlabelled(adj: Adjacency, src: string, level: map<string, nat>): nat {
    |Universe(adj, src) - level.Keys|
  }

  /** The state of the inner loop: the front `cur` is out of the queue and the
      first `n` of its edges have been looked at. */
  ghost predicate Scanning(
      adj: Adjacency, reach: Reach, src: string, level: map<string, nat>, done: set<string>, cur: Visit,
      queue: seq<Visit>, n: nat)
  {
    && Frontier(adj, reach, src, level, done, [cur] + queue)
    && Covered(EdgesFrom(adj, cur.region), n, level, cur.dist + 1)
  }

  lemma ScanStart(
      adj: Adjacency, reach: Reach, src: string, level: map<string, nat>, done: set<string>, queue: seq<Visit>)
    requires Frontier(adj, reach, src, level, done, queue) && queue != []
    ensures Scanning(adj, reach, src, level, done, queue[0], queue[1..], 0)
  {
    hide Frontier;
    assert queue == [queue[0]] + queue[1..];
  }

  lemma ScanKnown(
      adj: Adjacency, reach: Reach, src: string, level: map<string, nat>, done: set<string>, cur: Visit,
      queue: seq<Visit>, n: nat)
    requires Scanning(adj, reach, src, level, done, cur, queue, n) && n < |EdgesFrom(adj, cur.region)|
    requires EdgesFrom(adj, cur.region)[n].to in level
    ensures Scanning(adj, reach, src, level, done, cur, queue, n + 1)
  {
    hide Labelled, Finished, Queued;
    assert forall r | r in level :: level[r] <= ([cur] + queue)[0].dist + 1;
  }

  lemma ScanNew(
      adj: Adjacency, reach: Reach, src: string, level: map<string, nat>, done: set<string>, cur: Visit,
      queue: seq<Visit>, n: nat)
    requires Scanning(adj, reach, src, level, done, cur, queue, n) && n < |EdgesFrom(adj, cur.region)|
    requires EdgesFrom(adj, cur.region)[n].to !in level
    ensures var r := EdgesFrom(adj, cur.region)[n].to;
            && Scanning(adj, reach, src, level[r := cur.dist + 1], done, cur, queue + [Visit(r, cur.dist + 1)], n + 1)
            && Unlabelled(adj, src, level[r := cur.dist + 1]) < Unlabelled(adj, src, level)
  {
    hide Frontier, EdgesFrom, Universe;
    var e := EdgesFrom(adj, cur.region)[n];
    Discover(adj, reach, src, level, done, cur, queue, e);
    EdgeInUniverse(adj, src, cur.region, e);
    var level' := level[e.to := cur.dist + 1];
    assert level'.Keys == level.Keys + {e.to};
    assert Universe(adj, src) - level.Keys == (Universe(adj, src) - level'.Keys) + {e.to};
  }

  lemma ScanEnd(
      adj: Adjacency, reach: Reach, src: string, level: map<string, nat>, done: set<string>, cur: Visit,
      queue: seq<Visit>, n: nat)
    requires Scanning(adj, reach, src, level, done, cur, queue, n)
    requires reach.Expands(cur.dist) ==> n == |EdgesFrom(adj, cur.region)|
    ensures Frontier(adj, reach, src, level, done + {cur.region}, queue)
  {
    hide Frontier, EdgesFrom;
    Finish(adj, reach, src, level, done, cur, queue);
  }

  // ----- the bounded search's result list ------------------------------------

  predicate WithinLimit(level: map<string, nat>, k: int) {
    forall r | r in level :: level[r] == 0 || level[r] <= k
  }

  /** The result holds the finished regions other than the start, each once and
      in the order of their labels, none deeper than what still waits. */
  ghost predicate Collected(result: seq<string>, level: map<string, nat>, done: set<string>, queue: seq<Visit>) {
    && done <= level.Keys
    && (forall r :: r in result <==> r in done && level[r] > 0)
    && (forall i, j | 0 <= i < j < |result| :: result[i] != result[j])
    && (forall i, j | 0 <= i < j < |result| ::
          result[i] in level && result[j] in level && level[result[i]] <= level[result[j]])
    && (forall r, v | r in done && v in queue :: level[r] <= v.dist)
  }

  lemma Collect(
      adj: Adjacency, reach: Reach, src: string, result: seq<string>, level: map<string, nat>, done: set<string>,
      queue: seq<Visit>)
    requires Frontier(adj, reach, src, level, done, queue) && queue != []
    requires Collected(result, level, done, queue)
    ensures var cur := queue[0];
            Collected(if cur.dist > 0 then result + [cur.region] else result, level, done + {cur.region}, queue[1..])
  {
    hide Labelled, Finished;
    var cur, rest := queue[0], queue[1..];
    forall v | v in rest ensures v in queue && cur.dist <= v.dist {
      var i :| 0 <= i < |rest| && rest[i] == v;
      assert queue[i + 1] == v;
    }
    forall i | 0 <= i < |result| ensures result[i] in done && level[result[i]] <= cur.dist {
      assert result[i] in result;
    }
  }

  lemma CollectMore(
      adj: Adjacency, reach: Reach, src: string, result: seq<string>, level: map<string, nat>, done: set<string>,
      cur: Visit, queue: seq<Visit>, n: nat)
    requires Scanning(adj, reach, src, level, done, cur, queue, n) && n < |EdgesFrom(adj, cur.region)|
    requires Collected(result, level, done + {cur.region}, queue)
    requires EdgesFrom(adj, cur.region)[n].to !in level
    ensures var r := EdgesFrom(adj, cur.region)[n].to;
            Collected(result, level[r := cur.dist + 1], done + {cur.region}, queue + [Visit(r, cur.dist + 1)])
  {
    hide Labelled, Finished, Queued, EdgesFrom;
    assert forall x | x in level :: level[x] <= ([cur] + queue)[0].dist + 1;
  }

  lemma NothingCollected(src: string)
    ensures Collected([], map[src := 0], {}, [Visit(src, 0)])
  {}

  lemma CollectedAll(
      adj: Adjacency, src: string, k: int, result: seq<string>, level: map<string, nat>, done: set<string>)
    requires Frontier(adj, Within(k), src, level, done, [])
    requires WithinLimit(level, k) && Collected(result, level, done, [])
    ensures forall r :: r in result <==> 1 <= MinHops(adj, src, r) <= k
    ensures forall i, j | 0 <= i < j < |result| ::
              result[i] != result[j] && MinHops(adj, src, result[i]) <= MinHops(adj, src, result[j])
  {
    hide MinHops, Labelled, Finished;
    forall r ensures r in result <==> 1 <= MinHops(adj, src, r) <= k {
      ExhaustedWithin(adj, src, k, level, done, r);
      NothingQueued(level, done);
    }
    forall i | 0 <= i < |result| ensures result[i] in level && MinHops(adj, src, result[i]) == level[result[i]] {
      assert result[i] in result;
      ExhaustedWithin(adj, src, k, level, done, result[i]);
    }
  }
}
