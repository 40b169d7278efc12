/**
 * The week view's layout of one day's appointments: they are sorted by
 * start, cut into clusters of transitively overlapping appointments, and
 * each cluster is laid out in columns, each appointment in the first column
 * whose last appointment has ended by its start.  An appointment's box is
 * its column and the number of columns of its cluster; the percentages the
 * view derives from them are not modelled.  Also the card's height and top
 * offset in the hour grid.
 */
module WeekView {
  import opened Common
  import opened ReservationManagement

  // ---------------------------------------------------------------------------
  // Sorting by start

  /** Each appointment starts no earlier than the one before it. */
  predicate SortedByStart(s: seq<Reservation>) {
    forall i | 0 <= i < |s| - 1 :: s[i].start <= s[i + 1].start
  }

  /** Sorted by neighbours means sorted by every pair. */
  lemma {:induction false} SortedPairs(s: seq<Reservation>, i: nat, j: nat)
    requires SortedByStart(s) && i <= j < |s|
    ensures s[i].start <= s[j].start
    decreases j - i
  {
    if i < j {
      SortedPairs(s, i + 1, j);
    }
  }

  /** `x` placed into sorted `s` after every appointment that starts no later. */
  function Insert(x: Reservation, s: seq<Reservation>): (r: seq<Reservation>)
    requires SortedByStart(s)
    ensures SortedByStart(r)
    ensures multiset(r) == multiset(s) + multiset{x}
    ensures r[0] == x || (s != [] && r[0] == s[0])
  {
    if s == [] then [x]
    else if x.start < s[0].start then [x] + s
    else
      var rest := Insert(x, s[1..]);
      assert s == [s[0]] + s[1..];
      assert rest[0] == x || rest[0] == s[1];
      [s[0]] + rest
  }

  /** The day's appointments ordered by start time, as the copy `[...day].sort(byStart)`. */
  function SortByStart(s: seq<Reservation>): (r: seq<Reservation>)
    ensures SortedByStart(r)
    ensures multiset(r) == multiset(s)
  {
    if s == [] then []
    else
      assert s == s[..|s| - 1] + [s[|s| - 1]];
      Insert(s[|s| - 1], SortByStart(s[..|s| - 1]))
  }

  // ---------------------------------------------------------------------------
  // Clusters

  /** The latest end among the appointments of `c`. */
  function MaxEnd(c: seq<Reservation>): (m: int)
    requires c != []
    ensures forall k | 0 <= k < |c| :: c[k].end <= m
    ensures exists k | 0 <= k < |c| :: c[k].end == m
  {
    if |c| == 1 then c[0].end
    else
      var m := MaxEnd(c[..|c| - 1]);
      assert forall k | 0 <= k < |c| - 1 :: c[..|c| - 1][k] == c[k];
      if c[|c| - 1].end > m then c[|c| - 1].end else m
  }

  /** The clusters one after another. */
  function Flatten(cs: seq<seq<Reservation>>): seq<Reservation> {
    if cs == [] then [] else Flatten(cs[..|cs| - 1]) + cs[|cs| - 1]
  }

  lemma FlattenAppend(cs: seq<seq<Reservation>>, c: seq<Reservation>)
    ensures Flatten(cs + [c]) == Flatten(cs) + c
  {
    assert (cs + [c])[..|cs|] == cs;
  }

  /** Every appointment after the first starts before the latest end of those before it. */
  predicate Chained(c: seq<Reservation>) {
    c != [] && forall k | 1 <= k < |c| :: c[k].start < MaxEnd(c[..k])
  }

  /** Every cluster is chained. */
  predicate AllChained(cs: seq<seq<Reservation>>) {
    forall j | 0 <= j < |cs| :: Chained(cs[j])
  }

  /** `next` starts no earlier than the latest end of `prev`. */
  predicate Follows(prev: seq<Reservation>, next: seq<Reservation>) {
    prev != [] && next != [] && next[0].start >= MaxEnd(prev)
  }

  /** Every cluster follows the one before it. */
  predicate Separated(cs: seq<seq<Reservation>>) {
    forall j | 1 <= j < |cs| :: Follows(cs[j - 1], cs[j])
  }

  /**
   * `cs` cuts `sorted` into clusters as the loop does: each appointment
   * joins the open cluster exactly when it starts before that cluster's
   * latest end, and opens a new cluster otherwise.
   */
  predicate ClustersOf(cs: seq<seq<Reservation>>, sorted: seq<Reservation>) {
    Flatten(cs) == sorted && AllChained(cs) && Separated(cs)
  }

  /**
   * The state of the clustering loop after the appointments `done`: the
   * closed clusters and the open one cut `done` as ClustersOf says, and
   * `clusterEnd` is the open cluster's latest end.
   */
  predicate Clustering(clusters: seq<seq<Reservation>>, current: seq<Reservation>, clusterEnd: int, done: seq<Reservation>) {
    && Flatten(clusters) + current == done
    && AllChained(clusters) && Separated(clusters)
    && (current == [] <==> done == [])
    && (current == [] ==> clusters == [])
    && (current != [] ==> Chained(current) && clusterEnd == MaxEnd(current))
    && (current != [] && clusters != [] ==> Follows(clusters[|clusters| - 1], current))
  }

  /** The first appointment opens the first cluster. */
  lemma ClusterFirst(ev: Reservation)
    ensures Clustering([], [ev], ev.end, [ev])
  {
  }

  /** An appointment that starts before the open cluster's latest end joins it. */
  lemma ClusterJoin(clusters: seq<seq<Reservation>>, current: seq<Reservation>, clusterEnd: int, done: seq<Reservation>, ev: Reservation)
    requires Clustering(clusters, current, clusterEnd, done) && current != [] && ev.start < clusterEnd
    ensures Clustering(clusters, current + [ev], if ev.end > clusterEnd then ev.end else clusterEnd, done + [ev])
  {
    var d := current + [ev];
    ChainedExtend(current, ev);
    MaxEndExtend(current, ev);
    AppendAfter(Flatten(clusters), current, ev);
    if clusters != [] {
      assert Follows(clusters[|clusters| - 1], current);
      assert d[0] == current[0];
    }
  }

  /** Appending after a concatenation appends to its second part. */
  lemma AppendAfter(a: seq<Reservation>, b: seq<Reservation>, ev: Reservation)
    ensures a + (b + [ev]) == (a + b) + [ev]
  {
  }

  /** Appending an appointment that starts before the latest end keeps a cluster chained. */
  lemma ChainedExtend(current: seq<Reservation>, ev: Reservation)
    requires Chained(current) && ev.start < MaxEnd(current)
    ensures Chained(current + [ev])
  {
    var d := current + [ev];
    assert d[..|current|] == current;
    forall k | 1 <= k < |d|
      ensures d[k].start < MaxEnd(d[..k])
    {
      if k < |current| {
        assert d[..k] == current[..k];
      }
    }
  }

  /** The latest end after appending `ev` is the larger of the old latest end and `ev`'s end. */
  lemma MaxEndExtend(current: seq<Reservation>, ev: Reservation)
    requires current != []
    ensures MaxEnd(current + [ev]) == if ev.end > MaxEnd(current) then ev.end else MaxEnd(current)
  {
    var d := current + [ev];
    assert d[..|d| - 1] == current;
  }

  /** An appointment that starts at or after the open cluster's latest end closes it and opens a new one. */
  lemma ClusterSplit(clusters: seq<seq<Reservation>>, current: seq<Reservation>, clusterEnd: int, done: seq<Reservation>, ev: Reservation)
    requires Clustering(clusters, current, clusterEnd, done) && current != [] && ev.start >= clusterEnd
    ensures Clustering(clusters + [current], [ev], ev.end, done + [ev])
  {
    ClusterClose(clusters, current, clusterEnd, done);
    assert Follows(current, [ev]);
  }

  /** At the end the open cluster is closed, and the clusters cut everything seen. */
  lemma ClusterClose(clusters: seq<seq<Reservation>>, current: seq<Reservation>, clusterEnd: int, done: seq<Reservation>)
    requires Clustering(clusters, current, clusterEnd, done) && current != []
    ensures ClustersOf(clusters + [current], done)
  {
    var ds := clusters + [current];
    FlattenAppend(clusters, current);
    assert ds[..|clusters|] == clusters;
    forall j | 0 <= j < |ds|
      ensures Chained(ds[j])
    {
      if j < |clusters| {
        assert ds[j] == clusters[j];
      }
    }
    forall j | 1 <= j < |ds|
      ensures Follows(ds[j - 1], ds[j])
    {
      if j < |clusters| {
        assert ds[j - 1] == clusters[j - 1] && ds[j] == clusters[j];
      }
    }
  }

  /** The first loop of calculateEventLayout: cut the sorted appointments into clusters. */
  method Clusters(sorted: seq<Reservation>) returns (clusters: seq<seq<Reservation>>)
    ensures ClustersOf(clusters, sorted)
  {
    clusters := [];
    var current: seq<Reservation> := [];
    var clusterEnd := 0;
    var i := 0;
    ClusterNone(sorted);
    while i < |sorted|
      invariant 0 <= i <= |sorted|
      invariant Clustering(clusters, current, clusterEnd, sorted[..i])
    {
      clusters, current, clusterEnd := ClusterStep(clusters, current, clusterEnd, sorted, i);
      i := i + 1;
    }
    assert sorted[..i] == sorted;
    if current != [] {
      ClusterClose(clusters, current, clusterEnd, sorted);
      clusters := clusters + [current];
    } else {
      ClusterEmpty(clusters, clusterEnd, sorted);
    }
  }

  /** Before the loop nothing is seen and nothing is open. */
  lemma ClusterNone(sorted: seq<Reservation>)
    ensures Clustering([], [], 0, sorted[..0])
  {
  }

  /** With nothing open at the end, nothing was seen. */
  lemma ClusterEmpty(clusters: seq<seq<Reservation>>, clusterEnd: int, sorted: seq<Reservation>)
    requires Clustering(clusters, [], clusterEnd, sorted)
    ensures ClustersOf(clusters, sorted)
  {
  }

  /** One iteration of the clustering loop: `ev` opens, joins or follows the open cluster. */
  method ClusterStep(clusters: seq<seq<Reservation>>, current: seq<Reservation>, clusterEnd: int,
                     sorted: seq<Reservation>, i: nat)
    returns (clusters': seq<seq<Reservation>>, current': seq<Reservation>, clusterEnd': int)
    requires i < |sorted| && Clustering(clusters, current, clusterEnd, sorted[..i])
    ensures Clustering(clusters', current', clusterEnd', sorted[..i + 1])
  {
    var ev := sorted[i];
    ghost var done := sorted[..i];
    if current == [] {
      ClusterFirst(ev);
      clusters', current', clusterEnd' := [], [ev], ev.end;
    } else if ev.start < clusterEnd {
      ClusterJoin(clusters, current, clusterEnd, done, ev);
      clusters', current' := clusters, current + [ev];
      clusterEnd' := if ev.end > clusterEnd then ev.end else clusterEnd;
    } else {
      ClusterSplit(clusters, current, clusterEnd, done, ev);
      clusters', current', clusterEnd' := clusters + [current], [ev], ev.end;
    }
    PrefixGrows(sorted, i);
    ClusteringOn(clusters', current', clusterEnd', done + [ev], sorted[..i + 1]);
  }

  /** The prefix of one more appointment is the shorter prefix followed by that appointment. */
  lemma PrefixGrows(sorted: seq<Reservation>, i: nat)
    requires i < |sorted|
    ensures sorted[..i + 1] == sorted[..i] + [sorted[i]]
  {
  }

  /** The loop state depends only on the appointments seen, not on how that sequence was formed. */
  lemma ClusteringOn(clusters: seq<seq<Reservation>>, current: seq<Reservation>, clusterEnd: int,
                     done: seq<Reservation>, done': seq<Reservation>)
    requires Clustering(clusters, current, clusterEnd, done) && done == done'
    ensures Clustering(clusters, current, clusterEnd, done')
  {
  }

  /** No appointment of a cluster overlaps the first appointment of the next one. */
  lemma NextClusterStartsAfter(cs: seq<seq<Reservation>>, sorted: seq<Reservation>, j: nat, k: nat)
    requires ClustersOf(cs, sorted)
    requires 1 <= j < |cs| && k < |cs[j - 1]|
    ensures cs[j - 1][k].end <= cs[j][0].start
    ensures !Overlap(cs[j - 1][k].start, cs[j - 1][k].end, cs[j][0].start, cs[j][0].end)
  {
    assert Follows(cs[j - 1], cs[j]);
  }

  // ---------------------------------------------------------------------------
  // Columns within a cluster

  /** Each appointment of a column starts no earlier than the one before it ends. */
  predicate ColumnChained(col: seq<Reservation>) {
    forall k | 0 <= k < |col| - 1 :: col[k].end <= col[k + 1].start
  }

  /** The appointments of one column do not overlap, when every appointment ends no earlier than it starts. */
  lemma {:induction false} ColumnHasNoOverlap(col: seq<Reservation>, a: nat, b: nat)
    requires ColumnChained(col)
    requires forall k | 0 <= k < |col| :: col[k].start <= col[k].end
    requires a < b < |col|
    ensures col[a].end <= col[b].start
    ensures !Overlap(col[a].start, col[a].end, col[b].start, col[b].end)
    decreases b - a
  {
    if a + 1 < b {
      ColumnHasNoOverlap(col, a + 1, b);
    }
  }

  /** A column holds an appointment and keeps its appointments apart. */
  predicate GoodColumn(col: seq<Reservation>) {
    col != [] && ColumnChained(col)
  }

  predicate GoodColumns(columns: seq<seq<Reservation>>) {
    forall c | 0 <= c < |columns| :: GoodColumn(columns[c])
  }

  /** The end of the last appointment of a column. */
  function LastEnd(col: seq<Reservation>): int
    requires col != []
  {
    col[|col| - 1].end
  }

  /** The column first fit picks for `ev`: the first whose last appointment has ended by `ev`'s start, or the column count. */
  function FirstFree(columns: seq<seq<Reservation>>, ev: Reservation): (c: nat)
    requires GoodColumns(columns)
    ensures FirstFit(columns, ev, c)
    decreases |columns|
  {
    if columns == [] then 0
    else if LastEnd(columns[0]) <= ev.start then 0
    else
      var c := FirstFree(columns[1..], ev);
      assert forall d | 1 <= d < c + 1 :: columns[d] == columns[1..][d - 1];
      c + 1
  }

  /** At most one column meets first fit. */
  lemma FirstFitUnique(columns: seq<seq<Reservation>>, ev: Reservation, c: nat, c': nat)
    requires GoodColumns(columns) && FirstFit(columns, ev, c) && FirstFit(columns, ev, c')
    ensures c == c'
  {
  }

  /** The first column whose last appointment has ended by `ev`'s start, or the column count if none has. */
  method FirstFreeColumn(columns: seq<seq<Reservation>>, ev: Reservation) returns (i: nat)
    requires GoodColumns(columns)
    ensures i <= |columns|
    ensures i < |columns| ==> LastEnd(columns[i]) <= ev.start
    ensures forall c | 0 <= c < i :: LastEnd(columns[c]) > ev.start
    ensures i == FirstFree(columns, ev)
  {
    i := 0;
    while i < |columns|
      invariant 0 <= i <= |columns|
      invariant forall c | 0 <= c < i :: LastEnd(columns[c]) > ev.start
    {
      var col := columns[i];
      assert GoodColumn(col);
      var last := col[|col| - 1];
      if last.end <= ev.start {
        FirstFitUnique(columns, ev, i, FirstFree(columns, ev));
        return;
      }
      i := i + 1;
    }
    FirstFitUnique(columns, ev, i, FirstFree(columns, ev));
  }

  lemma {:induction false} FlattenUpdate(cs: seq<seq<Reservation>>, i: nat, ev: Reservation)
    requires i < |cs|
    ensures multiset(Flatten(cs[i := cs[i] + [ev]])) == multiset(Flatten(cs)) + multiset{ev}
    decreases |cs|
  {
    var ds := cs[i := cs[i] + [ev]];
    var n := |cs| - 1;
    assert Flatten(ds) == Flatten(ds[..n]) + ds[n];
    assert Flatten(cs) == Flatten(cs[..n]) + cs[n];
    if i == n {
      assert ds[..n] == cs[..n];
    } else {
      assert ds[..n] == cs[..n][i := cs[i] + [ev]];
      assert ds[n] == cs[n];
      FlattenUpdate(cs[..n], i, ev);
    }
  }

  /** Every id of `done` has a recorded column, and every recorded column exists. */
  predicate Indexed(colIndex: map<string, nat>, done: seq<Reservation>, count: nat) {
    && (forall m | 0 <= m < |done| :: done[m].id in colIndex)
    && (forall id | id in colIndex :: colIndex[id] < count)
  }

  /** Some appointment of the column carries `id`. */
  predicate HasId(col: seq<Reservation>, id: string) {
    exists k | 0 <= k < |col| :: col[k].id == id
  }

  /** The column recorded for each id holds an appointment with that id. */
  predicate Recorded(columns: seq<seq<Reservation>>, colIndex: map<string, nat>) {
    forall id | id in colIndex :: colIndex[id] < |columns| && HasId(columns[colIndex[id]], id)
  }

  /** The state of the placing loop after the appointments `done`. */
  predicate Placing(columns: seq<seq<Reservation>>, colIndex: map<string, nat>, done: seq<Reservation>) {
    && GoodColumns(columns)
    && multiset(Flatten(columns)) == multiset(done)
    && |columns| <= |done|
    && (done != [] ==> columns != [])
    && Indexed(colIndex, done, |columns|)
    && Recorded(columns, colIndex)
  }

  /**
   * Column `c` is where first fit puts `ev`: every column before it is
   * still busy at `ev`'s start, and `c` is either free by then or a new
   * column after the last.
   */
  predicate FirstFit(columns: seq<seq<Reservation>>, ev: Reservation, c: nat)
    requires GoodColumns(columns)
  {
    && c <= |columns|
    && (forall d | 0 <= d < c :: LastEnd(columns[d]) > ev.start)
    && (c < |columns| ==> LastEnd(columns[c]) <= ev.start)
  }

  /** Appending `ev` to the column it fits in, and recording that column. */
  lemma PlaceInExisting(columns: seq<seq<Reservation>>, colIndex: map<string, nat>, done: seq<Reservation>, ev: Reservation, i: nat)
    requires Placing(columns, colIndex, done) && i < |columns| && LastEnd(columns[i]) <= ev.start
    ensures Placing(columns[i := columns[i] + [ev]], colIndex[ev.id := i], done + [ev])
  {
    ExtendColumn(columns, i, ev);
    FlattenUpdate(columns, i, ev);
    IndexedAdd(colIndex, done, |columns|, |columns|, ev, i);
    RecordedGrow(columns, columns[i := columns[i] + [ev]], colIndex, ev, i);
  }

  /** An appointment that starts once a column's last one has ended extends that column, and the columns stay good. */
  lemma ExtendColumn(columns: seq<seq<Reservation>>, i: nat, ev: Reservation)
    requires GoodColumns(columns) && i < |columns| && LastEnd(columns[i]) <= ev.start
    ensures GoodColumns(columns[i := columns[i] + [ev]])
  {
    var col := columns[i] + [ev];
    assert GoodColumn(columns[i]);
    assert forall k | 0 <= k < |columns[i]| :: col[k] == columns[i][k];
    assert GoodColumn(col);
  }

  /** Recording one more appointment's column keeps every seen id recorded and every recorded column in range. */
  lemma IndexedAdd(colIndex: map<string, nat>, done: seq<Reservation>, count: nat, count': nat, ev: Reservation, c: nat)
    requires Indexed(colIndex, done, count) && count <= count' && c < count'
    ensures Indexed(colIndex[ev.id := c], done + [ev], count')
  {
    var ds := done + [ev];
    assert forall m | 0 <= m < |done| :: ds[m] == done[m];
  }

  /**
   * When every column only grows at its end, and `ev` is now the last
   * appointment of column `c`, recording `c` for `ev`'s id keeps every
   * recorded column holding its id.
   */
  lemma RecordedGrow(columns: seq<seq<Reservation>>, columns': seq<seq<Reservation>>, colIndex: map<string, nat>, ev: Reservation, c: nat)
    requires Recorded(columns, colIndex)
    requires |columns| <= |columns'| && c < |columns'|
    requires forall d | 0 <= d < |columns| :: columns[d] <= columns'[d]
    requires columns'[c] != [] && columns'[c][|columns'[c]| - 1] == ev
    ensures Recorded(columns', colIndex[ev.id := c])
  {
    var index := colIndex[ev.id := c];
    forall id | id in index
      ensures index[id] < |columns'| && HasId(columns'[index[id]], id)
    {
      if id == ev.id {
        assert columns'[c][|columns'[c]| - 1].id == id;
      } else {
        var d := colIndex[id];
        var k :| 0 <= k < |columns[d]| && columns[d][k].id == id;
        assert columns'[d][k] == columns[d][k];
      }
    }
  }

  /** Opening a new column for `ev`, and recording it. */
  lemma PlaceInNew(columns: seq<seq<Reservation>>, colIndex: map<string, nat>, done: seq<Reservation>, ev: Reservation)
    requires Placing(columns, colIndex, done)
    ensures Placing(columns + [[ev]], colIndex[ev.id := |columns|], done + [ev])
  {
    FlattenAppend(columns, [ev]);
    IndexedAdd(colIndex, done, |columns|, |columns| + 1, ev, |columns|);
    RecordedGrow(columns, columns + [[ev]], colIndex, ev, |columns|);
  }

  /** No two appointments of `s` share an id unless they are the same appointment. */
  predicate IdsDetermine(s: seq<Reservation>) {
    forall a, b | a in s && b in s && a.id == b.id :: a == b
  }

  /** Every appointment of `s` ends no earlier than it starts. */
  predicate WellTimed(s: seq<Reservation>) {
    forall ev | ev in s :: ev.start <= ev.end
  }

  /** Any two different appointments of `s` that overlap have different recorded columns. */
  predicate Apart(colIndex: map<string, nat>, s: seq<Reservation>) {
    forall a, b | a in s && b in s && a != b && Overlap(a.start, a.end, b.start, b.end) ::
      a.id in colIndex && b.id in colIndex && colIndex[a.id] != colIndex[b.id]
  }

  /**
   * Two different appointments of the cluster that overlap are never put in
   * the same column: the column holding both would have one end after the
   * other starts.
   */
  lemma OverlapApart(columns: seq<seq<Reservation>>, colIndex: map<string, nat>, cluster: seq<Reservation>, a: Reservation, b: Reservation)
    requires GoodColumns(columns) && multiset(Flatten(columns)) == multiset(cluster) && Recorded(columns, colIndex)
    requires IdsDetermine(cluster) && WellTimed(cluster)
    requires a in cluster && b in cluster && a != b && Overlap(a.start, a.end, b.start, b.end)
    requires a.id in colIndex && b.id in colIndex
    ensures colIndex[a.id] != colIndex[b.id]
  {
    if colIndex[a.id] == colIndex[b.id] {
      var c := colIndex[a.id];
      var col := columns[c];
      forall k | 0 <= k < |col|
        ensures col[k] in cluster
      {
        InCluster(columns, c, col[k]);
        SameMembers(Flatten(columns), cluster, col[k]);
      }
      var p :| 0 <= p < |col| && col[p].id == a.id;
      var q :| 0 <= q < |col| && col[q].id == b.id;
      assert col[p] == a && col[q] == b;
      assert GoodColumn(col);
      if p < q {
        ColumnHasNoOverlap(col, p, q);
      } else {
        ColumnHasNoOverlap(col, q, p);
      }
      assert false;
    }
  }

  /** The placing state depends only on the appointments placed, not on how that sequence was formed. */
  lemma PlacingOn(columns: seq<seq<Reservation>>, colIndex: map<string, nat>, done: seq<Reservation>, done': seq<Reservation>)
    requires Placing(columns, colIndex, done) && done == done'
    ensures Placing(columns, colIndex, done')
  {
  }

  /** Placing a whole cluster keeps every two overlapping appointments in different columns. */
  lemma PlacedApart(columns: seq<seq<Reservation>>, colIndex: map<string, nat>, cluster: seq<Reservation>)
    requires Placing(columns, colIndex, cluster)
    ensures IdsDetermine(cluster) && WellTimed(cluster) ==> Apart(colIndex, cluster)
  {
    if IdsDetermine(cluster) && WellTimed(cluster) {
      PlacedApartTimed(columns, colIndex, cluster);
    }
  }

  lemma PlacedApartTimed(columns: seq<seq<Reservation>>, colIndex: map<string, nat>, cluster: seq<Reservation>)
    requires GoodColumns(columns) && multiset(Flatten(columns)) == multiset(cluster)
    requires Indexed(colIndex, cluster, |columns|) && Recorded(columns, colIndex)
    requires IdsDetermine(cluster) && WellTimed(cluster)
    ensures Apart(colIndex, cluster)
  {
    forall a, b | a in cluster && b in cluster && a != b && Overlap(a.start, a.end, b.start, b.end)
      ensures a.id in colIndex && b.id in colIndex && colIndex[a.id] != colIndex[b.id]
    {
      OverlapApart(columns, colIndex, cluster, a, b);
    }
  }

  /** One step of first fit: `ev` joins the column first fit picks, or opens a new one, and that column is recorded under its id. */
  function FitStep(columns: seq<seq<Reservation>>, colIndex: map<string, nat>, ev: Reservation)
    : (seq<seq<Reservation>>, map<string, nat>)
    requires GoodColumns(columns)
  {
    var c := FirstFree(columns, ev);
    if c < |columns| then (columns[c := columns[c] + [ev]], colIndex[ev.id := c])
    else (columns + [[ev]], colIndex[ev.id := c])
  }

  /** A first-fit step keeps every column free of overlap. */
  lemma FitStepGood(columns: seq<seq<Reservation>>, colIndex: map<string, nat>, ev: Reservation)
    requires GoodColumns(columns)
    ensures GoodColumns(FitStep(columns, colIndex, ev).0)
  {
    var c := FirstFree(columns, ev);
    if c < |columns| {
      ExtendColumn(columns, c, ev);
    }
  }

  /**
   * First fit over a cluster: the appointments are placed one after
   * another, starting from no columns, each by `FitStep`.
   */
  function FitAll(cluster: seq<Reservation>): (r: (seq<seq<Reservation>>, map<string, nat>))
    ensures GoodColumns(r.0)
    decreases |cluster|
  {
    if cluster == [] then ([], map[])
    else
      var n := |cluster| - 1;
      var prev := FitAll(cluster[..n]);
      FitStepGood(prev.0, prev.1, cluster[n]);
      FitStep(prev.0, prev.1, cluster[n])
  }

  /** First fit over one more appointment is one more step. */
  lemma FitAllStep(cluster: seq<Reservation>, k: nat)
    requires k < |cluster|
    ensures FitAll(cluster[..k + 1]) == FitStep(FitAll(cluster[..k]).0, FitAll(cluster[..k]).1, cluster[k])
  {
    assert cluster[..k + 1][..k] == cluster[..k];
  }

  /**
   * With unique ids, the column first fit finally records for each
   * appointment is the one it picked when the appointment was placed: the
   * first of the columns opened before it that is free at its start, or a
   * new column after them.
   */
  lemma {:induction false} FitAllIsFirstFit(cluster: seq<Reservation>, k: nat)
    requires UniqueIds(cluster) && k < |cluster|
    ensures cluster[k].id in FitAll(cluster).1
    ensures FitAll(cluster).1[cluster[k].id] == FirstFree(FitAll(cluster[..k]).0, cluster[k])
    ensures FirstFit(FitAll(cluster[..k]).0, cluster[k], FitAll(cluster).1[cluster[k].id])
    decreases |cluster|
  {
    var n := |cluster| - 1;
    var init := cluster[..n];
    var prev := FitAll(init);
    assert cluster[..n + 1] == cluster;
    FitAllStep(cluster, n);
    FitStepRecords(prev.0, prev.1, cluster[n]);
    assert FitAll(cluster).1 == prev.1[cluster[n].id := FirstFree(prev.0, cluster[n])];
    if k < n {
      UniquePrefix(cluster, n);
      assert init[k] == cluster[k] && init[..k] == cluster[..k];
      FitAllIsFirstFit(init, k);
      assert cluster[n].id != cluster[k].id;
    }
  }

  /** A first-fit step records the picked column under the appointment's id and nothing else. */
  lemma FitStepRecords(columns: seq<seq<Reservation>>, colIndex: map<string, nat>, ev: Reservation)
    requires GoodColumns(columns)
    ensures FitStep(columns, colIndex, ev).1 == colIndex[ev.id := FirstFree(columns, ev)]
  {
  }

  /** A prefix of a sequence with unique ids has unique ids. */
  lemma UniquePrefix(s: seq<Reservation>, n: nat)
    requires UniqueIds(s) && n <= |s|
    ensures UniqueIds(s[..n])
  {
    assert forall i | 0 <= i < n :: s[..n][i] == s[i];
  }

  /**
   * The second loop of calculateEventLayout, for one cluster: each
   * appointment goes to the first column it fits in, or opens a new one;
   * `colIndex` records the column by id.  When ids are unique and no
   * appointment ends before it starts, overlapping appointments get
   * different columns.
   */
  method PlaceInColumns(cluster: seq<Reservation>) returns (columns: seq<seq<Reservation>>, colIndex: map<string, nat>)
    ensures GoodColumns(columns)
    ensures multiset(Flatten(columns)) == multiset(cluster)
    ensures |columns| <= |cluster|
    ensures cluster != [] ==> columns != []
    ensures Indexed(colIndex, cluster, |columns|)
    ensures Recorded(columns, colIndex)
    ensures IdsDetermine(cluster) && WellTimed(cluster) ==> Apart(colIndex, cluster)
    ensures (columns, colIndex) == FitAll(cluster)
  {
    columns := [];
    colIndex := map[];
    var k := 0;
    while k < |cluster|
      invariant 0 <= k <= |cluster|
      invariant Placing(columns, colIndex, cluster[..k])
      invariant (columns, colIndex) == FitAll(cluster[..k])
    {
      ghost var done := cluster[..k];
      columns, colIndex := Place(columns, colIndex, done, cluster[k]);
      PrefixGrows(cluster, k);
      FitAllStep(cluster, k);
      PlacingOn(columns, colIndex, done + [cluster[k]], cluster[..k + 1]);
      k := k + 1;
    }
    assert cluster[..k] == cluster;
    PlacedApart(columns, colIndex, cluster);
  }

  /** One iteration of the placing loop: `ev` goes to the first column it fits in, or to a new one. */
  method Place(columns: seq<seq<Reservation>>, colIndex: map<string, nat>, ghost done: seq<Reservation>, ev: Reservation)
    returns (columns': seq<seq<Reservation>>, colIndex': map<string, nat>)
    requires Placing(columns, colIndex, done)
    ensures Placing(columns', colIndex', done + [ev])
    ensures ev.id in colIndex' && FirstFit(columns, ev, colIndex'[ev.id])
    ensures colIndex' == colIndex[ev.id := colIndex'[ev.id]]
    ensures colIndex'[ev.id] < |columns| ==> columns' == columns[colIndex'[ev.id] := columns[colIndex'[ev.id]] + [ev]]
    ensures colIndex'[ev.id] == |columns| ==> columns' == columns + [[ev]]
    ensures (columns', colIndex') == FitStep(columns, colIndex, ev)
  {
    var i := FirstFreeColumn(columns, ev);
    if i < |columns| {
      PlaceInExisting(columns, colIndex, done, ev, i);
      columns' := columns[i := columns[i] + [ev]];
      colIndex' := colIndex[ev.id := i];
    } else {
      PlaceInNew(columns, colIndex, done, ev);
      colIndex' := colIndex[ev.id := |columns|];
      columns' := columns + [[ev]];
    }
  }

  // ---------------------------------------------------------------------------
  // The whole day

  /** An appointment's box: its column and the number of columns of its cluster. */
  datatype Slot = Slot(column: nat, count: nat)

  /** Every appointment of `s` has a box. */
  predicate Covers(styles: map<string, Slot>, s: seq<Reservation>) {
    forall ev | ev in s :: ev.id in styles
  }

  /** Every box belongs to an appointment of `s`. */
  predicate OnlyFrom(styles: map<string, Slot>, s: seq<Reservation>) {
    forall id | id in styles :: exists ev | ev in s :: ev.id == id
  }

  /** Every box's column is one of its cluster's columns. */
  predicate Fits(styles: map<string, Slot>) {
    forall id | id in styles :: styles[id].column < styles[id].count
  }

  /** The appointments of `s` all have boxes with the same column count. */
  predicate SharedCount(styles: map<string, Slot>, s: seq<Reservation>) {
    forall a, b | a in s && b in s :: a.id in styles && b.id in styles && styles[a.id].count == styles[b.id].count
  }

  /** Any two different appointments of `s` that overlap have boxes in different columns. */
  predicate ApartColumns(styles: map<string, Slot>, s: seq<Reservation>) {
    forall a, b | a in s && b in s && a != b && Overlap(a.start, a.end, b.start, b.end) ::
      a.id in styles && b.id in styles && styles[a.id].column != styles[b.id].column
  }

  /** No id occurs at two positions of `s`. */
  predicate UniqueIds(s: seq<Reservation>) {
    forall i, j | 0 <= i < |s| && 0 <= j < |s| && s[i].id == s[j].id :: i == j
  }

  /** The clusters hold exactly the day's appointments. */
  predicate SameDay(cs: seq<seq<Reservation>>, day: seq<Reservation>) {
    multiset(Flatten(cs)) == multiset(day)
  }

  /** Appointments of different clusters have different ids. */
  predicate IdsApart(cs: seq<seq<Reservation>>) {
    forall i, j, a, b | 0 <= i < |cs| && 0 <= j < |cs| && i != j && a in cs[i] && b in cs[j] :: a.id != b.id
  }

  lemma {:induction false} InCluster(clusters: seq<seq<Reservation>>, j: nat, ev: Reservation)
    requires j < |clusters| && ev in clusters[j]
    ensures ev in Flatten(clusters)
    decreases |clusters|
  {
    var n := |clusters| - 1;
    assert Flatten(clusters) == Flatten(clusters[..n]) + clusters[n];
    if j < n {
      assert clusters[..n][j] == clusters[j];
      InCluster(clusters[..n], j, ev);
    }
  }

  /** An appointment of the concatenation lies in one of the clusters. */
  lemma {:induction false} ClusterOf(clusters: seq<seq<Reservation>>, ev: Reservation) returns (j: nat)
    requires ev in Flatten(clusters)
    ensures j < |clusters| && ev in clusters[j]
    decreases |clusters|
  {
    var n := |clusters| - 1;
    assert Flatten(clusters) == Flatten(clusters[..n]) + clusters[n];
    if ev in clusters[n] {
      j := n;
    } else {
      j := ClusterOf(clusters[..n], ev);
      assert clusters[..n][j] == clusters[j];
    }
  }

  /** Concatenating the clusters splits at any cluster boundary. */
  lemma {:induction false} FlattenSplit(cs: seq<seq<Reservation>>, n: nat)
    requires n <= |cs|
    ensures Flatten(cs) == Flatten(cs[..n]) + Flatten(cs[n..])
    decreases |cs|
  {
    if n == |cs| {
      assert cs[..n] == cs && cs[n..] == [];
    } else {
      var m := |cs| - 1;
      var init := cs[..m];
      FlattenSplit(init, n);
      assert init[..n] == cs[..n];
      assert cs[n..][..|cs[n..]| - 1] == init[n..];
      assert cs[n..][|cs[n..]| - 1] == cs[m];
    }
  }

  /** The concatenation starts with the first cluster's first appointment. */
  lemma FlattenHead(cs: seq<seq<Reservation>>)
    requires cs != [] && cs[0] != []
    ensures Flatten(cs) != [] && Flatten(cs)[0] == cs[0][0]
  {
    FlattenSplit(cs, 1);
    assert Flatten(cs[..1]) == Flatten([]) + cs[0];
  }

  /**
   * Every appointment of a cluster ends by the start of every appointment of
   * a later cluster: the next cluster starts no earlier than the latest
   * end, and the appointments are sorted by start.
   */
  lemma LaterClusterStartsAfter(cs: seq<seq<Reservation>>, sorted: seq<Reservation>, i: nat, j: nat, a: Reservation, b: Reservation)
    requires ClustersOf(cs, sorted) && SortedByStart(sorted)
    requires i < j < |cs| && a in cs[i] && b in cs[j]
    ensures a.end <= b.start
    ensures !Overlap(a.start, a.end, b.start, b.end)
  {
    assert Follows(cs[i], cs[i + 1]);
    assert a.end <= cs[i + 1][0].start;
    LaterStartsNoEarlier(cs, sorted, i + 1, j, b);
  }

  /** An appointment of cluster `j` starts no earlier than the first appointment of any cluster up to `j`. */
  lemma LaterStartsNoEarlier(cs: seq<seq<Reservation>>, sorted: seq<Reservation>, n: nat, j: nat, b: Reservation)
    requires Flatten(cs) == sorted && SortedByStart(sorted)
    requires n <= j < |cs| && cs[n] != [] && b in cs[j]
    ensures cs[n][0].start <= b.start
  {
    var rest := cs[n..];
    FlattenSplit(cs, n);
    FlattenHead(rest);
    assert rest[j - n] == cs[j];
    InCluster(rest, j - n, b);
    var t :| 0 <= t < |Flatten(rest)| && Flatten(rest)[t] == b;
    var before := |Flatten(cs[..n])|;
    assert sorted[before] == cs[n][0];
    assert sorted[before + t] == b;
    SortedPairs(sorted, before, before + t);
  }

  /** Unique ids make every appointment occur at most once. */
  lemma {:induction false} UniqueOnce(s: seq<Reservation>, x: Reservation)
    requires UniqueIds(s)
    ensures multiset(s)[x] <= 1
    decreases |s|
  {
    if s != [] {
      var n := |s| - 1;
      var init := s[..n];
      assert s == init + [s[n]];
      assert forall i | 0 <= i < n :: init[i] == s[i];
      UniqueOnce(init, x);
    }
  }

  /** An appointment in two different clusters occurs twice in their concatenation. */
  lemma TwoClusters(cs: seq<seq<Reservation>>, i: nat, j: nat, x: Reservation)
    requires i < j < |cs| && x in cs[i] && x in cs[j]
    ensures multiset(Flatten(cs))[x] >= 2
  {
    var upto := cs[..j + 1];
    assert upto[..j] == cs[..j] && upto[j] == cs[j];
    assert Flatten(upto) == Flatten(cs[..j]) + cs[j];
    assert cs[..j][i] == cs[i];
    InCluster(cs[..j], i, x);
    FlattenSplit(cs, j + 1);
  }

  /** With unique ids, the clusters of the day share no id. */
  lemma ClusterIdsApart(day: seq<Reservation>, cs: seq<seq<Reservation>>)
    requires UniqueIds(day) && SameDay(cs, day)
    ensures IdsApart(cs)
  {
    var sorted := Flatten(cs);
    forall i, j, a, b | 0 <= i < |cs| && 0 <= j < |cs| && i != j && a in cs[i] && b in cs[j]
      ensures a.id != b.id
    {
      if a.id == b.id {
        InCluster(cs, i, a);
        InCluster(cs, j, b);
        SameMembers(sorted, day, a);
        SameMembers(sorted, day, b);
        var p :| 0 <= p < |day| && day[p] == a;
        var q :| 0 <= q < |day| && day[q] == b;
        assert p == q;
        UniqueOnce(day, a);
        if i < j {
          TwoClusters(cs, i, j, a);
        } else {
          TwoClusters(cs, j, i, a);
        }
        assert false;
      }
    }
  }

  /** With unique ids, an id names one appointment of the day, and so of each of its clusters. */
  lemma UniqueDetermines(day: seq<Reservation>, cs: seq<seq<Reservation>>, j: nat)
    requires UniqueIds(day) && SameDay(cs, day) && j < |cs|
    ensures IdsDetermine(cs[j])
  {
    forall a, b | a in cs[j] && b in cs[j] && a.id == b.id
      ensures a == b
    {
      InCluster(cs, j, a);
      InCluster(cs, j, b);
      SameMembers(Flatten(cs), day, a);
      SameMembers(Flatten(cs), day, b);
      var p :| 0 <= p < |day| && day[p] == a;
      var q :| 0 <= q < |day| && day[q] == b;
    }
  }

  /** The appointments of a cluster of the day end no earlier than they start when the day's do. */
  lemma TimedCluster(day: seq<Reservation>, cs: seq<seq<Reservation>>, j: nat)
    requires WellTimed(day) && SameDay(cs, day) && j < |cs|
    ensures WellTimed(cs[j])
  {
    forall ev | ev in cs[j]
      ensures ev.start <= ev.end
    {
      InCluster(cs, j, ev);
      SameMembers(Flatten(cs), day, ev);
    }
  }

  /** Boxes for the first `j + 1` clusters: those for the first `j` and those for cluster `j`. */
  lemma CoversNext(styles: map<string, Slot>, r: map<string, Slot>, clusters: seq<seq<Reservation>>, j: nat)
    requires j < |clusters|
    requires Covers(styles, Flatten(clusters[..j])) && Covers(r, clusters[j])
    requires forall id | id in styles :: id in r
    ensures Covers(r, Flatten(clusters[..j + 1]))
  {
    assert clusters[..j + 1] == clusters[..j] + [clusters[j]];
    FlattenAppend(clusters[..j], clusters[j]);
  }

  /** A permutation has the same appointments. */
  lemma SameMembers(a: seq<Reservation>, b: seq<Reservation>, ev: Reservation)
    requires multiset(a) == multiset(b)
    ensures ev in a <==> ev in b
  {
    assert ev in a <==> ev in multiset(a);
  }

  /** Boxes that a later step leaves alone keep their shared count and their distinct columns. */
  lemma KeptBoxes(styles: map<string, Slot>, next: map<string, Slot>, s: seq<Reservation>)
    requires forall a | a in s :: a.id in styles ==> a.id in next && next[a.id] == styles[a.id]
    ensures SharedCount(styles, s) ==> SharedCount(next, s)
    ensures ApartColumns(styles, s) ==> ApartColumns(next, s)
  {
  }

  /**
   * Styling cluster `j` keeps what the earlier clusters' boxes promise, and
   * gives cluster `j` one column count and, where its placing kept
   * overlapping appointments apart, different columns.
   */
  lemma LayoutStep(styles: map<string, Slot>, next: map<string, Slot>, clusters: seq<seq<Reservation>>, j: nat,
                   colIndex: map<string, nat>, count: nat, timed: bool)
    requires j < |clusters| && IdsApart(clusters)
    requires forall ev | ev in clusters[j] :: ev.id in colIndex
    requires forall ev | ev in clusters[j] :: ev.id in next && next[ev.id] == Slot(colIndex[ev.id], count)
    requires forall id | id in styles && (forall ev | ev in clusters[j] :: ev.id != id) :: id in next && next[id] == styles[id]
    requires forall j0 | 0 <= j0 < j :: SharedCount(styles, clusters[j0])
    requires timed ==> Apart(colIndex, clusters[j]) && forall j0 | 0 <= j0 < j :: ApartColumns(styles, clusters[j0])
    ensures forall j0 | 0 <= j0 <= j :: SharedCount(next, clusters[j0])
    ensures timed ==> forall j0 | 0 <= j0 <= j :: ApartColumns(next, clusters[j0])
  {
    forall j0 | 0 <= j0 < j
      ensures SharedCount(next, clusters[j0])
      ensures timed ==> ApartColumns(next, clusters[j0])
    {
      forall a | a in clusters[j0]
        ensures a.id in styles ==> a.id in next && next[a.id] == styles[a.id]
      {
        forall ev | ev in clusters[j]
          ensures ev.id != a.id
        {
        }
      }
      KeptBoxes(styles, next, clusters[j0]);
    }
  }

  /**
   * The state of the styling loop after the first `j` clusters of the day:
   * their appointments have boxes, every box is an appointment's and fits
   * its column count, and what unique ids and well-timed appointments
   * promise holds for those clusters.
   */
  predicate Styled(styles: map<string, Slot>, cs: seq<seq<Reservation>>, j: nat, day: seq<Reservation>)
    requires j <= |cs|
  {
    StyledBoxes(styles, cs, j) && StyledPromises(styles, cs, j, day) && StyledFirstFit(styles, cs, j, day)
  }

  /** `ev`'s box holds the column first fit records for it in `cluster`, and the number of columns first fit opens there. */
  predicate FitBox(styles: map<string, Slot>, cluster: seq<Reservation>, ev: Reservation) {
    && ev.id in styles && ev.id in FitAll(cluster).1
    && styles[ev.id] == Slot(FitAll(cluster).1[ev.id], |FitAll(cluster).0|)
  }

  /** With unique ids, every appointment of the first `j` clusters has the box first fit gives it in its cluster. */
  predicate StyledFirstFit(styles: map<string, Slot>, cs: seq<seq<Reservation>>, j: nat, day: seq<Reservation>)
    requires j <= |cs|
  {
    UniqueIds(day) ==> forall j0, m | 0 <= j0 < j && 0 <= m < |cs[j0]| :: FitBox(styles, cs[j0], cs[j0][m])
  }

  /** The first `j` clusters' appointments have boxes, and every box is an appointment's and fits its column count. */
  predicate StyledBoxes(styles: map<string, Slot>, cs: seq<seq<Reservation>>, j: nat)
    requires j <= |cs|
  {
    Covers(styles, Flatten(cs[..j])) && OnlyFrom(styles, Flatten(cs)) && Fits(styles)
  }

  /** The first `j` clusters share counts under unique ids, and keep overlapping appointments apart when well-timed too. */
  predicate StyledPromises(styles: map<string, Slot>, cs: seq<seq<Reservation>>, j: nat, day: seq<Reservation>)
    requires j <= |cs|
  {
    && (UniqueIds(day) ==> forall j0 | 0 <= j0 < j :: SharedCount(styles, cs[j0]))
    && (UniqueIds(day) && WellTimed(day) ==> forall j0 | 0 <= j0 < j :: ApartColumns(styles, cs[j0]))
  }

  /**
   * calculateEventLayout: every appointment of the day gets a box, only
   * they do, and every box's column is one of its cluster's columns.
   * `clusters` are the clusters the layout cut the day into.  When ids are
   * unique, each box holds the column first fit gives its appointment in
   * its cluster, and the number of columns first fit opens there, so the
   * appointments of one cluster share a column count; when moreover no
   * appointment ends before it starts, any two overlapping appointments of
   * the day get different columns.
   */
  method EventLayout(day: seq<Reservation>) returns (styles: map<string, Slot>, ghost clusters: seq<seq<Reservation>>)
    ensures Covers(styles, day)
    ensures OnlyFrom(styles, day)
    ensures Fits(styles)
    ensures ClustersOf(clusters, SortByStart(day))
    ensures UniqueIds(day) ==> forall j | 0 <= j < |clusters| :: SharedCount(styles, clusters[j])
    ensures UniqueIds(day) && WellTimed(day) ==> ApartColumns(styles, day)
    ensures UniqueIds(day) ==> forall j, m | 0 <= j < |clusters| && 0 <= m < |clusters[j]| :: FitBox(styles, clusters[j], clusters[j][m])
    ensures UniqueIds(day) ==> forall j, m | 0 <= j < |clusters| && 0 <= m < |clusters[j]| ::
      clusters[j][m].id in styles && FirstFit(FitAll(clusters[j][..m]).0, clusters[j][m], styles[clusters[j][m].id].column)
  {
    var sorted := SortByStart(day);
    var cs := Clusters(sorted);
    clusters := cs;
    if UniqueIds(day) {
      ClusterIdsApart(day, cs);
    }
    styles := map[];
    var j := 0;
    while j < |cs|
      invariant 0 <= j <= |cs|
      invariant Styled(styles, cs, j, day)
    {
      styles := StyleNext(styles, cs, j, sorted, day);
      j := j + 1;
    }
    StyledAll(styles, cs, sorted, day);
    if UniqueIds(day) {
      LayoutFirstFit(styles, cs, day);
    }
  }

  /**
   * With unique ids, a box that holds first fit's column holds the column
   * first fit picks for its appointment among the columns opened before it
   * in its cluster.
   */
  lemma LayoutFirstFit(styles: map<string, Slot>, cs: seq<seq<Reservation>>, day: seq<Reservation>)
    requires UniqueIds(day) && SameDay(cs, day)
    requires forall j, m | 0 <= j < |cs| && 0 <= m < |cs[j]| :: FitBox(styles, cs[j], cs[j][m])
    ensures forall j, m | 0 <= j < |cs| && 0 <= m < |cs[j]| ::
      cs[j][m].id in styles && FirstFit(FitAll(cs[j][..m]).0, cs[j][m], styles[cs[j][m].id].column)
  {
    forall j, m | 0 <= j < |cs| && 0 <= m < |cs[j]|
      ensures cs[j][m].id in styles && FirstFit(FitAll(cs[j][..m]).0, cs[j][m], styles[cs[j][m].id].column)
    {
      assert FitBox(styles, cs[j], cs[j][m]);
      ClusterUnique(day, cs, j);
      FitAllIsFirstFit(cs[j], m);
    }
  }

  /** With unique ids on the day, no id occurs twice within one of its clusters. */
  lemma ClusterUnique(day: seq<Reservation>, cs: seq<seq<Reservation>>, j: nat)
    requires UniqueIds(day) && SameDay(cs, day) && j < |cs|
    ensures UniqueIds(cs[j])
  {
    UniqueDetermines(day, cs, j);
    forall p, q | 0 <= p < |cs[j]| && 0 <= q < |cs[j]| && cs[j][p].id == cs[j][q].id
      ensures p == q
    {
      if p != q {
        var x := cs[j][p];
        assert cs[j][q] == x;
        if p < q {
          TwicePresent(cs[j], p, q);
        } else {
          TwicePresent(cs[j], q, p);
        }
        ClusterWithin(cs, j);
        UniqueOnce(day, x);
        assert false;
      }
    }
  }

  /** An appointment at two positions of `s` occurs at least twice in it. */
  lemma TwicePresent(s: seq<Reservation>, p: nat, q: nat)
    requires p < q < |s| && s[p] == s[q]
    ensures multiset(s)[s[p]] >= 2
  {
    assert s == s[..q] + s[q..];
    assert s[..q][p] == s[p];
    assert s[q..][0] == s[p];
  }

  /** Every cluster's appointments are among the concatenation's, as often. */
  lemma ClusterWithin(cs: seq<seq<Reservation>>, j: nat)
    requires j < |cs|
    ensures multiset(cs[j]) <= multiset(Flatten(cs))
  {
    FlattenSplit(cs, j);
    FlattenSplit(cs[j..], 1);
    assert cs[j..][..1] == [cs[j]];
    assert Flatten([cs[j]]) == Flatten([]) + cs[j];
  }

  /** One iteration of the styling loop: place cluster `j` in columns and give its appointments their boxes. */
  method StyleNext(styles: map<string, Slot>, cs: seq<seq<Reservation>>, j: nat, sorted: seq<Reservation>, ghost day: seq<Reservation>)
    returns (next: map<string, Slot>)
    requires Flatten(cs) == sorted && SameDay(cs, day)
    requires UniqueIds(day) ==> IdsApart(cs)
    requires j < |cs| && Styled(styles, cs, j, day)
    ensures Styled(next, cs, j + 1, day)
  {
    var cluster := cs[j];
    ClusterInSorted(cs, j, sorted);
    var columns, colIndex := PlaceInColumns(cluster);
    next := StyleCluster(styles, cluster, columns, colIndex, sorted);
    BoxesStep(styles, next, cs, j);
    PromisesStep(styles, next, cs, j, day, colIndex, |columns|);
    IndexedMembers(colIndex, cluster, |columns|);
    FirstFitStep(styles, next, cs, j, day, columns, colIndex);
  }

  /** Styling cluster `j` with first fit's columns gives its appointments first fit's boxes and keeps the earlier clusters'. */
  lemma FirstFitStep(styles: map<string, Slot>, next: map<string, Slot>, cs: seq<seq<Reservation>>, j: nat, day: seq<Reservation>,
                     columns: seq<seq<Reservation>>, colIndex: map<string, nat>)
    requires UniqueIds(day) ==> IdsApart(cs)
    requires j < |cs| && StyledFirstFit(styles, cs, j, day)
    requires (columns, colIndex) == FitAll(cs[j])
    requires forall ev | ev in cs[j] :: ev.id in colIndex && ev.id in next && next[ev.id] == Slot(colIndex[ev.id], |columns|)
    requires forall id | id in styles && (forall ev | ev in cs[j] :: ev.id != id) :: id in next && next[id] == styles[id]
    ensures StyledFirstFit(next, cs, j + 1, day)
  {
    if UniqueIds(day) {
      forall j0, m | 0 <= j0 < j + 1 && 0 <= m < |cs[j0]|
        ensures FitBox(next, cs[j0], cs[j0][m])
      {
        var ev := cs[j0][m];
        if j0 < j {
          assert FitBox(styles, cs[j0], ev);
          forall e | e in cs[j]
            ensures e.id != ev.id
          {
            assert ev in cs[j0];
          }
        } else {
          assert ev in cs[j];
        }
      }
    }
  }

  /** Every appointment of a cluster is one of the sorted appointments. */
  lemma ClusterInSorted(cs: seq<seq<Reservation>>, j: nat, sorted: seq<Reservation>)
    requires j < |cs| && Flatten(cs) == sorted
    ensures forall ev | ev in cs[j] :: ev in sorted
  {
    forall ev | ev in cs[j]
      ensures ev in sorted
    {
      InCluster(cs, j, ev);
    }
  }

  /** Styling cluster `j` gives its appointments boxes and keeps every other box. */
  lemma BoxesStep(styles: map<string, Slot>, next: map<string, Slot>, cs: seq<seq<Reservation>>, j: nat)
    requires j < |cs| && StyledBoxes(styles, cs, j)
    requires forall ev | ev in cs[j] :: ev.id in next
    requires forall id | id in styles :: id in next
    requires OnlyFrom(next, Flatten(cs)) && Fits(next)
    ensures StyledBoxes(next, cs, j + 1)
  {
    CoversNext(styles, next, cs, j);
  }

  /** Styling cluster `j` extends what unique ids and well-timed appointments promise to that cluster. */
  lemma PromisesStep(styles: map<string, Slot>, next: map<string, Slot>, cs: seq<seq<Reservation>>, j: nat, day: seq<Reservation>,
                     colIndex: map<string, nat>, count: nat)
    requires SameDay(cs, day) && (UniqueIds(day) ==> IdsApart(cs))
    requires j < |cs| && StyledPromises(styles, cs, j, day)
    requires Indexed(colIndex, cs[j], count)
    requires IdsDetermine(cs[j]) && WellTimed(cs[j]) ==> Apart(colIndex, cs[j])
    requires forall ev | ev in cs[j] :: ev.id in next && next[ev.id] == Slot(colIndex[ev.id], count)
    requires forall id | id in styles && (forall ev | ev in cs[j] :: ev.id != id) :: id in next && next[id] == styles[id]
    ensures StyledPromises(next, cs, j + 1, day)
  {
    if UniqueIds(day) {
      IndexedMembers(colIndex, cs[j], count);
      StyledUnique(styles, next, cs, j, day, colIndex, count);
    }
  }

  /** Every appointment of `s` has a recorded column. */
  lemma IndexedMembers(colIndex: map<string, nat>, s: seq<Reservation>, count: nat)
    requires Indexed(colIndex, s, count)
    ensures forall ev | ev in s :: ev.id in colIndex
  {
    forall ev | ev in s
      ensures ev.id in colIndex
    {
      var m :| 0 <= m < |s| && s[m] == ev;
    }
  }

  /** With unique ids, styling cluster `j` extends the shared counts and distinct columns to that cluster. */
  lemma StyledUnique(styles: map<string, Slot>, next: map<string, Slot>, cs: seq<seq<Reservation>>, j: nat, day: seq<Reservation>,
                     colIndex: map<string, nat>, count: nat)
    requires SameDay(cs, day) && UniqueIds(day) && IdsApart(cs) && j < |cs|
    requires forall j0 | 0 <= j0 < j :: SharedCount(styles, cs[j0])
    requires WellTimed(day) ==> forall j0 | 0 <= j0 < j :: ApartColumns(styles, cs[j0])
    requires forall ev | ev in cs[j] :: ev.id in colIndex
    requires IdsDetermine(cs[j]) && WellTimed(cs[j]) ==> Apart(colIndex, cs[j])
    requires forall ev | ev in cs[j] :: ev.id in next && next[ev.id] == Slot(colIndex[ev.id], count)
    requires forall id | id in styles && (forall ev | ev in cs[j] :: ev.id != id) :: id in next && next[id] == styles[id]
    ensures forall j0 | 0 <= j0 < j + 1 :: SharedCount(next, cs[j0])
    ensures WellTimed(day) ==> forall j0 | 0 <= j0 < j + 1 :: ApartColumns(next, cs[j0])
  {
    UniqueDetermines(day, cs, j);
    if WellTimed(day) {
      TimedCluster(day, cs, j);
    }
    LayoutStep(styles, next, cs, j, colIndex, count, WellTimed(day));
  }

  /** After the last cluster, the boxes are those of the whole day. */
  lemma StyledAll(styles: map<string, Slot>, cs: seq<seq<Reservation>>, sorted: seq<Reservation>, day: seq<Reservation>)
    requires ClustersOf(cs, sorted) && SortedByStart(sorted) && multiset(sorted) == multiset(day)
    requires Styled(styles, cs, |cs|, day)
    ensures Covers(styles, day) && OnlyFrom(styles, day) && Fits(styles)
    ensures UniqueIds(day) ==> forall j | 0 <= j < |cs| :: SharedCount(styles, cs[j])
    ensures UniqueIds(day) && WellTimed(day) ==> ApartColumns(styles, day)
  {
    assert cs[..|cs|] == cs;
    forall ev | ev in day
      ensures ev.id in styles
    {
      SameMembers(sorted, day, ev);
    }
    forall id | id in styles
      ensures exists ev | ev in day :: ev.id == id
    {
      var ev :| ev in sorted && ev.id == id;
      SameMembers(sorted, day, ev);
    }
    if UniqueIds(day) && WellTimed(day) {
      DayApart(day, cs, sorted, styles);
    }
  }

  /** Overlapping appointments of the day lie in one cluster, so the clusters' distinct columns cover the whole day. */
  lemma DayApart(day: seq<Reservation>, cs: seq<seq<Reservation>>, sorted: seq<Reservation>, styles: map<string, Slot>)
    requires ClustersOf(cs, sorted) && SortedByStart(sorted) && multiset(sorted) == multiset(day)
    requires forall j | 0 <= j < |cs| :: ApartColumns(styles, cs[j])
    ensures ApartColumns(styles, day)
  {
    forall a, b | a in day && b in day && a != b && Overlap(a.start, a.end, b.start, b.end)
      ensures a.id in styles && b.id in styles && styles[a.id].column != styles[b.id].column
    {
      SameMembers(sorted, day, a);
      SameMembers(sorted, day, b);
      var i := ClusterOf(cs, a);
      var j := ClusterOf(cs, b);
      if i < j {
        LaterClusterStartsAfter(cs, sorted, i, j, a, b);
        assert false;
      } else if j < i {
        LaterClusterStartsAfter(cs, sorted, j, i, b, a);
        assert false;
      }
    }
  }

  /** The last loop for one cluster: each of its appointments gets its column and the column count, and other boxes stay. */
  method StyleCluster(styles: map<string, Slot>, cluster: seq<Reservation>, columns: seq<seq<Reservation>>,
                      colIndex: map<string, nat>, ghost allowed: seq<Reservation>) returns (r: map<string, Slot>)
    requires Indexed(colIndex, cluster, |columns|)
    requires forall ev | ev in cluster :: ev in allowed
    requires OnlyFrom(styles, allowed) && Fits(styles)
    ensures forall ev | ev in cluster :: ev.id in r && r[ev.id] == Slot(colIndex[ev.id], |columns|)
    ensures forall id | id in styles :: id in r
    ensures forall id | id in styles && (forall ev | ev in cluster :: ev.id != id) :: r[id] == styles[id]
    ensures OnlyFrom(r, allowed) && Fits(r)
  {
    r := styles;
    var k := 0;
    while k < |cluster|
      invariant 0 <= k <= |cluster|
      invariant forall m | 0 <= m < k :: cluster[m].id in r && r[cluster[m].id] == Slot(colIndex[cluster[m].id], |columns|)
      invariant forall id | id in styles :: id in r
      invariant forall id | id in styles && (forall m | 0 <= m < k :: cluster[m].id != id) :: r[id] == styles[id]
      invariant OnlyFrom(r, allowed) && Fits(r)
    {
      var ev := cluster[k];
      assert ev in allowed;
      r := r[ev.id := Slot(colIndex[ev.id], |columns|)];
      k := k + 1;
    }
  }

  // ---------------------------------------------------------------------------
  // The appointment card

  /** The height of an hour in the grid, in pixels. */
  const HourHeight := 120

  /** The smallest card height, so that a short appointment stays clickable. */
  const MinCardHeight := 24

  /** Minutes since midnight of an hour and minute of the local clock. */
  function MinuteOfDay(hour: int, minute: int): int {
    hour * 60 + minute
  }

  /** The card's offset from the top of the day: two pixels per minute. */
  function CardTop(startHour: int, startMinute: int): (top: int)
    ensures top == MinuteOfDay(startHour, startMinute) * HourHeight / 60
  {
    MinuteOfDay(startHour, startMinute) * 2
  }

  /** The card's height: two pixels per minute of the appointment, but at least 24. */
  function CardHeight(startHour: int, startMinute: int, endHour: int, endMinute: int): (height: int)
    ensures height >= MinCardHeight
    ensures height == MinCardHeight || height == (MinuteOfDay(endHour, endMinute) - MinuteOfDay(startHour, startMinute)) * 2
  {
    var duration := MinuteOfDay(endHour, endMinute) - MinuteOfDay(startHour, startMinute);
    if duration * HourHeight / 60 > MinCardHeight then duration * 2 else MinCardHeight
  }

  /**
   * A card of at least twelve minutes that starts and ends within the day
   * fits the 24-hour grid: its bottom is its end minute at two pixels each,
   * at most 24 * 120 pixels down.
   */
  lemma CardFitsDay(startHour: int, startMinute: int, endHour: int, endMinute: int)
    requires 0 <= startHour < 24 && 0 <= startMinute < 60 && 0 <= endHour < 24 && 0 <= endMinute < 60
    requires MinuteOfDay(endHour, endMinute) - MinuteOfDay(startHour, startMinute) >= 12
    ensures CardTop(startHour, startMinute) + CardHeight(startHour, startMinute, endHour, endMinute) == MinuteOfDay(endHour, endMinute) * 2
    ensures CardTop(startHour, startMinute) >= 0
    ensures CardTop(startHour, startMinute) + CardHeight(startHour, startMinute, endHour, endMinute) <= 24 * HourHeight
  {
  }

  /** An appointment that runs past midnight has a negative duration on the clock, and gets the smallest card. */
  lemma OvernightCardIsSmallest(startHour: int, startMinute: int, endHour: int, endMinute: int)
    requires MinuteOfDay(endHour, endMinute) < MinuteOfDay(startHour, startMinute)
    ensures CardHeight(startHour, startMinute, endHour, endMinute) == MinCardHeight
  {
  }
}
