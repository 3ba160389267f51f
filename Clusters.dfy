/**
 save_clusters: stamp every record of the k-th cluster found by the matcher
 with cluster number k and with the confidence paired with it, on the data
 frame itself. Confidences are opaque values of type C.
 */
module Clusters {
  import opened Sheet

  type RecordId = Cell

  datatype Option<T> = None | Some(value: T)

  /** A cluster as the matcher returns it: record ids and, position by position, their confidences. */
  datatype Cluster<C> = Cluster(ids: seq<RecordId>, scores: seq<C>)

  /** Every cluster pairs each of its ids with exactly one confidence. */
  predicate Aligned<C>(matches: seq<Cluster<C>>)
  {
    forall k :: 0 <= k < |matches| ==> |matches[k].ids| == |matches[k].scores|
  }

  /**
   A data frame: its row labels, its original columns (a row of cells per
   label), and the `cluster` and `confidence` columns, None standing for NaN.
   */
  class Frame<C> {
    const labels: set<RecordId>
    var columns: map<RecordId, Row>
    var cluster: map<RecordId, Option<nat>>
    var confidence: map<RecordId, Option<C>>

    /** A frame loaded from its records, without the two model columns yet. */
    constructor (records: map<RecordId, Row>)
      ensures labels == records.Keys && columns == records
      ensures cluster == map[] && confidence == map[]
    {
      labels := records.Keys;
      columns := records;
      cluster := map[];
      confidence := map[];
    }
  }

  /** The position of the last occurrence of r in ids. */
  function LastIndex(ids: seq<RecordId>, r: RecordId): (i: Option<nat>)
    ensures i.Some? <==> r in ids
    ensures i.Some? ==> i.value < |ids| && ids[i.value] == r
    ensures i.Some? ==> forall j :: i.value < j < |ids| ==> ids[j] != r
  {
    if ids == [] then None
    else if ids[|ids| - 1] == r then Some(|ids| - 1)
    else LastIndex(ids[..|ids| - 1], r)
  }

  /** The number of the last cluster that holds r, counted from 0 in input order. */
  function LastCluster<C>(matches: seq<Cluster<C>>, r: RecordId): (k: Option<nat>)
    ensures k.Some? <==> exists i :: 0 <= i < |matches| && r in matches[i].ids
    ensures k.Some? ==> k.value < |matches| && r in matches[k.value].ids
    ensures k.Some? ==> forall j :: k.value < j < |matches| ==> r !in matches[j].ids
  {
    if matches == [] then None
    else if r in matches[|matches| - 1].ids then Some(|matches| - 1)
    else LastCluster(matches[..|matches| - 1], r)
  }

  /** Some position of the cluster holds r with the confidence c. */
  predicate PairedIn<C(==)>(m: Cluster<C>, r: RecordId, c: C)
  {
    exists i :: 0 <= i < |m.ids| && i < |m.scores| && m.ids[i] == r && m.scores[i] == c
  }

  /**
   The confidence r ends up with: the one paired with its last occurrence in
   the last cluster that holds it.
   */
  function ConfidenceOf<C>(matches: seq<Cluster<C>>, r: RecordId): (c: Option<C>)
    requires Aligned(matches)
    ensures c.Some? <==> LastCluster(matches, r).Some?
    ensures c.Some? ==> PairedIn(matches[LastCluster(matches, r).value], r, c.value)
  {
    match LastCluster(matches, r)
    case None => None
    case Some(k) =>
      var i := LastIndex(matches[k].ids, r).value;
      Some(matches[k].scores[i])
  }

  /**
   save_clusters on a frame: reset both columns to NaN, then, for the k-th
   cluster, write k and the paired confidences into the rows of its records.
   The frame is updated in place and returned.
   */
  method SaveClusters<C>(matches: seq<Cluster<C>>, frame: Frame<C>) returns (out: Frame<C>)
    requires Aligned(matches)
    requires forall k, r :: 0 <= k < |matches| && r in matches[k].ids ==> r in frame.labels
    modifies frame
    ensures out == frame
    ensures frame.columns == old(frame.columns)
    ensures frame.cluster.Keys == frame.labels && frame.confidence.Keys == frame.labels
    ensures forall r :: r in frame.labels ==> frame.cluster[r] == LastCluster(matches, r)
    ensures forall r :: r in frame.labels ==> frame.confidence[r] == ConfidenceOf(matches, r)
  {
    frame.cluster := map r | r in frame.labels :: None;
    frame.confidence := map r | r in frame.labels :: None;
    var counter := 0;
    while counter < |matches|
      invariant 0 <= counter <= |matches|
      invariant frame.columns == old(frame.columns)
      invariant Stamped(frame.labels, frame.cluster, frame.confidence, matches, counter)
    {
      frame.cluster, frame.confidence := StampCluster(matches, counter, frame.labels, frame.cluster, frame.confidence);
      counter := counter + 1;
    }
    assert matches[..counter] == matches;
    out := frame;
  }

  /** The two columns, over the rows `labels`, hold what the first n clusters of `matches` stamp. */
  ghost predicate Stamped<C>(labels: set<RecordId>, cluster: map<RecordId, Option<nat>>,
                             confidence: map<RecordId, Option<C>>, matches: seq<Cluster<C>>, n: nat)
    requires Aligned(matches) && n <= |matches|
  {
    && cluster.Keys == labels && confidence.Keys == labels
    && (forall r :: r in labels ==> cluster[r] == LastCluster(matches[..n], r))
    && (forall r :: r in labels ==> confidence[r] == ConfidenceOf(matches[..n], r))
  }

  /**
   The body of the enumerate loop for the cluster numbered k: the rows of its
   records get k and their paired confidences; no other row changes.
   */
  method StampCluster<C>(matches: seq<Cluster<C>>, k: nat, labels: set<RecordId>,
                         cluster: map<RecordId, Option<nat>>, confidence: map<RecordId, Option<C>>)
    returns (cluster': map<RecordId, Option<nat>>, confidence': map<RecordId, Option<C>>)
    requires Aligned(matches) && k < |matches|
    requires forall r :: r in matches[k].ids ==> r in labels
    requires Stamped(labels, cluster, confidence, matches, k)
    ensures Stamped(labels, cluster', confidence', matches, k + 1)
  {
    var m := matches[k];
    cluster', confidence' := cluster, confidence;
    var j := 0;
    while j < |m.ids|
      invariant 0 <= j <= |m.ids|
      invariant cluster'.Keys == labels && confidence'.Keys == labels
      invariant forall r :: r in labels ==>
        cluster'[r] == if r in m.ids[..j] then Some(k) else cluster[r]
      invariant forall r :: r in labels ==>
        confidence'[r] == if r in m.ids[..j] then Some(m.scores[LastIndex(m.ids[..j], r).value]) else confidence[r]
    {
      assert m.ids[..j + 1] == m.ids[..j] + [m.ids[j]];
      cluster' := cluster'[m.ids[j] := Some(k)];
      confidence' := confidence'[m.ids[j] := Some(m.scores[j])];
      j := j + 1;
    }
    assert m.ids[..j] == m.ids;
    forall r | r in labels
      ensures cluster'[r] == LastCluster(matches[..k + 1], r)
      ensures confidence'[r] == ConfidenceOf(matches[..k + 1], r)
    {
      LastClusterSnoc(matches, k, r);
    }
  }

  /** Adding the cluster numbered k restamps exactly its records. */
  lemma LastClusterSnoc<C>(matches: seq<Cluster<C>>, k: nat, r: RecordId)
    requires Aligned(matches) && k < |matches|
    ensures var m := matches[k];
      && LastCluster(matches[..k + 1], r) == (if r in m.ids then Some(k) else LastCluster(matches[..k], r))
      && ConfidenceOf(matches[..k + 1], r)
         == (if r in m.ids then Some(m.scores[LastIndex(m.ids, r).value]) else ConfidenceOf(matches[..k], r))
  {
    assert matches[..k + 1][..k] == matches[..k];
  }

  /**
   When the clusters are disjoint and no cluster repeats a record, as the
   matcher returns them, the i-th record of the k-th cluster gets cluster k
   and the i-th confidence of that cluster.
   */
  lemma StampOfDisjoint<C>(matches: seq<Cluster<C>>, k: nat, i: nat)
    requires Aligned(matches)
    requires forall a, b, r :: 0 <= a < b < |matches| && r in matches[a].ids ==> r !in matches[b].ids
    requires forall k, x, y :: 0 <= k < |matches| && 0 <= x < y < |matches[k].ids| ==> matches[k].ids[x] != matches[k].ids[y]
    requires k < |matches| && i < |matches[k].ids|
    ensures LastCluster(matches, matches[k].ids[i]) == Some(k)
    ensures ConfidenceOf(matches, matches[k].ids[i]) == Some(matches[k].scores[i])
  {
    var r := matches[k].ids[i];
    assert r in matches[k].ids;
  }

  /** A record in no cluster keeps NaN in both columns. */
  lemma UnclusteredStaysMissing<C>(matches: seq<Cluster<C>>, r: RecordId)
    requires Aligned(matches)
    requires forall k :: 0 <= k < |matches| ==> r !in matches[k].ids
    ensures LastCluster(matches, r) == None && ConfidenceOf(matches, r) == None
  {
  }
}
