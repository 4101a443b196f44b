/**
 * The scheduled token sweep: probe every registered token with a silent
 * message, queue the documents whose probe threw for deletion in one batch,
 * and commit that batch once at the end.
 */
module Cleanup {
  import opened Messages

  /** Reference to one document of the token collection. */
  datatype DocRef = DocRef(id: string)

  /** A token document: where it lives and the token it holds. */
  datatype TokenDoc = TokenDoc(ref: DocRef, token: string)

  /** How a probe send ended: it resolved, or it threw. */
  datatype ProbeOutcome = Delivered | Undeliverable(message: string)

  /** One externally visible step of the sweep, in order. */
  datatype Step = Probe(token: string, data: Data) | Commit(deletes: seq<DocRef>)

  /** The silent payload every probe carries. */
  const ProbeData: Data := map["ping" := "test"]

  /** Documents of one collection snapshot have pairwise distinct references. */
  predicate DistinctRefs(docs: seq<TokenDoc>) {
    forall i, j :: 0 <= i < j < |docs| ==> docs[i].ref != docs[j].ref
  }

  /** Number of probes that threw. */
  function CountFailed(probes: seq<ProbeOutcome>): nat
    decreases |probes|
  {
    if |probes| == 0 then 0
    else CountFailed(probes[..|probes| - 1]) + (if probes[|probes| - 1].Undeliverable? then 1 else 0)
  }

  /** The references of the documents whose probe failed, in scan order. */
  function FailedRefs(docs: seq<TokenDoc>, probes: seq<ProbeOutcome>): (deleted: seq<DocRef>)
    requires |probes| == |docs|
    ensures |deleted| == CountFailed(probes)
    ensures |deleted| <= |docs|
    ensures forall i :: 0 <= i < |docs| && probes[i].Undeliverable? ==> docs[i].ref in deleted
    ensures forall r :: r in deleted ==>
      exists i :: 0 <= i < |docs| && docs[i].ref == r && probes[i].Undeliverable?
    decreases |docs|
  {
    if |docs| == 0 then []
    else
      var n := |docs| - 1;
      var earlier := FailedRefs(docs[..n], probes[..n]);
      assert forall i :: 0 <= i < n ==> docs[..n][i] == docs[i] && probes[..n][i] == probes[i];
      if probes[n].Undeliverable? then earlier + [docs[n].ref] else earlier
  }

  /** The references of the documents whose probe succeeded, in scan order. */
  function KeptRefs(docs: seq<TokenDoc>, probes: seq<ProbeOutcome>): seq<DocRef>
    requires |probes| == |docs|
    decreases |docs|
  {
    if |docs| == 0 then []
    else
      var n := |docs| - 1;
      var earlier := KeptRefs(docs[..n], probes[..n]);
      if probes[n].Delivered? then earlier + [docs[n].ref] else earlier
  }

  function Refs(docs: seq<TokenDoc>): seq<DocRef>
    decreases |docs|
  {
    if |docs| == 0 then [] else Refs(docs[..|docs| - 1]) + [docs[|docs| - 1].ref]
  }

  /** Every document is either deleted or kept, never both and never dropped. */
  lemma {:induction false} SweepPartitions(docs: seq<TokenDoc>, probes: seq<ProbeOutcome>)
    requires |probes| == |docs|
    ensures multiset(FailedRefs(docs, probes)) + multiset(KeptRefs(docs, probes)) == multiset(Refs(docs))
    decreases |docs|
  {
    if |docs| > 0 {
      var n := |docs| - 1;
      SweepPartitions(docs[..n], probes[..n]);
    }
  }

  /** With distinct references, a document is deleted exactly when its probe failed. */
  lemma DeletedIffProbeFailed(docs: seq<TokenDoc>, probes: seq<ProbeOutcome>, i: int)
    requires |probes| == |docs| && DistinctRefs(docs)
    requires 0 <= i < |docs|
    ensures docs[i].ref in FailedRefs(docs, probes) <==> probes[i].Undeliverable?
  {
  }

  /**
   * The sweep. `probes[i]` is the outcome of probing `docs[i]`. Returns the
   * steps it takes and the number of documents it deleted.
   */
  method Sweep(docs: seq<TokenDoc>, probes: seq<ProbeOutcome>) returns (steps: seq<Step>, deletedCount: nat)
    requires |probes| == |docs|
    ensures |steps| == |docs| + 1
    ensures forall i :: 0 <= i < |docs| ==> steps[i] == Probe(docs[i].token, ProbeData)
    ensures steps[|docs|] == Commit(FailedRefs(docs, probes))
    ensures forall i :: 0 <= i < |steps| ==> (steps[i].Commit? <==> i == |docs|)
    ensures deletedCount == |FailedRefs(docs, probes)| == CountFailed(probes)
  {
    steps := [];
    var batch: seq<DocRef> := [];
    deletedCount := 0;
    var i := 0;
    while i < |docs|
      invariant 0 <= i <= |docs|
      invariant |steps| == i
      invariant forall k :: 0 <= k < i ==> steps[k] == Probe(docs[k].token, ProbeData)
      invariant batch == FailedRefs(docs[..i], probes[..i])
      invariant deletedCount == |batch|
    {
      steps := steps + [Probe(docs[i].token, ProbeData)];
      assert docs[..i + 1][..i] == docs[..i];
      assert probes[..i + 1][..i] == probes[..i];
      if probes[i].Undeliverable? {
        batch := batch + [docs[i].ref];
        deletedCount := deletedCount + 1;
      }
      i := i + 1;
    }
    assert docs[..|docs|] == docs;
    assert probes[..|probes|] == probes;
    steps := steps + [Commit(batch)];
  }
}
