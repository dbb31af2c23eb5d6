/**
 One tick of the report generator: a record per mat, sent downstream, with a
 failed send logged and skipped.
 */
module Reporting {
  import opened CounterModel

  /** The outgoing event for one mat: its id and its two counts. */
  datatype Record = Record(matId: string, matCrossedCount: int, onCourseCount: int)

  /** The record the report generator builds for `mat`. */
  function RecordOf(s: Store, mat: string): (r: Record)
    requires mat in s.counterCache
    ensures r.matId == mat
    ensures r.matCrossedCount == CountersAt(s, mat).matCrossed && r.onCourseCount == CountersAt(s, mat).onCourse
  {
    Record(mat, s.counterCache[mat].matCrossed, s.counterCache[mat].onCourse)
  }

  /** The mats the records in `records` are about. */
  function MatsOf(records: seq<Record>): set<string>
  {
    set i | 0 <= i < |records| :: records[i].matId
  }

  /** Appending a record adds exactly its mat. */
  lemma MatsOfAppend(records: seq<Record>, r: Record)
    ensures MatsOf(records + [r]) == MatsOf(records) + {r.matId}
  {
    var extended := records + [r];
    assert extended[|records|] == r;
    forall m | m in MatsOf(records)
      ensures m in MatsOf(extended)
    {
      var i :| 0 <= i < |records| && records[i].matId == m;
      assert extended[i] == records[i];
    }
  }

  /** The mats mentioned in a log of mat ids. */
  function IdsOf(ids: seq<string>): set<string>
  {
    set m | m in ids
  }

  /** Appending an id adds exactly that id. */
  lemma IdsOfAppend(ids: seq<string>, m: string)
    ensures IdsOf(ids + [m]) == IdsOf(ids) + {m}
  {
    assert forall x :: x in ids + [m] <==> x in ids || x == m;
  }

  /** No two records are about the same mat. */
  predicate DistinctMats(records: seq<Record>)
  {
    forall i, j :: 0 <= i < j < |records| ==> records[i].matId != records[j].matId
  }

  /** No mat is logged twice. */
  predicate DistinctIds(ids: seq<string>)
  {
    forall i, j :: 0 <= i < j < |ids| ==> ids[i] != ids[j]
  }

  /** Goes over every mat of the counter cache, in no particular order. The
      send for a mat in `failing` throws; it is logged in `failed` and the loop
      carries on. Every other mat's record ends up in `sent`. */
  method ReportTick(s: Store, failing: set<string>) returns (sent: seq<Record>, failed: seq<string>)
    ensures forall i :: 0 <= i < |sent| ==> sent[i].matId in s.counterCache && sent[i] == RecordOf(s, sent[i].matId)
    ensures DistinctMats(sent)
    ensures MatsOf(sent) == s.counterCache.Keys - failing
    ensures DistinctIds(failed)
    ensures IdsOf(failed) == s.counterCache.Keys * failing
  {
    var pending := s.counterCache.Keys;
    sent, failed := [], [];
    while pending != {}
      invariant pending <= s.counterCache.Keys
      invariant forall i :: 0 <= i < |sent| ==>
                  sent[i].matId in s.counterCache && sent[i] == RecordOf(s, sent[i].matId) && sent[i].matId !in pending
      invariant DistinctMats(sent)
      invariant MatsOf(sent) == (s.counterCache.Keys - pending) - failing
      invariant forall i :: 0 <= i < |failed| ==> failed[i] !in pending
      invariant DistinctIds(failed)
      invariant IdsOf(failed) == (s.counterCache.Keys - pending) * failing
      decreases pending
    {
      var mat :| mat in pending;
      if mat in failing {
        IdsOfAppend(failed, mat);
        failed := failed + [mat];
      } else {
        MatsOfAppend(sent, RecordOf(s, mat));
        sent := sent + [RecordOf(s, mat)];
      }
      pending := pending - {mat};
    }
  }
}
