/**
  What `ORDER BY created_at LIMIT n` promises about its answer. Both polling queries of the
  system have this shape, and ties may be broken either way.
 */
module Oldest {

  /** `ids` lists the `limit` oldest keys of `stamps`, oldest first. */
  ghost predicate OldestFirst(stamps: map<nat, int>, limit: nat, ids: seq<nat>) {
    && Distinct(ids)
    && (forall i :: 0 <= i < |ids| ==> ids[i] in stamps)
    && (forall i, j :: 0 <= i < j < |ids| ==> stamps[ids[i]] <= stamps[ids[j]])
    && (forall k, i :: k in stamps && k !in ids && 0 <= i < |ids| ==> stamps[ids[i]] <= stamps[k])
    && |ids| == if limit <= |stamps| then limit else |stamps|
  }

  ghost predicate Distinct(ids: seq<nat>) {
    forall i, j :: 0 <= i < j < |ids| ==> ids[i] != ids[j]
  }

  function Elements(ids: seq<nat>): (s: set<nat>)
    ensures forall k :: k in s <==> k in ids
  {
    set k | k in ids
  }

  lemma {:induction false} DistinctCount(ids: seq<nat>)
    requires Distinct(ids)
    ensures |Elements(ids)| == |ids|
  {
    if ids == [] {
      assert Elements(ids) == {};
    } else {
      var last := |ids| - 1;
      DistinctCount(ids[..last]);
      assert Elements(ids) == Elements(ids[..last]) + {ids[last]};
    }
  }

  /** A key left out proves that the answer is full. */
  lemma LeftOutMeansFull(stamps: map<nat, int>, limit: nat, ids: seq<nat>, k: nat)
    requires OldestFirst(stamps, limit, ids)
    requires k in stamps && k !in ids
    ensures |ids| == limit
  {
    DistinctCount(ids);
    if |ids| == |stamps| {
      CardSubset(Elements(ids), stamps.Keys - {k});
      assert false;
    }
  }

  lemma {:induction false} CardSubset<T>(a: set<T>, b: set<T>)
    requires a <= b
    ensures |a| <= |b|
    ensures |a| == |b| ==> a == b
  {
    if a != {} {
      var x :| x in a;
      CardSubset(a - {x}, b - {x});
    }
  }

  /** The answer stays right when keys outside it disappear. */
  lemma SurvivesShrinking(stamps: map<nat, int>, fewer: map<nat, int>, limit: nat, ids: seq<nat>)
    requires OldestFirst(stamps, limit, ids)
    requires forall k :: k in fewer ==> k in stamps && fewer[k] == stamps[k]
    requires forall k :: k in ids ==> k in fewer
    ensures OldestFirst(fewer, limit, ids)
  {
    DistinctCount(ids);
    CardSubset(Elements(ids), fewer.Keys);
    CardSubset(fewer.Keys, stamps.Keys);
    assert forall i :: 0 <= i < |ids| ==> ids[i] in ids;
  }

  /** Every query has an answer. */
  lemma {:induction false} AnswerExists(stamps: map<nat, int>, limit: nat) returns (ids: seq<nat>)
    ensures OldestFirst(stamps, limit, ids)
    decreases limit
  {
    if limit == 0 || |stamps| == 0 {
      return [];
    }
    var k := Oldest(stamps, stamps.Keys);
    var rest := stamps - {k};
    assert rest.Keys == stamps.Keys - {k};
    var tail := AnswerExists(rest, limit - 1);
    ids := [k] + tail;
    OldestThenRest(stamps, limit, k, tail);
  }

  lemma OldestThenRest(stamps: map<nat, int>, limit: nat, k: nat, tail: seq<nat>)
    requires k in stamps && limit > 0
    requires forall j :: j in stamps ==> stamps[k] <= stamps[j]
    requires OldestFirst(stamps - {k}, limit - 1, tail)
    ensures OldestFirst(stamps, limit, [k] + tail)
  {
    var rest, ids := stamps - {k}, [k] + tail;
    assert rest.Keys == stamps.Keys - {k};
    assert forall i :: 0 < i < |ids| ==> ids[i] == tail[i - 1];
    forall j, i | j in stamps && j !in ids && 0 <= i < |ids|
      ensures stamps[ids[i]] <= stamps[j]
    {
      assert j in rest && j !in tail;
    }
  }

  lemma {:induction false} Oldest(stamps: map<nat, int>, among: set<nat>) returns (k: nat)
    requires among != {} && among <= stamps.Keys
    ensures k in among && forall j :: j in among ==> stamps[k] <= stamps[j]
  {
    k :| k in among;
    if among != {k} {
      var other := Oldest(stamps, among - {k});
      if stamps[other] < stamps[k] {
        k := other;
      }
    }
  }

  /** With different stamps there is no choice: the answer is unique, in its order too. */
  lemma {:induction false} AnswerIsUnique(stamps: map<nat, int>, limit: nat, ids: seq<nat>, other: seq<nat>, i: nat)
    requires OldestFirst(stamps, limit, ids) && OldestFirst(stamps, limit, other)
    requires forall j, k :: j in stamps && k in stamps && j != k ==> stamps[j] != stamps[k]
    requires i < |ids|
    ensures i < |other| && ids[i] == other[i]
    decreases i
  {
    if ids[i] != other[i] {
      forall j | 0 <= j < i
        ensures ids[j] == other[j]
      {
        AnswerIsUnique(stamps, limit, ids, other, j);
      }
      NotBefore(stamps, limit, ids, other, i);
      NotBefore(stamps, limit, other, ids, i);
      assert false;
    }
  }

  lemma NotBefore(stamps: map<nat, int>, limit: nat, ids: seq<nat>, other: seq<nat>, i: nat)
    requires OldestFirst(stamps, limit, ids) && OldestFirst(stamps, limit, other) && i < |ids|
    requires forall j :: 0 <= j < i ==> ids[j] == other[j]
    ensures stamps[other[i]] <= stamps[ids[i]]
  {
    if k :| 0 <= k < |other| && other[k] == ids[i] {
      NotAmongFirst(ids, other, i, k);
    } else {
      assert ids[i] !in other;
    }
  }

  lemma NotAmongFirst(ids: seq<nat>, other: seq<nat>, i: nat, k: nat)
    requires Distinct(ids) && i < |ids| && i < |other| && k < |other| && other[k] == ids[i]
    requires forall j :: 0 <= j < i ==> ids[j] == other[j]
    ensures i <= k
  {
    if k < i {
      assert false;
    }
  }
}
