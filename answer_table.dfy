/**
 * The store's answer list as a table keyed by question id: the lookups it
 * performs (`some`, `findIndex`, `find`) and the two updates, the upsert of
 * `addAnswer` and the filter of `removeAnswer`.
 */
module AnswerTable {
  import opened Wrappers
  import opened WidgetTypes
  import opened SeqUtil

  /** The question ids the table has answers for. */
  ghost function Ids(answers: seq<Answer>): set<string> {
    set a | a in answers :: a.questionId
  }

  /** Some answer in the list carries question id `id` (`answers.some(...)`). */
  predicate HasAnswer(answers: seq<Answer>, id: string)
    ensures HasAnswer(answers, id) <==> id in Ids(answers)
  {
    exists i | 0 <= i < |answers| :: answers[i].questionId == id
  }

  /** At most one answer per question id: the invariant the store keeps. */
  ghost predicate UniqueIds(answers: seq<Answer>) {
    forall i, j :: 0 <= i < j < |answers| ==> answers[i].questionId != answers[j].questionId
  }

  /** The index of the first answer for `id`, or -1 when there is none. */
  function FindIndex(answers: seq<Answer>, id: string): (i: int)
    ensures -1 <= i < |answers|
    ensures i == -1 <==> !HasAnswer(answers, id)
    ensures 0 <= i ==> answers[i].questionId == id
    ensures 0 <= i ==> forall j :: 0 <= j < i ==> answers[j].questionId != id
  {
    if answers == [] then -1
    else if answers[0].questionId == id then 0
    else
      var k := FindIndex(answers[1..], id);
      if k < 0 then -1 else k + 1
  }

  /** The first answer for `id`, if any. */
  function Find(answers: seq<Answer>, id: string): (r: Option<Answer>)
    ensures r.Some? <==> HasAnswer(answers, id)
    ensures r.Some? ==> r.value in answers && r.value.questionId == id
    ensures r.Some? ==>
      exists i :: 0 <= i < |answers| && answers[i] == r.value
                  && (forall j :: 0 <= j < i ==> answers[j].questionId != id)
  {
    var i := FindIndex(answers, id);
    if i < 0 then None else Some(answers[i])
  }

  /**
   * `addAnswer`: an answer for a question that already has one replaces it at
   * the same index; otherwise the answer is appended.
   */
  function Upsert(answers: seq<Answer>, a: Answer): (r: seq<Answer>)
    ensures !HasAnswer(answers, a.questionId) ==> r == answers + [a]
    ensures HasAnswer(answers, a.questionId) ==>
      && |r| == |answers|
      && r[FindIndex(answers, a.questionId)] == a
      && forall j :: 0 <= j < |r| && j != FindIndex(answers, a.questionId) ==> r[j] == answers[j]
    ensures HasAnswer(r, a.questionId)
    ensures UniqueIds(answers) ==> UniqueIds(r)
  {
    var i := FindIndex(answers, a.questionId);
    if i >= 0 then answers[i := a]
    else
      var r := answers + [a];
      assert r[|answers|] == a;
      r
  }

  /** `removeAnswer`: drops every answer for `id`. */
  function Remove(answers: seq<Answer>, id: string): (r: seq<Answer>)
    ensures !HasAnswer(r, id)
    ensures forall i :: 0 <= i < |r| ==> r[i] in answers
    ensures forall i :: 0 <= i < |answers| && answers[i].questionId != id ==> answers[i] in r
  {
    Filter(answers, (a: Answer) => a.questionId != id)
  }

  /** The answers produced by calling `addAnswer` with each of `incoming` in turn. */
  function AddAll(answers: seq<Answer>, incoming: seq<Answer>): seq<Answer>
    decreases |incoming|
  {
    if incoming == [] then answers else AddAll(Upsert(answers, incoming[0]), incoming[1..])
  }

  /** The last answer for `id` in `incoming`, if any. */
  function LastFor(incoming: seq<Answer>, id: string): Option<Answer>
    decreases |incoming|
  {
    if incoming == [] then None
    else if LastFor(incoming[1..], id).Some? then LastFor(incoming[1..], id)
    else if incoming[0].questionId == id then Some(incoming[0])
    else None
  }

  /** With unique ids, the table has exactly one entry per answered question. */
  lemma {:induction false} UniqueIdsCount(answers: seq<Answer>)
    ensures UniqueIds(answers) ==> |Ids(answers)| == |answers|
  {
    if answers != [] && UniqueIds(answers) {
      var tail := answers[1..];
      assert UniqueIds(tail);
      UniqueIdsCount(tail);
      assert Ids(answers) == {answers[0].questionId} + Ids(tail) by {
        assert answers == [answers[0]] + tail;
      }
      assert answers[0].questionId !in Ids(tail) by {
        forall i | 0 <= i < |tail| ensures tail[i].questionId != answers[0].questionId {
          assert tail[i] == answers[i + 1];
        }
      }
    }
  }

  // ----- The first answer for an id -----

  lemma FindIndexIs(answers: seq<Answer>, id: string, k: int)
    requires 0 <= k < |answers| && answers[k].questionId == id
    requires forall j :: 0 <= j < k ==> answers[j].questionId != id
    ensures FindIndex(answers, id) == k
  {
  }

  /** In a table with unique ids, `Find` returns the one entry for an id. */
  lemma FindInUnique(answers: seq<Answer>, k: int)
    requires UniqueIds(answers) && 0 <= k < |answers|
    ensures Find(answers, answers[k].questionId) == Some(answers[k])
  {
    FindIndexIs(answers, answers[k].questionId, k);
  }

  // ----- addAnswer -----

  /**
   * After `addAnswer(a)` the entry found for `a.questionId` is `a` itself (the
   * last write wins) and the entry found for every other id is what it was.
   */
  lemma FindAfterUpsert(answers: seq<Answer>, a: Answer, id: string)
    ensures Find(Upsert(answers, a), id) == if id == a.questionId then Some(a) else Find(answers, id)
  {
    var r := Upsert(answers, a);
    if HasAnswer(answers, a.questionId) {
      var k := FindIndex(answers, a.questionId);
      if id == a.questionId {
        FindIndexIs(r, id, k);
      } else if HasAnswer(answers, id) {
        var i := FindIndex(answers, id);
        assert i != k;
        FindIndexIs(r, id, i);
      } else {
        assert !HasAnswer(r, id) by {
          forall j | 0 <= j < |r| ensures r[j].questionId != id {
            if j != k { assert r[j] == answers[j]; }
          }
        }
      }
    } else {
      if id == a.questionId {
        FindIndexIs(r, id, |answers|);
      } else if HasAnswer(answers, id) {
        FindIndexIs(r, id, FindIndex(answers, id));
      } else {
        assert !HasAnswer(r, id) by {
          forall j | 0 <= j < |r| ensures r[j].questionId != id {
            if j < |answers| { assert r[j] == answers[j]; }
          }
        }
      }
    }
  }

  /** Upserting never shrinks the table and grows it by one exactly when the id is new. */
  lemma UpsertLength(answers: seq<Answer>, a: Answer)
    ensures |Upsert(answers, a)| == if HasAnswer(answers, a.questionId) then |answers| else |answers| + 1
  {
  }

  /** Question ids already present stay present after an upsert. */
  lemma UpsertKeepsIds(answers: seq<Answer>, a: Answer, id: string)
    requires HasAnswer(answers, id)
    ensures HasAnswer(Upsert(answers, a), id)
  {
    FindAfterUpsert(answers, a, id);
  }

  /** Any sequence of `addAnswer` calls keeps the table free of duplicate ids. */
  lemma {:induction false} AddAllUnique(answers: seq<Answer>, incoming: seq<Answer>)
    requires UniqueIds(answers)
    ensures UniqueIds(AddAll(answers, incoming))
    decreases |incoming|
  {
    if incoming != [] {
      AddAllUnique(Upsert(answers, incoming[0]), incoming[1..]);
    }
  }

  /**
   * After a sequence of `addAnswer` calls, the entry for an id is the last
   * answer given for it, or the earlier entry when no call named that id.
   */
  lemma {:induction false} AddAllLastWins(answers: seq<Answer>, incoming: seq<Answer>, id: string)
    ensures Find(AddAll(answers, incoming), id) ==
      if LastFor(incoming, id).Some? then LastFor(incoming, id) else Find(answers, id)
    decreases |incoming|
  {
    if incoming != [] {
      AddAllLastWins(Upsert(answers, incoming[0]), incoming[1..], id);
      FindAfterUpsert(answers, incoming[0], id);
    }
  }

  // ----- removeAnswer -----

  /** Filtering a table with unique ids keeps the ids unique. */
  lemma {:induction false} FilterKeepsUnique(answers: seq<Answer>, p: Answer -> bool)
    requires UniqueIds(answers)
    ensures UniqueIds(Filter(answers, p))
  {
    if answers != [] {
      FilterKeepsUnique(answers[1..], p);
      var tail := Filter(answers[1..], p);
      if p(answers[0]) {
        var r := Filter(answers, p);
        assert r == [answers[0]] + tail;
        forall i, j | 0 <= i < j < |r| ensures r[i].questionId != r[j].questionId {
          if i == 0 {
            assert r[j] == tail[j - 1];
            assert tail[j - 1] in answers[1..];
          } else {
            assert r[i] == tail[i - 1] && r[j] == tail[j - 1];
          }
        }
      }
    }
  }

  /** `removeAnswer` keeps the table free of duplicate ids. */
  lemma RemoveKeepsUnique(answers: seq<Answer>, id: string)
    requires UniqueIds(answers)
    ensures UniqueIds(Remove(answers, id))
  {
    FilterKeepsUnique(answers, (a: Answer) => a.questionId != id);
  }

  /** The answers that remain keep their original relative order. */
  lemma RemoveKeepsOrder(answers: seq<Answer>, id: string)
    ensures IsSubsequence(Remove(answers, id), answers)
  {
    FilterIsSubsequence(answers, (a: Answer) => a.questionId != id);
  }

  /** Removing an id that has no answer leaves the table as it was. */
  lemma RemoveAbsent(answers: seq<Answer>, id: string)
    requires !HasAnswer(answers, id)
    ensures Remove(answers, id) == answers
  {
    FilterKeepsAll(answers, (a: Answer) => a.questionId != id);
  }

  /** In a table with unique ids, removing an id drops exactly its one entry. */
  lemma {:induction false} RemoveLength(answers: seq<Answer>, id: string)
    requires UniqueIds(answers)
    ensures |Remove(answers, id)| == if HasAnswer(answers, id) then |answers| - 1 else |answers|
  {
    if answers != [] {
      var tail := answers[1..];
      assert UniqueIds(tail);
      RemoveLength(tail, id);
      assert HasAnswer(answers, id) <==> answers[0].questionId == id || HasAnswer(tail, id) by {
        if HasAnswer(answers, id) && answers[0].questionId != id {
          var i :| 0 <= i < |answers| && answers[i].questionId == id;
          assert tail[i - 1].questionId == id;
        }
        if HasAnswer(tail, id) {
          var i :| 0 <= i < |tail| && tail[i].questionId == id;
          assert answers[i + 1].questionId == id;
        }
      }
      if answers[0].questionId == id {
        assert !HasAnswer(tail, id) by {
          forall i | 0 <= i < |tail| ensures tail[i].questionId != id {
            assert tail[i] == answers[i + 1];
          }
        }
      }
    }
  }
}
