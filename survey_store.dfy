/**
 * The question store behind survey authoring: an ordered list of questions
 * that refuses a second question with the same normalised title, plus a
 * per-domain counter and the set of ids added by the last batch.
 */
module SurveyStore {
  import opened Wrappers
  import opened Strings
  import opened Seqs
  import opened SurveyModel

  /** What `addQuestion` and `addQuestions` report. */
  datatype AddResult = AddResult(added: nat, duplicates: nat, total: nat, idsAdded: Option<seq<string>>)

  /** Some question in `qs` has normalised title `t` (`qs.some(...)`). */
  predicate HasTitle(qs: seq<Question>, t: string) {
    exists i :: 0 <= i < |qs| && Normalize(qs[i].title) == t
  }

  /** The store's key invariant: no two questions share a normalised title. */
  predicate UniqueTitles(qs: seq<Question>) {
    forall i, j :: 0 <= i < j < |qs| ==> Normalize(qs[i].title) != Normalize(qs[j].title)
  }

  predicate IsBlankTitle(q: Question) {
    IsBlank(q.title)
  }

  function Ids(qs: seq<Question>): (ids: seq<string>)
    ensures |ids| == |qs| && forall i :: 0 <= i < |qs| ==> ids[i] == qs[i].id
  {
    seq(|qs|, i requires 0 <= i < |qs| => qs[i].id)
  }

  // ---------------------------------------------------------------- addQuestions

  /**
   * The id assignment of `addQuestions`: a candidate with an id keeps it, one
   * without gets the fresh id supplied for its position; nothing else changes.
   */
  function AssignIds(qs: seq<Question>, freshIds: seq<string>): (r: seq<Question>)
    requires |freshIds| == |qs|
    ensures |r| == |qs|
    ensures forall i :: 0 <= i < |qs| ==>
              r[i].id == (if qs[i].id != "" then qs[i].id else freshIds[i]) && r[i].(id := qs[i].id) == qs[i]
  {
    seq(|qs|, i requires 0 <= i < |qs| => if qs[i].id != "" then qs[i] else qs[i].(id := freshIds[i]))
  }

  /** The state the batch loop carries: the growing list and its counters. */
  datatype Batch = Batch(next: seq<Question>, added: nat, duplicates: nat, idsAdded: seq<string>)

  /** One turn of the batch loop: skip blank, count a duplicate, or append. */
  function Step(b: Batch, q: Question): Batch {
    if IsBlank(q.title) then b
    else if HasTitle(b.next, Normalize(q.title)) then b.(duplicates := b.duplicates + 1)
    else Batch(b.next + [q], b.added + 1, b.duplicates, b.idsAdded + [q.id])
  }

  /** The batch loop run over `qs` from the list `prev`. */
  function Ingest(prev: seq<Question>, qs: seq<Question>): Batch {
    if qs == [] then Batch(prev, 0, 0, [])
    else Step(Ingest(prev, qs[..|qs| - 1]), qs[|qs| - 1])
  }

  /** One step either leaves the list alone or appends exactly the candidate. */
  lemma StepShape(b: Batch, q: Question)
    ensures var b' := Step(b, q);
      || (b'.next == b.next && b'.added == b.added && b'.idsAdded == b.idsAdded
          && b'.duplicates == b.duplicates + (if IsBlank(q.title) then 0 else 1))
      || (b'.next == b.next + [q] && b'.added == b.added + 1 && b'.idsAdded == b.idsAdded + [q.id]
          && b'.duplicates == b.duplicates && !IsBlank(q.title))
  {
  }

  /** The old questions stay in front, unchanged, and `idsAdded` lists the ids of the appended ones. */
  lemma {:induction false} IngestPrefix(prev: seq<Question>, qs: seq<Question>)
    ensures var b := Ingest(prev, qs);
      && |b.next| == |prev| + b.added
      && b.next[..|prev|] == prev
      && b.idsAdded == Ids(b.next[|prev|..])
  {
    if qs != [] {
      var init, q := qs[..|qs| - 1], qs[|qs| - 1];
      IngestPrefix(prev, init);
      var b0 := Ingest(prev, init);
      var b := Step(b0, q);
      StepShape(b0, q);
      if b.next == b0.next + [q] {
        assert b.next[|prev|..] == b0.next[|prev|..] + [q];
        assert b.next[..|prev|] == b0.next[..|prev|];
        assert Ids(b.next[|prev|..]) == Ids(b0.next[|prev|..]) + [q.id];
      }
    }
  }

  /** The appended questions come from the batch, in batch order. */
  lemma {:induction false} IngestSubseq(prev: seq<Question>, qs: seq<Question>)
    ensures |prev| <= |Ingest(prev, qs).next|
    ensures IsSubseq(Ingest(prev, qs).next[|prev|..], qs)
  {
    if qs == [] {
    } else {
      var init, q := qs[..|qs| - 1], qs[|qs| - 1];
      IngestSubseq(prev, init);
      var b0 := Ingest(prev, init);
      var b := Step(b0, q);
      assert qs == init + [q];
      StepShape(b0, q);
      SubseqSnoc(b0.next[|prev|..], init, q);
      if b.next == b0.next + [q] {
        assert b.next[|prev|..] == b0.next[|prev|..] + [q];
      }
    }
  }

  /** Every candidate is counted once: added, a duplicate, or blank. */
  lemma {:induction false} IngestCounts(prev: seq<Question>, qs: seq<Question>)
    ensures var b := Ingest(prev, qs); b.added + b.duplicates + Count(qs, IsBlankTitle) == |qs|
  {
    if qs != [] {
      var init, q := qs[..|qs| - 1], qs[|qs| - 1];
      IngestCounts(prev, init);
      assert qs == init + [q];
      StepShape(Ingest(prev, init), q);
      FilterSnoc(init, q, IsBlankTitle);
    }
  }

  /**
   * The shape of a batch: the old questions stay in front, unchanged; the
   * appended questions come from the batch in batch order; `idsAdded` lists
   * exactly their ids; every candidate is added, a duplicate or blank.
   */
  lemma IngestShape(prev: seq<Question>, qs: seq<Question>)
    ensures var b := Ingest(prev, qs);
      && |b.next| == |prev| + b.added
      && b.next[..|prev|] == prev
      && b.idsAdded == Ids(b.next[|prev|..])
      && IsSubseq(b.next[|prev|..], qs)
      && b.added + b.duplicates + Count(qs, IsBlankTitle) == |qs|
  {
    IngestPrefix(prev, qs);
    IngestSubseq(prev, qs);
    IngestCounts(prev, qs);
  }

  /**
   * Every question the batch appends has a non-blank title that no question
   * before it (old or earlier in the batch) shares, so a batch keeps titles unique.
   */
  lemma {:induction false} IngestKeepsUnique(prev: seq<Question>, qs: seq<Question>)
    requires UniqueTitles(prev)
    ensures UniqueTitles(Ingest(prev, qs).next)
  {
    if qs != [] {
      var init, q := qs[..|qs| - 1], qs[|qs| - 1];
      IngestKeepsUnique(prev, init);
      var next0 := Ingest(prev, init).next;
      if !IsBlank(q.title) && !HasTitle(next0, Normalize(q.title)) {
        var next := next0 + [q];
        forall i, j | 0 <= i < j < |next| ensures Normalize(next[i].title) != Normalize(next[j].title) {
          if j == |next0| {
            assert next[i] == next0[i];
          } else {
            assert next[i] == next0[i] && next[j] == next0[j];
          }
        }
      }
    }
  }

  /** After a batch, every non-blank candidate's title is in the store, added or already there. */
  lemma {:induction false} IngestCovers(prev: seq<Question>, qs: seq<Question>, k: nat)
    requires k < |qs| && !IsBlank(qs[k].title)
    ensures HasTitle(Ingest(prev, qs).next, Normalize(qs[k].title))
  {
    var init, q := qs[..|qs| - 1], qs[|qs| - 1];
    var next0 := Ingest(prev, init).next;
    var next := Ingest(prev, qs).next;
    assert next0 == next[..|next0|] by {
      if !IsBlank(q.title) && !HasTitle(next0, Normalize(q.title)) {
        assert next == next0 + [q];
      }
    }
    if k < |qs| - 1 {
      IngestCovers(prev, init, k);
      var i :| 0 <= i < |next0| && Normalize(next0[i].title) == Normalize(init[k].title);
      assert next[i] == next0[i];
    } else if HasTitle(next0, Normalize(q.title)) {
      var i :| 0 <= i < |next0| && Normalize(next0[i].title) == Normalize(q.title);
      assert next[i] == next0[i];
    } else {
      assert next[|next| - 1] == q;
    }
  }

  /** Two equal candidates in one batch on an empty store: the second is caught as a duplicate. */
  lemma RepeatedCandidate(a: Question)
    requires !IsBlank(a.title)
    ensures Ingest([], [a, a]) == Batch([a], 1, 1, [a.id])
  {
    assert [a, a][..1] == [a];
    assert [a][..0] == [];
    assert Ingest([], [a]) == Batch([a], 1, 0, [a.id]);
    assert HasTitle([a], Normalize(a.title));
  }

  // ---------------------------------------------------------------- remove / update / reorder

  /** `qs.filter(q => q.id !== id)`. */
  function WithoutId(qs: seq<Question>, id: string): seq<Question> {
    Filter(qs, (q: Question) => q.id != id)
  }

  /**
   * Removal drops every question with the id, keeps every other question and
   * their order, and removing again changes nothing.
   */
  lemma WithoutIdSpec(qs: seq<Question>, id: string)
    ensures var r := WithoutId(qs, id);
      && (forall i :: 0 <= i < |r| ==> r[i].id != id)
      && (forall i :: 0 <= i < |qs| && qs[i].id != id ==> qs[i] in r)
      && IsSubseq(r, qs)
      && WithoutId(r, id) == r
      && (forall x: Question {:trigger multiset(r)[x]} :: x.id != id ==> multiset(r)[x] == multiset(qs)[x])
  {
    forall x: Question | x.id != id ensures multiset(WithoutId(qs, id))[x] == multiset(qs)[x] {
      FilterMultiset(qs, (q: Question) => q.id != id, x);
    }
    FilterIdempotent(qs, (q: Question) => q.id != id);
    FilterIsSubseq(qs, (q: Question) => q.id != id);
  }

  /** Dropping the first question keeps titles unique. */
  lemma UniqueTail(qs: seq<Question>)
    requires qs != [] && UniqueTitles(qs)
    ensures UniqueTitles(qs[1..])
  {
    var tail := qs[1..];
    forall i, j | 0 <= i < j < |tail| ensures Normalize(tail[i].title) != Normalize(tail[j].title) {
      assert tail[i] == qs[i + 1] && tail[j] == qs[j + 1];
    }
  }

  /** A question whose title is new to a list with unique titles can go in front. */
  lemma UniqueCons(x: Question, rest: seq<Question>)
    requires UniqueTitles(rest) && !HasTitle(rest, Normalize(x.title))
    ensures UniqueTitles([x] + rest)
  {
    var r := [x] + rest;
    forall i, j | 0 <= i < j < |r| ensures Normalize(r[i].title) != Normalize(r[j].title) {
      assert r[j] == rest[j - 1];
      if i > 0 {
        assert r[i] == rest[i - 1];
      }
    }
  }

  /** Filtering keeps titles unique. */
  lemma {:induction false} FilterKeepsUnique(qs: seq<Question>, p: Question -> bool)
    requires UniqueTitles(qs)
    ensures UniqueTitles(Filter(qs, p))
  {
    if qs != [] {
      var tail := qs[1..];
      var rest := Filter(tail, p);
      UniqueTail(qs);
      FilterKeepsUnique(tail, p);
      if p(qs[0]) {
        forall j | 0 <= j < |rest| ensures Normalize(rest[j].title) != Normalize(qs[0].title) {
          var k :| 0 <= k < |tail| && tail[k] == rest[j];
          assert qs[k + 1] == rest[j];
        }
        UniqueCons(qs[0], rest);
      }
    }
  }

  /** The fields of a question an `updateQuestion` patch sets (`Partial<SurveyQuestionModel>`). */
  datatype Patch = Patch(
    id: Option<string>,
    qtype: Option<QType>,
    title: Option<string>,
    options: Option<seq<string>>,
    required: Option<bool>,
    source: Option<string>,
    domain: Option<string>,
    hiTitle: Option<string>)

  /** `{ ...q, ...patch }`: a field the patch sets takes the patch's value; every other field stays. */
  function Apply(q: Question, p: Patch): (r: Question)
  {
    Question(
      p.id.GetOr(q.id),
      p.qtype.GetOr(q.qtype),
      p.title.GetOr(q.title),
      if p.options.Some? then p.options else q.options,
      p.required.GetOr(q.required),
      if p.source.Some? then p.source else q.source,
      if p.domain.Some? then p.domain else q.domain,
      if p.hiTitle.Some? then p.hiTitle else q.hiTitle)
  }

  /** Merging a patch a second time changes nothing, and an empty patch changes nothing. */
  lemma ApplyIdempotent(q: Question, p: Patch)
    ensures Apply(Apply(q, p), p) == Apply(q, p)
    ensures Apply(q, Patch(None, None, None, None, None, None, None, None)) == q
  {
  }

  /** `qs.map(q => q.id === id ? { ...q, ...patch } : q)`. */
  function PatchWhere(qs: seq<Question>, id: string, p: Patch): (r: seq<Question>)
    ensures |r| == |qs|
  {
    seq(|qs|, i requires 0 <= i < |qs| => if qs[i].id == id then Apply(qs[i], p) else qs[i])
  }

  /**
   * A patch changes only the questions with its id, and a patch that does not
   * set the title keeps titles unique.
   */
  lemma PatchWhereSpec(qs: seq<Question>, id: string, p: Patch)
    ensures var r := PatchWhere(qs, id, p);
      && (forall i :: 0 <= i < |qs| && qs[i].id != id ==> r[i] == qs[i])
      && (forall i :: 0 <= i < |qs| && qs[i].id == id ==> r[i] == Apply(qs[i], p))
      && (p.title.None? && UniqueTitles(qs) ==> UniqueTitles(r))
  {
    var r := PatchWhere(qs, id, p);
    if p.title.None? {
      assert forall i :: 0 <= i < |qs| ==> r[i].title == qs[i].title;
    }
  }

  /** `updateQuestions(mutator)`: `qs.map(mutator)`. */
  function MapAll(qs: seq<Question>, mutator: Question -> Question): (r: seq<Question>)
    ensures |r| == |qs|
  {
    seq(|qs|, i requires 0 <= i < |qs| => mutator(qs[i]))
  }

  /** `Array.prototype.splice`'s reading of a start index against a length. */
  function SpliceIndex(i: int, n: nat): (k: nat)
    ensures k <= n
    ensures 0 <= i <= n ==> k == i
  {
    if i < 0 then (if n + i < 0 then 0 else n + i) else if i > n then n else i
  }

  /** `s` with position `i` removed. */
  function RemoveAt<T>(s: seq<T>, i: nat): (r: seq<T>)
    requires i < |s|
    ensures |r| == |s| - 1
    ensures multiset(r) + multiset{s[i]} == multiset(s)
  {
    assert s == s[..i] + [s[i]] + s[i + 1..];
    s[..i] + s[i + 1..]
  }

  /**
   * `reorderQuestions(from, to)`: take the element at `from` out and insert it
   * at `to` (both read as `splice` reads them). Same length, same elements,
   * the moved element at its new index, the others in their old order.
   */
  function Reorder(qs: seq<Question>, from: int, to: int): (r: seq<Question>)
    requires SpliceIndex(from, |qs|) < |qs|
    ensures |r| == |qs| && multiset(r) == multiset(qs)
    ensures r[SpliceIndex(to, |qs| - 1)] == qs[SpliceIndex(from, |qs|)]
    ensures RemoveAt(r, SpliceIndex(to, |qs| - 1)) == RemoveAt(qs, SpliceIndex(from, |qs|))
  {
    var s := SpliceIndex(from, |qs|);
    var item := qs[s];
    var rest := RemoveAt(qs, s);
    var t := SpliceIndex(to, |rest|);
    var r := rest[..t] + [item] + rest[t..];
    assert rest == rest[..t] + rest[t..];
    assert RemoveAt(r, t) == rest;
    r
  }

  /** Taking one question out keeps the others unique and apart from it. */
  lemma RemoveKeepsUnique(qs: seq<Question>, s: nat)
    requires s < |qs| && UniqueTitles(qs)
    ensures UniqueTitles(RemoveAt(qs, s))
    ensures forall k :: 0 <= k < |qs| - 1 ==> Normalize(RemoveAt(qs, s)[k].title) != Normalize(qs[s].title)
  {
    var rest := RemoveAt(qs, s);
    assert forall k :: 0 <= k < |rest| ==> rest[k] == qs[if k < s then k else k + 1];
  }

  /** Putting back a question whose title no other has keeps titles unique. */
  lemma InsertKeepsUnique(rest: seq<Question>, t: nat, item: Question)
    requires t <= |rest| && UniqueTitles(rest)
    requires forall k :: 0 <= k < |rest| ==> Normalize(rest[k].title) != Normalize(item.title)
    ensures UniqueTitles(rest[..t] + [item] + rest[t..])
  {
    var r := rest[..t] + [item] + rest[t..];
    assert forall k :: 0 <= k < |r| && k != t ==> r[k] == rest[if k < t then k else k - 1];
  }

  /** Moving one question keeps titles unique. */
  lemma ReorderKeepsUnique(qs: seq<Question>, from: int, to: int)
    requires SpliceIndex(from, |qs|) < |qs| && UniqueTitles(qs)
    ensures UniqueTitles(Reorder(qs, from, to))
  {
    var s := SpliceIndex(from, |qs|);
    var rest := RemoveAt(qs, s);
    RemoveKeepsUnique(qs, s);
    InsertKeepsUnique(rest, SpliceIndex(to, |rest|), qs[s]);
  }

  /** With both indices in range, the moved question lands exactly at `to`. */
  lemma ReorderInRange(qs: seq<Question>, from: int, to: int)
    requires 0 <= from < |qs| && 0 <= to < |qs|
    ensures var r := Reorder(qs, from, to); |r| == |qs| && r[to] == qs[from]
  {
  }

  /** `{ ...prev, [domain]: (prev[domain] ?? 0) + 1 }`: one more for `d`, every other key as it was. */
  function Bump(m: map<string, nat>, d: string): (r: map<string, nat>)
    ensures d in r && r[d] == (if d in m then m[d] else 0) + 1
    ensures forall k :: k != d ==> (k in r <==> k in m) && (k in m ==> r[k] == m[k])
  {
    m[d := (if d in m then m[d] else 0) + 1]
  }

  /**
   * The `forEach` of `addQuestions` over the id-assigned candidates: a blank
   * title is skipped, a title already in the growing list is counted as a
   * duplicate, anything else is pushed and its id recorded.
   */
  method IngestLoop(prev: seq<Question>, mapped: seq<Question>) returns (b: Batch)
    ensures b == Ingest(prev, mapped)
  {
    var next := prev;
    var added, duplicates, idsAdded := 0, 0, [];
    var i := 0;
    while i < |mapped|
      invariant 0 <= i <= |mapped|
      invariant Batch(next, added, duplicates, idsAdded) == Ingest(prev, mapped[..i])
    {
      var q := mapped[i];
      assert mapped[..i + 1][..i] == mapped[..i];
      if !IsBlank(q.title) {
        if HasTitle(next, Normalize(q.title)) {
          duplicates := duplicates + 1;
        } else {
          next := next + [q];
          idsAdded := idsAdded + [q.id];
          added := added + 1;
        }
      }
      i := i + 1;
    }
    assert mapped[..i] == mapped;
    b := Batch(next, added, duplicates, idsAdded);
  }

  // ---------------------------------------------------------------- the store

  class Store {
    var questions: seq<Question>
    var domainCounts: map<string, nat>
    var recentlyAdded: set<string>

    constructor ()
      ensures questions == [] && domainCounts == map[] && recentlyAdded == {}
    {
      questions, domainCounts, recentlyAdded := [], map[], {};
    }

    /**
     * `addQuestion`: appends the candidate under the fresh id unless its
     * normalised title is already present. Blank titles are not skipped here.
     */
    method AddQuestion(q: Question, freshId: string) returns (r: AddResult)
      modifies this`questions
      ensures HasTitle(old(questions), Normalize(q.title)) ==>
                questions == old(questions) && r == AddResult(0, 1, 1, None)
      ensures !HasTitle(old(questions), Normalize(q.title)) ==>
                questions == old(questions) + [q.(id := freshId)] && r == AddResult(1, 0, 1, None)
      ensures UniqueTitles(old(questions)) ==> UniqueTitles(questions)
    {
      var duplicates := 0;
      if HasTitle(questions, Normalize(q.title)) {
        duplicates := 1;
      } else {
        var before := questions;
        questions := questions + [q.(id := freshId)];
        forall i, j | 0 <= i < j < |questions|
          ensures Normalize(questions[i].title) != Normalize(questions[j].title) || !UniqueTitles(before)
        {
          if j < |before| { assert questions[i] == before[i] && questions[j] == before[j]; }
          else { assert questions[i] == before[i]; }
        }
      }
      r := AddResult(if duplicates != 0 then 0 else 1, duplicates, 1, None);
    }

    /**
     * `addQuestions`: gives id-less candidates the fresh ids, then runs the
     * batch loop; the ids added become `recentlyAdded` when there are any.
     */
    method AddQuestions(qs: seq<Question>, freshIds: seq<string>) returns (r: AddResult)
      requires |freshIds| == |qs|
      modifies this`questions, this`recentlyAdded
      ensures var b := Ingest(old(questions), AssignIds(qs, freshIds));
        && questions == b.next
        && r == AddResult(b.added, b.duplicates, |qs|, Some(b.idsAdded))
        && recentlyAdded == (if b.idsAdded != [] then set id | id in b.idsAdded else old(recentlyAdded))
      ensures UniqueTitles(old(questions)) ==> UniqueTitles(questions)
      ensures r.added + r.duplicates <= r.total
    {
      var mapped := AssignIds(qs, freshIds);
      var b := IngestLoop(questions, mapped);
      if UniqueTitles(questions) {
        IngestKeepsUnique(questions, mapped);
      }
      IngestShape(questions, mapped);
      questions := b.next;
      if |b.idsAdded| > 0 {
        recentlyAdded := set id | id in b.idsAdded;
      }
      r := AddResult(b.added, b.duplicates, |qs|, Some(b.idsAdded));
    }

    /** `removeQuestion(id)`. */
    method RemoveQuestion(id: string)
      modifies this`questions
      ensures questions == WithoutId(old(questions), id)
      ensures UniqueTitles(old(questions)) ==> UniqueTitles(questions)
    {
      if UniqueTitles(questions) {
        FilterKeepsUnique(questions, (q: Question) => q.id != id);
      }
      questions := WithoutId(questions, id);
    }

    /** `reset()`: empties the list only; the domain counts and highlights stay. */
    method Reset()
      modifies this`questions
      ensures questions == []
    {
      questions := [];
    }

    /** `updateQuestions(mutator)`. */
    method UpdateQuestions(mutator: Question -> Question)
      modifies this`questions
      ensures questions == MapAll(old(questions), mutator)
    {
      questions := MapAll(questions, mutator);
    }

    /** `updateQuestion(id, patch)`. */
    method UpdateQuestion(id: string, patch: Patch)
      modifies this`questions
      ensures questions == PatchWhere(old(questions), id, patch)
      ensures patch.title.None? && UniqueTitles(old(questions)) ==> UniqueTitles(questions)
    {
      PatchWhereSpec(questions, id, patch);
      questions := PatchWhere(questions, id, patch);
    }

    /**
     * `reorderQuestions(from, to)`. The source splices an `undefined` into the
     * list when `from` names no element; the model requires that it does.
     */
    method ReorderQuestions(from: int, to: int)
      requires SpliceIndex(from, |questions|) < |questions|
      modifies this`questions
      ensures questions == Reorder(old(questions), from, to)
      ensures UniqueTitles(old(questions)) ==> UniqueTitles(questions)
    {
      var next := questions;
      var s := SpliceIndex(from, |next|);
      var item := next[s];
      next := next[..s] + next[s + 1..];
      var t := SpliceIndex(to, |next|);
      next := next[..t] + [item] + next[t..];
      questions := next;
      if UniqueTitles(old(questions)) {
        ReorderKeepsUnique(old(questions), from, to);
      }
    }

    /** `clearRecentlyAdded()`. */
    method ClearRecentlyAdded()
      modifies this`recentlyAdded
      ensures recentlyAdded == {}
    {
      recentlyAdded := {};
    }

    /** `incrementDomain(domain)`: a missing or empty domain changes nothing. */
    method IncrementDomain(domain: Option<string>)
      modifies this`domainCounts
      ensures !Truthy(domain) ==> domainCounts == old(domainCounts)
      ensures Truthy(domain) ==> domainCounts == Bump(old(domainCounts), domain.value)
    {
      if !Truthy(domain) {
        return;
      }
      domainCounts := Bump(domainCounts, domain.value);
    }
  }
}
