/**
 * Prepopulation: answers filled in ahead of the interview, keyed by question
 * id, each marked locked (the default) or editable and tagged with a source.
 */
module Prepopulation {
  import opened Wrappers
  import opened Assoc
  import opened SurveyModel

  datatype PrepopValue = PrepopValue(value: Answer, locked: bool, source: Option<string>)

  /** One entry of a bulk set; `locked` may be missing (undefined or null). */
  datatype Entry = Entry(id: string, value: Answer, locked: Option<bool>, source: Option<string>)

  /** The values by question id, in key insertion order. */
  type Table = seq<(string, PrepopValue)>

  /** `{ value, locked: locked ?? true, source }`. */
  function EntryValue(e: Entry): (v: PrepopValue)
    ensures v.value == e.value && v.source == e.source
    ensures v.locked <==> e.locked != Some(false)
  {
    PrepopValue(e.value, e.locked.GetOr(true), e.source)
  }

  /** The bulk loop run over `entries` from `t`, one entry at a time. */
  function BulkApply(t: Table, entries: seq<Entry>): Table {
    if entries == [] then t
    else Put(BulkApply(t, entries[..|entries| - 1]), entries[|entries| - 1].id, EntryValue(entries[|entries| - 1]))
  }

  /** A key no entry names keeps its old value. */
  lemma {:induction false} BulkUntouched(t: Table, entries: seq<Entry>, k: string)
    requires forall i :: 0 <= i < |entries| ==> entries[i].id != k
    ensures Get(BulkApply(t, entries), k) == Get(t, k)
  {
    if entries != [] {
      BulkUntouched(t, entries[..|entries| - 1], k);
    }
  }

  /** For a repeated id the last entry naming it wins. */
  lemma {:induction false} BulkLastWins(t: Table, entries: seq<Entry>, i: nat)
    requires i < |entries|
    requires forall j :: i < j < |entries| ==> entries[j].id != entries[i].id
    ensures Get(BulkApply(t, entries), entries[i].id) == Some(EntryValue(entries[i]))
  {
    if i < |entries| - 1 {
      BulkLastWins(t, entries[..|entries| - 1], i);
    }
  }

  /** A bulk set keeps the keys unique. */
  lemma {:induction false} BulkKeepsUnique(t: Table, entries: seq<Entry>)
    requires UniqueKeys(t)
    ensures UniqueKeys(BulkApply(t, entries))
  {
    if entries != [] {
      BulkKeepsUnique(t, entries[..|entries| - 1]);
    }
  }

  class Prepop {
    var values: Table

    ghost predicate Valid()
      reads this
    {
      UniqueKeys(values)
    }

    constructor()
      ensures Valid() && values == []
    {
      values := [];
    }

    /** `setPrepop(id, value, locked = true, source)`; a missing `locked` is true. */
    method SetPrepop(questionId: string, value: Answer, locked: Option<bool>, source: Option<string>)
      requires Valid()
      modifies this
      ensures Valid()
      ensures values == Put(old(values), questionId, PrepopValue(value, locked.GetOr(true), source))
      ensures forall k :: k != questionId ==> Get(values, k) == Get(old(values), k)
      ensures forall k :: k in Keys(values) <==> k == questionId || k in Keys(old(values))
    {
      PutKeys(values, questionId, PrepopValue(value, locked.GetOr(true), source));
      values := Put(values, questionId, PrepopValue(value, locked.GetOr(true), source));
    }

    /** `bulkSet`: the entries are written in order into a copy of the table. */
    method BulkSet(entries: seq<Entry>)
      requires Valid()
      modifies this
      ensures Valid()
      ensures values == BulkApply(old(values), entries)
    {
      var next := values;
      var i := 0;
      while i < |entries|
        invariant 0 <= i <= |entries|
        invariant next == BulkApply(values, entries[..i])
      {
        assert entries[..i + 1][..i] == entries[..i];
        next := Put(next, entries[i].id, EntryValue(entries[i]));
        i := i + 1;
      }
      assert entries[..i] == entries;
      BulkKeepsUnique(values, entries);
      values := next;
    }

    method Clear()
      modifies this
      ensures Valid() && values == []
    {
      values := [];
    }
  }
}
