/**
 * The draft preview: every drafted question starts selected, a tap flips one
 * index in or out, and committing passes on the drafts still selected.
 */
module Preview {

  /** The selection after tapping index `i`. */
  function Toggled(s: set<int>, i: int): (r: set<int>)
    ensures i in r <==> i !in s
    ensures forall j :: j != i ==> (j in r <==> j in s)
  {
    if i in s then s - {i} else s + {i}
  }

  /** Tapping the same index twice restores the selection. */
  lemma ToggleTwice(s: set<int>, i: int)
    ensures Toggled(Toggled(s, i), i) == s
  {
  }

  /** The indices of a draft of length `n`. */
  function AllIndices(n: nat): (s: set<int>)
    ensures forall i :: i in s <==> 0 <= i < n
  {
    if n == 0 then {} else AllIndices(n - 1) + {n - 1}
  }

  /** `draft.filter((_, i) => selected.has(i))`. */
  function Committed<T>(draft: seq<T>, selected: set<int>): (r: seq<T>)
    ensures |r| <= |draft|
  {
    if draft == [] then []
    else Committed(draft[..|draft| - 1], selected) + (if |draft| - 1 in selected then [draft[|draft| - 1]] else [])
  }

  /** The selected indices that name a draft. */
  function InRange(selected: set<int>, n: nat): set<int> {
    set i | i in selected && 0 <= i < n
  }

  /** What is committed is one draft per selected index in range. */
  lemma {:induction false} CommittedCount<T>(draft: seq<T>, selected: set<int>)
    ensures |Committed(draft, selected)| == |InRange(selected, |draft|)|
  {
    if draft != [] {
      var n := |draft| - 1;
      CommittedCount(draft[..n], selected);
      if n in selected {
        assert InRange(selected, n + 1) == InRange(selected, n) + {n};
      } else {
        assert InRange(selected, n + 1) == InRange(selected, n);
      }
    }
  }

  /** Every committed question is a draft whose index is selected. */
  lemma {:induction false} CommittedPicks<T>(draft: seq<T>, selected: set<int>, k: nat)
    requires k < |Committed(draft, selected)|
    ensures exists i :: 0 <= i < |draft| && i in selected && Committed(draft, selected)[k] == draft[i]
  {
    var n := |draft| - 1;
    var init := Committed(draft[..n], selected);
    if k < |init| {
      CommittedPicks(draft[..n], selected, k);
      var i :| 0 <= i < n && i in selected && init[k] == draft[..n][i];
      assert Committed(draft, selected)[k] == draft[i];
    } else {
      assert Committed(draft, selected)[k] == draft[n];
    }
  }

  /**
   * Conversely, every selected draft is committed, at the position given by
   * the number of selected indices before it, so draft order is kept.
   */
  lemma {:induction false} CommittedAt<T>(draft: seq<T>, selected: set<int>, i: nat)
    requires i < |draft| && i in selected
    ensures |InRange(selected, i)| < |Committed(draft, selected)|
    ensures Committed(draft, selected)[|InRange(selected, i)|] == draft[i]
  {
    var n := |draft| - 1;
    CommittedCount(draft[..n], selected);
    if i < n {
      CommittedAt(draft[..n], selected, i);
    } else {
      assert draft[..n] == draft[..i];
    }
  }

  /** Committing the untouched selection passes on the whole draft. */
  lemma {:induction false} CommitAll<T>(draft: seq<T>, selected: set<int>)
    requires forall i :: 0 <= i < |draft| ==> i in selected
    ensures Committed(draft, selected) == draft
  {
    if draft != [] {
      CommitAll(draft[..|draft| - 1], selected);
    }
  }

  class Selection {
    var selected: set<int>

    /** `new Set(draft.map((_, i) => i))`. */
    constructor(draftLength: nat)
      ensures selected == AllIndices(draftLength)
    {
      selected := AllIndices(draftLength);
    }

    /** `toggle(i)`. */
    method Toggle(i: int)
      modifies this
      ensures selected == Toggled(old(selected), i)
    {
      if i in selected {
        selected := selected - {i};
      } else {
        selected := selected + {i};
      }
    }

    /** The commit button: the drafts at the selected indices. */
    method Commit<T>(draft: seq<T>) returns (chosen: seq<T>)
      ensures chosen == Committed(draft, selected)
      ensures |chosen| == |InRange(selected, |draft|)|
    {
      CommittedCount(draft, selected);
      chosen := Committed(draft, selected);
    }
  }
}
