/** The room list panel's selection cursor (`StatefulList` with its ratatui
    `ListState`): an optional index over a list of `n` items that `next` and
    `previous` move with wrap-around, reporting the new index only when the
    selection really moved. */
module SelectableList {
  import opened Basics

  /** The outcome of one navigation: the new selection, and what the call
      returns (`Some(new)` only on a real move). */
  datatype Step = Step(selection: Option<nat>, moved: Option<nat>)

  /** The index `next` lands on in a non-empty list: the first item when
      nothing is selected, the first item again from the last item (or from a
      stale index past the end), and the following item otherwise. */
  function NextIndex(n: nat, prev: Option<nat>): (i: nat)
    requires n > 0
    ensures i < n
    ensures prev.Some? && prev.value + 1 < n ==> i == prev.value + 1
    ensures prev.None? || prev.value + 1 >= n ==> i == 0
  {
    match prev
    case None => 0
    case Some(i) => if i >= n - 1 then 0 else i + 1
  }

  /** The index `previous` lands on in a non-empty list: the FIRST item when
      nothing is selected, the last item from the first item, and the preceding
      item otherwise. A stale index past the end only steps back by one. */
  function PreviousIndex(n: nat, prev: Option<nat>): (i: nat)
    requires n > 0
    ensures prev.Some? && prev.value < n ==> i < n
    ensures prev.None? ==> i == 0
    ensures prev == Some(0) ==> i == n - 1
    ensures prev.Some? && prev.value > 0 ==> i + 1 == prev.value
  {
    match prev
    case None => 0
    case Some(i) => if i == 0 then n - 1 else i - 1
  }

  /** What a navigation does once the target index is known: clear the cursor
      on an empty list, otherwise select the target and report it only if it
      differs from the previous selection. */
  function Settle(n: nat, prev: Option<nat>, target: nat): (r: Step)
    ensures n == 0 ==> r == Step(None, None)
    ensures n > 0 ==> r.selection == Some(target)
    ensures r.moved.Some? <==> n > 0 && prev != Some(target)
    ensures r.moved.Some? ==> r.moved == r.selection
  {
    if n == 0 then Step(None, None)
    else if prev != Some(target) then Step(Some(target), Some(target))
    else Step(prev, None)
  }

  function NextStep(n: nat, prev: Option<nat>): (r: Step)
    ensures n == 0 ==> r == Step(None, None)
    ensures n > 0 ==> r.selection.Some? && r.selection.value < n
    ensures r.moved.Some? <==> n > 0 && r.selection != prev
    ensures r.moved.Some? ==> r.moved == r.selection
  {
    Settle(n, prev, if n == 0 then 0 else NextIndex(n, prev))
  }

  function PreviousStep(n: nat, prev: Option<nat>): (r: Step)
    ensures n == 0 ==> r == Step(None, None)
    ensures n > 0 && (prev.None? || prev.value < n) ==> r.selection.Some? && r.selection.value < n
    ensures r.moved.Some? <==> n > 0 && r.selection != prev
    ensures r.moved.Some? ==> r.moved == r.selection
  {
    Settle(n, prev, if n == 0 then 0 else PreviousIndex(n, prev))
  }

  /** A single-item list that already has its item selected never moves. */
  lemma SingleItemNeverMoves(prev: Option<nat>)
    requires prev == Some(0)
    ensures NextStep(1, prev) == Step(Some(0), None)
    ensures PreviousStep(1, prev) == Step(Some(0), None)
  {
  }

  /** The selection after `k` calls of `next`. */
  function NextTimes(n: nat, sel: Option<nat>, k: nat): (r: Option<nat>)
    ensures k == 0 ==> r == sel
    ensures n == 0 && k > 0 ==> r == None
    ensures n > 0 && k > 0 ==> r.Some? && r.value < n
    decreases k
  {
    if k == 0 then sel else NextTimes(n, NextStep(n, sel).selection, k - 1)
  }

  /** The selection after `k` calls of `previous`. */
  function PreviousTimes(n: nat, sel: Option<nat>, k: nat): (r: Option<nat>)
    ensures k == 0 ==> r == sel
    ensures n == 0 && k > 0 ==> r == None
    ensures n > 0 && k > 0 && (sel.None? || sel.value < n) ==> r.Some? && r.value < n
    decreases k
  {
    if k == 0 then sel else PreviousTimes(n, PreviousStep(n, sel).selection, k - 1)
  }

  /** From an in-bounds selection, `next` walks the list cyclically: `k`
      calls (at most one full round) move the cursor `k` places on, wrapping
      past the last item to the first. */
  lemma {:induction false} NextCycles(n: nat, i: nat, k: nat)
    requires i < n && k <= n
    ensures NextTimes(n, Some(i), k) == Some(if i + k < n then i + k else i + k - n)
    decreases k
  {
    if k > 0 {
      var j := if i + 1 < n then i + 1 else 0;
      assert NextStep(n, Some(i)).selection == Some(j);
      NextCycles(n, j, k - 1);
    }
  }

  /** From an in-bounds selection, `previous` walks the list cyclically in the
      other direction: `k` calls move the cursor `k` places back, wrapping
      before the first item to the last. */
  lemma {:induction false} PreviousCycles(n: nat, i: nat, k: nat)
    requires i < n && k <= n
    ensures PreviousTimes(n, Some(i), k) == Some(if k <= i then i - k else i - k + n)
    decreases k
  {
    if k > 0 {
      var j := if i == 0 then n - 1 else i - 1;
      assert PreviousStep(n, Some(i)).selection == Some(j);
      PreviousCycles(n, j, k - 1);
    }
  }

  /** A full round of `n` calls in either direction comes back to the start. */
  lemma FullRound(n: nat, i: nat)
    requires i < n
    ensures NextTimes(n, Some(i), n) == Some(i)
    ensures PreviousTimes(n, Some(i), n) == Some(i)
  {
    NextCycles(n, i, n);
    PreviousCycles(n, i, n);
  }

  /** `previous` undoes `next` and `next` undoes `previous` on any in-bounds
      selection. */
  lemma PreviousUndoesNext(n: nat, i: nat)
    requires i < n
    ensures PreviousStep(n, NextStep(n, Some(i)).selection).selection == Some(i)
    ensures NextStep(n, PreviousStep(n, Some(i)).selection).selection == Some(i)
  {
  }

  /** `StatefulList<T>`: the items shared with the room-list listener and the
      cursor of the widget state. */
  class StatefulList<T> {
    var items: seq<T>
    var selected: Option<nat>

    constructor ()
      ensures items == [] && selected == None
    {
      items := [];
      selected := None;
    }

    /** Focus the next item, wrapping around; `Some(new)` only on a real move. */
    method Next() returns (r: Option<nat>)
      modifies this`selected
      ensures selected == NextStep(|items|, old(selected)).selection
      ensures r == NextStep(|items|, old(selected)).moved
      ensures items != [] ==> selected.Some? && selected.value < |items|
    {
      var numItems := |items|;
      if numItems == 0 {
        selected := None;
        return None;
      }
      var prev := selected;
      var target := match prev case None => 0 case Some(i) => if i >= numItems - 1 then 0 else i + 1;
      if prev != Some(target) {
        selected := Some(target);
        r := Some(target);
      } else {
        r := None;
      }
    }

    /** Focus the previous item, wrapping around; `Some(new)` only on a real move. */
    method Previous() returns (r: Option<nat>)
      modifies this`selected
      ensures selected == PreviousStep(|items|, old(selected)).selection
      ensures r == PreviousStep(|items|, old(selected)).moved
    {
      var numItems := |items|;
      if numItems == 0 {
        selected := None;
        return None;
      }
      var prev := selected;
      var target := match prev case None => 0 case Some(i) => if i == 0 then numItems - 1 else i - 1;
      if prev != Some(target) {
        selected := Some(target);
        r := Some(target);
      } else {
        r := None;
      }
    }
  }
}
