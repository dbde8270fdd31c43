/** The ordered collections that the room list and every room's timeline are
    kept in are updated by batches of structural diffs (`VectorDiff`) that
    the SDK streams deliver. The diff type and its `apply` belong to an
    external crate; this module states the semantics assumed for them. Where
    the vector operation behind a diff would panic (an index past the end),
    `Apply` yields `None`. */
module VectorDiff {
  import opened Basics

  datatype Diff<T> =
    | Append(values: seq<T>)
    | Clear
    | PushFront(value: T)
    | PushBack(value: T)
    | PopFront
    | PopBack
    | Insert(index: nat, value: T)
    | Set(index: nat, value: T)
    | Remove(index: nat)
    | Truncate(length: nat)
    | Reset(values: seq<T>)

  /** Whether applying `d` to a vector of length `n` stays within bounds. */
  predicate InBounds<T>(d: Diff<T>, n: nat) {
    match d
    case Insert(i, _) => i <= n
    case Set(i, _) => i < n
    case Remove(i) => i < n
    case Truncate(len) => len <= n
    case _ => true
  }

  /** One diff applied to `s`; `None` exactly where the vector would panic. */
  function Apply<T>(s: seq<T>, d: Diff<T>): (r: Option<seq<T>>)
    ensures r.Some? <==> InBounds(d, |s|)
    ensures r.Some? && d.Set? ==>
              && |r.value| == |s| && r.value[d.index] == d.value
              && (forall k :: 0 <= k < |s| && k != d.index ==> r.value[k] == s[k])
    ensures r.Some? && d.Insert? ==>
              && |r.value| == |s| + 1 && r.value[d.index] == d.value
              && r.value[..d.index] == s[..d.index] && r.value[d.index + 1..] == s[d.index..]
    ensures r.Some? && d.Remove? ==>
              && |r.value| + 1 == |s|
              && (forall k :: 0 <= k < |r.value| ==> r.value[k] == if k < d.index then s[k] else s[k + 1])
    ensures d.Append? ==> |r.value| == |s| + |d.values| && r.value[..|s|] == s && r.value[|s|..] == d.values
    ensures d.Clear? ==> r.value == []
    ensures d.PushFront? ==> |r.value| == |s| + 1 && r.value[0] == d.value && r.value[1..] == s
    ensures d.PushBack? ==> |r.value| == |s| + 1 && r.value[|s|] == d.value && r.value[..|s|] == s
    ensures d.PopFront? && s == [] ==> r.value == []
    ensures d.PopFront? && s != [] ==> [s[0]] + r.value == s
    ensures d.PopBack? && s == [] ==> r.value == []
    ensures d.PopBack? && s != [] ==> r.value + [s[|s| - 1]] == s
    ensures r.Some? && d.Truncate? ==> |r.value| == d.length && r.value <= s
    ensures d.Reset? ==> r.value == d.values
  {
    match d
    case Append(vs) => Some(s + vs)
    case Clear => Some([])
    case PushFront(v) => Some([v] + s)
    case PushBack(v) => Some(s + [v])
    case PopFront => Some(if s == [] then [] else s[1..])
    case PopBack => Some(if s == [] then [] else s[..|s| - 1])
    case Insert(i, v) => if i <= |s| then Some(s[..i] + [v] + s[i..]) else None
    case Set(i, v) => if i < |s| then Some(s[i := v]) else None
    case Remove(i) => if i < |s| then Some(s[..i] + s[i + 1..]) else None
    case Truncate(len) => if len <= |s| then Some(s[..len]) else None
    case Reset(vs) => Some(vs)
  }

  /** A batch applied in order, stopping at the first diff that would panic. */
  function ApplyBatch<T>(s: seq<T>, diffs: seq<Diff<T>>): (r: Option<seq<T>>)
    ensures diffs == [] ==> r == Some(s)
    ensures |diffs| == 1 ==> r == Apply(s, diffs[0])
    decreases |diffs|
  {
    if diffs == [] then Some(s)
    else
      match Apply(s, diffs[0])
      case None => None
      case Some(s') => ApplyBatch(s', diffs[1..])
  }

  /** Applying two batches one after the other is the same as applying their
      concatenation: a batch is an ordered sequence of diffs and nothing more. */
  lemma {:induction false} BatchConcat<T>(s: seq<T>, a: seq<Diff<T>>, b: seq<Diff<T>>)
    ensures ApplyBatch(s, a + b) ==
      (match ApplyBatch(s, a) case None => None case Some(s') => ApplyBatch(s', b))
    decreases |a|
  {
    if a == [] {
      assert a + b == b;
    } else {
      assert (a + b)[0] == a[0];
      assert (a + b)[1..] == a[1..] + b;
      match Apply(s, a[0])
      case None =>
      case Some(s') => BatchConcat(s', a[1..], b);
    }
  }

  /** One more diff at the end of a batch. */
  lemma BatchSnoc<T>(s: seq<T>, a: seq<Diff<T>>, d: Diff<T>)
    ensures ApplyBatch(s, a + [d]) ==
      (match ApplyBatch(s, a) case None => None case Some(s') => Apply(s', d))
  {
    BatchConcat(s, a, [d]);
    match ApplyBatch(s, a)
    case None =>
    case Some(s') =>
      assert ApplyBatch(s', [d]) == (match Apply(s', d) case None => None case Some(t) => ApplyBatch(t, []));
  }

  /** `for diff in diffs { diff.apply(&mut vector) }`: the loop the room-list
      listener and every timeline feeder run while holding the vector's lock.
      The streams only deliver batches that apply; that is the requirement. */
  method ApplyAll<T>(s: seq<T>, diffs: seq<Diff<T>>) returns (r: seq<T>)
    requires ApplyBatch(s, diffs).Some?
    ensures ApplyBatch(s, diffs) == Some(r)
  {
    r := s;
    for i := 0 to |diffs|
      invariant ApplyBatch(s, diffs[..i]) == Some(r)
    {
      BatchSnoc(s, diffs[..i], diffs[i]);
      assert diffs[..i + 1] == diffs[..i] + [diffs[i]];
      BatchConcat(s, diffs[..i + 1], diffs[i + 1..]);
      assert diffs[..i + 1] + diffs[i + 1..] == diffs;
      r := Apply(r, diffs[i]).value;
    }
    assert diffs[..|diffs|] == diffs;
  }
}
