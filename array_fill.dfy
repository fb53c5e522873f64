/**
  The bulk array updates of java.util.Arrays that ComparisonFillAndSetAllMethods
  demonstrates: fill over the whole array, fill over a half-open range, and setAll
  with a generator. Each is a method over an array, proved against a function on
  the array's contents; the lemmas state what those functions promise.
*/
module ArrayFill {

  import opened Wrappers

  /** The exceptions of the range check that Arrays.fill(a, from, to, v) runs first. */
  datatype RangeError =
    | IllegalArgument   // IllegalArgumentException: from > to
    | IndexOutOfBounds  // ArrayIndexOutOfBoundsException: from < 0 or to > length

  /** The range check of the ranged fill, in the library's order of tests. */
  function CheckRange(length: nat, from: int, to: int): (r: Option<RangeError>)
    ensures r == None <==> 0 <= from <= to <= length
    ensures r == Some(IllegalArgument) <==> from > to
  {
    if from > to then Some(IllegalArgument)
    else if from < 0 || to > length then Some(IndexOutOfBounds)
    else None
  }

  /** The contents s after writing v to every position of [from, to). */
  function Filled<T>(s: seq<T>, from: nat, to: nat, v: T): (r: seq<T>)
    requires from <= to <= |s|
    ensures |r| == |s|
    ensures forall i :: 0 <= i < |s| ==> r[i] == (if from <= i < to then v else s[i])
  {
    s[..from] + seq(to - from, _ => v) + s[to..]
  }

  /** The pointwise description of Filled determines it: both directions. */
  lemma FilledIff<T>(s: seq<T>, from: nat, to: nat, v: T, r: seq<T>)
    requires from <= to <= |s|
    ensures r == Filled(s, from, to, v) <==>
            |r| == |s| && forall i :: 0 <= i < |s| ==> r[i] == (if from <= i < to then v else s[i])
  {
    if |r| == |s| && forall i :: 0 <= i < |s| ==> r[i] == (if from <= i < to then v else s[i]) {
      assert forall i :: 0 <= i < |s| ==> r[i] == Filled(s, from, to, v)[i];
    }
  }

  /** Filling the whole range leaves only v: the whole-array fill is the ranged one over [0, length). */
  lemma FilledWhole<T>(s: seq<T>, v: T)
    ensures Filled(s, 0, |s|, v) == seq(|s|, _ => v)
  {
    assert forall i :: 0 <= i < |s| ==> Filled(s, 0, |s|, v)[i] == seq(|s|, _ => v)[i];
  }

  /** An empty range (from == to) touches nothing. */
  lemma FilledEmptyRange<T>(s: seq<T>, k: nat, v: T)
    requires k <= |s|
    ensures Filled(s, k, k, v) == s
  {
    assert forall i :: 0 <= i < |s| ==> Filled(s, k, k, v)[i] == s[i];
  }

  /** A fill over a range that covers an earlier fill's range erases the earlier fill. */
  lemma FilledOverwrites<T>(s: seq<T>, from1: nat, to1: nat, v1: T, from2: nat, to2: nat, v2: T)
    requires from1 <= to1 <= |s| && from2 <= to2 <= |s|
    requires from2 <= from1 && to1 <= to2
    ensures Filled(Filled(s, from1, to1, v1), from2, to2, v2) == Filled(s, from2, to2, v2)
  {
    var a := Filled(Filled(s, from1, to1, v1), from2, to2, v2);
    assert forall i :: 0 <= i < |s| ==> a[i] == Filled(s, from2, to2, v2)[i];
  }

  /** Filling the same range with the same value twice is the same as once. */
  lemma FilledIdempotent<T>(s: seq<T>, from: nat, to: nat, v: T)
    requires from <= to <= |s|
    ensures Filled(Filled(s, from, to, v), from, to, v) == Filled(s, from, to, v)
  {
    FilledOverwrites(s, from, to, v, from, to, v);
  }

  /** Arrays.fill(a, v): every element becomes v. */
  method Fill<T>(a: array<T>, v: T)
    modifies a
    ensures a[..] == Filled(old(a[..]), 0, a.Length, v)
    ensures forall i :: 0 <= i < a.Length ==> a[i] == v
  {
    var i := 0;
    while i < a.Length
      invariant 0 <= i <= a.Length
      invariant forall k :: 0 <= k < i ==> a[k] == v
      invariant forall k :: i <= k < a.Length ==> a[k] == old(a[k])
    {
      a[i] := v;
      i := i + 1;
    }
    FilledIff(old(a[..]), 0, a.Length, v, a[..]);
  }

  /**
    Arrays.fill(a, from, to, v): after the range check passes, positions from .. to - 1
    become v and every other position keeps its value; when the check fails the array
    is left as it was and the exception is returned.
  */
  method FillRange<T>(a: array<T>, from: int, to: int, v: T) returns (err: Option<RangeError>)
    modifies a
    ensures err == CheckRange(a.Length, from, to)
    ensures err == None ==> a[..] == Filled(old(a[..]), from, to, v)
    ensures err != None ==> a[..] == old(a[..])
  {
    err := CheckRange(a.Length, from, to);
    if err != None {
      return;
    }
    var i := from;
    while i < to
      invariant from <= i <= to
      invariant forall k :: 0 <= k < a.Length ==> a[k] == (if from <= k < i then v else old(a[k]))
    {
      a[i] := v;
      i := i + 1;
    }
    FilledIff(old(a[..]), from, to, v, a[..]);
  }

  /**
    The contents s after Arrays.setAll has processed positions i .. |s| - 1 in
    ascending order. The generator receives the array as it stands when its index
    is reached, so a generator that reads the array sees the new values below its
    index and the old values from its index on.
  */
  function SetAllFrom<T>(s: seq<T>, gen: (seq<T>, nat) -> T, i: nat): (r: seq<T>)
    requires i <= |s|
    ensures |r| == |s|
    ensures r[..i] == s[..i]
    decreases |s| - i
  {
    if i == |s| then s else SetAllFrom(s[i := gen(s, i)], gen, i + 1)
  }

  /**
    Each element setAll writes is the generator applied to the array as it stood
    at that step: the new values before position k, the old ones from k on.
  */
  lemma {:induction false} SetAllAt<T>(s: seq<T>, gen: (seq<T>, nat) -> T, i: nat, k: nat)
    requires i <= k < |s|
    ensures var r := SetAllFrom(s, gen, i);
            r[k] == gen(r[..k] + s[k..], k)
    decreases |s| - i
  {
    var s' := s[i := gen(s, i)];
    var r := SetAllFrom(s, gen, i);
    assert r == SetAllFrom(s', gen, i + 1);
    if k == i {
      assert r[..i + 1] == s'[..i + 1];
      assert r[..i] + s[i..] == s by {
        assert s[..i] + s[i..] == s;
      }
    } else {
      SetAllAt(s', gen, i + 1, k);
      assert s[k..] == s'[k..];
    }
  }

  /** Conversely, a sequence in which every element is so computed is the setAll result. */
  lemma {:induction false} SetAllUnique<T>(s: seq<T>, gen: (seq<T>, nat) -> T, i: nat, r: seq<T>)
    requires i <= |s| == |r|
    requires r[..i] == s[..i]
    requires forall k :: i <= k < |s| ==> r[k] == gen(r[..k] + s[k..], k)
    ensures r == SetAllFrom(s, gen, i)
    decreases |s| - i
  {
    if i == |s| {
      assert r == r[..i] && s == s[..i];
    } else {
      var s' := s[i := gen(s, i)];
      assert r[..i] + s[i..] == s by {
        assert s[..i] + s[i..] == s;
      }
      assert r[..i + 1] == s'[..i + 1] by {
        assert r[..i + 1] == r[..i] + [r[i]];
        assert s'[..i + 1] == s[..i] + [gen(s, i)];
      }
      forall k | i + 1 <= k < |s|
        ensures r[k] == gen(r[..k] + s'[k..], k)
      {
        assert s[k..] == s'[k..];
      }
      SetAllUnique(s', gen, i + 1, r);
    }
  }

  /**
    A generator that ignores the array, as in the demonstration's
    `index -> (index + 1) * 10`, makes setAll discard all previous contents.
  */
  lemma {:induction false} SetAllByIndex<T>(s: seq<T>, gen: (seq<T>, nat) -> T, g: int -> T)
    requires forall t: seq<T>, k: nat :: k < |t| ==> gen(t, k) == g(k)
    ensures var r := SetAllFrom(s, gen, 0);
            forall k :: 0 <= k < |s| ==> r[k] == g(k)
  {
    var r := SetAllFrom(s, gen, 0);
    forall k | 0 <= k < |s|
      ensures r[k] == g(k)
    {
      SetAllAt(s, gen, 0, k);
      var t := r[..k] + s[k..];
      assert r[k] == gen(t, k);
    }
  }

  /**
    A generator that reads only its own position, as in the demonstration's
    `value -> stringArray[value].toUpperCase()`, maps f over the old contents.
  */
  lemma {:induction false} SetAllElementwise<T>(s: seq<T>, gen: (seq<T>, nat) -> T, f: T -> T)
    requires forall t: seq<T>, k: nat :: k < |t| ==> gen(t, k) == f(t[k])
    ensures var r := SetAllFrom(s, gen, 0);
            forall k :: 0 <= k < |s| ==> r[k] == f(s[k])
  {
    var r := SetAllFrom(s, gen, 0);
    forall k | 0 <= k < |s|
      ensures r[k] == f(s[k])
    {
      SetAllAt(s, gen, 0, k);
      var t := r[..k] + s[k..];
      assert t[k] == s[k];
    }
  }

  /** Arrays.setAll(a, gen): a[i] := gen(i) for i = 0, 1, ..., a.Length - 1 in that order. */
  method SetAll<T>(a: array<T>, gen: (seq<T>, nat) -> T)
    modifies a
    ensures a[..] == SetAllFrom(old(a[..]), gen, 0)
  {
    var i := 0;
    while i < a.Length
      invariant 0 <= i <= a.Length
      invariant SetAllFrom(a[..], gen, i) == SetAllFrom(old(a[..]), gen, 0)
    {
      a[i] := gen(a[..], i);
      i := i + 1;
    }
  }
}
