/** Concatenating equal parts, as when expert rows or element groups are laid end to end. */
module Stacking {
  import opened Arithmetic

  function Stack<T>(parts: seq<seq<T>>): seq<T> {
    if parts == [] then [] else Stack(parts[..|parts| - 1]) + parts[|parts| - 1]
  }

  lemma {:induction false} StackAt<T>(parts: seq<seq<T>>, rows: nat, e: nat, o: nat)
    requires e < |parts| && o < rows && forall i :: 0 <= i < |parts| ==> |parts[i]| == rows
    ensures |Stack(parts)| == |parts| * rows && e * rows + o < |parts| * rows
    ensures Stack(parts)[e * rows + o] == parts[e][o]
  {
    var before := parts[..|parts| - 1];
    StackLength(before, rows);
    StackLength(parts, rows);
    FlatBelow(e, o, |parts|, rows);
    if e < |before| {
      StackAt(before, rows, e, o);
    }
  }

  lemma {:induction false} StackLength<T>(parts: seq<seq<T>>, rows: nat)
    requires forall i :: 0 <= i < |parts| ==> |parts[i]| == rows
    ensures |Stack(parts)| == |parts| * rows
  {
    if parts != [] {
      var n := |parts| - 1;
      StackLength(parts[..n], rows);
      assert |parts| * rows == n * rows + rows;
    }
  }

  /** Cutting a sequence into n parts of equal length. */
  function Cut<T>(x: seq<T>, size: nat, n: nat): (parts: seq<seq<T>>)
    requires |x| == n * size
    ensures |parts| == n && forall i :: 0 <= i < n ==> |parts[i]| == size
    decreases n
  {
    if n == 0 then []
    else
      assert n * size == (n - 1) * size + size;
      Cut(x[..(n - 1) * size], size, n - 1) + [x[(n - 1) * size..]]
  }

  lemma {:induction false} CutStack<T>(parts: seq<seq<T>>, size: nat)
    requires forall i :: 0 <= i < |parts| ==> |parts[i]| == size
    ensures |Stack(parts)| == |parts| * size && Cut(Stack(parts), size, |parts|) == parts
  {
    StackLength(parts, size);
    if parts != [] {
      var n := |parts| - 1;
      StackLength(parts[..n], size);
      CutStack(parts[..n], size);
      assert Stack(parts)[..n * size] == Stack(parts[..n]);
      assert Stack(parts)[n * size..] == parts[n];
    }
  }
}
