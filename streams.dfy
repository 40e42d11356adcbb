/** `Streams.sliding`: the contiguous windows of a list, left to right. */
module Streams {

  /**
   * `sliding(list, size)`: no window when `size` exceeds the list, otherwise
   * one window per start index `0 .. |list| - size`, each the sub-list of
   * `size` elements from there. A negative size throws in the source, so
   * `size` is a `nat`; size 0 gives `|list| + 1` empty windows, as it does there.
   */
  function Sliding<T>(list: seq<T>, size: nat): (windows: seq<seq<T>>)
    ensures size > |list| ==> windows == []
    ensures size <= |list| ==> |windows| == |list| - size + 1
    ensures forall i :: 0 <= i < |windows| ==> i + size <= |list| && windows[i] == list[i..i + size]
  {
    if size > |list| then []
    else seq(|list| - size + 1, start requires 0 <= start <= |list| - size => list[start..start + size])
  }

  /** Every window has exactly `size` elements. */
  lemma SlidingWindowLength<T>(list: seq<T>, size: nat, i: int)
    requires 0 <= i < |Sliding(list, size)|
    ensures |Sliding(list, size)[i]| == size
  {
  }

  /** Consecutive windows overlap in `size - 1` elements: the next one drops the head and adds one element. */
  lemma SlidingOverlap<T>(list: seq<T>, size: nat, i: int)
    requires size >= 1
    requires 0 <= i < |Sliding(list, size)| - 1
    ensures Sliding(list, size)[i][1..] == Sliding(list, size)[i + 1][..size - 1]
    ensures Sliding(list, size)[i + 1] == Sliding(list, size)[i][1..] + [list[i + size]]
  {
    var w := Sliding(list, size);
    assert w[i] == list[i..i + size] && w[i + 1] == list[i + 1..i + 1 + size];
    assert list[i + 1..i + 1 + size] == list[i + 1..i + size] + [list[i + size]];
  }

  /** A window as long as the list is the list itself, alone. */
  lemma SlidingWhole<T>(list: seq<T>)
    ensures Sliding(list, |list|) == [list]
  {
    var w := Sliding(list, |list|);
    assert |w| == 1 && w[0] == list[0..|list|] == list;
    assert w == [w[0]];
  }

  /** With size 2 the windows are exactly the adjacent pairs, in order. */
  lemma SlidingPairs<T>(list: seq<T>)
    ensures |list| >= 2 ==> |Sliding(list, 2)| == |list| - 1
    ensures |list| < 2 ==> Sliding(list, 2) == []
    ensures forall i :: 0 <= i < |Sliding(list, 2)| ==> Sliding(list, 2)[i] == [list[i], list[i + 1]]
  {
    var w := Sliding(list, 2);
    forall i | 0 <= i < |w|
      ensures w[i] == [list[i], list[i + 1]]
    {
      assert w[i] == list[i..i + 2];
    }
  }

  /**
   * Adding one element at the end of the list adds exactly one window at the
   * end (once the list is long enough), and leaves the earlier windows as they were.
   */
  lemma {:induction false} SlidingSnoc<T>(list: seq<T>, x: T, size: nat)
    requires 1 <= size <= |list| + 1
    ensures Sliding(list + [x], size) == Sliding(list, size) + [(list + [x])[|list| + 1 - size..]]
  {
    var ext := list + [x];
    var longer, shorter := Sliding(ext, size), Sliding(list, size);
    var last := ext[|list| + 1 - size..];
    assert |longer| == |shorter| + 1;
    forall i | 0 <= i < |longer|
      ensures longer[i] == (shorter + [last])[i]
    {
      if i < |shorter| {
        assert longer[i] == ext[i..i + size] == list[i..i + size] == shorter[i];
      } else {
        assert longer[i] == ext[i..i + size] == last;
      }
    }
  }
}
