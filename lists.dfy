/** The list helpers of `max.rindon.util.Lists`. */
module Lists {

  /**
   * `append(xs, x)`: a copy of `xs` with `x` added at the end. The copy is
   * fresh, so `xs` itself is never changed; on values that is automatic.
   */
  function Append<T>(xs: seq<T>, x: T): (r: seq<T>)
    ensures |r| == |xs| + 1
    ensures r[..|xs|] == xs
    ensures r[|xs|] == x
  {
    xs + [x]
  }

  /** `getLast(xs)`: the final element; an empty list throws, so it is excluded. */
  function GetLast<T>(xs: seq<T>): (r: T)
    requires |xs| > 0
    ensures xs == xs[..|xs| - 1] + [r]
  {
    xs[|xs| - 1]
  }

  /**
   * `getRandomElement(xs)` with the draw `RANDOM.nextInt(xs.size())` made the
   * parameter `index`; `nextInt(0)` throws, so the list must be non-empty.
   */
  function GetRandomElement<T>(xs: seq<T>, index: int): (r: T)
    requires |xs| > 0
    requires 0 <= index < |xs|
    ensures r in xs
  {
    xs[index]
  }

  /** The last element of an appended list is the appended element. */
  lemma GetLastAppend<T>(xs: seq<T>, x: T)
    ensures GetLast(Append(xs, x)) == x
    ensures Append(xs, x)[..|xs|] == xs
  {
  }
}
