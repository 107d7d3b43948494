/** Values shared by the whole model: an optional value, a pixel position,
    and the few sequence operations the source performs through JavaScript's
    array built-ins (`filter(...)[0]`, `find`, `indexOf`, `join`). */
module Common {

  /** `null` / `undefined` in the source. */
  datatype Option<T> = None | Some(value: T)

  /** A pixel position in an image (`CoordsXY` of shared/common). */
  datatype CoordsXY = CoordsXY(x: real, y: real)

  /** `i` is the position of the first occurrence of `x` in `s`. */
  predicate IsFirst(s: seq<string>, x: string, i: int)
  {
    0 <= i < |s| && s[i] == x && forall j :: 0 <= j < i ==> s[j] != x
  }

  /** The position of the first element equal to `x`, as selected by
      `filter(item => item.name === x)[0]`, `find` or `indexOf`. */
  function FirstIndex(s: seq<string>, x: string): (r: Option<nat>)
    ensures r.Some? ==> IsFirst(s, x, r.value)
    ensures r.None? ==> x !in s
  {
    if |s| == 0 then None
    else if s[0] == x then Some(0)
    else match FirstIndex(s[1..], x)
      case None => None
      case Some(k) => Some(k + 1)
  }

  /** No string occurs twice. */
  predicate Distinct(s: seq<string>)
  {
    forall i, j :: 0 <= i < j < |s| ==> s[i] != s[j]
  }

  /** Sum of the lengths of the strings. */
  function TotalLength(xs: seq<string>): nat
  {
    if xs == [] then 0 else |xs[0]| + TotalLength(xs[1..])
  }

  /** `Array.prototype.join(sep)` on an array of strings. */
  function Join(xs: seq<string>, sep: string): (r: string)
    ensures xs == [] ==> r == ""
    ensures |xs| == 1 ==> r == xs[0]
    ensures xs != [] ==> |xs[0]| <= |r| && r[..|xs[0]|] == xs[0]
  {
    if |xs| == 0 then ""
    else if |xs| == 1 then xs[0]
    else xs[0] + sep + Join(xs[1..], sep)
  }

  /** The joined string holds every element and one separator between
      each two neighbours, and nothing else. */
  lemma {:induction false} JoinLength(xs: seq<string>, sep: string)
    requires xs != []
    ensures |Join(xs, sep)| == TotalLength(xs) + (|xs| - 1) * |sep|
  {
    if |xs| > 1 {
      JoinLength(xs[1..], sep);
      assert TotalLength(xs) == |xs[0]| + TotalLength(xs[1..]);
    }
  }

  /** Joining one more element appends the separator and that element:
      together with the one-element case this fixes every character of
      the result, building it from the end rather than from the front. */
  lemma {:induction false} JoinAppend(xs: seq<string>, y: string, sep: string)
    requires xs != []
    ensures Join(xs + [y], sep) == Join(xs, sep) + sep + y
  {
    var ys := xs + [y];
    assert ys[0] == xs[0];
    if |xs| == 1 {
      assert ys[1..] == [y];
    } else {
      assert ys[1..] == xs[1..] + [y];
      JoinAppend(xs[1..], y, sep);
    }
  }
}
