/** String helpers standing in for the Swift standard library calls the
    core uses: `uppercased()`, `compactMap { $0 }` and `joined(separator:)`. */
module Text {
  import opened Wrappers

  /** Upper-cases one ASCII letter; every other character is left alone. */
  function UpperAscii(c: char): char {
    if 'a' <= c <= 'z' then (c as int - 32) as char else c
  }

  /** `uppercased()` restricted to ASCII letters. */
  function Uppercased(s: string): (r: string)
    ensures |r| == |s|
    ensures forall i :: 0 <= i < |s| ==> r[i] == UpperAscii(s[i])
  {
    seq(|s|, i requires 0 <= i < |s| => UpperAscii(s[i]))
  }

  /** Reference definition of an ASCII case-insensitive match against an
      upper-case word: each character is the word's letter in either case. */
  predicate MatchesIgnoringCase(s: string, upper: string, lower: string)
    requires |upper| == |lower|
  {
    |s| == |upper| && forall i :: 0 <= i < |s| ==> s[i] == upper[i] || s[i] == lower[i]
  }

  /** `compactMap { $0 }`: the present values, in their original order. */
  function Present(xs: seq<Option<string>>): (r: seq<string>)
    ensures forall v :: v in r <==> Some(v) in xs
    ensures |r| <= |xs|
  {
    if |xs| == 0 then []
    else match xs[0]
      case Some(v) => [v] + Present(xs[1..])
      case None => Present(xs[1..])
  }

  /** `joined(separator:)`: the parts with `sep` between consecutive ones. */
  function Join(parts: seq<string>, sep: string): string
  {
    if |parts| == 0 then ""
    else if |parts| == 1 then parts[0]
    else parts[0] + sep + Join(parts[1..], sep)
  }

  /** Sum of the lengths of `parts`. */
  function TotalLength(parts: seq<string>): nat {
    if |parts| == 0 then 0 else |parts[0]| + TotalLength(parts[1..])
  }

  /** Joining k >= 1 parts inserts exactly k - 1 separators: the result is as
      long as the parts together plus k - 1 copies of the separator. */
  lemma {:induction false} JoinLength(parts: seq<string>, sep: string)
    requires |parts| >= 1
    ensures |Join(parts, sep)| == TotalLength(parts) + (|parts| - 1) * |sep|
  {
    if |parts| > 1 {
      JoinLength(parts[1..], sep);
    }
  }

  /** Dropping absent values commutes with concatenation, so the present
      values keep their original order. */
  lemma {:induction false} PresentAppend(xs: seq<Option<string>>, ys: seq<Option<string>>)
    ensures Present(xs + ys) == Present(xs) + Present(ys)
    decreases |xs|
  {
    if |xs| == 0 {
      assert xs + ys == ys;
    } else {
      assert (xs + ys)[0] == xs[0];
      assert (xs + ys)[1..] == xs[1..] + ys;
      PresentAppend(xs[1..], ys);
    }
  }
}
