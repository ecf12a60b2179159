/**
 * String helpers the adapters rely on: lexicographic order by character code
 * point, `implode` and `explode`.
 */
module Strings {

  /** `a` sorts strictly before `b`. */
  predicate Less(a: string, b: string) {
    if |a| == 0 then |b| > 0
    else if |b| == 0 then false
    else if a[0] == b[0] then Less(a[1..], b[1..])
    else a[0] < b[0]
  }

  lemma {:induction false} LessIrreflexive(a: string)
    ensures !Less(a, a)
  {
    if |a| > 0 { LessIrreflexive(a[1..]); }
  }

  lemma {:induction false} LessTransitive(a: string, b: string, c: string)
    requires Less(a, b) && Less(b, c)
    ensures Less(a, c)
  {
    if |a| > 0 && |b| > 0 && |c| > 0 && a[0] == b[0] && b[0] == c[0] {
      LessTransitive(a[1..], b[1..], c[1..]);
    }
  }

  lemma {:induction false} LessTotal(a: string, b: string)
    requires a != b
    ensures Less(a, b) || Less(b, a)
  {
    if |a| > 0 && |b| > 0 && a[0] == b[0] {
      assert a == [a[0]] + a[1..] && b == [b[0]] + b[1..];
      LessTotal(a[1..], b[1..]);
    }
  }

  /** `implode(sep, parts)`. */
  function Implode(sep: string, parts: seq<string>): string {
    if |parts| == 0 then ""
    else if |parts| == 1 then parts[0]
    else parts[0] + sep + Implode(sep, parts[1..])
  }

  /** `explode(d, s)` for a one-character delimiter: the pieces between the delimiters, at least one. */
  function Explode(d: char, s: string): (r: seq<string>)
    ensures |r| >= 1
  {
    if |s| == 0 then [""]
    else
      var rest := Explode(d, s[1..]);
      if s[0] == d then [""] + rest else [[s[0]] + rest[0]] + rest[1..]
  }

  /** Gluing the pieces back with the delimiter gives the original string. */
  lemma {:induction false} ImplodeExplode(d: char, s: string)
    ensures Implode([d], Explode(d, s)) == s
  {
    if |s| > 0 {
      var rest := Explode(d, s[1..]);
      ImplodeExplode(d, s[1..]);
      if s[0] == d {
        assert Implode([d], [""] + rest) == "" + [d] + Implode([d], rest);
      } else if |rest| == 1 {
        assert Explode(d, s) == [[s[0]] + rest[0]];
      } else {
        var first := [s[0]] + rest[0];
        assert Explode(d, s) == [first] + rest[1..];
        assert ([first] + rest[1..])[1..] == rest[1..];
        assert Implode([d], rest) == rest[0] + [d] + Implode([d], rest[1..]);
      }
    }
  }

  /** No piece contains the delimiter. */
  lemma {:induction false} ExplodePiecesFree(d: char, s: string)
    ensures forall i :: 0 <= i < |Explode(d, s)| ==> d !in Explode(d, s)[i]
  {
    if |s| > 0 {
      ExplodePiecesFree(d, s[1..]);
      var rest := Explode(d, s[1..]);
      if s[0] != d {
        assert d !in [s[0]] + rest[0];
      }
    }
  }

  /** A delimiter-free string is one piece. */
  lemma {:induction false} ExplodeNoDelimiter(d: char, s: string)
    requires d !in s
    ensures Explode(d, s) == [s]
  {
    if |s| > 0 {
      ExplodeNoDelimiter(d, s[1..]);
      assert [s[0]] + s[1..] == s;
    }
  }

  /** The piece before the first delimiter comes off the front. */
  lemma {:induction false} ExplodeFirstPiece(d: char, x: string, y: string)
    requires d !in x
    ensures Explode(d, x + [d] + y) == [x] + Explode(d, y)
  {
    if |x| == 0 {
      assert x + [d] + y == [d] + y;
      assert ([d] + y)[1..] == y;
    } else {
      assert (x + [d] + y)[1..] == x[1..] + [d] + y;
      ExplodeFirstPiece(d, x[1..], y);
      assert [x[0]] + x[1..] == x;
    }
  }
}
