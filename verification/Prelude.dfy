// Small vocabulary shared by every module of the model.
module Prelude {
  datatype Option<+T> = None | Some(value: T)

  // Python's `str.isspace` for one character.
  predicate IsSpace(c: char) {
    || '\t' <= c <= '\r' || '\U{1C}' <= c <= ' ' || c == '\U{85}' || c == '\U{A0}' || c == '\U{1680}'
    || '\U{2000}' <= c <= '\U{200A}' || c == '\U{2028}' || c == '\U{2029}' || c == '\U{202F}'
    || c == '\U{205F}' || c == '\U{3000}'
  }

  // Python's `str.lower`, for the letters of identifiers.
  function Lower(s: string): string {
    seq(|s|, i requires 0 <= i < |s| => if 'A' <= s[i] <= 'Z' then 'a' + (s[i] - 'A') else s[i])
  }

  // The last `n` characters of a text, or all of it when it is shorter.
  function Last<T>(s: seq<T>, n: nat): seq<T> {
    if |s| <= n then s else s[|s| - n..]
  }

  ghost predicate IsPrefix<T>(p: seq<T>, s: seq<T>) {
    |p| <= |s| && s[..|p|] == p
  }

  ghost predicate IsSuffix<T>(p: seq<T>, s: seq<T>) {
    |p| <= |s| && s[|s| - |p|..] == p
  }

  // `part` occurs in `whole` starting at position `at`.
  ghost predicate OccursAt<T>(part: seq<T>, whole: seq<T>, at: int) {
    0 <= at && at + |part| <= |whole| && whole[at..at + |part|] == part
  }

  ghost predicate Contains<T>(whole: seq<T>, part: seq<T>) {
    exists at :: OccursAt(part, whole, at)
  }

  function Concat<T>(parts: seq<seq<T>>): seq<T> {
    if parts == [] then [] else parts[0] + Concat(parts[1..])
  }

  // Python's `separator.join(parts)`.
  function Join<T>(separator: seq<T>, parts: seq<seq<T>>): seq<T> {
    if parts == [] then []
    else if |parts| == 1 then parts[0]
    else parts[0] + separator + Join(separator, parts[1..])
  }

  lemma {:induction false} ConcatAppend<T>(a: seq<seq<T>>, b: seq<seq<T>>)
    ensures Concat(a + b) == Concat(a) + Concat(b)
  {
    if a == [] {
      assert a + b == b;
    } else {
      assert (a + b)[1..] == a[1..] + b;
      ConcatAppend(a[1..], b);
    }
  }

  function Total<T>(parts: seq<seq<T>>): nat {
    if parts == [] then 0 else |parts[0]| + Total(parts[1..])
  }

  lemma {:induction false} TotalAppend<T>(a: seq<seq<T>>, b: seq<seq<T>>)
    ensures Total(a + b) == Total(a) + Total(b)
  {
    if a == [] {
      assert a + b == b;
    } else {
      assert (a + b)[1..] == a[1..] + b;
      TotalAppend(a[1..], b);
    }
  }

  lemma {:induction false} JoinLength<T>(separator: seq<T>, parts: seq<seq<T>>)
    requires parts != []
    ensures |Join(separator, parts)| == Total(parts) + |separator| * (|parts| - 1)
  {
    if |parts| == 1 {
      assert Total(parts) == |parts[0]| + Total(parts[1..]);
    } else {
      JoinLength(separator, parts[1..]);
    }
  }
}
