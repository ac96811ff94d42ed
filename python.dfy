/**
 * The few Python built-in behaviours the request handlers depend on:
 * slicing `s[a:b]`, `str.lower`, substring `in`, truthiness and `or`.
 */
module Python {
  import opened Wrappers

  /** Python's normalisation of one bound of `s[a:b]` (step 1) against a length `n`:
      a negative bound counts from the end, and the result is clamped to `0..n`. */
  function SliceBound(i: int, n: nat): (r: nat)
    ensures r <= n
    ensures 0 <= i ==> r == if i <= n then i else n
  {
    if i < 0 then (if i + n < 0 then 0 else i + n)
    else if i > n then n
    else i
  }

  /** `s[a:b]` with Python's semantics for every pair of integer bounds. */
  function Slice<T>(s: seq<T>, a: int, b: int): (r: seq<T>)
    ensures exists i, j :: 0 <= i <= j <= |s| && r == s[i..j]
  {
    var i, j := SliceBound(a, |s|), SliceBound(b, |s|);
    if i < j then s[i..j] else assert s[0..0] == []; []
  }

  /** For non-negative bounds `s[a:b]` is the window of `s` that starts at `a`:
      at most `b - a` elements, each the one at the same offset from `a`, and
      empty once `a` is past the end. */
  lemma SliceWindow<T>(s: seq<T>, a: int, b: int)
    requires 0 <= a <= b
    ensures |Slice(s, a, b)| <= b - a
    ensures |Slice(s, a, b)| == if a >= |s| then 0 else if b <= |s| then b - a else |s| - a
    ensures forall k :: 0 <= k < |Slice(s, a, b)| ==> Slice(s, a, b)[k] == s[a + k]
  {
  }

  /** Two adjacent windows `s[a:b] + s[b:c]` with non-negative bounds make up the
      window `s[a:c]`: nothing is repeated and nothing is skipped. */
  lemma SliceConcat<T>(s: seq<T>, a: int, b: int, c: int)
    requires 0 <= a <= b <= c
    ensures Slice(s, a, b) + Slice(s, b, c) == Slice(s, a, c)
  {
    var i, j, k := SliceBound(a, |s|), SliceBound(b, |s|), SliceBound(c, |s|);
    if i < j && j < k {
      assert s[i..j] + s[j..k] == s[i..k];
    }
  }

  /** `str.lower`, on the ASCII letters. */
  function LowerChar(c: char): (r: char)
    ensures 'A' <= c <= 'Z' ==> 'a' <= r <= 'z' && r as int - c as int == 'a' as int - 'A' as int
    ensures !('A' <= c <= 'Z') ==> r == c
  {
    if 'A' <= c <= 'Z' then (c as int - 'A' as int + 'a' as int) as char else c
  }

  function Lower(s: string): (r: string)
    ensures |r| == |s|
    ensures forall i :: 0 <= i < |s| ==> r[i] == LowerChar(s[i])
  {
    seq(|s|, i requires 0 <= i < |s| => LowerChar(s[i]))
  }

  /** Lowering a lower-cased string changes nothing. */
  lemma LowerIdempotent(s: string)
    ensures Lower(Lower(s)) == Lower(s)
  {
  }

  predicate StartsWith(s: string, prefix: string)
  {
    |prefix| <= |s| && s[..|prefix|] == prefix
  }

  /** `needle` occurs in `hay` starting at position `i`. */
  predicate OccursAt(hay: string, needle: string, i: int)
  {
    0 <= i <= |hay| - |needle| && hay[i..i + |needle|] == needle
  }

  /** `needle in hay` for strings, scanning the start positions from the left. */
  predicate Contains(hay: string, needle: string)
    decreases |hay|
  {
    StartsWith(hay, needle) || (|hay| > 0 && Contains(hay[1..], needle))
  }

  /** `needle in hay` holds exactly when `needle` occurs at some position of `hay`;
      in particular the empty string is contained in every string. */
  lemma {:induction false} ContainsIff(hay: string, needle: string)
    ensures Contains(hay, needle) <==> exists i :: OccursAt(hay, needle, i)
    ensures Contains(hay, "")
    decreases |hay|
  {
    assert StartsWith(hay, "");
    if exists i :: OccursAt(hay, needle, i) {
      var i :| OccursAt(hay, needle, i);
      if i == 0 {
        assert StartsWith(hay, needle);
      } else {
        assert OccursAt(hay[1..], needle, i - 1) by {
          assert hay[1..][i - 1..i - 1 + |needle|] == hay[i..i + |needle|];
        }
        ContainsIff(hay[1..], needle);
      }
    }
    if Contains(hay, needle) {
      if StartsWith(hay, needle) {
        assert OccursAt(hay, needle, 0);
      } else {
        ContainsIff(hay[1..], needle);
        var i :| OccursAt(hay[1..], needle, i);
        assert hay[1..][i..i + |needle|] == hay[i + 1..i + 1 + |needle|];
        assert OccursAt(hay, needle, i + 1);
      }
    }
  }

  /** Truthiness of an optional JSON string or query argument: present and non-empty. */
  predicate TruthyStr(o: Option<string>)
  {
    o.Some? && o.value != ""
  }

  /** Truthiness of an optional JSON integer: present and non-zero. */
  predicate TruthyInt(o: Option<int>)
  {
    o.Some? && o.value != 0
  }

  /** `a or b` on optional strings: `a` when it is truthy, otherwise `b`. */
  function OrStr(a: Option<string>, b: Option<string>): (r: Option<string>)
    ensures TruthyStr(r) <==> TruthyStr(a) || TruthyStr(b)
    ensures TruthyStr(a) ==> r == a
    ensures !TruthyStr(a) ==> r == b
  {
    if TruthyStr(a) then a else b
  }

  /** `a or b` on optional integers: `a` when it is truthy, otherwise `b`. */
  function OrInt(a: Option<int>, b: Option<int>): (r: Option<int>)
    ensures TruthyInt(r) <==> TruthyInt(a) || TruthyInt(b)
    ensures TruthyInt(a) ==> r == a
    ensures !TruthyInt(a) ==> r == b
  {
    if TruthyInt(a) then a else b
  }
}
