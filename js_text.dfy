/**
 * The few JavaScript string operations the application relies on, over
 * `string` (a sequence of Unicode scalar values): `trim`, the `\s` character
 * class, `includes`, ASCII `toLowerCase`, and the insertion order of a `Set`.
 */
module JsText {

  /** ECMAScript WhiteSpace or LineTerminator: the characters `trim` removes and `\s` matches. */
  predicate IsJsSpace(c: char)
  {
    var n := c as int;
    n == 0x09 || n == 0x0A || n == 0x0B || n == 0x0C || n == 0x0D || n == 0x20 ||
    n == 0xA0 || n == 0x1680 || (0x2000 <= n <= 0x200A) || n == 0x2028 || n == 0x2029 ||
    n == 0x202F || n == 0x205F || n == 0x3000 || n == 0xFEFF
  }

  /** Drops leading white space. */
  function TrimStart(s: string): (r: string)
    ensures |r| <= |s| && r == s[|s| - |r|..]
    ensures r == [] || !IsJsSpace(r[0])
    ensures forall i :: 0 <= i < |s| - |r| ==> IsJsSpace(s[i])
  {
    if s != [] && IsJsSpace(s[0]) then TrimStart(s[1..]) else s
  }

  /** Drops trailing white space. */
  function TrimEnd(s: string): (r: string)
    ensures |r| <= |s| && r == s[..|r|]
    ensures r == [] || !IsJsSpace(r[|r| - 1])
    ensures forall i :: |r| <= i < |s| ==> IsJsSpace(s[i])
  {
    if s != [] && IsJsSpace(s[|s| - 1]) then TrimEnd(s[..|s| - 1]) else s
  }

  /** `String.prototype.trim`: neither end of the result is white space. */
  function Trim(s: string): (r: string)
    ensures |r| <= |s|
    ensures r == [] || (!IsJsSpace(r[0]) && !IsJsSpace(r[|r| - 1]))
  {
    TrimEnd(TrimStart(s))
  }

  /** A string is blank when `trim()` leaves nothing, i.e. when every character is white space. */
  lemma TrimEmptyIffAllSpace(s: string)
    ensures Trim(s) == [] <==> forall i :: 0 <= i < |s| ==> IsJsSpace(s[i])
  {
  }

  /** Leading white space is all that `trimStart` removes. */
  lemma {:induction false} TrimStartOfSpace(ws: string, s: string)
    requires forall i :: 0 <= i < |ws| ==> IsJsSpace(ws[i])
    ensures TrimStart(ws + s) == TrimStart(s)
  {
    if ws != [] {
      assert (ws + s)[0] == ws[0];
      assert (ws + s)[1..] == ws[1..] + s;
      TrimStartOfSpace(ws[1..], s);
    } else {
      assert ws + s == s;
    }
  }

  /** No character of `s` is white space. */
  predicate NoSpace(s: string)
  {
    s == [] || (!IsJsSpace(s[0]) && NoSpace(s[1..]))
  }

  /** A string of ASCII letters holds no white space. */
  lemma {:induction false} LettersHaveNoSpace(s: string)
    requires forall i :: 0 <= i < |s| ==> 'a' <= s[i] <= 'z' || 'A' <= s[i] <= 'Z'
    ensures NoSpace(s)
  {
    if s != [] {
      LettersHaveNoSpace(s[1..]);
    }
  }

  /** `s.replace(/\s+/g, '')`: every white-space run removed. */
  function RemoveSpaces(s: string): (r: string)
    ensures NoSpace(r)
    ensures |r| <= |s|
  {
    if s == [] then []
    else if IsJsSpace(s[0]) then RemoveSpaces(s[1..])
    else [s[0]] + RemoveSpaces(s[1..])
  }

  /** A string without white space is left as it is by RemoveSpaces. */
  lemma {:induction false} RemoveSpacesKeepsWords(s: string)
    requires NoSpace(s)
    ensures RemoveSpaces(s) == s
  {
    if s != [] {
      RemoveSpacesKeepsWords(s[1..]);
    }
  }

  /** A string made only of white space disappears. */
  lemma {:induction false} RemoveSpacesOfBlank(s: string)
    requires forall i :: 0 <= i < |s| ==> IsJsSpace(s[i])
    ensures RemoveSpaces(s) == []
  {
    if s != [] {
      RemoveSpacesOfBlank(s[1..]);
    }
  }

  /** Removing white space works piece by piece. */
  lemma {:induction false} RemoveSpacesAppend(a: string, b: string)
    ensures RemoveSpaces(a + b) == RemoveSpaces(a) + RemoveSpaces(b)
  {
    if a != [] {
      assert (a + b)[1..] == a[1..] + b;
      RemoveSpacesAppend(a[1..], b);
    } else {
      assert a + b == b;
    }
  }

  /** `s.includes(sub)`: `sub` occurs at some position of `s`. */
  predicate Contains(s: string, sub: string)
  {
    if |s| < |sub| then false
    else s[..|sub|] == sub || (s != [] && Contains(s[1..], sub))
  }

  /** `sub` starts at index `i` of `s`. */
  predicate OccursAt(s: string, sub: string, i: int)
  {
    0 <= i <= |s| - |sub| && s[i..i + |sub|] == sub
  }

  /** Contains agrees with "there is an index at which `sub` starts". */
  lemma {:induction false} ContainsAt(s: string, sub: string)
    ensures Contains(s, sub) <==> exists i :: OccursAt(s, sub, i)
  {
    if |s| >= |sub| && s[..|sub|] == sub {
      assert OccursAt(s, sub, 0);
    } else if |s| >= |sub| && s != [] {
      ContainsAt(s[1..], sub);
      if Contains(s[1..], sub) {
        var i :| OccursAt(s[1..], sub, i);
        assert OccursAt(s, sub, i + 1);
      }
      if exists i :: OccursAt(s, sub, i) {
        var i :| OccursAt(s, sub, i);
        assert i != 0;
        assert OccursAt(s[1..], sub, i - 1);
      }
    }
  }

  /** Whatever surrounds it, a string contains each of its infixes. */
  lemma {:induction false} ContainsInfix(a: string, m: string, b: string)
    ensures Contains(a + m + b, m)
  {
    var s := a + m + b;
    assert OccursAt(s, m, |a|);
    ContainsAt(s, m);
  }

  /** `toLowerCase` on the ASCII letters; every other character is kept. */
  function ToLower(s: string): (r: string)
    ensures |r| == |s|
    ensures forall i :: 0 <= i < |s| ==> r[i] == LowerChar(s[i])
  {
    if s == [] then [] else [LowerChar(s[0])] + ToLower(s[1..])
  }

  function LowerChar(c: char): char
  {
    if 'A' <= c <= 'Z' then (c as int + 32) as char else c
  }

  /** No two positions of `s` hold the same element. */
  predicate NoDup<T(==)>(s: seq<T>)
  {
    forall i, j :: 0 <= i < j < |s| ==> s[i] != s[j]
  }

  /**
   * `Array.from(new Set(xs))`: the elements of `xs` in order of first
   * appearance, each once. `acc` holds what the set already contains.
   */
  function AddAll<T(==)>(acc: seq<T>, xs: seq<T>): seq<T>
    decreases xs
  {
    if xs == [] then acc
    else AddAll(if xs[0] in acc then acc else acc + [xs[0]], xs[1..])
  }

  function Distinct<T(==)>(xs: seq<T>): seq<T>
  {
    AddAll([], xs)
  }

  /** Adding to a duplicate-free set keeps what was there, in place, adds exactly the new elements and repeats nothing. */
  lemma {:induction false} AddAllFacts<T>(acc: seq<T>, xs: seq<T>)
    requires NoDup(acc)
    ensures var r := AddAll(acc, xs);
      && NoDup(r)
      && |acc| <= |r| <= |acc| + |xs|
      && r[..|acc|] == acc
      && (forall x :: x in r <==> x in acc || x in xs)
    decreases xs
  {
    if xs != [] {
      var acc' := if xs[0] in acc then acc else acc + [xs[0]];
      AddAllFacts(acc', xs[1..]);
      var r := AddAll(acc', xs[1..]);
      assert r[..|acc|] == r[..|acc'|][..|acc|];
      forall x ensures x in r <==> x in acc || x in xs {
        assert x in xs <==> x == xs[0] || x in xs[1..];
      }
    }
  }

  /** The elements of `Distinct(xs)` are those of `xs`, each exactly once, and never more than `|xs|` of them. */
  lemma DistinctFacts<T>(xs: seq<T>)
    ensures NoDup(Distinct(xs))
    ensures |Distinct(xs)| <= |xs|
    ensures forall x :: x in Distinct(xs) <==> x in xs
  {
    AddAllFacts([], xs);
  }

  /** Adding elements that are all present already changes nothing. */
  lemma {:induction false} AddAllPresent<T>(acc: seq<T>, xs: seq<T>)
    requires forall x :: x in xs ==> x in acc
    ensures AddAll(acc, xs) == acc
    decreases xs
  {
    if xs != [] {
      AddAllPresent(acc, xs[1..]);
    }
  }

  /** Folding `a + b` into a set is folding `a`, then `b`. */
  lemma {:induction false} AddAllAppend<T>(acc: seq<T>, a: seq<T>, b: seq<T>)
    ensures AddAll(acc, a + b) == AddAll(AddAll(acc, a), b)
    decreases a
  {
    if a != [] {
      assert (a + b)[1..] == a[1..] + b;
      AddAllAppend(if a[0] in acc then acc else acc + [a[0]], a[1..], b);
    } else {
      assert a + b == b;
    }
  }

  /** A duplicate-free sequence passes through a `Set` unchanged. */
  lemma {:induction false} DistinctOfNoDup<T>(xs: seq<T>)
    requires NoDup(xs)
    ensures Distinct(xs) == xs
  {
    var k := 0;
    while k < |xs|
      invariant 0 <= k <= |xs|
      invariant AddAll([], xs[..k]) == xs[..k]
    {
      assert xs[..k + 1] == xs[..k] + [xs[k]];
      AddAllAppend([], xs[..k], [xs[k]]);
      assert xs[k] !in xs[..k];
      k := k + 1;
    }
    assert xs[..|xs|] == xs;
  }

  /** A sequence with a repeat loses at least one element in a `Set`. */
  lemma DistinctShorter<T>(xs: seq<T>)
    requires !NoDup(xs)
    ensures |Distinct(xs)| < |xs|
  {
    var i, j :| 0 <= i < j < |xs| && xs[i] == xs[j];
    var a := AddAll([], xs[..j]);
    AddAllFacts([], xs[..j]);
    assert xs[i] == xs[..j][i];
    assert xs == xs[..j] + xs[j..];
    AddAllAppend([], xs[..j], xs[j..]);
    assert xs[j..][1..] == xs[j + 1..];
    assert AddAll(a, xs[j..]) == AddAll(a, xs[j + 1..]);
    AddAllFacts(a, xs[j + 1..]);
  }
}
