/** String operations the record builders and the run engine rely on, in the
    form Python's `str` methods give them. `upper` and `lower` act on the
    ASCII letters only; `strip` removes the characters `str.isspace()`
    accepts. */
module Text {
  import opened Py

  function UpperChar(c: char): char {
    if 'a' <= c <= 'z' then (c as int - 32) as char else c
  }

  function LowerChar(c: char): char {
    if 'A' <= c <= 'Z' then (c as int + 32) as char else c
  }

  /** `s.upper()` */
  function Upper(s: string): (r: string)
    ensures |r| == |s|
    ensures forall i :: 0 <= i < |s| ==> r[i] == UpperChar(s[i])
  {
    if s == [] then [] else [UpperChar(s[0])] + Upper(s[1..])
  }

  /** `s.lower()` */
  function Lower(s: string): (r: string)
    ensures |r| == |s|
    ensures forall i :: 0 <= i < |s| ==> r[i] == LowerChar(s[i])
  {
    if s == [] then [] else [LowerChar(s[0])] + Lower(s[1..])
  }

  /** Upper-casing twice is upper-casing once: a PID stored upper-case stays as stored. */
  lemma UpperIdempotent(s: string)
    ensures Upper(Upper(s)) == Upper(s)
  {
    assert forall i :: 0 <= i < |s| ==> Upper(Upper(s))[i] == Upper(s)[i];
  }

  /** A string without upper-case letters is its own lower-case form. */
  lemma LowerOfLower(s: string)
    requires forall i :: 0 <= i < |s| ==> !('A' <= s[i] <= 'Z')
    ensures Lower(s) == s
  {
  }

  /** Lower-casing twice is lower-casing once. */
  lemma LowerIdempotent(s: string)
    ensures Lower(Lower(s)) == Lower(s)
  {
    assert forall i :: 0 <= i < |s| ==> Lower(Lower(s))[i] == Lower(s)[i];
  }

  /** `s.capitalize()`: first character upper-case, every other character lower-case. */
  function Capitalize(s: string): (r: string)
    ensures |r| == |s|
    ensures |s| > 0 ==> r[0] == UpperChar(s[0]) && r[1..] == Lower(s[1..])
  {
    if s == [] then [] else [UpperChar(s[0])] + Lower(s[1..])
  }

  /** Capitalising a capitalised string changes nothing. */
  lemma CapitalizeIdempotent(s: string)
    ensures Capitalize(Capitalize(s)) == Capitalize(s)
  {
    if s != [] {
      LowerIdempotent(s[1..]);
    }
  }

  /** The characters Python's argument-less `strip()` removes: those for which
      `str.isspace()` holds. */
  predicate IsSpace(c: char) {
    c == ' ' || '\t' <= c <= '\r' || '\U{1C}' <= c <= '\U{1F}' || c == '\U{85}' || c == '\U{A0}'
    || c == '\U{1680}' || '\U{2000}' <= c <= '\U{200A}' || c == '\U{2028}' || c == '\U{2029}'
    || c == '\U{202F}' || c == '\U{205F}' || c == '\U{3000}'
  }

  function TrimLeft(s: string): (r: string)
    ensures |r| <= |s| && r == s[|s| - |r|..]
    ensures r == [] || !IsSpace(r[0])
    ensures forall i :: 0 <= i < |s| - |r| ==> IsSpace(s[i])
  {
    if s != [] && IsSpace(s[0]) then TrimLeft(s[1..]) else s
  }

  function TrimRight(s: string): (r: string)
    ensures |r| <= |s| && r == s[..|r|]
    ensures r == [] || !IsSpace(r[|r| - 1])
    ensures forall i :: |r| <= i < |s| ==> IsSpace(s[i])
  {
    if s != [] && IsSpace(s[|s| - 1]) then TrimRight(s[..|s| - 1]) else s
  }

  /** Number of whitespace characters `strip()` removes from the front of `s`. */
  function LeadingSpace(s: string): (n: nat)
    ensures n <= |s|
  {
    |s| - |TrimLeft(s)|
  }

  /** `s.strip()`: the result is a slice of `s` that neither starts nor ends
      with whitespace, and everything cut off on either side is whitespace. */
  function Trim(s: string): (r: string)
    ensures r == [] || (!IsSpace(r[0]) && !IsSpace(r[|r| - 1]))
    ensures LeadingSpace(s) + |r| <= |s| && r == s[LeadingSpace(s)..LeadingSpace(s) + |r|]
    ensures forall i :: 0 <= i < LeadingSpace(s) ==> IsSpace(s[i])
    ensures forall i :: LeadingSpace(s) + |r| <= i < |s| ==> IsSpace(s[i])
  {
    TrimRight(TrimLeft(s))
  }

  /** Trimming a string that already has no surrounding whitespace leaves it alone. */
  lemma TrimOfTrimmed(s: string)
    requires s == [] || (!IsSpace(s[0]) && !IsSpace(s[|s| - 1]))
    ensures Trim(s) == s
  {
  }

  /** `s.split(c)` for a one-character separator. */
  function Split(s: string, c: char): (r: seq<string>)
    ensures |r| >= 1
    decreases |s|
  {
    if s == [] then [""]
    else
      var rest := Split(s[1..], c);
      if s[0] == c then [""] + rest else [[s[0]] + rest[0]] + rest[1..]
  }

  /** `c.join(parts)`, the inverse of `Split`. */
  function Join(parts: seq<string>, c: char): string
    requires |parts| >= 1
  {
    if |parts| == 1 then parts[0] else parts[0] + [c] + Join(parts[1..], c)
  }

  /** The pieces of a split never contain the separator. */
  lemma {:induction false} SplitPiecesLackSeparator(s: string, c: char)
    ensures forall k :: 0 <= k < |Split(s, c)| ==> c !in Split(s, c)[k]
    decreases |s|
  {
    if s != [] {
      SplitPiecesLackSeparator(s[1..], c);
    }
  }

  /** Joining the pieces of a split gives back the original string. */
  lemma {:induction false} JoinSplit(s: string, c: char)
    ensures Join(Split(s, c), c) == s
    decreases |s|
  {
    if s != [] {
      JoinSplit(s[1..], c);
      var rest := Split(s[1..], c);
      if s[0] == c {
        assert Split(s, c) == [""] + rest;
        assert ([""] + rest)[1..] == rest;
      } else {
        var r := Split(s, c);
        assert r[0] == [s[0]] + rest[0];
        if |rest| == 1 {
          assert r == [[s[0]] + rest[0]];
        } else {
          assert r[1..] == rest[1..];
          assert Join(rest, c) == rest[0] + [c] + Join(rest[1..], c);
        }
      }
    }
  }

  /** Splitting a join of separator-free pieces gives back the pieces. */
  lemma {:induction false} SplitJoin(parts: seq<string>, c: char)
    requires |parts| >= 1
    requires forall k :: 0 <= k < |parts| ==> c !in parts[k]
    ensures Split(Join(parts, c), c) == parts
    decreases |parts|, |parts[0]|
  {
    if |parts| == 1 {
      SplitNoSeparator(parts[0], c);
    } else if parts[0] == [] {
      var tail := Join(parts[1..], c);
      assert Join(parts, c) == [c] + tail;
      assert ([c] + tail)[1..] == tail;
      SplitJoin(parts[1..], c);
      assert parts == [""] + parts[1..];
    } else {
      var x := parts[0][0];
      var shorter := [parts[0][1..]] + parts[1..];
      assert shorter[1..] == parts[1..];
      assert Join(shorter, c) == parts[0][1..] + [c] + Join(parts[1..], c);
      assert Join(parts, c) == [x] + Join(shorter, c);
      assert ([x] + Join(shorter, c))[1..] == Join(shorter, c);
      assert x in parts[0];
      SplitJoin(shorter, c);
      assert [x] + parts[0][1..] == parts[0];
      assert parts == [parts[0]] + parts[1..];
    }
  }

  lemma {:induction false} SplitNoSeparator(s: string, c: char)
    requires c !in s
    ensures Split(s, c) == [s]
    decreases |s|
  {
    if s != [] {
      assert s[0] in s;
      assert forall x :: x in s[1..] ==> x in s;
      SplitNoSeparator(s[1..], c);
      assert [s[0]] + s[1..] == s;
    }
  }

  /** `s.split(c)[0]`: the text before the first separator (all of `s` if there is none). */
  function Before(s: string, c: char): string {
    Split(s, c)[0]
  }

  /** `s.split(c)[k]`, or `None` where Python raises `IndexError`. */
  function Field(s: string, c: char, k: nat): Option<string> {
    var parts := Split(s, c);
    if k < |parts| then Some(parts[k]) else None
  }

  /** `Before` is the longest separator-free prefix of `s`. */
  lemma {:induction false} BeforeIsFirstSegment(s: string, c: char)
    ensures var b := Before(s, c);
            |b| <= |s| && b == s[..|b|] && c !in b && (|b| < |s| ==> s[|b|] == c)
    decreases |s|
  {
    if s != [] {
      BeforeIsFirstSegment(s[1..], c);
    }
  }

  /** `s.split(c)` has a second piece exactly when `c` occurs in `s`. */
  lemma {:induction false} SplitHasFieldOneIffSeparator(s: string, c: char)
    ensures |Split(s, c)| >= 2 <==> c in s
    decreases |s|
  {
    if c !in s {
      SplitNoSeparator(s, c);
    } else if s[0] != c {
      assert c in s[1..] by {
        var k :| 0 <= k < |s| && s[k] == c;
        assert s[1..][k - 1] == c;
      }
      SplitHasFieldOneIffSeparator(s[1..], c);
    }
  }

  /** Leading whitespace does not survive `strip()`. */
  lemma {:induction false} TrimLeftSkipsSpace(lead: string, s: string)
    requires forall k :: 0 <= k < |lead| ==> IsSpace(lead[k])
    ensures TrimLeft(lead + s) == TrimLeft(s)
    decreases |lead|
  {
    if lead != [] {
      assert (lead + s)[1..] == lead[1..] + s;
      TrimLeftSkipsSpace(lead[1..], s);
    } else {
      assert lead + s == s;
    }
  }

  /** Trailing whitespace does not survive `strip()`. */
  lemma {:induction false} TrimRightSkipsSpace(s: string, trail: string)
    requires forall k :: 0 <= k < |trail| ==> IsSpace(trail[k])
    ensures TrimRight(s + trail) == TrimRight(s)
    decreases |trail|
  {
    if trail != [] {
      var init := trail[..|trail| - 1];
      assert (s + trail)[..|s + trail| - 1] == s + init;
      TrimRightSkipsSpace(s, init);
    } else {
      assert s + trail == s;
    }
  }

  /** Once a non-space character has been reached, what follows is kept as it is. */
  lemma {:induction false} TrimLeftAppend(a: string, b: string)
    requires TrimLeft(a) != []
    ensures TrimLeft(a + b) == TrimLeft(a) + b
    decreases |a|
  {
    assert a != [] && (a + b)[0] == a[0];
    if IsSpace(a[0]) {
      assert (a + b)[1..] == a[1..] + b;
      assert TrimLeft(a) == TrimLeft(a[1..]);
      TrimLeftAppend(a[1..], b);
    } else {
      assert TrimLeft(a) == a;
    }
  }

  /** `strip()` ignores whitespace padding on both sides. */
  lemma TrimPadded(lead: string, s: string, trail: string)
    requires forall k :: 0 <= k < |lead| ==> IsSpace(lead[k])
    requires forall k :: 0 <= k < |trail| ==> IsSpace(trail[k])
    ensures Trim(lead + s + trail) == Trim(s)
  {
    assert lead + s + trail == lead + (s + trail);
    TrimLeftSkipsSpace(lead, s + trail);
    if TrimLeft(s) != [] {
      TrimLeftAppend(s, trail);
      TrimRightSkipsSpace(TrimLeft(s), trail);
    } else {
      assert forall k :: 0 <= k < |s| ==> IsSpace(s[k]);
      AllSpaceTrimsToEmpty(s + trail);
    }
  }

  lemma AllSpaceTrimsToEmpty(s: string)
    requires forall k :: 0 <= k < |s| ==> IsSpace(s[k])
    ensures TrimLeft(s) == []
  {
  }
}
