/** String operations shared by the browser widget (ECMAScript semantics) and the Python
    back end (Python `str` semantics). Strings are sequences of Unicode scalar values. */
module Text {

  type String = seq<char>

  // ---------------------------------------------------------------------------------
  // White space
  // ---------------------------------------------------------------------------------

  /** The characters matched by `\s` in an ECMAScript regular expression, which are also the
      characters `String.prototype.trim` removes: WhiteSpace and LineTerminator (sections 12.2
      and 12.3 of ECMA-262). */
  predicate IsJsSpace(c: char)
  {
    c == '\t' || c == '\n' || c == '\U{000B}' || c == '\U{000C}' || c == '\r' || c == ' '
    || c == '\U{00A0}' || c == '\U{1680}' || ('\U{2000}' <= c <= '\U{200A}')
    || c == '\U{2028}' || c == '\U{2029}' || c == '\U{202F}' || c == '\U{205F}'
    || c == '\U{3000}' || c == '\U{FEFF}'
  }

  /** The line terminators, the characters `.` in an ECMAScript regular expression does not match. */
  predicate IsJsLineTerminator(c: char)
  {
    c == '\n' || c == '\r' || c == '\U{2028}' || c == '\U{2029}'
  }

  /** The characters for which Python's `str.isspace()` holds; `str.strip()` removes them. */
  predicate IsPySpace(c: char)
  {
    ('\t' <= c <= '\r') || ('\U{001C}' <= c <= '\U{001F}') || c == ' ' || c == '\U{0085}'
    || c == '\U{00A0}' || c == '\U{1680}' || ('\U{2000}' <= c <= '\U{200A}')
    || c == '\U{2028}' || c == '\U{2029}' || c == '\U{202F}' || c == '\U{205F}' || c == '\U{3000}'
  }

  predicate AllSpace(s: String, space: char -> bool)
  {
    forall i :: 0 <= i < |s| ==> space(s[i])
  }

  /** `s` with its leading `space` characters removed. */
  function TrimStart(s: String, space: char -> bool): String
  {
    if s != [] && space(s[0]) then TrimStart(s[1..], space) else s
  }

  /** `s` with its trailing `space` characters removed. */
  function TrimEnd(s: String, space: char -> bool): String
  {
    if s != [] && space(s[|s| - 1]) then TrimEnd(s[..|s| - 1], space) else s
  }

  /** `s` without its leading and trailing `space` characters. */
  function Trim(s: String, space: char -> bool): String
  {
    TrimEnd(TrimStart(s, space), space)
  }

  /** What TrimStart removes is a prefix of `space` characters, and what it keeps does not
      start with one. */
  lemma {:induction false} TrimStartParts(s: String, space: char -> bool)
    ensures var r := TrimStart(s, space);
            && |r| <= |s| && r == s[|s| - |r|..]
            && AllSpace(s[..|s| - |r|], space)
            && (r == [] || !space(r[0]))
    decreases |s|
  {
    if s != [] && space(s[0]) {
      TrimStartParts(s[1..], space);
      var r := TrimStart(s, space);
      assert s[1..][|s| - 1 - |r|..] == s[|s| - |r|..];
      assert s[..|s| - |r|] == [s[0]] + s[1..][..|s| - 1 - |r|];
    } else {
      assert s[..0] == [];
    }
  }

  /** What TrimEnd removes is a suffix of `space` characters, and what it keeps does not end
      with one. */
  lemma {:induction false} TrimEndParts(s: String, space: char -> bool)
    ensures var r := TrimEnd(s, space);
            && |r| <= |s| && r == s[..|r|]
            && AllSpace(s[|r|..], space)
            && (r == [] || !space(r[|r| - 1]))
    decreases |s|
  {
    if s != [] && space(s[|s| - 1]) {
      var init := s[..|s| - 1];
      TrimEndParts(init, space);
      var r := TrimEnd(s, space);
      assert init[..|r|] == s[..|r|];
      assert s[|r|..] == init[|r|..] + [s[|s| - 1]];
    } else {
      assert s[|s|..] == [];
    }
  }

  /** Trim leaves a slice of `s` that neither starts nor ends with a `space` character,
      outside of which there are only such characters. */
  lemma TrimParts(s: String, space: char -> bool)
    ensures var r := Trim(s, space);
            && |r| <= |s|
            && (exists i :: 0 <= i <= |s| - |r| && s[i..i + |r|] == r
                            && AllSpace(s[..i], space) && AllSpace(s[i + |r|..], space))
            && (r == [] || (!space(r[0]) && !space(r[|r| - 1])))
  {
    var t := TrimStart(s, space);
    var r := TrimEnd(t, space);
    TrimStartParts(s, space);
    TrimEndParts(t, space);
    var i := |s| - |t|;
    assert s[i..i + |r|] == r;
    assert s[i + |r|..] == t[|r|..];
    if r != [] {
      assert r[0] == t[0];
    }
  }

  lemma {:induction false} TrimStartEmptyIff(s: String, space: char -> bool)
    ensures TrimStart(s, space) == [] <==> AllSpace(s, space)
    decreases |s|
  {
    if s != [] && space(s[0]) {
      TrimStartEmptyIff(s[1..], space);
      assert AllSpace(s, space) <==> AllSpace(s[1..], space);
    }
  }

  /** Trim leaves nothing exactly when every character is a `space` character. */
  lemma TrimEmptyIff(s: String, space: char -> bool)
    ensures Trim(s, space) == [] <==> AllSpace(s, space)
  {
    var t := TrimStart(s, space);
    TrimStartParts(s, space);
    TrimEndParts(t, space);
    TrimStartEmptyIff(s, space);
    if Trim(s, space) == [] {
      assert t[0..] == t;
      assert AllSpace(t, space);
      assert s == s[..|s| - |t|] + t;
    }
  }

  /** ECMAScript `String.prototype.trim`. */
  function JsTrim(s: String): String
  {
    Trim(s, IsJsSpace)
  }

  /** Python `str.strip()` with no argument. */
  function PyStrip(s: String): String
  {
    Trim(s, IsPySpace)
  }

  // ---------------------------------------------------------------------------------
  // Lower case
  // ---------------------------------------------------------------------------------

  /** The lower-case form of one character, for the characters whose lower-case form contains
      an ASCII letter: A-Z, KELVIN SIGN (to `k`) and LATIN CAPITAL LETTER I WITH DOT ABOVE (to
      `i` followed by COMBINING DOT ABOVE). Every other character is kept as it is. */
  function LowerChar(c: char): (r: String)
    ensures 1 <= |r| <= 2
  {
    if 'A' <= c <= 'Z' then [(c as int + 32) as char]
    else if c == '\U{212A}' then ['k']
    else if c == '\U{0130}' then ['i', '\U{0307}']
    else [c]
  }

  /** Lower-casing as ECMAScript `toLowerCase` and Python `str.lower` do it, restricted to the
      character mappings that can produce an ASCII letter. */
  function ToLower(s: String): (r: String)
    ensures |s| <= |r| <= 2 * |s|
    ensures forall i :: 0 <= i < |r| ==> !('A' <= r[i] <= 'Z')
  {
    if s == [] then [] else LowerChar(s[0]) + ToLower(s[1..])
  }

  lemma {:induction false} ToLowerAppend(a: String, b: String)
    ensures ToLower(a + b) == ToLower(a) + ToLower(b)
  {
    if a == [] {
      assert a + b == b;
    } else {
      assert (a + b)[0] == a[0];
      assert (a + b)[1..] == a[1..] + b;
      ToLowerAppend(a[1..], b);
      calc {
        ToLower(a + b);
        LowerChar(a[0]) + ToLower(a[1..] + b);
        LowerChar(a[0]) + (ToLower(a[1..]) + ToLower(b));
        (LowerChar(a[0]) + ToLower(a[1..])) + ToLower(b);
      }
    }
  }

  /** Every character of a lower-case form is its own lower-case form. */
  lemma LowerCharFixed(c: char)
    ensures ToLower(LowerChar(c)) == LowerChar(c)
  {
    var l := LowerChar(c);
    if |l| == 1 {
      assert ToLower(l) == LowerChar(l[0]) + ToLower(l[1..]);
    } else {
      assert l == ['i', '\U{0307}'];
      assert ToLower(l) == LowerChar('i') + ToLower(l[1..]);
      assert ToLower(l[1..]) == LowerChar('\U{0307}') + ToLower([]);
    }
  }

  /** Lower-case letters and spaces only. */
  predicate IsLowerPlain(c: char)
  {
    ('a' <= c <= 'z') || c == ' '
  }

  lemma {:induction false} ToLowerOfPlain(s: String)
    requires forall i :: 0 <= i < |s| ==> IsLowerPlain(s[i])
    ensures ToLower(s) == s
  {
    if s != [] {
      ToLowerOfPlain(s[1..]);
    }
  }

  /** Lower-casing is idempotent. */
  lemma {:induction false} ToLowerIdempotent(s: String)
    ensures ToLower(ToLower(s)) == ToLower(s)
  {
    if s != [] {
      ToLowerAppend(LowerChar(s[0]), ToLower(s[1..]));
      LowerCharFixed(s[0]);
      ToLowerIdempotent(s[1..]);
    }
  }

  // ---------------------------------------------------------------------------------
  // Substrings
  // ---------------------------------------------------------------------------------

  predicate StartsWith(s: String, p: String)
  {
    |p| <= |s| && s[..|p|] == p
  }

  lemma NotStartsWith(s: String, p: String, k: nat)
    requires k < |p| && k < |s| && s[k] != p[k]
    ensures !StartsWith(s, p)
  {
    if |p| <= |s| {
      assert s[..|p|][k] == s[k];
    }
  }

  /** Skipping a known run of `space` characters that ends before a non-space character. */
  lemma {:induction false} TrimStartSkip(s: String, space: char -> bool, k: nat)
    requires k <= |s| && AllSpace(s[..k], space) && (k == |s| || !space(s[k]))
    ensures TrimStart(s, space) == s[k..]
  {
    if k > 0 {
      assert space(s[..k][0]);
      assert s[1..][..k - 1] == s[..k][1..];
      TrimStartSkip(s[1..], space, k - 1);
    }
  }

  /** `p` occurs in `s` at index `i`. */
  predicate OccursAt(s: String, p: String, i: int)
  {
    0 <= i <= |s| - |p| && s[i..i + |p|] == p
  }

  /** `p` is a substring of `s` (Python `p in s`, an unanchored regular-expression literal). */
  predicate Contains(s: String, p: String)
  {
    StartsWith(s, p) || (s != [] && Contains(s[1..], p))
  }

  lemma {:induction false} ContainsIff(s: String, p: String)
    ensures Contains(s, p) <==> exists i :: OccursAt(s, p, i)
  {
    if StartsWith(s, p) {
      assert OccursAt(s, p, 0);
    } else if s != [] {
      ContainsIff(s[1..], p);
      if exists i :: OccursAt(s[1..], p, i) {
        var i :| OccursAt(s[1..], p, i);
        assert s[1..][i..i + |p|] == s[i + 1..i + 1 + |p|];
        assert OccursAt(s, p, i + 1);
      }
      if exists i :: OccursAt(s, p, i) {
        var i :| OccursAt(s, p, i);
        assert i != 0;
        assert s[1..][i - 1..i - 1 + |p|] == s[i..i + |p|];
        assert OccursAt(s[1..], p, i - 1);
      }
    }
  }

  lemma OccursAtContains(s: String, p: String, i: int)
    requires OccursAt(s, p, i)
    ensures Contains(s, p)
  {
    ContainsIff(s, p);
  }

  /** A pattern with a character the text lacks does not occur in it. */
  lemma {:induction false} LackingCharNotContained(s: String, p: String, c: char)
    requires c in p && c !in s
    ensures !Contains(s, p)
  {
    var k :| 0 <= k < |p| && p[k] == c;
    if |p| <= |s| {
      assert s[..|p|][k] == s[k];
    }
    if s != [] {
      LackingCharNotContained(s[1..], p, c);
    }
  }

  /** Index of the first occurrence of `p` in `s` (Python `s.find(p)` when `p in s`). */
  function FirstOccurrence(s: String, p: String): (i: nat)
    requires Contains(s, p)
    ensures OccursAt(s, p, i)
    ensures forall j :: 0 <= j < i ==> !OccursAt(s, p, j)
  {
    if StartsWith(s, p) then 0
    else
      var k := FirstOccurrence(s[1..], p);
      assert s[1..][k..k + |p|] == s[k + 1..k + 1 + |p|];
      forall j | 0 <= j < k + 1 ensures !OccursAt(s, p, j) {
        if j > 0 && OccursAt(s, p, j) {
          assert s[1..][j - 1..j - 1 + |p|] == s[j..j + |p|];
          assert OccursAt(s[1..], p, j - 1);
        }
      }
      k + 1
  }

  // ---------------------------------------------------------------------------------
  // Python str.count and str.replace
  // ---------------------------------------------------------------------------------

  /** Left-to-right count of non-overlapping occurrences of a non-empty `p`. */
  function CountNonEmpty(s: String, p: String): nat
    requires p != []
    decreases |s|
  {
    if |s| < |p| then 0
    else if StartsWith(s, p) then 1 + CountNonEmpty(s[|p|..], p)
    else CountNonEmpty(s[1..], p)
  }

  /** Python `s.count(p)`: non-overlapping occurrences, and `len(s) + 1` for the empty `p`. */
  function Count(s: String, p: String): nat
  {
    if p == [] then |s| + 1 else CountNonEmpty(s, p)
  }

  function ReplaceNonEmpty(s: String, p: String, n: String): String
    requires p != []
    decreases |s|
  {
    if |s| < |p| then s
    else if StartsWith(s, p) then n + ReplaceNonEmpty(s[|p|..], p, n)
    else [s[0]] + ReplaceNonEmpty(s[1..], p, n)
  }

  /** Python `s.replace("", n)`: `n` before every character and at the end. */
  function ReplaceEmpty(s: String, n: String): String
  {
    if s == [] then n else n + [s[0]] + ReplaceEmpty(s[1..], n)
  }

  /** Python `s.replace(p, n)`: every non-overlapping occurrence, left to right. */
  function Replace(s: String, p: String, n: String): String
  {
    if p == [] then ReplaceEmpty(s, n) else ReplaceNonEmpty(s, p, n)
  }

  /** No occurrence counted exactly when `p` does not occur at all. */
  lemma {:induction false} CountZeroIff(s: String, p: String)
    requires p != []
    ensures Count(s, p) == 0 <==> !Contains(s, p)
    decreases |s|
  {
    if |s| < |p| {
      if Contains(s, p) {
        ContainsIff(s, p);
        assert false;
      }
    } else if !StartsWith(s, p) {
      CountZeroIff(s[1..], p);
    }
  }

  lemma {:induction false} ReplaceAbsent(s: String, p: String, n: String)
    requires p != [] && CountNonEmpty(s, p) == 0
    ensures ReplaceNonEmpty(s, p, n) == s
    decreases |s|
  {
    if |s| >= |p| {
      ReplaceAbsent(s[1..], p, n);
    }
  }

  /** Past a start that does not match, the first occurrence is one further on than in the
      tail. */
  lemma FirstOccurrenceInTail(s: String, p: String)
    requires s != [] && !StartsWith(s, p) && Contains(s[1..], p)
    ensures Contains(s, p) && FirstOccurrence(s, p) == FirstOccurrence(s[1..], p) + 1
  {
  }

  lemma SpliceAfterHead(s: String, k: nat, n: String, m: nat)
    requires s != [] && k + m < |s|
    ensures s[..k + 1] + n + s[k + 1 + m..] == [s[0]] + (s[1..][..k] + n + s[1..][k + m..])
  {
    assert s[..k + 1] == [s[0]] + s[1..][..k];
    assert s[k + 1 + m..] == s[1..][k + m..];
  }

  /** A single occurrence at the start: it is the one replaced. */
  lemma ReplaceSingleAtStart(s: String, p: String, n: String)
    requires p != [] && StartsWith(s, p) && CountNonEmpty(s[|p|..], p) == 0
    ensures Contains(s, p)
    ensures ReplaceNonEmpty(s, p, n) == s[..FirstOccurrence(s, p)] + n + s[FirstOccurrence(s, p) + |p|..]
  {
    ReplaceAbsent(s[|p|..], p, n);
    assert ReplaceNonEmpty(s, p, n) == n + s[|p|..];
    assert s[..0] + n + s[0 + |p|..] == n + s[|p|..];
  }

  /** A single occurrence past a start that does not match: the splice in the tail, with the
      first character put back in front. */
  lemma ReplaceSingleInTail(s: String, p: String, n: String)
    requires p != [] && |s| >= |p| && !StartsWith(s, p) && Contains(s[1..], p)
    requires ReplaceNonEmpty(s[1..], p, n)
             == s[1..][..FirstOccurrence(s[1..], p)] + n + s[1..][FirstOccurrence(s[1..], p) + |p|..]
    ensures Contains(s, p)
    ensures ReplaceNonEmpty(s, p, n) == s[..FirstOccurrence(s, p)] + n + s[FirstOccurrence(s, p) + |p|..]
  {
    FirstOccurrenceInTail(s, p);
    var k := FirstOccurrence(s[1..], p);
    assert ReplaceNonEmpty(s, p, n) == [s[0]] + ReplaceNonEmpty(s[1..], p, n);
    SpliceAfterHead(s, k, n, |p|);
  }

  lemma {:induction false} ReplaceSingleNonEmpty(s: String, p: String, n: String)
    requires p != [] && CountNonEmpty(s, p) == 1
    ensures Contains(s, p)
    ensures ReplaceNonEmpty(s, p, n) == s[..FirstOccurrence(s, p)] + n + s[FirstOccurrence(s, p) + |p|..]
    decreases |s|
  {
    if StartsWith(s, p) {
      ReplaceSingleAtStart(s, p, n);
    } else {
      ReplaceSingleNonEmpty(s[1..], p, n);
      ReplaceSingleInTail(s, p, n);
    }
  }

  /** When exactly one occurrence is counted, replacing is splicing `n` in place of the first
      occurrence; for the empty `p` that happens only on the empty `s`. */
  lemma ReplaceSingle(s: String, p: String, n: String)
    requires Count(s, p) == 1
    ensures Contains(s, p)
    ensures Replace(s, p, n) == s[..FirstOccurrence(s, p)] + n + s[FirstOccurrence(s, p) + |p|..]
  {
    if p == [] {
      assert s == [];
      assert StartsWith(s, p);
    } else {
      ReplaceSingleNonEmpty(s, p, n);
    }
  }

  /** Counting is of non-overlapping occurrences: "aa" is counted once in "aaa" although it
      occurs there at two indices. */
  lemma OverlappingCountedOnce()
    ensures Count("aaa", "aa") == 1
    ensures OccursAt("aaa", "aa", 0) && OccursAt("aaa", "aa", 1)
  {
    assert StartsWith("aaa", "aa");
    assert "aaa"[2..] == "a";
    assert "aaa"[1..3] == "aa";
  }

  // ---------------------------------------------------------------------------------
  // Joining and formatting
  // ---------------------------------------------------------------------------------

  /** Python `sep.join(parts)`. */
  function Join(parts: seq<String>, sep: String): (r: String)
    ensures |parts| == 1 ==> r == parts[0]
  {
    if |parts| == 0 then []
    else if |parts| == 1 then parts[0]
    else parts[0] + sep + Join(parts[1..], sep)
  }

  /** A substring of the tail is a substring of the whole. */
  lemma ContainsInSuffix(a: String, b: String, p: String)
    requires Contains(b, p)
    ensures Contains(a + b, p)
  {
    ContainsIff(b, p);
    var i :| OccursAt(b, p, i);
    assert (a + b)[|a| + i..|a| + i + |p|] == b[i..i + |p|];
    OccursAtContains(a + b, p, |a| + i);
  }

  /** Every part can be found in the joined string. */
  lemma {:induction false} JoinContainsParts(parts: seq<String>, sep: String, i: nat)
    requires i < |parts|
    ensures Contains(Join(parts, sep), parts[i])
  {
    if |parts| == 1 {
      OccursAtContains(parts[0], parts[0], 0);
    } else if i == 0 {
      var j := Join(parts, sep);
      assert j[..|parts[0]|] == parts[0];
      OccursAtContains(j, parts[0], 0);
    } else {
      JoinContainsParts(parts[1..], sep, i - 1);
      ContainsInSuffix(parts[0] + sep, Join(parts[1..], sep), parts[i]);
    }
  }

  function DigitChar(d: nat): char
    requires d < 10
  {
    "0123456789"[d]
  }

  function NatToString(n: nat): (r: String)
    ensures |r| > 0
    decreases n
  {
    if n < 10 then [DigitChar(n)] else NatToString(n / 10) + [DigitChar(n % 10)]
  }

  /** Decimal form of an integer, as Python's `str(int)` writes it. */
  function IntToString(i: int): String
  {
    if i < 0 then "-" + NatToString(-i) else NatToString(i)
  }

  /** Python's `repr` of a string, for strings without quotes or escapes. */
  function Repr(s: String): String
  {
    "'" + s + "'"
  }

  /** Python's `repr` of a list of strings: `['a', 'b']`. */
  function ReprList(items: seq<String>): String
  {
    "[" + Join(seq(|items|, i requires 0 <= i < |items| => Repr(items[i])), ", ") + "]"
  }
}
