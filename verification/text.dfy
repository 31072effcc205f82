/**
 * The JavaScript string operations the core relies on: `trim`, ASCII
 * `toLowerCase`, `startsWith`, `includes`, `split` on one character and
 * `join`.
 */
module Text {
  import opened Collections

  /** The characters `String.prototype.trim` strips: ECMAScript WhiteSpace and LineTerminator. */
  predicate IsJsWhitespace(c: char) {
    c == '\t' || c == '\n' || c == '\U{B}' || c == '\U{C}' || c == '\r' || c == ' '
    || c == '\U{A0}' || c == '\U{1680}' || ('\U{2000}' <= c <= '\U{200A}')
    || c == '\U{2028}' || c == '\U{2029}' || c == '\U{202F}' || c == '\U{205F}'
    || c == '\U{3000}' || c == '\U{FEFF}'
  }

  /** Neither end of `s` is whitespace. */
  predicate IsTrimmed(s: string) {
    |s| == 0 || (!IsJsWhitespace(s[0]) && !IsJsWhitespace(s[|s| - 1]))
  }

  /** Length of the whitespace run at the start of `s`. */
  function LeadingSpace(s: string): (n: nat)
    ensures n <= |s|
    ensures forall i :: 0 <= i < n ==> IsJsWhitespace(s[i])
    ensures n == |s| || !IsJsWhitespace(s[n])
  {
    if |s| == 0 || !IsJsWhitespace(s[0]) then 0 else 1 + LeadingSpace(s[1..])
  }

  /**
   * Where `trim` stops keeping text: the start of the whitespace run at the
   * end of `s`, never before position `lo`.
   */
  function TrimEnd(s: string, lo: nat): (e: nat)
    requires lo <= |s|
    ensures lo <= e <= |s|
    ensures forall k :: e <= k < |s| ==> IsJsWhitespace(s[k])
    ensures lo < e ==> !IsJsWhitespace(s[e - 1])
    decreases |s|
  {
    if |s| == lo || !IsJsWhitespace(s[|s| - 1]) then |s| else TrimEnd(s[..|s| - 1], lo)
  }

  /** `s.trim()`: the slice of `s` left after removing whitespace at both ends. */
  function Trim(s: string): (r: string)
    ensures IsTrimmed(r)
    ensures |r| <= |s|
    ensures forall c :: c in r ==> c in s
    ensures r == [] <==> forall i :: 0 <= i < |s| ==> IsJsWhitespace(s[i])
    ensures exists i, j :: 0 <= i <= j <= |s| && r == s[i..j]
              && (forall k :: 0 <= k < i ==> IsJsWhitespace(s[k]))
              && (forall k :: j <= k < |s| ==> IsJsWhitespace(s[k]))
  {
    var i := LeadingSpace(s);
    var j := TrimEnd(s, i);
    var r := s[i..j];
    assert r != [] ==> r[0] == s[i] && r[|r| - 1] == s[j - 1];
    r
  }

  /** Trimming leaves a trimmed string alone, so trimming is idempotent. */
  lemma TrimTrimmed(s: string)
    requires IsTrimmed(s)
    ensures Trim(s) == s
  {
    var t := s[LeadingSpace(s)..];
    assert t == s;
  }

  /** Whitespace in front of a trimmed, non-empty string is what `trim` removes. */
  lemma TrimAfterSpace(t: string)
    requires IsTrimmed(t) && t != []
    ensures Trim(" " + t) == t
  {
    var s := " " + t;
    assert LeadingSpace(s) == 1 by {
      assert s[1..] == t;
    }
    assert s[1..] == t;
    TrimTrimmed(t);
  }

  /** ASCII lower-casing of one character. */
  function LowerChar(c: char): (r: char)
    ensures 'A' <= c <= 'Z' ==> 'a' <= r <= 'z' && r as int == c as int + ('a' as int - 'A' as int)
    ensures !('A' <= c <= 'Z') ==> r == c
  {
    if 'A' <= c <= 'Z' then (c as int + 32) as char else c
  }

  function ToLower(s: string): (r: string)
    ensures |r| == |s|
    ensures forall i :: 0 <= i < |s| ==> r[i] == LowerChar(s[i])
  {
    MapSeq(s, LowerChar)
  }

  /** `s.includes(sub)`: `sub` occurs in `s` at some position. */
  predicate Contains(s: string, sub: string) {
    sub <= s || (|s| > 0 && Contains(s[1..], sub))
  }

  /** `sub` is the slice of `s` starting at `i`. */
  predicate OccursAt(s: string, sub: string, i: int) {
    0 <= i && i + |sub| <= |s| && s[i..i + |sub|] == sub
  }

  /** `includes` holds exactly when `sub` occurs in `s` at some offset. */
  lemma {:induction false} ContainsAt(s: string, sub: string)
    ensures Contains(s, sub) <==> exists i :: OccursAt(s, sub, i)
  {
    if sub <= s {
      assert OccursAt(s, sub, 0);
    } else if |s| > 0 {
      var t := s[1..];
      ContainsAt(t, sub);
      if Contains(t, sub) {
        var i :| OccursAt(t, sub, i);
        assert OccursAt(s, sub, i + 1) by {
          assert s[i + 1..i + 1 + |sub|] == t[i..i + |sub|];
        }
      }
      if exists i :: OccursAt(s, sub, i) {
        var i :| OccursAt(s, sub, i);
        if i > 0 {
          assert OccursAt(t, sub, i - 1) by {
            assert t[i - 1..i - 1 + |sub|] == s[i..i + |sub|];
          }
        }
      }
    }
  }

  /**
   * `s.split(sep)`: the pieces between occurrences of `sep`; there is always at
   * least one piece, and no piece contains `sep`.
   */
  function Split(s: string, sep: char): (r: seq<string>)
    ensures |r| >= 1
    ensures forall k :: 0 <= k < |r| ==> sep !in r[k]
  {
    if |s| == 0 then [""]
    else
      var init := Split(s[..|s| - 1], sep);
      var c := s[|s| - 1];
      if c == sep then init + [""]
      else init[..|init| - 1] + [init[|init| - 1] + [c]]
  }

  /** The index just after the last `sep` in `s`, or 0 when there is none. */
  function AfterLast(s: string, sep: char): (i: nat)
    ensures i <= |s|
    ensures i == 0 || s[i - 1] == sep
    ensures sep !in s[i..]
  {
    if |s| == 0 then 0
    else if s[|s| - 1] == sep then |s|
    else
      var i := AfterLast(s[..|s| - 1], sep);
      assert s[i..] == s[..|s| - 1][i..] + [s[|s| - 1]];
      i
  }

  /** The last piece of a split is the text after the last separator. */
  lemma {:induction false} SplitLastPiece(s: string, sep: char)
    ensures var pieces := Split(s, sep); pieces[|pieces| - 1] == s[AfterLast(s, sep)..]
  {
    if |s| > 0 && s[|s| - 1] != sep {
      var s' := s[..|s| - 1];
      SplitLastPiece(s', sep);
      assert s[AfterLast(s, sep)..] == s'[AfterLast(s', sep)..] + [s[|s| - 1]];
    }
  }

  /** `parts.join(sep)`. */
  function Join(parts: seq<string>, sep: string): (r: string)
  {
    if |parts| == 0 then ""
    else if |parts| == 1 then parts[0]
    else Join(parts[..|parts| - 1], sep) + sep + parts[|parts| - 1]
  }

  /** A join of at least one part starts with the first part and ends with the last. */
  lemma {:induction false} JoinEnds(parts: seq<string>, sep: string)
    requires |parts| > 0
    ensures parts[0] <= Join(parts, sep)
    ensures var r, last := Join(parts, sep), parts[|parts| - 1]; |last| <= |r| && r[|r| - |last|..] == last
  {
    if |parts| > 1 {
      var init := parts[..|parts| - 1];
      JoinEnds(init, sep);
      assert init[0] == parts[0];
      var r := Join(parts, sep);
      assert r == Join(init, sep) + sep + parts[|parts| - 1];
      assert r[..|parts[0]|] == Join(init, sep)[..|parts[0]|];
    }
  }

  /** Splitting one more character: a separator opens a new piece, anything else extends the last one. */
  lemma SplitSnoc(s: string, c: char, sep: char)
    ensures var init := Split(s, sep);
      Split(s + [c], sep) == if c == sep then init + [""] else init[..|init| - 1] + [init[|init| - 1] + [c]]
  {
    assert (s + [c])[..|s|] == s;
  }

  /** A string without the separator splits into itself. */
  lemma {:induction false} SplitNoSeparator(s: string, sep: char)
    requires sep !in s
    ensures Split(s, sep) == [s]
  {
    if |s| > 0 {
      SplitNoSeparator(s[..|s| - 1], sep);
      assert s[..|s| - 1] + [s[|s| - 1]] == s;
    }
  }

  /** Appending a separator and a separator-free piece appends that piece to the split. */
  lemma {:induction false} SplitAppendPiece(a: string, sep: char, b: string)
    requires sep !in b
    ensures Split(a + [sep] + b, sep) == Split(a, sep) + [b]
  {
    var s := a + [sep] + b;
    if |b| == 0 {
      assert s == a + [sep];
      assert s[..|s| - 1] == a;
    } else {
      var b' := b[..|b| - 1];
      assert s[..|s| - 1] == a + [sep] + b';
      assert sep !in b';
      SplitAppendPiece(a, sep, b');
      assert b' + [b[|b| - 1]] == b;
    }
  }

  /** Splitting and re-joining on the same separator gives the input back. */
  lemma {:induction false} JoinSplit(s: string, sep: char)
    ensures Join(Split(s, sep), [sep]) == s
  {
    if |s| > 0 {
      var s' := s[..|s| - 1];
      var c := s[|s| - 1];
      assert s == s' + [c];
      var init := Split(s', sep);
      JoinSplit(s', sep);
      if c == sep {
        var r := init + [""];
        assert r[..|r| - 1] == init;
        if |init| == 1 {
          assert Join(init, [sep]) == init[0];
        }
      } else {
        var r := init[..|init| - 1] + [init[|init| - 1] + [c]];
        assert r[..|r| - 1] == init[..|init| - 1];
        if |init| > 1 {
          assert Join(init, [sep]) == Join(init[..|init| - 1], [sep]) + [sep] + init[|init| - 1];
        }
      }
    }
  }
}
