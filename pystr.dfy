/** The few Python string operations the two dashboards apply to a received line:
    `sub in s`, `s.split(sep)`, `s.replace(pat, "")` and `s.strip()`. */
module PyStr {
  import opened Wrappers

  /** Python's `str.isspace()` for one character: the ASCII whitespace and separator
      controls, NEL, NO-BREAK SPACE and the Unicode space separators. */
  predicate IsSpace(c: char)
  {
    ('\t' <= c <= '\r') || ('\U{1C}' <= c <= '\U{1F}') || c == ' ' || c == '\U{85}' || c == '\U{A0}'
    || c == '\U{1680}' || ('\U{2000}' <= c <= '\U{200A}') || c == '\U{2028}' || c == '\U{2029}'
    || c == '\U{202F}' || c == '\U{205F}' || c == '\U{3000}'
  }

  predicate AllSpace(s: string)
  {
    forall k :: 0 <= k < |s| ==> IsSpace(s[k])
  }

  /** `sub` occurs in `s` starting at index `i`. */
  predicate OccursAt(s: string, sub: string, i: nat)
  {
    i + |sub| <= |s| && s[i..i + |sub|] == sub
  }

  /** Python's `sub in s`: a case-sensitive substring test. The empty string is in every
      string, and nothing longer than `s` is in it. */
  predicate Contains(s: string, sub: string)
    ensures sub == [] ==> Contains(s, sub)
    ensures Contains(s, sub) ==> |sub| <= |s|
    decreases |s|
  {
    OccursAt(s, sub, 0) || (|s| > 0 && Contains(s[1..], sub))
  }

  /** `sub in s` holds exactly when `sub` occurs in `s` at some index. */
  lemma {:induction false} ContainsSpec(s: string, sub: string)
    ensures Contains(s, sub) <==> exists i: nat :: i <= |s| && OccursAt(s, sub, i)
    decreases |s|
  {
    if !OccursAt(s, sub, 0) && |s| > 0 {
      ContainsSpec(s[1..], sub);
      if Contains(s[1..], sub) {
        var i: nat :| i <= |s[1..]| && OccursAt(s[1..], sub, i);
        OccursShift(s, sub, i);
      } else {
        forall i: nat | 1 <= i <= |s| ensures !OccursAt(s, sub, i) {
          OccursShift(s, sub, i - 1);
        }
      }
    }
  }

  /** A character of `sub` that `s` lacks rules out `sub in s`. */
  lemma AbsentChar(s: string, sub: string, c: char)
    requires c in sub && c !in s
    ensures !Contains(s, sub)
  {
    ContainsSpec(s, sub);
    var k :| 0 <= k < |sub| && sub[k] == c;
    forall i: nat | i <= |s| && i + |sub| <= |s| ensures !OccursAt(s, sub, i) {
      assert s[i..i + |sub|][k] == s[i + k];
    }
  }

  lemma OccursShift(s: string, sub: string, i: nat)
    requires |s| > 0
    ensures OccursAt(s[1..], sub, i) <==> OccursAt(s, sub, i + 1)
  {
    if i + |sub| <= |s[1..]| {
      assert s[1..][i..i + |sub|] == s[i + 1..i + 1 + |sub|];
    }
  }

  /** The index of the first `c` in `s`. */
  function IndexOf(s: string, c: char): (i: nat)
    requires c in s
    ensures i < |s| && s[i] == c && c !in s[..i]
  {
    if s[0] == c then 0
    else
      var i := 1 + IndexOf(s[1..], c);
      assert s[..i] == [s[0]] + s[1..][..i - 1];
      i
  }

  /** The first occurrence is the one with none before it. */
  lemma FirstIndex(s: string, c: char, k: nat)
    requires k < |s| && s[k] == c && c !in s[..k]
    ensures IndexOf(s, c) == k
  {
  }

  /** In "label:value", with ':' neither in the label nor in the value, the second field is the
      value. */
  lemma SecondFieldOf(a: string, sep: char, b: string)
    requires sep !in a && sep !in b
    ensures SecondField(a + [sep] + b, sep) == Some(b)
  {
    var s := a + [sep] + b;
    assert s[..|a|] == a && s[|a|] == sep;
    FirstIndex(s, sep, |a|);
    SecondFieldSpec(s, sep);
    var f := SecondField(s, sep).value;
    assert s[|a| + 1..] == b;
    forall k | |a| + 1 <= k < |s| ensures s[k] != sep {
      assert s[k] == b[k - |a| - 1];
    }
    assert s[|a| + 1..|a| + 1 + |f|] == b;
  }

  /** The inverse of `Split`: Python's `sep.join(parts)`. */
  function Join(parts: seq<string>, sep: char): string
    requires |parts| >= 1
    decreases |parts|
  {
    if |parts| == 1 then parts[0] else parts[0] + [sep] + Join(parts[1..], sep)
  }

  /** Python's `s.split(sep)` for a one-character separator: the pieces between separators,
      which join back to `s` and contain no separator. */
  function Split(s: string, sep: char): (parts: seq<string>)
    ensures |parts| >= 1
    ensures Join(parts, sep) == s
    ensures forall k :: 0 <= k < |parts| ==> sep !in parts[k]
    decreases |s|
  {
    if |s| == 0 then [""]
    else
      var rest := Split(s[1..], sep);
      if s[0] == sep then
        assert ([""] + rest)[1..] == rest;
        [""] + rest
      else
        var parts := [[s[0]] + rest[0]] + rest[1..];
        assert parts[1..] == rest[1..];
        assert Join(parts, sep) == s by {
          if |rest| > 1 {
            assert Join(rest, sep) == rest[0] + [sep] + Join(rest[1..], sep);
          }
        }
        parts
  }

  /** `s.split(sep)[1]`, or None where Python raises IndexError (no separator in `s`). */
  function SecondField(s: string, sep: char): (r: Option<string>)
    ensures r.Some? <==> sep in s
  {
    var parts := Split(s, sep);
    if |parts| == 1 then
      None
    else
      assert s == parts[0] + [sep] + Join(parts[1..], sep);
      assert s[|parts[0]|] == sep;
      Some(parts[1])
  }

  /** The second field is exactly the text between the first separator and the next one, or
      the end of `s` when there is no next one. */
  lemma SecondFieldSpec(s: string, sep: char)
    requires sep in s
    ensures var f := SecondField(s, sep).value;
      var i := IndexOf(s, sep);
      var j := i + 1 + |f|;
      j <= |s| && s[i + 1..j] == f && sep !in f && (j == |s| || s[j] == sep)
  {
    var parts := Split(s, sep);
    SplitFront(s, sep);
    JoinFront(parts[1..], sep);
    assert parts[1..][0] == parts[1];
    FieldBeforeSeparator(s, sep, |parts[0]|, parts[1], Join(parts[1..], sep));
  }

  /** A piece at the front of what follows index `i`, ending at a separator or at the end. */
  lemma FieldBeforeSeparator(s: string, sep: char, i: nat, f: string, tail: string)
    requires i < |s| && s[i + 1..] == tail && |f| <= |tail| && tail[..|f|] == f
    requires |f| == |tail| || tail[|f|] == sep
    ensures var j := i + 1 + |f|; j <= |s| && s[i + 1..j] == f && (j == |s| || s[j] == sep)
  {
    assert tail[..|f|] == s[i + 1..i + 1 + |f|];
  }

  /** With a separator in `s`, the first piece ends at the first separator and the rest of the
      pieces join to what follows it. */
  lemma SplitFront(s: string, sep: char)
    requires sep in s
    ensures var parts := Split(s, sep);
      && |parts| >= 2 && SecondField(s, sep) == Some(parts[1])
      && IndexOf(s, sep) == |parts[0]| && s[|parts[0]| + 1..] == Join(parts[1..], sep)
  {
    var parts := Split(s, sep);
    var tail := Join(parts[1..], sep);
    assert s == parts[0] + [sep] + tail;
    assert s[..|parts[0]|] == parts[0];
    FirstIndex(s, sep, |parts[0]|);
  }

  /** A join starts with its first piece, followed by the separator or the end. */
  lemma JoinFront(parts: seq<string>, sep: char)
    requires |parts| >= 1
    ensures var t := Join(parts, sep);
      |parts[0]| <= |t| && t[..|parts[0]|] == parts[0] && (|parts[0]| == |t| <==> |parts| == 1)
      && (|parts| > 1 ==> t[|parts[0]|] == sep)
  {
  }

  /** Python's `s.replace(pat, "")`: every occurrence of `pat`, found left to right without
      overlap, is deleted. */
  function RemoveAll(s: string, pat: string): (r: string)
    requires pat != []
    ensures |r| <= |s|
    ensures forall c | c in r :: c in s
    decreases |s|
  {
    if |s| < |pat| then s
    else if s[..|pat|] == pat then RemoveAll(s[|pat|..], pat)
    else [s[0]] + RemoveAll(s[1..], pat)
  }

  /** Text without `pat` comes back unchanged, and a one-character pattern (such as "%") is
      gone from the result. */
  lemma {:induction false} RemoveAllSpec(s: string, pat: string)
    requires pat != []
    ensures !Contains(s, pat) ==> RemoveAll(s, pat) == s
    ensures |pat| == 1 ==> pat[0] !in RemoveAll(s, pat)
    decreases |s|
  {
    if |s| >= |pat| {
      if s[..|pat|] == pat {
        assert OccursAt(s, pat, 0);
        RemoveAllSpec(s[|pat|..], pat);
      } else {
        RemoveAllSpec(s[1..], pat);
        assert RemoveAll(s, pat) == [s[0]] + RemoveAll(s[1..], pat);
        assert |pat| == 1 ==> s[0] != pat[0] by {
          if |pat| == 1 { assert s[..1] == [s[0]] && pat == [pat[0]]; }
        }
        assert s == [s[0]] + s[1..];
      }
    }
  }

  /** No proper prefix of `pat` is also a suffix of it, so two occurrences of `pat` never
      overlap ("°C" is such a unit). */
  predicate SelfDisjoint(pat: string)
  {
    forall k :: 0 < k < |pat| ==> pat[k..] != pat[..|pat| - k]
  }

  /** Removing a unit that does not overlap itself from a value followed by the unit keeps the
      value as it is: the first occurrence found is the one after the value. */
  lemma {:induction false} RemoveAllAfter(x: string, pat: string, y: string)
    requires pat != [] && SelfDisjoint(pat) && !Contains(x, pat)
    ensures RemoveAll(x + pat + y, pat) == x + RemoveAll(y, pat)
    decreases |x|
  {
    var s := x + pat + y;
    if x == [] {
      assert s == pat + y && s[..|pat|] == pat && s[|pat|..] == y;
    } else {
      NoOccurrenceAtFront(x, pat, y);
      assert s[1..] == x[1..] + pat + y;
      calc {
        RemoveAll(s, pat);
        [s[0]] + RemoveAll(x[1..] + pat + y, pat);
        { RemoveAllAfter(x[1..], pat, y); }
        [x[0]] + (x[1..] + RemoveAll(y, pat));
        { assert [x[0]] + x[1..] == x; }
        x + RemoveAll(y, pat);
      }
    }
  }

  /** Before the unit that follows `x`, the unit does not start at the front of `x`. */
  lemma NoOccurrenceAtFront(x: string, pat: string, y: string)
    requires x != [] && pat != [] && SelfDisjoint(pat) && !Contains(x, pat)
    ensures (x + pat + y)[..|pat|] != pat
  {
    var s := x + pat + y;
    if |x| >= |pat| {
      assert !OccursAt(x, pat, 0);
      assert s[..|pat|] == x[0..|pat|];
    } else {
      var k := |pat| - |x|;
      assert pat[|x|..] != pat[..k];
      assert s[..|pat|] == x + pat[..k];
      assert (x + pat[..k])[|x|..] == pat[..k];
    }
  }

  /** Number of whitespace characters at the front of `s`. */
  function LeadingSpace(s: string): (n: nat)
    ensures n <= |s| && AllSpace(s[..n])
    ensures n < |s| ==> !IsSpace(s[n])
  {
    if |s| == 0 || !IsSpace(s[0]) then 0
    else
      var n := 1 + LeadingSpace(s[1..]);
      assert s[..n] == [s[0]] + s[1..][..n - 1];
      n
  }

  /** Number of whitespace characters at the back of `s`. */
  function TrailingSpace(s: string): (n: nat)
    ensures n <= |s| && AllSpace(s[|s| - n..])
    ensures n < |s| ==> !IsSpace(s[|s| - n - 1])
  {
    if |s| == 0 || !IsSpace(s[|s| - 1]) then 0
    else
      var init := s[..|s| - 1];
      var m := TrailingSpace(init);
      assert s[|s| - 1 - m..] == init[|init| - m..] + [s[|s| - 1]];
      AllSpaceAppend(init[|init| - m..], s[|s| - 1]);
      assert m < |init| ==> s[|s| - 1 - m - 1] == init[|init| - m - 1];
      1 + m
  }

  /** Whitespace followed by one more whitespace character is whitespace. */
  lemma AllSpaceAppend(a: string, c: char)
    requires AllSpace(a) && IsSpace(c)
    ensures AllSpace(a + [c])
  {
  }

  /** `r` sits in `s` at index `i` with only whitespace before and after it. */
  ghost predicate SlicedAt(s: string, r: string, i: nat)
  {
    i + |r| <= |s| && s[i..i + |r|] == r && AllSpace(s[..i]) && AllSpace(s[i + |r|..])
  }

  /** `r` is `s` with some leading and some trailing whitespace cut off. */
  ghost predicate StrippedFrom(s: string, r: string)
  {
    exists i: nat :: SlicedAt(s, r, i)
  }

  /** Python's `s.strip()`: `s` without its leading and trailing whitespace; it is empty
      exactly when `s` is all whitespace. */
  function Strip(s: string): (r: string)
    ensures |r| <= |s|
    ensures r == [] <==> AllSpace(s)
  {
    var t := s[LeadingSpace(s)..];
    t[..|t| - TrailingSpace(t)]
  }

  /** What stripping keeps: a slice of `s` that neither starts nor ends with whitespace, with
      only whitespace cut off before and after it. */
  lemma StripSpec(s: string)
    ensures var r := Strip(s);
      (r == [] || (!IsSpace(r[0]) && !IsSpace(r[|r| - 1]))) && StrippedFrom(s, r)
  {
    var i := LeadingSpace(s);
    var t := s[i..];
    var n := TrailingSpace(t);
    var r := t[..|t| - n];
    assert r == Strip(s);
    assert r != [] ==> r[0] == s[i] && r[|r| - 1] == t[|t| - n - 1];
    assert s[i..i + |r|] == r;
    assert s[i + |r|..] == t[|t| - n..];
    assert SlicedAt(s, r, i);
  }

  /** Whitespace in front of a text that starts with something else is exactly what
      `LeadingSpace` counts. */
  lemma {:induction false} LeadingSpaceOf(a: string, m: string)
    requires AllSpace(a) && m != [] && !IsSpace(m[0])
    ensures LeadingSpace(a + m) == |a|
    decreases |a|
  {
    if a != [] {
      assert (a + m)[1..] == a[1..] + m;
      LeadingSpaceOf(a[1..], m);
    }
  }

  /** The same at the back. */
  lemma {:induction false} TrailingSpaceOf(m: string, b: string)
    requires AllSpace(b) && m != [] && !IsSpace(m[|m| - 1])
    ensures TrailingSpace(m + b) == |b|
    decreases |b|
  {
    if b != [] {
      assert (m + b)[..|m + b| - 1] == m + b[..|b| - 1];
      TrailingSpaceOf(m, b[..|b| - 1]);
    }
  }

  /** A text that neither starts nor ends with whitespace, padded with whitespace, strips to
      itself. */
  lemma StripPadded(a: string, m: string, b: string)
    requires AllSpace(a) && AllSpace(b) && m != [] && !IsSpace(m[0]) && !IsSpace(m[|m| - 1])
    ensures Strip(a + m + b) == m
  {
    var s := a + m + b;
    assert s == a + (m + b);
    LeadingSpaceOf(a, m + b);
    assert s[|a|..] == m + b;
    TrailingSpaceOf(m, b);
  }
}
