/**
 * `clean_text` (Services/TextCleanUpServices/TextCleanService.py): remove
 * every match of `<[^>]+>`, turn each run of `\r`, `\n` and `\t` into one
 * space, then strip leading and trailing whitespace.
 */
module TextCleanService {
  import opened Values

  /** The character class `[\r\n\t]`. */
  predicate IsBreak(c: char) {
    c == '\r' || c == '\n' || c == '\t'
  }

  predicate NoBreaks(s: string) {
    forall i :: 0 <= i < |s| ==> !IsBreak(s[i])
  }

  /** Python's `str.isspace()`: the characters `strip()` removes. */
  predicate IsPySpace(c: char) {
    || ('\t' <= c <= '\r')
    || ('\U{1C}' <= c <= ' ')
    || c == '\U{85}' || c == '\U{A0}' || c == '\U{1680}'
    || ('\U{2000}' <= c <= '\U{200A}')
    || c == '\U{2028}' || c == '\U{2029}' || c == '\U{202F}' || c == '\U{205F}' || c == '\U{3000}'
  }

  /** No whitespace at either end. */
  predicate Trimmed(s: string) {
    s == [] || (!IsPySpace(s[0]) && !IsPySpace(s[|s| - 1]))
  }

  // ---------------------------------------------------------------------------
  // Pass 1: re.sub(r'<[^>]+>', '', text)

  /** `t` as a whole matches `<[^>]+>`: '<', at least one character other than '>', then '>'. */
  predicate IsTag(t: string) {
    |t| >= 3 && t[0] == '<' && t[|t| - 1] == '>' && forall k :: 1 <= k < |t| - 1 ==> t[k] != '>'
  }

  /** No substring of `s` matches `<[^>]+>` (the newline is among the characters `[^>]` matches). */
  predicate NoTag(s: string) {
    forall i, j :: 0 <= i <= j <= |s| ==> !IsTag(s[i..j])
  }

  /** The index of the first '>' in `s`, or `|s|`. */
  function FirstGt(s: string): (k: nat)
    ensures k <= |s|
    ensures k < |s| ==> s[k] == '>'
    ensures forall i :: 0 <= i < k ==> s[i] != '>'
    decreases |s|
  {
    if s == [] || s[0] == '>' then 0 else FirstGt(s[1..]) + 1
  }

  /** A match of the pattern starts at the front of `s`; it then ends at the first '>'. */
  predicate TagAtFront(s: string) {
    |s| > 0 && s[0] == '<' && 2 <= FirstGt(s) < |s|
  }

  /**
   * `re.sub(r'<[^>]+>', '', s)`: scanning left to right, a match found at
   * the current position is deleted and scanning resumes after it; otherwise
   * the character is kept and scanning moves on by one.
   */
  function StripTags(s: string): (r: string)
    ensures |r| <= |s|
    ensures forall c :: c in r ==> c in s
    decreases |s|
  {
    if s == [] then []
    else if TagAtFront(s) then StripTags(s[FirstGt(s) + 1..])
    else [s[0]] + StripTags(s[1..])
  }

  /** A front match is a substring matching the pattern. */
  lemma TagAtFrontIsTag(s: string)
    ensures TagAtFront(s) ==> IsTag(s[0..FirstGt(s) + 1])
  {
  }

  lemma NoTagSlice(s: string, a: nat, b: nat)
    requires NoTag(s) && a <= b <= |s|
    ensures NoTag(s[a..b])
  {
    var t := s[a..b];
    forall i, j | 0 <= i <= j <= |t| ensures !IsTag(t[i..j]) {
      assert forall k :: 0 <= k < j - i ==> t[i..j][k] == s[a + i..a + j][k];
      assert t[i..j] == s[a + i..a + j];
    }
  }

  /** Putting a character in front keeps the text tag-free unless it opens a new match. */
  lemma NoTagCons(c: char, t: string)
    requires NoTag(t)
    requires c == '<' ==> (t != [] && t[0] == '>') || '>' !in t
    ensures NoTag([c] + t)
  {
    forall i, j | 0 <= i <= j <= |t| + 1 ensures !IsTag(([c] + t)[i..j]) {
      if i >= 1 {
        assert ([c] + t)[i..j] == t[i - 1..j - 1];
      } else {
        NoTagConsFront(c, t, j);
      }
    }
  }

  /** A prefix of `[c] + t` is no match: it would have to start with '<' and end at a '>' of `t`. */
  lemma NoTagConsFront(c: char, t: string, j: nat)
    requires c == '<' ==> (t != [] && t[0] == '>') || '>' !in t
    requires j <= |t| + 1
    ensures !IsTag(([c] + t)[..j])
  {
    var s := [c] + t;
    if j < 3 {
      assert |s[..j]| < 3;
    } else if c != '<' {
      assert s[..j][0] == c;
    } else if t[0] == '>' {
      assert s[..j][1] == '>';
    } else {
      assert s[..j][j - 1] == t[j - 2];
      assert t[j - 2] in t;
    }
  }

  /** After the tag pass no substring matches `<[^>]+>`. */
  lemma {:induction false} StripTagsLeavesNoTag(s: string)
    ensures NoTag(StripTags(s))
    decreases |s|
  {
    if s == [] {
    } else if TagAtFront(s) {
      StripTagsLeavesNoTag(s[FirstGt(s) + 1..]);
    } else {
      StripTagsLeavesNoTag(s[1..]);
      var t := StripTags(s[1..]);
      if s[0] == '<' {
        if FirstGt(s) < |s| {
          assert s[1..][0] == '>';
          assert t[0] == '>';
        } else {
          assert '>' !in s[1..];
        }
      }
      NoTagCons(s[0], t);
    }
  }

  /** A tag-free text is left as it is by the tag pass. */
  lemma {:induction false} StripTagsKeepsTagFree(s: string)
    requires NoTag(s)
    ensures StripTags(s) == s
    decreases |s|
  {
    if s != [] {
      NoTagNotAtFront(s);
      assert StripTags(s) == [s[0]] + StripTags(s[1..]);
      NoTagSlice(s, 1, |s|);
      assert s[1..|s|] == s[1..];
      StripTagsKeepsTagFree(s[1..]);
    }
  }

  /** A tag-free text has no match at its front. */
  lemma NoTagNotAtFront(s: string)
    requires NoTag(s)
    ensures !TagAtFront(s)
  {
    TagAtFrontIsTag(s);
  }

  /**
   * A leading tag is removed whole, whatever it spans, line
   * breaks included: `<` + t + `>` vanishes when t is non-empty and has no '>'.
   */
  lemma StripTagsRemovesTag(t: string, rest: string)
    requires t != [] && '>' !in t
    ensures StripTags("<" + t + ">" + rest) == StripTags(rest)
  {
    var s := "<" + t + ">" + rest;
    assert s[1..] == t + (">" + rest);
    FirstGtAfter(t, ">" + rest);
    assert FirstGt(s) == |t| + 1;
    assert s[FirstGt(s) + 1..] == rest;
  }

  lemma {:induction false} FirstGtAfter(t: string, rest: string)
    requires '>' !in t && rest != [] && rest[0] == '>'
    ensures FirstGt(t + rest) == |t|
    decreases |t|
  {
    if t == [] {
      assert t + rest == rest;
    } else {
      assert (t + rest)[1..] == t[1..] + rest;
      FirstGtAfter(t[1..], rest);
    }
  }

  // ---------------------------------------------------------------------------
  // Pass 2: re.sub(r'[\r\n\t]+', ' ', text)

  /** `s` without its leading run of `\r`, `\n`, `\t`. */
  function DropBreaks(s: string): (r: string)
    ensures |r| <= |s| && r == s[|s| - |r|..]
    ensures r != [] ==> !IsBreak(r[0])
    ensures forall i :: 0 <= i < |s| - |r| ==> IsBreak(s[i])
    ensures s != [] && IsBreak(s[0]) ==> |r| < |s|
    decreases |s|
  {
    if s != [] && IsBreak(s[0]) then
      var t := DropBreaks(s[1..]);
      assert forall i :: 1 <= i < |s| - |t| ==> s[i] == s[1..][i - 1];
      assert s[1..][|s| - 1 - |t|..] == s[|s| - |t|..];
      t
    else s
  }

  /** `re.sub(r'[\r\n\t]+', ' ', s)`. */
  function CollapseBreaks(s: string): (r: string)
    ensures |r| <= |s|
    ensures NoBreaks(r)
    ensures forall c :: c in r ==> c in s || c == ' '
    decreases |s|
  {
    if s == [] then []
    else if IsBreak(s[0]) then " " + CollapseBreaks(DropBreaks(s))
    else [s[0]] + CollapseBreaks(s[1..])
  }

  lemma {:induction false} DropBreaksAppend(u: string, w: string)
    requires DropBreaks(u) != []
    ensures DropBreaks(u + w) == DropBreaks(u) + w
    decreases |u|
  {
    if IsBreak(u[0]) {
      assert (u + w)[1..] == u[1..] + w;
      DropBreaksAppend(u[1..], w);
    }
  }

  lemma {:induction false} DropBreaksRun(run: string, v: string)
    requires forall i :: 0 <= i < |run| ==> IsBreak(run[i])
    requires v == [] || !IsBreak(v[0])
    ensures DropBreaks(run + v) == v
    decreases |run|
  {
    if run == [] {
      assert run + v == v;
    } else {
      assert (run + v)[1..] == run[1..] + v;
      DropBreaksRun(run[1..], v);
    }
  }

  /** Collapsing can be done piecewise at a point that does not cut a run. */
  lemma {:induction false} CollapseAppend(u: string, w: string)
    requires u == [] || !IsBreak(u[|u| - 1])
    ensures CollapseBreaks(u + w) == CollapseBreaks(u) + CollapseBreaks(w)
    decreases |u|, 1
  {
    if u == [] {
      assert u + w == w;
    } else if IsBreak(u[0]) {
      CollapseAppendAtBreak(u, w);
    } else {
      var t := u[1..];
      assert (u + w)[0] == u[0] && (u + w)[1..] == t + w;
      assert CollapseBreaks(u + w) == [u[0]] + CollapseBreaks(t + w);
      assert t == [] || !IsBreak(t[|t| - 1]) by {
        assert t != [] ==> t[|t| - 1] == u[|u| - 1];
      }
      CollapseAppend(t, w);
      ConcatAssoc([u[0]], CollapseBreaks(t), CollapseBreaks(w));
    }
  }

  /** The case of `CollapseAppend` where `u` starts with a run of breaks. */
  lemma {:induction false} CollapseAppendAtBreak(u: string, w: string)
    requires u != [] && IsBreak(u[0]) && !IsBreak(u[|u| - 1])
    ensures CollapseBreaks(u + w) == CollapseBreaks(u) + CollapseBreaks(w)
    decreases |u|, 0
  {
    var d := DropBreaks(u);
    assert d != [] && d[|d| - 1] == u[|u| - 1];
    assert CollapseBreaks(u + w) == " " + CollapseBreaks(d + w) by {
      DropBreaksAppend(u, w);
      assert (u + w)[0] == u[0];
    }
    CollapseAppend(d, w);
    ConcatAssoc(" ", CollapseBreaks(d), CollapseBreaks(w));
  }

  /**
   * Each maximal run of `\r`/`\n`/`\t` becomes exactly one space: between a
   * part that does not end in a break and one that does not start with one,
   * any non-empty run collapses to " ".
   */
  lemma CollapseMaximalRun(u: string, run: string, v: string)
    requires u == [] || !IsBreak(u[|u| - 1])
    requires run != [] && forall i :: 0 <= i < |run| ==> IsBreak(run[i])
    requires v == [] || !IsBreak(v[0])
    ensures CollapseBreaks(u + run + v) == CollapseBreaks(u) + " " + CollapseBreaks(v)
  {
    ConcatAssoc(u, run, v);
    CollapseAppend(u, run + v);
    DropBreaksRun(run, v);
    assert CollapseBreaks(run + v) == " " + CollapseBreaks(v);
    ConcatAssoc(CollapseBreaks(u), " ", CollapseBreaks(v));
  }

  /** Text without breaks is left as it is by the second pass. */
  lemma {:induction false} CollapseKeepsBreakFree(s: string)
    requires NoBreaks(s)
    ensures CollapseBreaks(s) == s
    decreases |s|
  {
    if s != [] {
      CollapseKeepsBreakFree(s[1..]);
    }
  }

  /** The second pass cannot create a tag. */
  lemma {:induction false} CollapseKeepsNoTag(s: string)
    requires NoTag(s)
    ensures NoTag(CollapseBreaks(s))
    decreases |s|
  {
    if s == [] {
    } else if IsBreak(s[0]) {
      var d := DropBreaks(s);
      NoTagSlice(s, |s| - |d|, |s|);
      assert s[|s| - |d|..|s|] == d;
      CollapseKeepsNoTag(d);
      NoTagCons(' ', CollapseBreaks(d));
    } else {
      NoTagSlice(s, 1, |s|);
      assert s[1..|s|] == s[1..];
      CollapseKeepsNoTag(s[1..]);
      var t := CollapseBreaks(s[1..]);
      if s[0] == '<' {
        if |s| > 1 && s[1] == '>' {
          assert !IsBreak(s[1..][0]);
          assert t[0] == '>';
        } else {
          TagAtFrontIsTag(s);
          assert FirstGt(s) == |s|;
          assert '>' !in s[1..];
        }
      }
      NoTagCons(s[0], t);
    }
  }

  // ---------------------------------------------------------------------------
  // Pass 3: text.strip()

  /** The number of leading whitespace characters. */
  function LeadingSpaces(s: string): (n: nat)
    ensures n <= |s|
    ensures forall i :: 0 <= i < n ==> IsPySpace(s[i])
    ensures n < |s| ==> !IsPySpace(s[n])
    decreases |s|
  {
    if s != [] && IsPySpace(s[0]) then LeadingSpaces(s[1..]) + 1 else 0
  }

  /** The number of trailing whitespace characters. */
  function TrailingSpaces(s: string): (n: nat)
    ensures n <= |s|
    ensures forall i :: |s| - n <= i < |s| ==> IsPySpace(s[i])
    ensures n < |s| ==> !IsPySpace(s[|s| - n - 1])
    decreases |s|
  {
    if s != [] && IsPySpace(s[|s| - 1]) then TrailingSpaces(s[..|s| - 1]) + 1 else 0
  }

  /** `s.strip()`: the slice of `s` between its leading and its trailing whitespace. */
  function Strip(s: string): (r: string)
    ensures Trimmed(r)
    ensures LeadingSpaces(s) + |r| <= |s| && r == s[LeadingSpaces(s)..LeadingSpaces(s) + |r|]
    ensures forall i :: 0 <= i < LeadingSpaces(s) ==> IsPySpace(s[i])
    ensures forall i :: LeadingSpaces(s) + |r| <= i < |s| ==> IsPySpace(s[i])
  {
    var t := s[LeadingSpaces(s)..];
    t[..|t| - TrailingSpaces(t)]
  }

  /** A trimmed text is left as it is by `strip()`. */
  lemma StripKeepsTrimmed(s: string)
    requires Trimmed(s)
    ensures Strip(s) == s
  {
  }

  // ---------------------------------------------------------------------------
  // clean_text

  /**
   * `clean_text(text)`. What it guarantees: no `\r`, `\n` or `\t`; no
   * whitespace at either end; never longer than its input; and no substring
   * matching `<[^>]+>`.
   */
  function CleanText(s: string): (r: string)
    ensures NoBreaks(r)
    ensures Trimmed(r)
    ensures |r| <= |s|
    ensures NoTag(r)
  {
    var a := StripTags(s);
    StripTagsLeavesNoTag(s);
    CollapseKeepsNoTag(a);
    StripKeepsClean(CollapseBreaks(a));
    Strip(CollapseBreaks(a))
  }

  /** `strip()` returns a slice, so it adds no break and no tag. */
  lemma StripKeepsClean(b: string)
    requires NoTag(b) && NoBreaks(b)
    ensures NoTag(Strip(b)) && NoBreaks(Strip(b))
  {
    var r := Strip(b);
    var lead := LeadingSpaces(b);
    assert forall i :: 0 <= i < |r| ==> r[i] == b[lead + i];
    NoTagSlice(b, lead, lead + |r|);
  }

  /** `clean_text` returns its input exactly when the input is already clean. */
  lemma CleanTextFixedPoints(s: string)
    ensures CleanText(s) == s <==> NoTag(s) && NoBreaks(s) && Trimmed(s)
  {
    if NoTag(s) && NoBreaks(s) && Trimmed(s) {
      StripTagsKeepsTagFree(s);
      CollapseKeepsBreakFree(s);
      StripKeepsTrimmed(s);
    }
  }

  /** Input with no '<', no `\r\n\t` and no surrounding whitespace is returned unchanged. */
  lemma CleanTextKeepsPlainText(s: string)
    requires '<' !in s && NoBreaks(s) && Trimmed(s)
    ensures CleanText(s) == s
  {
    assert NoTag(s) by {
      forall i, j | 0 <= i <= j <= |s| ensures !IsTag(s[i..j]) {
        assert i < j ==> s[i..j][0] == s[i] && s[i] in s;
      }
    }
    CleanTextFixedPoints(s);
  }

  /** Cleaning twice is cleaning once. */
  lemma CleanTextIdempotent(s: string)
    ensures CleanText(CleanText(s)) == CleanText(s)
  {
    CleanTextFixedPoints(CleanText(s));
  }

  /**
   * Tags are removed before line breaks are rewritten, so a tag that spans a
   * line break disappears whole.
   */
  lemma CleanTextTagAcrossLines()
    ensures CleanText("x<a\nb>y") == "xy"
  {
    StripTagsAcrossLines();
    var t := "xy";
    assert NoBreaks(t) && Trimmed(t);
    CollapseKeepsBreakFree(t);
    StripKeepsTrimmed(t);
  }

  lemma StripTagsAcrossLines()
    ensures StripTags("x<a\nb>y") == "xy"
  {
    var tail := "<" + "a\nb" + ">" + "y";
    var s := "x" + tail;
    assert s == "x<a\nb>y";
    assert s[1..] == tail;
    assert StripTags(s) == "x" + StripTags(tail);
    StripTagsRemovesTag("a\nb", "y");
    assert StripTags("y") == "y" + StripTags([]);
  }
}
