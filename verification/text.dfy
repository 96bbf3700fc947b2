/** The pieces of Go's `strings`, `unicode/utf8` and `regexp` packages that the
    linter relies on, over Dafny strings. A Dafny `char` is a Unicode scalar
    value, so it plays the part of a Go rune. */
module Text {

  // ---------------------------------------------------------------------------
  // Whitespace and trimming
  // ---------------------------------------------------------------------------

  /** Go's `unicode.IsSpace`: the Latin-1 spaces and the Unicode space separators. */
  predicate IsSpace(c: char) {
    || c == ' ' || c == '\t' || c == '\n' || c == '\U{0B}' || c == '\U{0C}' || c == '\r'
    || c == '\U{85}' || c == '\U{A0}' || c == '\U{1680}'
    || ('\U{2000}' <= c <= '\U{200A}')
    || c == '\U{2028}' || c == '\U{2029}' || c == '\U{202F}' || c == '\U{205F}' || c == '\U{3000}'
  }

  function TrimLeft(s: string): (r: string)
    ensures |r| <= |s| && r == s[|s| - |r|..]
    ensures |r| > 0 ==> !IsSpace(r[0])
    ensures forall i :: 0 <= i < |s| - |r| ==> IsSpace(s[i])
  {
    if |s| > 0 && IsSpace(s[0]) then TrimLeft(s[1..]) else s
  }

  function TrimRight(s: string): (r: string)
    ensures |r| <= |s| && r == s[..|r|]
    ensures |r| > 0 ==> !IsSpace(r[|r| - 1])
    ensures forall i :: |r| <= i < |s| ==> IsSpace(s[i])
  {
    if |s| > 0 && IsSpace(s[|s| - 1]) then TrimRight(s[..|s| - 1]) else s
  }

  /** Go's `strings.TrimSpace`: the longest infix of `s` that neither starts nor
      ends with a space; everything cut off is space. */
  function TrimSpace(s: string): (r: string)
    ensures var k := |s| - |TrimLeft(s)|; k + |r| <= |s| && r == s[k..][..|r|]
    ensures |r| > 0 ==> !IsSpace(r[0]) && !IsSpace(r[|r| - 1])
    ensures var k := |s| - |TrimLeft(s)|;
      && (forall i :: 0 <= i < k ==> IsSpace(s[i]))
      && (forall i :: k + |r| <= i < |s| ==> IsSpace(s[i]))
  {
    TrimRight(TrimLeft(s))
  }

  /** Trimming leaves alone a string that does not start or end with a space. */
  lemma TrimSpaceUnchanged(s: string)
    requires |s| > 0 ==> !IsSpace(s[0]) && !IsSpace(s[|s| - 1])
    ensures TrimSpace(s) == s
  {
  }

  /** Trimming twice is trimming once. */
  lemma TrimSpaceIdempotent(s: string)
    ensures TrimSpace(TrimSpace(s)) == TrimSpace(s)
  {
    TrimSpaceUnchanged(TrimSpace(s));
  }

  /** Go's `strings.HasPrefix`. */
  predicate HasPrefix(s: string, prefix: string) {
    |prefix| <= |s| && s[..|prefix|] == prefix
  }

  // ---------------------------------------------------------------------------
  // Split and Join
  // ---------------------------------------------------------------------------

  /** The number of occurrences of `c` in `s`. */
  function Count(s: string, c: char): nat {
    if |s| == 0 then 0 else (if s[0] == c then 1 else 0) + Count(s[1..], c)
  }

  /** Go's `strings.Split(s, string(sep))`: the pieces of `s` between the
      occurrences of `sep`; the empty string gives one empty piece. */
  function Split(s: string, sep: char): (parts: seq<string>)
    ensures |parts| >= 1
  {
    if |s| == 0 then [""]
    else
      var rest := Split(s[1..], sep);
      if s[0] == sep then [""] + rest else [[s[0]] + rest[0]] + rest[1..]
  }

  /** Go's `strings.Join(parts, sep)`. */
  function Join(parts: seq<string>, sep: string): string {
    if |parts| == 0 then ""
    else if |parts| == 1 then parts[0]
    else parts[0] + sep + Join(parts[1..], sep)
  }

  /** Splitting on `sep` yields one piece more than there are separators. */
  lemma {:induction false} SplitCount(s: string, sep: char)
    ensures |Split(s, sep)| == Count(s, sep) + 1
  {
    if |s| > 0 {
      SplitCount(s[1..], sep);
    }
  }

  /** No piece of a split contains the separator. */
  lemma {:induction false} SplitPartsFree(s: string, sep: char)
    ensures forall i :: 0 <= i < |Split(s, sep)| ==> sep !in Split(s, sep)[i]
  {
    if |s| > 0 {
      SplitPartsFree(s[1..], sep);
      var rest := Split(s[1..], sep);
      if s[0] != sep {
        assert sep !in rest[0];
        assert sep !in [s[0]] + rest[0];
      }
    }
  }

  /** Joining the pieces with the separator gives back the string. */
  lemma {:induction false} SplitJoin(s: string, sep: char)
    ensures Join(Split(s, sep), [sep]) == s
  {
    if |s| > 0 {
      SplitJoin(s[1..], sep);
      var rest := Split(s[1..], sep);
      if s[0] != sep && |rest| > 1 {
        assert Join(rest, [sep]) == rest[0] + [sep] + Join(rest[1..], [sep]);
        assert s == [s[0]] + s[1..];
      }
    }
  }

  /** A string without the separator is a single piece. */
  lemma {:induction false} SplitFree(s: string, sep: char)
    requires sep !in s
    ensures Split(s, sep) == [s]
  {
    if |s| > 0 {
      assert sep !in s[1..];
      SplitFree(s[1..], sep);
      assert [s[0]] + s[1..] == s;
    }
  }

  /** The text before the first separator is the first piece. */
  lemma {:induction false} SplitAt(a: string, sep: char, b: string)
    requires sep !in a
    ensures Split(a + [sep] + b, sep) == [a] + Split(b, sep)
  {
    if |a| > 0 {
      assert (a + [sep] + b)[1..] == a[1..] + [sep] + b;
      assert sep !in a[1..];
      SplitAt(a[1..], sep, b);
      assert [a[0]] + a[1..] == a;
    }
  }

  /** Every piece is an infix of the string; the first is a prefix. */
  lemma {:induction false} SplitFirstIsPrefix(s: string, sep: char)
    ensures HasPrefix(s, Split(s, sep)[0])
    ensures |Split(s, sep)| > 1 ==> HasPrefix(s, Split(s, sep)[0] + [sep] + Split(s, sep)[1])
  {
    if |s| > 0 {
      SplitFirstIsPrefix(s[1..], sep);
      var rest := Split(s[1..], sep);
      if s[0] == sep {
        SplitFirstIsPrefix(s[1..], sep);
        assert s[..1 + |rest[0]|] == [sep] + s[1..][..|rest[0]|];
      } else {
        assert s[..1 + |rest[0]|] == [s[0]] + s[1..][..|rest[0]|];
        if |rest| > 1 {
          assert s[..1 + |rest[0]| + 1 + |rest[1]|]
              == [s[0]] + s[1..][..|rest[0]| + 1 + |rest[1]|];
        }
      }
    }
  }

  // ---------------------------------------------------------------------------
  // replaceNewlines: the regular expression `[\r\n\s]+` replaced by one blank
  // ---------------------------------------------------------------------------

  /** The characters of the class `[\r\n\s]` in Go's RE2 syntax, where `\s` is
      the ASCII class `[\t\n\f\r ]`. */
  predicate IsPatternSpace(c: char) {
    c == '\t' || c == '\n' || c == '\U{0C}' || c == '\r' || c == ' '
  }

  function DropPatternSpaces(s: string): (r: string)
    ensures |r| <= |s| && r == s[|s| - |r|..]
    ensures |r| > 0 ==> !IsPatternSpace(r[0])
    ensures forall i :: 0 <= i < |s| - |r| ==> IsPatternSpace(s[i])
  {
    if |s| > 0 && IsPatternSpace(s[0]) then DropPatternSpaces(s[1..]) else s
  }

  /** Every maximal run of blanks and line breaks becomes one space: the result
      holds no line break, tab or form feed, and no two spaces in a row; it
      starts and ends with a space exactly where the input starts and ends
      with a run. */
  function ReplaceNewlines(s: string): (r: string)
    ensures |r| == 0 <==> |s| == 0
    ensures |s| > 0 ==> r[0] == (if IsPatternSpace(s[0]) then ' ' else s[0])
    ensures forall i :: 0 <= i < |r| ==> r[i] == ' ' || !IsPatternSpace(r[i])
    ensures forall i :: 0 <= i < |r| - 1 ==> r[i] != ' ' || r[i + 1] != ' '
    decreases |s|
  {
    if |s| == 0 then ""
    else if IsPatternSpace(s[0]) then " " + ReplaceNewlines(DropPatternSpaces(s[1..]))
    else [s[0]] + ReplaceNewlines(s[1..])
  }

  /** The result ends in a space exactly when the input ends in a run. */
  lemma {:induction false} ReplaceNewlinesLast(s: string)
    requires |s| > 0
    ensures var r := ReplaceNewlines(s); r[|r| - 1] == ' ' <==> IsPatternSpace(s[|s| - 1])
    decreases |s|
  {
    if IsPatternSpace(s[0]) {
      var d := DropPatternSpaces(s[1..]);
      if |d| > 0 {
        ReplaceNewlinesLast(d);
        assert d[|d| - 1] == s[|s| - 1];
      } else if |s| > 1 {
        assert s[|s| - 1] == s[1..][|s| - 2];
      }
    } else if |s| > 1 {
      ReplaceNewlinesLast(s[1..]);
    }
  }

  /** `s` without any of the characters of `[\r\n\s]`. */
  function Visible(s: string): (r: string)
    ensures forall i :: 0 <= i < |r| ==> !IsPatternSpace(r[i])
  {
    if |s| == 0 then ""
    else (if IsPatternSpace(s[0]) then "" else [s[0]]) + Visible(s[1..])
  }

  lemma {:induction false} VisibleConcat(a: string, b: string)
    ensures Visible(a + b) == Visible(a) + Visible(b)
  {
    if |a| > 0 {
      assert (a + b)[1..] == a[1..] + b;
      VisibleConcat(a[1..], b);
    } else {
      assert a + b == b;
    }
  }

  /** A run of blanks and line breaks is invisible. */
  lemma {:induction false} VisibleRun(w: string)
    requires forall i :: 0 <= i < |w| ==> IsPatternSpace(w[i])
    ensures Visible(w) == ""
  {
    if |w| > 0 {
      VisibleRun(w[1..]);
    }
  }

  /** Replacing the runs keeps every other character, in order. */
  lemma {:induction false} ReplaceNewlinesVisible(s: string)
    ensures Visible(ReplaceNewlines(s)) == Visible(s)
    decreases |s|
  {
    if |s| > 0 {
      if IsPatternSpace(s[0]) {
        var d := DropPatternSpaces(s[1..]);
        VisibleDropped(s[1..]);
        ReplaceNewlinesVisible(d);
        VisibleConcat(" ", ReplaceNewlines(d));
      } else {
        ReplaceNewlinesVisible(s[1..]);
        VisibleConcat([s[0]], ReplaceNewlines(s[1..]));
      }
    }
  }

  /** Dropping leading blanks and line breaks hides nothing visible. */
  lemma VisibleDropped(t: string)
    ensures Visible(DropPatternSpaces(t)) == Visible(t)
  {
    var d := DropPatternSpaces(t);
    var w := t[..|t| - |d|];
    assert t == w + d;
    VisibleRun(w);
    VisibleConcat(w, d);
  }

  /** Dropping a run lands on what follows it. */
  lemma {:induction false} DropRun(w: string, y: string)
    requires forall i :: 0 <= i < |w| ==> IsPatternSpace(w[i])
    requires |y| > 0 ==> !IsPatternSpace(y[0])
    ensures DropPatternSpaces(w + y) == y
  {
    if |w| > 0 {
      assert (w + y)[1..] == w[1..] + y;
      DropRun(w[1..], y);
    } else {
      assert w + y == y;
    }
  }

  /** The first run: text `x` free of blanks and line breaks is kept, the run
      `w` after it becomes one space (none if it is empty), and the rest is
      replaced on its own. Applied from the left, this fixes the result. */
  lemma ReplaceNewlinesFirstRun(x: string, w: string, y: string)
    requires forall i :: 0 <= i < |x| ==> !IsPatternSpace(x[i])
    requires forall i :: 0 <= i < |w| ==> IsPatternSpace(w[i])
    requires |y| > 0 ==> !IsPatternSpace(y[0])
    ensures ReplaceNewlines(x + w + y) == x + (if |w| > 0 then " " else "") + ReplaceNewlines(y)
  {
    assert x + w + y == x + (w + y);
    ReplaceNewlinesFreePrefix(x, w + y);
    if |w| > 0 {
      ReplaceNewlinesRunStart(w, y);
    } else {
      assert w + y == y;
    }
  }

  /** Text free of blanks and line breaks passes through unchanged. */
  lemma {:induction false} ReplaceNewlinesFreePrefix(x: string, t: string)
    requires forall i :: 0 <= i < |x| ==> !IsPatternSpace(x[i])
    ensures ReplaceNewlines(x + t) == x + ReplaceNewlines(t)
  {
    if |x| > 0 {
      ReplaceNewlinesFreePrefix(x[1..], t);
      var s := x + t;
      assert s[0] == x[0] && s[1..] == x[1..] + t;
      ReplaceNewlinesKeeps(s);
      var u := ReplaceNewlines(t);
      assert [x[0]] + (x[1..] + u) == x + u;
    } else {
      assert x + t == t;
    }
  }

  /** A character outside the class is kept as it is. */
  lemma ReplaceNewlinesKeeps(s: string)
    requires |s| > 0 && !IsPatternSpace(s[0])
    ensures ReplaceNewlines(s) == [s[0]] + ReplaceNewlines(s[1..])
  {
  }

  /** A leading run becomes one space. */
  lemma ReplaceNewlinesRunStart(w: string, y: string)
    requires |w| > 0 && forall i :: 0 <= i < |w| ==> IsPatternSpace(w[i])
    requires |y| > 0 ==> !IsPatternSpace(y[0])
    ensures ReplaceNewlines(w + y) == " " + ReplaceNewlines(y)
  {
    var s := w + y;
    assert s[0] == w[0] && s[1..] == w[1..] + y;
    DropRun(w[1..], y);
    assert DropPatternSpaces(s[1..]) == y;
  }

  // ---------------------------------------------------------------------------
  // Runes and bytes
  // ---------------------------------------------------------------------------

  /** `truncateString`: strings of at most `n` runes are kept; longer ones are
      cut to their first `n` runes followed by "...". */
  function Truncate(s: string, n: nat): (r: string)
    ensures |s| <= n ==> r == s
    ensures |s| > n ==> |r| == n + 3 && r[..n] == s[..n] && r[n..] == "..."
  {
    if |s| <= n then s else s[..n] + "..."
  }

  /** The number of bytes of the UTF-8 encoding of one rune. */
  function RuneLen(c: char): nat {
    if c as int < 0x80 then 1
    else if c as int < 0x800 then 2
    else if c as int < 0x10000 then 3
    else 4
  }

  /** Go's `len` of a string: its length in UTF-8 bytes. */
  function Utf8Len(s: string): nat {
    if |s| == 0 then 0 else RuneLen(s[0]) + Utf8Len(s[1..])
  }

  /** For ASCII text the byte length is the rune count. */
  lemma {:induction false} Utf8LenAscii(s: string)
    requires forall i :: 0 <= i < |s| ==> s[i] as int < 0x80
    ensures Utf8Len(s) == |s|
  {
    if |s| > 0 {
      Utf8LenAscii(s[1..]);
    }
  }

  /** Every rune takes at least one byte. */
  lemma {:induction false} Utf8LenAtLeastRunes(s: string)
    ensures |s| <= Utf8Len(s) <= 4 * |s|
  {
    if |s| > 0 {
      Utf8LenAtLeastRunes(s[1..]);
    }
  }
}
