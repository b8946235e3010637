/** Optional values, used for nullable columns and pointers. */
module Options {
  datatype Option<+T> = None | Some(value: T) {
    function GetOr(default: T): T { if Some? then value else default }
  }
}

/** The string operations the engine relies on: trimming, joining with a separator
    and the byte-wise order of Go strings (which, for UTF-8, is code-point order). */
module Text {

  /** `unicode.IsSpace`. */
  predicate IsSpace(c: char)
  {
    || '\t' <= c <= '\r' || c == ' ' || c == '\U{0085}' || c == '\U{00A0}' || c == '\U{1680}'
    || '\U{2000}' <= c <= '\U{200A}' || c == '\U{2028}' || c == '\U{2029}' || c == '\U{202F}'
    || c == '\U{205F}' || c == '\U{3000}'
  }

  /** White space by its codes: the controls from tab to carriage return, the space, next line, no-break space, and the
      Unicode space separators. */
  lemma SpaceByCode(c: char)
    ensures var n := c as int;
            IsSpace(c) <==> 9 <= n <= 13 || n == 32 || n == 133 || n == 160 || n == 5760 || 8192 <= n <= 8202
                            || n == 8232 || n == 8233 || n == 8239 || n == 8287 || n == 12288
  {
  }

  /** `strings.TrimSpace`. */
  function Trim(s: string): (t: string)
    ensures |t| <= |s|
    ensures Trimmed(t)
  {
    if s == "" then ""
    else if IsSpace(s[0]) then Trim(s[1..])
    else if IsSpace(s[|s| - 1]) then Trim(s[..|s| - 1])
    else s
  }

  /** Neither end is white space. */
  predicate Trimmed(s: string)
  {
    s == "" || (!IsSpace(s[0]) && !IsSpace(s[|s| - 1]))
  }

  lemma Regrouped(a: string, b: string, c: string, d: string)
    ensures a + (b + c + d) == a + b + c + d && a + b + c + d == (a + b) + (c + d)
  {
  }

  /** Only white space goes, and only from the ends. */
  lemma {:induction false} TrimKeepsMiddle(s: string) returns (before: string, after: string)
    ensures Blank(before) && Blank(after) && s == before + Trim(s) + after
  {
    before, after := "", "";
    if s != "" && IsSpace(s[0]) {
      var x;
      x, after := TrimKeepsMiddle(s[1..]);
      before := [s[0]] + x;
      Regrouped([s[0]], x, Trim(s), after);
    } else if s != "" && IsSpace(s[|s| - 1]) {
      var x;
      before, x := TrimKeepsMiddle(s[..|s| - 1]);
      after := x + [s[|s| - 1]];
      Regrouped(before, Trim(s), x, [s[|s| - 1]]);
    }
  }

  /** The text without the white space at its ends. */
  ghost predicate Strips(s: string, t: string)
  {
    Trimmed(t) && exists before, after :: Surrounded(s, before, t, after)
  }

  predicate Surrounded(s: string, before: string, t: string, after: string)
  {
    Blank(before) && Blank(after) && s == before + t + after
  }

  lemma TrimStrips(s: string)
    ensures Strips(s, Trim(s))
  {
    var before, after := TrimKeepsMiddle(s);
    assert Surrounded(s, before, Trim(s), after);
  }

  predicate Blank(s: string)
  {
    forall i :: 0 <= i < |s| ==> IsSpace(s[i])
  }

  /** A text trims to nothing exactly when it is blank. */
  lemma {:induction false} TrimBlank(s: string)
    ensures Trim(s) == "" <==> Blank(s)
  {
    if s != "" {
      if IsSpace(s[0]) {
        TrimBlank(s[1..]);
        assert forall i :: 0 < i < |s| ==> s[i] == s[1..][i - 1];
      } else if IsSpace(s[|s| - 1]) {
        TrimBlank(s[..|s| - 1]);
        assert s[..|s| - 1][0] == s[0];
      }
    }
  }

  predicate Free(c: char, s: string)
  {
    c !in s
  }

  /** `strings.Join` with a one-character separator. */
  function Join(fields: seq<string>, sep: char): string
  {
    if |fields| == 0 then ""
    else if |fields| == 1 then fields[0]
    else fields[0] + [sep] + Join(fields[1..], sep)
  }

  /** The first separator splits a text in only one way. */
  lemma {:induction false} FirstSplitUnique(a: string, x: string, b: string, y: string, sep: char)
    requires Free(sep, a) && Free(sep, b)
    requires a + [sep] + x == b + [sep] + y
    ensures a == b && x == y
  {
    var s, t := a + [sep] + x, b + [sep] + y;
    assert s[|a|] == sep && t[|b|] == sep;
    assert forall i :: 0 <= i < |b| ==> t[i] == b[i];
    assert forall i :: 0 <= i < |a| ==> s[i] == a[i];
    assert a == s[..|a|] && b == t[..|b|];
    assert x == s[|a| + 1..] && y == t[|b| + 1..];
  }

  /** The last separator splits a text in only one way. */
  lemma {:induction false} LastSplitUnique(x: string, a: string, y: string, b: string, sep: char)
    requires Free(sep, a) && Free(sep, b)
    requires x + [sep] + a == y + [sep] + b
    ensures x == y && a == b
  {
    var s, t := x + [sep] + a, y + [sep] + b;
    assert s[|x|] == sep && t[|y|] == sep;
    assert forall i :: |x| < i < |s| ==> s[i] == a[i - |x| - 1];
    assert forall i :: |y| < i < |t| ==> t[i] == b[i - |y| - 1];
    assert x == s[..|x|] && y == t[..|y|];
    assert a == s[|x| + 1..] && b == t[|y| + 1..];
  }

  /** How often a character occurs. */
  function Occurrences(c: char, s: string): nat
  {
    if s == "" then 0 else (if s[0] == c then 1 else 0) + Occurrences(c, s[1..])
  }

  lemma {:induction false} OccurrencesAdd(c: char, s: string, t: string)
    ensures Occurrences(c, s + t) == Occurrences(c, s) + Occurrences(c, t)
  {
    if s == "" {
      assert s + t == t;
    } else {
      OccurrencesAdd(c, s[1..], t);
      assert (s + t)[1..] == s[1..] + t;
    }
  }

  lemma {:induction false} FreeMeansNone(c: char, s: string)
    ensures Free(c, s) <==> Occurrences(c, s) == 0
  {
    if s != "" {
      FreeMeansNone(c, s[1..]);
      assert s == [s[0]] + s[1..];
    }
  }

  /** A joined text has the separators between its fields and no more, exactly when no field has one. */
  lemma {:induction false} JoinOccurrences(fields: seq<string>, sep: char)
    requires fields != []
    ensures Occurrences(sep, Join(fields, sep)) >= |fields| - 1
    ensures Occurrences(sep, Join(fields, sep)) == |fields| - 1 <==> forall i :: 0 <= i < |fields| ==> Free(sep, fields[i])
  {
    FreeMeansNone(sep, fields[0]);
    if |fields| > 1 {
      var rest := Join(fields[1..], sep);
      JoinOccurrences(fields[1..], sep);
      OccurrencesAdd(sep, fields[0], [sep]);
      OccurrencesAdd(sep, fields[0] + [sep], rest);
      assert Occurrences(sep, [sep]) == 1;
      assert forall i :: 1 <= i < |fields| ==> fields[i] == fields[1..][i - 1];
    }
  }

  /** Separator-free fields are the only ones, as many, that join to their text. */
  lemma JoinIdentifies(f: seq<string>, g: seq<string>, sep: char)
    requires |f| == |g| && f != [] && forall i :: 0 <= i < |f| ==> Free(sep, f[i])
    requires Join(f, sep) == Join(g, sep)
    ensures f == g
  {
    JoinOccurrences(f, sep);
    JoinOccurrences(g, sep);
    JoinInjective(f, g, sep);
  }

  /** Where a text with a separator splits. */
  lemma SplitAtSeparator(s: string, sep: char) returns (u: string, v: string)
    requires !Free(sep, s)
    ensures s == u + [sep] + v && |u| < |s| && |v| < |s|
  {
    var i :| 0 <= i < |s| && s[i] == sep;
    u, v := s[..i], s[i + 1..];
  }

  /** Joining is injective on equally long lists of separator-free fields. */
  lemma {:induction false} JoinInjective(f: seq<string>, g: seq<string>, sep: char)
    requires |f| == |g|
    requires forall i :: 0 <= i < |f| ==> Free(sep, f[i]) && Free(sep, g[i])
    requires Join(f, sep) == Join(g, sep)
    ensures f == g
  {
    if |f| > 1 {
      FirstSplitUnique(f[0], Join(f[1..], sep), g[0], Join(g[1..], sep), sep);
      JoinInjective(f[1..], g[1..], sep);
      assert f == [f[0]] + f[1..] && g == [g[0]] + g[1..];
    } else if |f| == 1 {
      assert f[0] == g[0];
    }
  }

  /** Lower case, on ASCII. */
  function LowerChar(c: char): char
  {
    if 'A' <= c <= 'Z' then c - 'A' + 'a' else c
  }

  function Lower(s: string): string
  {
    seq(|s|, i requires 0 <= i < |s| => LowerChar(s[i]))
  }

  /** Lower case moves the letters from A to Z up by 32 and leaves everything else alone. */
  lemma LowerByCode(s: string, i: nat)
    requires i < |s|
    ensures |Lower(s)| == |s|
    ensures Lower(s)[i] as int == s[i] as int + if 65 <= s[i] as int <= 90 then 32 else 0
  {
  }

  /** The order of Go's `<` on strings. */
  predicate Less(a: string, b: string)
  {
    b != "" && (a == "" || a[0] < b[0] || (a[0] == b[0] && Less(a[1..], b[1..])))
  }

  /** The texts agree up to a position at which the first ends before the second, or has the smaller character. */
  predicate LessAt(a: string, b: string, i: nat)
  {
    i <= |a| && i < |b| && a[..i] == b[..i] && (i == |a| || a[i] < b[i])
  }

  /** The order by position: at the first difference the smaller character comes first, and a text comes before
      everything it is a proper prefix of. */
  lemma {:induction false} LessByPosition(a: string, b: string)
    ensures Less(a, b) <==> exists i: nat :: LessAt(a, b, i)
  {
    if Less(a, b) {
      if a != "" && a[0] == b[0] {
        LessByPosition(a[1..], b[1..]);
        var i: nat :| LessAt(a[1..], b[1..], i);
        assert a == [a[0]] + a[1..] && b == [b[0]] + b[1..];
        assert a[..i + 1] == [a[0]] + a[1..][..i] && b[..i + 1] == [b[0]] + b[1..][..i];
        assert LessAt(a, b, i + 1);
      } else {
        assert LessAt(a, b, 0);
      }
    }
    if i: nat :| LessAt(a, b, i) {
      if i > 0 {
        assert a[..i][0] == a[0] && b[..i][0] == b[0];
        assert a[1..][..i - 1] == a[..i][1..] && b[1..][..i - 1] == b[..i][1..];
        assert LessAt(a[1..], b[1..], i - 1);
        LessByPosition(a[1..], b[1..]);
      }
    }
  }

  lemma {:induction false} LessIrreflexive(a: string)
    ensures !Less(a, a)
  {
    if a != "" {
      LessIrreflexive(a[1..]);
    }
  }

  lemma {:induction false} LessTransitive(a: string, b: string, c: string)
    requires Less(a, b) && Less(b, c)
    ensures Less(a, c)
  {
    if a != "" && a[0] == b[0] && b[0] == c[0] {
      LessTransitive(a[1..], b[1..], c[1..]);
    }
  }

  lemma {:induction false} LessTotal(a: string, b: string)
    ensures Less(a, b) || a == b || Less(b, a)
  {
    if a != "" && b != "" && a[0] == b[0] {
      LessTotal(a[1..], b[1..]);
      assert a == [a[0]] + a[1..] && b == [b[0]] + b[1..];
    }
  }

  lemma LessAsymmetric(a: string, b: string)
    requires Less(a, b)
    ensures !Less(b, a) && a != b
  {
    LessIrreflexive(a);
    if Less(b, a) {
      LessTransitive(a, b, a);
    }
  }
}
