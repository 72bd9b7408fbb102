/** The JavaScript string operations the application relies on, with their
    JavaScript semantics: `split` by a regular expression, `trim`, `includes`,
    `join`, `toLowerCase` (ASCII letters only), `.length` in UTF-16 code units,
    number-to-string conversion and `padStart(2, '0')`. */
module Text {
  import opened Seqs

  /** The characters matched by `\s` and removed by `trim()`: the ECMAScript
      WhiteSpace and LineTerminator code points. */
  predicate IsJsSpace(c: char) {
    || c == ' ' || c == '\t' || c == '\n' || c == '\U{000B}' || c == '\U{000C}' || c == '\r'
    || c == '\U{00A0}' || c == '\U{1680}' || ('\U{2000}' <= c <= '\U{200A}')
    || c == '\U{2028}' || c == '\U{2029}' || c == '\U{202F}' || c == '\U{205F}'
    || c == '\U{3000}' || c == '\U{FEFF}'
  }

  /** True iff no character of `s` is whitespace. */
  predicate NoSpace(s: string) {
    forall k :: 0 <= k < |s| ==> !IsJsSpace(s[k])
  }

  /** True iff every character of `s` is whitespace (so `s.trim()` is empty). */
  predicate Blank(s: string) {
    forall k :: 0 <= k < |s| ==> IsJsSpace(s[k])
  }

  function LowerChar(c: char): (d: char)
    ensures 'A' <= c <= 'Z' ==> 'a' <= d <= 'z'
    ensures !('A' <= c <= 'Z') ==> d == c
  {
    if 'A' <= c <= 'Z' then (c as int + 32) as char else c
  }

  /** `toLowerCase()` restricted to ASCII letters; every other character is kept. */
  function Lower(s: string): (r: string)
    ensures |r| == |s|
    ensures forall k :: 0 <= k < |s| ==> r[k] == LowerChar(s[k])
  {
    seq(|s|, k requires 0 <= k < |s| => LowerChar(s[k]))
  }

  /** `.length`: JavaScript counts UTF-16 code units, so a character outside the
      Basic Multilingual Plane counts twice. */
  function JsLength(s: string): (n: nat)
    ensures |s| <= n <= 2 * |s|
    decreases |s|
  {
    if |s| == 0 then 0
    else (if s[0] as int > 0xFFFF then 2 else 1) + JsLength(s[1..])
  }

  /** The rest of `s` after its longest prefix of separator characters. */
  function DropWhile(s: string, sep: char -> bool): (r: string)
    ensures |r| <= |s|
    ensures r == s[|s| - |r|..]
    ensures |r| > 0 ==> !sep(r[0])
    ensures forall k :: 0 <= k < |s| - |r| ==> sep(s[k])
    decreases |s|
  {
    if |s| > 0 && sep(s[0]) then DropWhile(s[1..], sep) else s
  }

  /** `s.split(/[sep]+/)`: the pieces between maximal runs of separators. A
      leading or trailing run yields an empty first or last piece, and the
      empty string yields one empty piece. */
  function SplitRuns(s: string, sep: char -> bool): (r: seq<string>)
    ensures |r| >= 1
    ensures forall i, k :: 0 <= i < |r| && 0 <= k < |r[i]| ==> !sep(r[i][k])
    decreases |s|
  {
    if |s| == 0 then [""]
    else if sep(s[0]) then [""] + SplitRuns(DropWhile(s[1..], sep), sep)
    else
      var t := SplitRuns(s[1..], sep);
      [[s[0]] + t[0]] + t[1..]
  }

  /** Text without separators splits into itself alone. */
  lemma {:induction false} SplitRunsWithoutSeparator(s: string, sep: char -> bool)
    requires forall k :: 0 <= k < |s| ==> !sep(s[k])
    ensures SplitRuns(s, sep) == [s]
    decreases |s|
  {
    if |s| > 0 {
      SplitRunsWithoutSeparator(s[1..], sep);
      assert [s[0]] + s[1..] == s;
    }
  }

  /** What a split on separator runs can return: at least one piece, no
      separator inside a piece, and no empty piece except the first and the
      last. */
  predicate IsPieceList(ps: seq<string>, sep: char -> bool) {
    && |ps| >= 1
    && (forall i, k :: 0 <= i < |ps| && 0 <= k < |ps[i]| ==> !sep(ps[i][k]))
    && (forall i :: 0 < i < |ps| - 1 ==> |ps[i]| > 0)
  }

  /** The pieces written one after another. */
  function Concat(ps: seq<string>): string
    decreases |ps|
  {
    if |ps| == 0 then "" else ps[0] + Concat(ps[1..])
  }

  /** The test `c => !sep(c)`. */
  function Keep(sep: char -> bool): char -> bool {
    c => !sep(c)
  }

  /** A text that starts with a character other than a separator has a
      non-empty first piece. */
  lemma SplitRunsHead(s: string, sep: char -> bool)
    requires |s| > 0 && !sep(s[0])
    ensures |SplitRuns(s, sep)[0]| > 0
  {
  }

  /** Every split is a piece list: only a leading or trailing separator run
      yields an empty piece. */
  lemma {:induction false} SplitRunsPieces(s: string, sep: char -> bool)
    ensures IsPieceList(SplitRuns(s, sep), sep)
    decreases |s|
  {
    if |s| > 0 {
      if sep(s[0]) {
        var d := DropWhile(s[1..], sep);
        SplitRunsPieces(d, sep);
        if |d| > 0 {
          SplitRunsHead(d, sep);
        }
      } else {
        SplitRunsPieces(s[1..], sep);
      }
    }
  }

  /** Splitting loses only the separators: the pieces, written one after
      another, are the text without its separator characters. */
  lemma {:induction false} SplitRunsKeepsContent(s: string, sep: char -> bool)
    ensures Concat(SplitRuns(s, sep)) == Filter(s, Keep(sep))
    decreases |s|
  {
    if |s| > 0 {
      if sep(s[0]) {
        var d := DropWhile(s[1..], sep);
        SplitRunsKeepsContent(d, sep);
        DroppedSeparators(s, sep);
      } else {
        SplitRunsKeepsContent(s[1..], sep);
        KeptHead(s, sep);
      }
    }
  }

  /** A leading separator and the run after it contribute nothing. */
  lemma DroppedSeparators(s: string, sep: char -> bool)
    requires |s| > 0 && sep(s[0])
    ensures Concat(SplitRuns(s, sep)) == Concat(SplitRuns(DropWhile(s[1..], sep), sep))
    ensures Filter(s, Keep(sep)) == Filter(DropWhile(s[1..], sep), Keep(sep))
  {
    var t := s[1..];
    var d := DropWhile(t, sep);
    var dropped := t[..|t| - |d|];
    assert t == dropped + d;
    FilterAppend(dropped, d, Keep(sep));
    FilterNonePass(dropped, Keep(sep));
    assert Concat(SplitRuns(s, sep)) == "" + Concat(SplitRuns(d, sep));
  }

  /** A leading character other than a separator heads the first piece. */
  lemma KeptHead(s: string, sep: char -> bool)
    requires |s| > 0 && !sep(s[0])
    ensures Concat(SplitRuns(s, sep)) == [s[0]] + Concat(SplitRuns(s[1..], sep))
  {
    SplitRunsKept(s, sep);
    ConcatGlue(s[0], SplitRuns(s[1..], sep));
  }

  lemma SplitRunsKept(s: string, sep: char -> bool)
    requires |s| > 0 && !sep(s[0])
    ensures SplitRuns(s, sep) == [[s[0]] + SplitRuns(s[1..], sep)[0]] + SplitRuns(s[1..], sep)[1..]
  {
  }

  lemma ConcatGlue(c: char, t: seq<string>)
    requires |t| >= 1
    ensures Concat([[c] + t[0]] + t[1..]) == [c] + Concat(t)
  {
    var x := Concat(t[1..]);
    ConcatCons([c] + t[0], t[1..]);
    assert Concat(t) == t[0] + x;
    SeqAssociative([c], t[0], x);
  }

  lemma SeqAssociative(a: string, b: string, c: string)
    ensures (a + b) + c == a + (b + c)
  {
  }

  lemma ConcatCons(x: string, ps: seq<string>)
    ensures Concat([x] + ps) == x + Concat(ps)
  {
    assert ([x] + ps)[1..] == ps;
  }

  /** Text without separators followed by anything splits into that text
      glued to the first piece of the rest. */
  lemma {:induction false} SplitRunsPrefix(p: string, t: string, sep: char -> bool)
    requires forall k :: 0 <= k < |p| ==> !sep(p[k])
    ensures SplitRuns(p + t, sep) == [p + SplitRuns(t, sep)[0]] + SplitRuns(t, sep)[1..]
    decreases |p|
  {
    var u := SplitRuns(t, sep);
    if |p| == 0 {
      assert p + t == t;
      assert p + u[0] == u[0];
      assert u == [u[0]] + u[1..];
    } else {
      SplitRunsPrefix(p[1..], t, sep);
      assert (p + t)[0] == p[0];
      assert (p + t)[1..] == p[1..] + t;
      assert [p[0]] + (p[1..] + u[0]) == p + u[0];
    }
  }

  /** One separator before text that does not start with a separator opens a
      new piece. */
  lemma SplitRunsAfterSeparator(c: char, t: string, sep: char -> bool)
    requires sep(c)
    requires |t| == 0 || !sep(t[0])
    ensures SplitRuns([c] + t, sep) == [""] + SplitRuns(t, sep)
  {
    assert ([c] + t)[1..] == t;
  }

  /** Joined pieces start with the first piece's first character, or with
      the joining character when the first piece is empty. */
  lemma JoinStart(ps: seq<string>, c: char, sep: char -> bool)
    requires |ps| >= 1
    requires |ps| == 1 || |ps[0]| > 0
    requires forall k :: 0 <= k < |ps[0]| ==> !sep(ps[0][k])
    ensures |Join(ps, [c])| == 0 || !sep(Join(ps, [c])[0])
  {
    if |ps| > 1 {
      assert Join(ps, [c]) == ps[0] + [c] + Join(ps[1..], [c]);
      assert Join(ps, [c])[0] == ps[0][0];
    }
  }

  /** Splitting undoes joining with one separator character: the pieces of a
      piece list, joined with `c`, split back into themselves. */
  lemma {:induction false} SplitRunsJoin(ps: seq<string>, c: char, sep: char -> bool)
    requires sep(c) && IsPieceList(ps, sep)
    ensures SplitRuns(Join(ps, [c]), sep) == ps
    decreases |ps|
  {
    if |ps| == 1 {
      SplitRunsWithoutSeparator(ps[0], sep);
    } else {
      var qs := ps[1..];
      var rest := Join(qs, [c]);
      PieceListTail(ps, sep);
      SplitRunsJoin(qs, c, sep);
      JoinStart(qs, c, sep);
      SplitRunsAfterSeparator(c, rest, sep);
      SplitRunsPrefix(ps[0], [c] + rest, sep);
      SeqAssociative(ps[0], [c], rest);
      assert ps[0] + "" == ps[0];
      assert ps == [ps[0]] + qs;
    }
  }

  /** Dropping the first piece of a piece list leaves a piece list whose
      first piece is empty only when it is also the last. */
  lemma PieceListTail(ps: seq<string>, sep: char -> bool)
    requires IsPieceList(ps, sep) && |ps| >= 2
    ensures IsPieceList(ps[1..], sep)
    ensures |ps| == 2 || |ps[1]| > 0
    ensures forall k :: 0 <= k < |ps[0]| ==> !sep(ps[0][k])
    ensures forall k :: 0 <= k < |ps[1]| ==> !sep(ps[1][k])
  {
    var qs := ps[1..];
    assert forall i :: 0 <= i < |qs| ==> qs[i] == ps[i + 1];
  }


  /** `s.split(/[sep]/)`: one more piece than there are separator characters. */
  function SplitEach(s: string, sep: char -> bool): (r: seq<string>)
    ensures |r| == CountChars(s, sep) + 1
    ensures forall i, k :: 0 <= i < |r| && 0 <= k < |r[i]| ==> !sep(r[i][k])
    decreases |s|
  {
    if |s| == 0 then [""]
    else if sep(s[0]) then [""] + SplitEach(s[1..], sep)
    else
      var t := SplitEach(s[1..], sep);
      [[s[0]] + t[0]] + t[1..]
  }

  function CountChars(s: string, p: char -> bool): nat
    decreases |s|
  {
    if |s| == 0 then 0 else (if p(s[0]) then 1 else 0) + CountChars(s[1..], p)
  }

  predicate IsPrefix(p: string, s: string) {
    |p| <= |s| && s[..|p|] == p
  }

  predicate IsSuffix(p: string, s: string) {
    |p| <= |s| && s[|s| - |p|..] == p
  }

  /** `s.includes(t)`. */
  predicate Contains(s: string, t: string)
    decreases |s|
  {
    IsPrefix(t, s) || (|s| > 0 && Contains(s[1..], t))
  }

  /** A string containing `t` holds every character of `t`; so a whitespace-free
      string never contains a pattern with whitespace in it. */
  lemma {:induction false} ContainsKeepsChar(s: string, t: string, k: nat)
    requires Contains(s, t)
    requires k < |t|
    ensures exists j :: 0 <= j < |s| && s[j] == t[k]
    decreases |s|
  {
    if IsPrefix(t, s) {
      assert s[k] == t[k];
    } else {
      ContainsKeepsChar(s[1..], t, k);
      var j :| 0 <= j < |s[1..]| && s[1..][j] == t[k];
      assert s[j + 1] == t[k];
    }
  }

  lemma NoSpaceNeverContainsSpace(s: string, t: string, k: nat)
    requires NoSpace(s)
    requires k < |t| && IsJsSpace(t[k])
    ensures !Contains(s, t)
  {
    if Contains(s, t) {
      ContainsKeepsChar(s, t, k);
    }
  }

  /** A string contains every one of its infixes. */
  lemma {:induction false} ContainsInfix(a: string, t: string, b: string)
    ensures Contains(a + t + b, t)
    decreases |a|
  {
    if |a| == 0 {
      assert a + t + b == t + b;
      assert (t + b)[..|t|] == t;
    } else {
      ContainsInfix(a[1..], t, b);
      assert (a + t + b)[1..] == a[1..] + t + b;
    }
  }

  /** `trimStart()`. */
  function TrimStart(s: string): (r: string)
    ensures |r| <= |s|
    ensures r == s[|s| - |r|..]
    ensures |r| > 0 ==> !IsJsSpace(r[0])
    ensures Blank(s[..|s| - |r|])
    decreases |s|
  {
    if |s| > 0 && IsJsSpace(s[0]) then TrimStart(s[1..]) else s
  }

  /** `trimEnd()`. */
  function TrimEnd(s: string): (r: string)
    ensures |r| <= |s|
    ensures r == s[..|r|]
    ensures |r| > 0 ==> !IsJsSpace(r[|r| - 1])
    ensures Blank(s[|r|..])
    decreases |s|
  {
    if |s| > 0 && IsJsSpace(s[|s| - 1]) then TrimEnd(s[..|s| - 1]) else s
  }

  /** `trim()`: drops leading and trailing whitespace. */
  function Trim(s: string): (r: string)
  {
    TrimEnd(TrimStart(s))
  }

  /** `s.trim()` is empty exactly when `s` is all whitespace; otherwise it starts
      and ends with a non-space character and is a slice of `s`. */
  lemma TrimProperties(s: string)
    ensures Trim(s) == "" <==> Blank(s)
    ensures |Trim(s)| > 0 ==> !IsJsSpace(Trim(s)[0]) && !IsJsSpace(Trim(s)[|Trim(s)| - 1])
  {
    var a := TrimStart(s);
    var i := |s| - |a|;
    if Trim(s) == "" {
      assert Blank(a);
      assert |a| == 0;
      assert s[..i] == s;
    }
    if |Trim(s)| > 0 {
      assert Trim(s)[0] == a[0];
    }
  }

  /** Trimming removes exactly whitespace padded around a string that starts
      and ends with a non-space character. */
  lemma {:induction false} TrimPadded(pre: string, body: string, post: string)
    requires Blank(pre) && Blank(post)
    requires |body| > 0 && !IsJsSpace(body[0]) && !IsJsSpace(body[|body| - 1])
    ensures Trim(pre + body + post) == body
  {
    TrimStartPadded(pre, body + post);
    assert pre + body + post == pre + (body + post);
    TrimEndPadded(body, post);
  }

  lemma {:induction false} TrimStartPadded(pre: string, rest: string)
    requires Blank(pre)
    requires |rest| > 0 && !IsJsSpace(rest[0])
    ensures TrimStart(pre + rest) == rest
    decreases |pre|
  {
    if |pre| > 0 {
      assert (pre + rest)[1..] == pre[1..] + rest;
      TrimStartPadded(pre[1..], rest);
    } else {
      assert pre + rest == rest;
    }
  }

  lemma {:induction false} TrimEndPadded(body: string, post: string)
    requires Blank(post)
    requires |body| > 0 && !IsJsSpace(body[|body| - 1])
    ensures TrimEnd(body + post) == body
    decreases |post|
  {
    if |post| > 0 {
      assert (body + post)[..|body + post| - 1] == body + post[..|post| - 1];
      TrimEndPadded(body, post[..|post| - 1]);
    } else {
      assert body + post == body;
    }
  }

  /** `parts.join(sep)`. */
  function Join(parts: seq<string>, sep: string): string
    decreases |parts|
  {
    if |parts| == 0 then ""
    else if |parts| == 1 then parts[0]
    else parts[0] + sep + Join(parts[1..], sep)
  }

  /** Joining with a space yields only blank text when every part is blank. */
  lemma {:induction false} JoinBlank(parts: seq<string>)
    ensures Blank(Join(parts, " ")) <==> forall i :: 0 <= i < |parts| ==> Blank(parts[i])
    decreases |parts|
  {
    if |parts| > 1 {
      JoinBlank(parts[1..]);
      var a, j := parts[0], Join(parts[1..], " ");
      var all := a + " " + j;
      if Blank(all) {
        forall k | 0 <= k < |a| ensures IsJsSpace(a[k]) { assert a[k] == all[k]; }
        forall k | 0 <= k < |j| ensures IsJsSpace(j[k]) { assert j[k] == all[|a| + 1 + k]; }
        forall i | 0 <= i < |parts| ensures Blank(parts[i]) {
          if i > 0 { assert parts[i] == parts[1..][i - 1]; }
        }
      }
      if forall i :: 0 <= i < |parts| ==> Blank(parts[i]) {
        assert Blank(a);
        assert forall i :: 0 <= i < |parts[1..]| ==> Blank(parts[1..][i]);
        forall k | 0 <= k < |all| ensures IsJsSpace(all[k]) {
          if k < |a| { assert all[k] == a[k]; }
          else if k == |a| { assert all[k] == ' '; }
          else { assert all[k] == j[k - |a| - 1]; }
        }
      }
    }
  }

  function DigitChar(d: nat): (c: char)
    requires d < 10
    ensures IsDigit(c)
  {
    ('0' as int + d) as char
  }

  predicate IsDigit(c: char) {
    '0' <= c <= '9'
  }

  function DigitValue(c: char): nat
    requires IsDigit(c)
  {
    c as int - '0' as int
  }

  /** Decimal rendering of a natural number, as `String(n)` prints it. */
  function NatToString(n: nat): (r: string)
    ensures |r| >= 1
    ensures forall k :: 0 <= k < |r| ==> IsDigit(r[k])
    ensures n < 10 <==> |r| == 1
    ensures n < 100 <==> |r| <= 2
    ensures n >= 1 ==> r[0] != '0'
    decreases n
  {
    if n < 10 then [DigitChar(n)] else NatToString(n / 10) + [DigitChar(n % 10)]
  }

  /** Decimal rendering of an integer, with a leading '-' when negative. */
  function IntToString(i: int): string
  {
    if i < 0 then "-" + NatToString(-i) else NatToString(i)
  }

  /** The value of a string of decimal digits. */
  function ParseNat(s: string): nat
    requires forall k :: 0 <= k < |s| ==> IsDigit(s[k])
    decreases |s|
  {
    if |s| == 0 then 0 else 10 * ParseNat(s[..|s| - 1]) + DigitValue(s[|s| - 1])
  }

  /** Reading a rendered number back gives the number. */
  lemma {:induction false} ParseNatToString(n: nat)
    ensures ParseNat(NatToString(n)) == n
    decreases n
  {
    if n >= 10 {
      ParseNatToString(n / 10);
      var s := NatToString(n);
      assert s[..|s| - 1] == NatToString(n / 10);
    }
  }

  /** `String(n).padStart(2, '0')`. */
  function PadTwo(n: nat): (r: string)
    ensures |r| >= 2
    ensures forall k :: 0 <= k < |r| ==> IsDigit(r[k])
    ensures n < 100 <==> |r| == 2
    ensures |r| == 2 || r[0] != '0'
  {
    var d := NatToString(n);
    if |d| < 2 then "0" + d else d
  }

  /** Reading a zero-padded number back gives the number. */
  lemma ParsePadTwo(n: nat)
    ensures ParseNat(PadTwo(n)) == n
  {
    ParseNatToString(n);
    if n < 10 {
      var r := PadTwo(n);
      assert r[..1] == "0";
    } else if n < 100 {
      assert NatToString(n) == [DigitChar(n / 10), DigitChar(n % 10)];
    }
  }
  /** `s.substring(start, end)`: both ends are clamped to [0, |s|] and swapped
      when the start is past the end. */
  function Substring(s: string, start: int, end: int): (r: string)
    ensures |r| <= |s|
    ensures 0 <= start <= end <= |s| ==> r == s[start..end]
  {
    var a := if start < 0 then 0 else if start > |s| then |s| else start;
    var b := if end < 0 then 0 else if end > |s| then |s| else end;
    if a <= b then s[a..b] else s[b..a]
  }

  /** Text containing `t` still contains it with more text around it. */
  lemma {:induction false} ContainsWithin(a: string, s: string, b: string, t: string)
    requires Contains(s, t)
    ensures Contains(a + s + b, t)
    decreases |a| + |s|
  {
    if |a| > 0 {
      ContainsWithin(a[1..], s, b, t);
      assert (a + s + b)[1..] == a[1..] + s + b;
    } else if IsPrefix(t, s) {
      assert a + s + b == s + b;
      assert (s + b)[..|t|] == s[..|t|];
    } else {
      ContainsWithin(a, s[1..], b, t);
      assert a + s + b == s + b;
      assert (s + b)[1..] == s[1..] + b;
      assert a + s[1..] + b == s[1..] + b;
    }
  }
}
