/**
  The template substitution engine, `replaceParams` (app.js:418-429).

  The output lines are joined with one space, and the joined line is scanned
  left to right for the regular expression /{(\d+)}/ (global). Each match is
  replaced by `args[digits]` when that array entry is defined, and kept as
  literal text otherwise. The scan is modelled in two steps: `Tokens` cuts the
  line into single characters and placeholders exactly as the regular
  expression does, and `Render` replaces each placeholder independently, so
  replacement text is never scanned again.
*/
module Template {
  import opened Optional

  predicate IsDigit(c: char) {
    '0' <= c <= '9'
  }

  predicate IsDigits(s: string) {
    forall k :: 0 <= k < |s| ==> IsDigit(s[k])
  }

  // ---------------------------------------------------------------------
  // Decimal numerals and JavaScript array indices
  // ---------------------------------------------------------------------

  function DigitChar(d: nat): char
    requires d < 10
  {
    ('0' as int + d) as char
  }

  function DigitValue(c: char): nat
    requires IsDigit(c)
  {
    c as int - '0' as int
  }

  /** A numeral in canonical form: digits only, and no leading zero unless it is "0". */
  predicate Canonical(s: string) {
    |s| > 0 && IsDigits(s) && (s[0] == '0' ==> |s| == 1)
  }

  /** How JavaScript prints a non-negative integer (Number::toString below 10^21). */
  function Decimal(n: nat): (s: string)
    ensures Canonical(s)
    ensures s[0] == '0' <==> n == 0
  {
    if n < 10 then [DigitChar(n)] else Decimal(n / 10) + [DigitChar(n % 10)]
  }

  /** The number a string of decimal digits denotes. */
  function Value(s: string): nat
    requires IsDigits(s)
  {
    if s == [] then 0 else 10 * Value(s[..|s| - 1]) + DigitValue(s[|s| - 1])
  }

  lemma {:induction false} ValueOfDecimal(n: nat)
    ensures Value(Decimal(n)) == n
  {
    if n >= 10 {
      var s := Decimal(n);
      assert s[..|s| - 1] == Decimal(n / 10);
      ValueOfDecimal(n / 10);
    }
  }

  lemma {:induction false} ValuePositive(s: string)
    requires |s| > 0 && IsDigits(s) && s[0] != '0'
    ensures Value(s) >= 1
    decreases |s|
  {
    if |s| > 1 {
      var init := s[..|s| - 1];
      assert init[0] == s[0];
      ValuePositive(init);
    }
  }

  lemma {:induction false} DecimalOfValue(s: string)
    requires Canonical(s)
    ensures Decimal(Value(s)) == s
    decreases |s|
  {
    var init := s[..|s| - 1];
    var d := DigitValue(s[|s| - 1]);
    if |s| == 1 {
      assert Value(s) == d;
      assert s == [DigitChar(d)];
    } else {
      assert init[0] == s[0];
      ValuePositive(init);
      DecimalOfValue(init);
      var v := Value(s);
      assert v == 10 * Value(init) + d;
      assert v / 10 == Value(init) && v % 10 == d;
      assert s == init + [DigitChar(d)];
    }
  }

  /** Decimal is a bijection between the naturals and the canonical numerals. */
  lemma CanonicalIffDecimal(s: string)
    ensures Canonical(s) <==> exists n: nat :: s == Decimal(n)
    ensures forall n: nat :: s == Decimal(n) ==> Value(s) == n
  {
    if Canonical(s) {
      DecimalOfValue(s);
    }
    forall n: nat | s == Decimal(n)
      ensures Value(s) == n
    {
      ValueOfDecimal(n);
    }
  }

  /**
    `args[key]` for a JavaScript array `args` and a property name `key`: it is
    defined exactly when `key` is the printed form of an index below the length
    (so `args["01"]` is undefined).
  */
  function Lookup(args: seq<string>, key: string): (v: Option<string>)
    ensures v.Some? <==> exists n: nat :: n < |args| && key == Decimal(n)
    ensures forall n: nat :: n < |args| && key == Decimal(n) ==> v == Some(args[n])
  {
    CanonicalIffDecimal(key);
    if Canonical(key) && Value(key) < |args| then Some(args[Value(key)]) else None
  }

  // ---------------------------------------------------------------------
  // Array.prototype.join(' ')
  // ---------------------------------------------------------------------

  function Join(lines: seq<string>): string {
    if |lines| == 0 then ""
    else if |lines| == 1 then lines[0]
    else lines[0] + " " + Join(lines[1..])
  }

  predicate NoBrace(s: string) {
    forall k :: 0 <= k < |s| ==> s[k] != '{'
  }

  /**
    `join` builds the string from the left: appending a line to a non-empty
    list appends one space and that line.
  */
  lemma {:induction false} JoinAppend(lines: seq<string>, line: string)
    requires lines != []
    ensures Join(lines + [line]) == Join(lines) + " " + line
    decreases |lines|
  {
    if |lines| > 1 {
      assert (lines + [line])[1..] == lines[1..] + [line];
      JoinAppend(lines[1..], line);
    } else {
      assert lines + [line] == [lines[0], line];
    }
  }

  /** Joining lines adds only spaces: no line holds a '{', then neither does the joined line. */
  lemma {:induction false} JoinNoBrace(lines: seq<string>)
    requires forall i :: 0 <= i < |lines| ==> NoBrace(lines[i])
    ensures NoBrace(Join(lines))
  {
    if |lines| > 1 {
      JoinNoBrace(lines[1..]);
      var rest := Join(lines[1..]);
      assert NoBrace(lines[0]) && NoBrace(" ") && NoBrace(rest);
      assert Join(lines) == lines[0] + " " + rest;
      forall k | 0 <= k < |Join(lines)|
        ensures Join(lines)[k] != '{'
      {
        if k < |lines[0]| {
        } else if k == |lines[0]| {
        } else {
          assert Join(lines)[k] == rest[k - |lines[0]| - 1];
        }
      }
    }
  }

  // ---------------------------------------------------------------------
  // The scan for /{(\d+)}/g
  // ---------------------------------------------------------------------

  /** Length of the run of digits that `s` starts with (the greedy \d+). */
  function DigitRun(s: string): (n: nat)
    ensures n <= |s|
    ensures forall k :: 0 <= k < n ==> IsDigit(s[k])
    ensures n == |s| || !IsDigit(s[n])
  {
    if s != [] && IsDigit(s[0]) then 1 + DigitRun(s[1..]) else 0
  }

  /** The greedy run after '{' ends at the first '}' that only digits precede. */
  lemma DigitRunStops(s: string, k: nat)
    requires 2 <= k < |s| && IsDigits(s[1..k]) && s[k] == '}'
    ensures DigitRun(s[1..]) == k - 1
  {
    var t := s[1..];
    var d := DigitRun(t);
    assert t[k - 1] == s[k];
    assert forall i :: 0 <= i < k - 1 ==> t[i] == s[1..k][i];
  }

  /**
    Length of the match of /{(\d+)}/ at the start of `s`, or 0 when there is
    none. A '}' at index k after '{' and digits only is the match's end: the
    match is found, and it is the only one since '}' is not a digit.
  */
  function MatchLength(s: string): (n: nat)
    ensures n == 0 || (3 <= n <= |s| && s[0] == '{' && s[n - 1] == '}' && IsDigits(s[1..n - 1]))
    ensures forall k :: 2 <= k < |s| && s[0] == '{' && IsDigits(s[1..k]) && s[k] == '}' ==> n == k + 1
  {
    if s != [] && s[0] == '{' then
      var d := DigitRun(s[1..]);
      assert forall k :: 2 <= k < |s| && IsDigits(s[1..k]) && s[k] == '}' ==> d == k - 1 by {
        forall k | 2 <= k < |s| && IsDigits(s[1..k]) && s[k] == '}'
          ensures d == k - 1
        {
          DigitRunStops(s, k);
        }
      }
      if d > 0 && d + 1 < |s| && s[d + 1] == '}' then d + 2 else 0
    else 0
  }

  /** A piece of the scanned line: a character copied as is, or a `{digits}` match. */
  datatype Piece = Char(c: char) | Placeholder(digits: string)

  /** The scan: at each position a match is tried; on success the scan resumes after it. */
  function Tokens(s: string): seq<Piece>
    decreases |s|
  {
    if s == [] then []
    else
      var n := MatchLength(s);
      if n > 0 then [Placeholder(s[1..n - 1])] + Tokens(s[n..])
      else [Char(s[0])] + Tokens(s[1..])
  }

  /** The text a piece was scanned from. */
  function RawPiece(t: Piece): string {
    match t
    case Char(c) => [c]
    case Placeholder(d) => "{" + d + "}"
  }

  function Raw(ts: seq<Piece>): string {
    if ts == [] then "" else RawPiece(ts[0]) + Raw(ts[1..])
  }

  /** What the replacement callback returns for one piece. */
  function RenderPiece(t: Piece, args: seq<string>): string {
    match t
    case Char(c) => [c]
    case Placeholder(d) =>
      match Lookup(args, d)
      case Some(v) => v
      case None => "{" + d + "}"
  }

  function Render(ts: seq<Piece>, args: seq<string>): string {
    if ts == [] then "" else RenderPiece(ts[0], args) + Render(ts[1..], args)
  }

  /** `text.replace(/{(\d+)}/g, ...)` with the callback of app.js:420-425. */
  function Expand(s: string, args: seq<string>): string {
    Render(Tokens(s), args)
  }

  /** `replaceParams(original, args)`; None stands for a falsy (undefined) argument. */
  function ReplaceParams(original: Option<seq<string>>, args: Option<seq<string>>): (r: Option<seq<string>>)
    ensures original.None? || args.None? ==> r == original
    ensures original.Some? && args.Some? ==> r.Some? && |r.value| == 1
  {
    if original.Some? && args.Some? then Some([Expand(Join(original.value), args.value)])
    else original
  }

  // ---------------------------------------------------------------------
  // Properties of the scan
  // ---------------------------------------------------------------------

  lemma RawCons(t: Piece, ts: seq<Piece>)
    ensures Raw([t] + ts) == RawPiece(t) + Raw(ts)
  {
    assert ([t] + ts)[1..] == ts;
  }

  lemma RenderCons(t: Piece, ts: seq<Piece>, args: seq<string>)
    ensures Render([t] + ts, args) == RenderPiece(t, args) + Render(ts, args)
  {
    assert ([t] + ts)[1..] == ts;
  }

  lemma SplitAround(s: string, n: nat)
    requires 3 <= n <= |s| && s[0] == '{' && s[n - 1] == '}'
    ensures s == "{" + s[1..n - 1] + "}" + s[n..]
  {
    var r := "{" + s[1..n - 1] + "}" + s[n..];
    assert |r| == |s|;
    forall k | 0 <= k < |s| ensures r[k] == s[k] {
      if k == 0 {
      } else if k < n - 1 {
        assert r[k] == s[1..n - 1][k - 1];
      } else if k == n - 1 {
      } else {
        assert r[k] == s[n..][k - n];
      }
    }
  }

  /** One step of the scan: the first piece, the length of text it was scanned from, and that text. */
  lemma TokensStep(s: string) returns (p: Piece, k: nat)
    requires s != []
    ensures 0 < k <= |s|
    ensures MatchLength(s) > 0 ==> p == Placeholder(s[1..MatchLength(s) - 1]) && k == MatchLength(s)
    ensures MatchLength(s) == 0 ==> p == Char(s[0]) && k == 1
    ensures Tokens(s) == [p] + Tokens(s[k..])
    ensures s == RawPiece(p) + s[k..]
  {
    var n := MatchLength(s);
    if n > 0 {
      p, k := Placeholder(s[1..n - 1]), n;
      SplitAround(s, n);
    } else {
      p, k := Char(s[0]), 1;
      assert s == [s[0]] + s[1..];
    }
  }

  /** Every placeholder the scan finds holds a non-empty run of digits. */
  lemma {:induction false} TokensPlaceholdersAreDigits(s: string)
    ensures forall i :: 0 <= i < |Tokens(s)| && Tokens(s)[i].Placeholder? ==>
              |Tokens(s)[i].digits| > 0 && IsDigits(Tokens(s)[i].digits)
    decreases |s|
  {
    if s != [] {
      var p, k := TokensStep(s);
      var rest := s[k..];
      TokensPlaceholdersAreDigits(rest);
      forall i | 0 <= i < |Tokens(s)| && Tokens(s)[i].Placeholder?
        ensures |Tokens(s)[i].digits| > 0 && IsDigits(Tokens(s)[i].digits)
      {
        if i > 0 {
          assert Tokens(s)[i] == Tokens(rest)[i - 1];
        }
      }
    }
  }

  /** The scan loses and adds nothing: the pieces spell the line they came from. */
  lemma {:induction false} TokensRoundTrip(s: string)
    ensures Raw(Tokens(s)) == s
    decreases |s|
  {
    if s != [] {
      var p, k := TokensStep(s);
      var rest := s[k..];
      TokensRoundTrip(rest);
      RawCons(p, Tokens(rest));
    }
  }

  /** Rendering is piecewise: what one piece becomes does not depend on its neighbours. */
  lemma {:induction false} RenderConcat(a: seq<Piece>, b: seq<Piece>, args: seq<string>)
    ensures Render(a + b, args) == Render(a, args) + Render(b, args)
    decreases |a|
  {
    if a == [] {
      assert a + b == b;
    } else {
      var p, rest := a[0], a[1..];
      assert a == [p] + rest;
      assert a + b == [p] + (rest + b);
      RenderCons(p, rest + b, args);
      RenderCons(p, rest, args);
      RenderConcat(rest, b, args);
    }
  }

  /** A character that can neither continue nor close a digit run. */
  predicate Breaks(t: string) {
    t == [] || (!IsDigit(t[0]) && t[0] != '}')
  }

  lemma {:induction false} DigitRunConcat(x: string, t: string)
    requires t == [] || !IsDigit(t[0])
    ensures DigitRun(x + t) == DigitRun(x)
    decreases |x|
  {
    if x == [] {
      assert x + t == t;
    } else {
      assert (x + t)[0] == x[0];
      assert (x + t)[1..] == x[1..] + t;
      DigitRunConcat(x[1..], t);
    }
  }

  lemma MatchLengthConcat(a: string, t: string)
    requires a != [] && Breaks(t)
    ensures MatchLength(a + t) == MatchLength(a)
  {
    var s := a + t;
    assert s[0] == a[0];
    if a[0] == '{' {
      assert s[1..] == a[1..] + t;
      DigitRunConcat(a[1..], t);
      var d := DigitRun(a[1..]);
      if d + 1 < |a| {
        assert s[d + 1] == a[d + 1];
      } else if d > 0 && d + 1 < |s| {
        assert s[d + 1] == t[0];
      }
    }
  }

  /**
    A match never spans a point where the text continues with a character that
    is neither a digit nor '}': the scan of `a + t` is the scan of `a` followed
    by the scan of `t`.
  */
  lemma {:induction false} TokensConcat(a: string, t: string)
    requires Breaks(t)
    ensures Tokens(a + t) == Tokens(a) + Tokens(t)
    decreases |a|
  {
    if a == [] {
      assert a + t == t;
    } else {
      var p, k := TokensUnfold(a, t);
      var rest := a[k..];
      TokensConcat(rest, t);
      ConsAssoc(p, Tokens(rest), Tokens(t));
    }
  }

  lemma ConsAssoc(p: Piece, x: seq<Piece>, y: seq<Piece>)
    ensures [p] + (x + y) == ([p] + x) + y
  {
  }

  /** One step of the scan of `a + t` is the step of the scan of `a`. */
  lemma TokensUnfold(a: string, t: string) returns (p: Piece, k: nat)
    requires a != [] && Breaks(t)
    ensures 0 < k <= |a|
    ensures Tokens(a) == [p] + Tokens(a[k..])
    ensures Tokens(a + t) == [p] + Tokens(a[k..] + t)
  {
    p, k := TokensStep(a);
    StepOfConcat(a, t, p, k);
  }

  lemma StepOfConcat(a: string, t: string, p: Piece, k: nat)
    requires a != [] && Breaks(t) && 0 < k <= |a|
    requires MatchLength(a) > 0 ==> p == Placeholder(a[1..MatchLength(a) - 1]) && k == MatchLength(a)
    requires MatchLength(a) == 0 ==> p == Char(a[0]) && k == 1
    ensures Tokens(a + t) == [p] + Tokens(a[k..] + t)
  {
    MatchLengthConcat(a, t);
    SliceOfConcat(a, t, k, |a|);
    if MatchLength(a) > 0 {
      SliceOfConcat(a, t, 1, k - 1);
      MatchOfConcat(a + t, a[1..k - 1], a[k..] + t);
    } else {
      SliceOfConcat(a, t, 0, 1);
      CharOfConcat(a + t, a[0], a[1..] + t);
    }
  }

  lemma SliceOfConcat(a: string, t: string, i: nat, j: nat)
    requires i <= j <= |a|
    ensures (a + t)[i..j] == a[i..j]
    ensures j == |a| ==> (a + t)[i..] == a[i..] + t
  {
  }

  lemma MatchOfConcat(s: string, d: string, rest: string)
    requires s != [] && MatchLength(s) > 0
    requires s[1..MatchLength(s) - 1] == d && s[MatchLength(s)..] == rest
    ensures Tokens(s) == [Placeholder(d)] + Tokens(rest)
  {
  }

  lemma CharOfConcat(s: string, c: char, rest: string)
    requires s != [] && MatchLength(s) == 0
    requires s[0] == c && s[1..] == rest
    ensures Tokens(s) == [Char(c)] + Tokens(rest)
  {
  }

  /** Substitution distributes over a split at such a point. */
  lemma ExpandConcat(a: string, t: string, args: seq<string>)
    requires Breaks(t)
    ensures Expand(a + t, args) == Expand(a, args) + Expand(t, args)
  {
    TokensConcat(a, t);
    RenderConcat(Tokens(a), Tokens(t), args);
  }

  lemma {:induction false} DigitRunOfDigits(d: string, rest: string)
    requires IsDigits(d) && (rest == [] || !IsDigit(rest[0]))
    ensures DigitRun(d + rest) == |d|
    decreases |d|
  {
    if d == [] {
      assert d + rest == rest;
    } else {
      assert (d + rest)[1..] == d[1..] + rest;
      DigitRunOfDigits(d[1..], rest);
    }
  }

  /**
    A placeholder `{n}` becomes `args[n]` when `n` is below the length of
    `args` and stays literal otherwise; the text after it is substituted on
    its own.
  */
  lemma ExpandPlaceholder(n: nat, rest: string, args: seq<string>)
    ensures Expand("{" + Decimal(n) + "}" + rest, args)
         == (if n < |args| then args[n] else "{" + Decimal(n) + "}") + Expand(rest, args)
  {
    var d := Decimal(n);
    var s := "{" + d + "}" + rest;
    assert s[1..] == d + ("}" + rest);
    DigitRunOfDigits(d, "}" + rest);
    assert MatchLength(s) == |d| + 2;
    assert s[1..|d| + 1] == d;
    assert s[|d| + 2..] == rest;
    assert Tokens(s) == [Placeholder(d)] + Tokens(rest);
    RenderCons(Placeholder(d), Tokens(rest), args);
    ValueOfDecimal(n);
  }

  /** No placeholder among the pieces has a defined entry in `args`. */
  predicate NoneBound(ts: seq<Piece>, args: seq<string>) {
    forall i :: 0 <= i < |ts| && ts[i].Placeholder? ==> Lookup(args, ts[i].digits).None?
  }

  lemma {:induction false} RenderUnbound(ts: seq<Piece>, args: seq<string>)
    requires NoneBound(ts, args)
    ensures Render(ts, args) == Raw(ts)
    decreases |ts|
  {
    if ts != [] {
      assert NoneBound(ts[1..], args) by {
        forall i | 0 <= i < |ts[1..]| && ts[1..][i].Placeholder?
          ensures Lookup(args, ts[1..][i].digits).None?
        {
          assert ts[1..][i] == ts[i + 1];
        }
      }
      RenderUnbound(ts[1..], args);
    }
  }

  /** Placeholders without a defined entry are kept literally. */
  lemma ExpandUnbound(s: string, args: seq<string>)
    requires NoneBound(Tokens(s), args)
    ensures Expand(s, args) == s
  {
    RenderUnbound(Tokens(s), args);
    TokensRoundTrip(s);
  }

  /** With an empty argument list the line comes back as it was. */
  lemma ExpandNoArgs(s: string)
    ensures Expand(s, []) == s
  {
    ExpandUnbound(s, []);
  }

  lemma {:induction false} NoBraceNoPlaceholder(s: string)
    requires NoBrace(s)
    ensures forall i :: 0 <= i < |Tokens(s)| ==> Tokens(s)[i].Char?
    decreases |s|
  {
    if s != [] {
      assert NoBrace(s[1..]) by {
        forall k | 0 <= k < |s[1..]| ensures s[1..][k] != '{' {
          assert s[1..][k] == s[k + 1];
        }
      }
      NoBraceNoPlaceholder(s[1..]);
    }
  }

  /** A line with no '{' has no match: it comes back as it was, whatever `args` holds. */
  lemma ExpandNoBrace(s: string, args: seq<string>)
    requires NoBrace(s)
    ensures Expand(s, args) == s
  {
    NoBraceNoPlaceholder(s);
    ExpandUnbound(s, args);
  }

  // ---------------------------------------------------------------------
  // Properties of replaceParams
  // ---------------------------------------------------------------------

  /** Absent lines or absent arguments: the input comes back unchanged. */
  lemma ReplaceParamsAbsent(original: Option<seq<string>>, args: Option<seq<string>>)
    requires original.None? || args.None?
    ensures ReplaceParams(original, args) == original
  {
  }

  /**
    With both present the result is the single line obtained by joining and
    substituting; without any '{' in the lines a multi-line text still
    collapses to its joined line.
  */
  lemma ReplaceParamsCollapses(lines: seq<string>, args: seq<string>)
    requires forall i :: 0 <= i < |lines| ==> NoBrace(lines[i])
    ensures ReplaceParams(Some(lines), Some(args)) == Some([Join(lines)])
  {
    JoinNoBrace(lines);
    ExpandNoBrace(Join(lines), args);
  }

  /** An empty argument list only joins the lines. */
  lemma ReplaceParamsNoArgs(lines: seq<string>)
    ensures ReplaceParams(Some(lines), Some([])) == Some([Join(lines)])
  {
    ExpandNoArgs(Join(lines));
  }

  /** A numeral with a leading zero is not an array index: `{01}` stays as it is. */
  lemma LeadingZeroKept(args: seq<string>)
    ensures ReplaceParams(Some(["{01}"]), Some(args)) == Some(["{01}"])
  {
    assert Join(["{01}"]) == "{01}";
    var s := "{01}";
    assert s[1..] == "01" + "}";
    DigitRunOfDigits("01", "}");
    assert MatchLength(s) == 4;
    assert s[1..3] == "01" && s[4..] == [];
    assert Tokens(s) == [Placeholder("01")];
    assert !Canonical("01");
    CanonicalIffDecimal("01");
    assert Lookup(args, "01").None?;
    ExpandUnbound(s, args);
  }

  /** Brace-free text followed by a placeholder `{n}`: the text is kept and the placeholder substituted. */
  lemma ExpandAfterText(a: string, n: nat, rest: string, args: seq<string>)
    requires NoBrace(a)
    ensures Expand(a + ("{" + Decimal(n) + "}" + rest), args)
         == a + (if n < |args| then args[n] else "{" + Decimal(n) + "}") + Expand(rest, args)
  {
    var p := "{" + Decimal(n) + "}" + rest;
    ExpandConcat(a, p, args);
    ExpandNoBrace(a, args);
    ExpandPlaceholder(n, rest, args);
  }

  /** `{0}` after brace-free text. */
  lemma ExpandFirstArg(a: string, rest: string, args: seq<string>)
    requires NoBrace(a) && |args| >= 1
    ensures Expand(a + "{0}" + rest, args) == a + args[0] + Expand(rest, args)
  {
    var p := "{" + Decimal(0) + "}";
    assert p == "{0}";
    ExpandAfterText(a, 0, rest, args);
    assert a + "{0}" + rest == a + (p + rest);
  }

  /** `{1}` ending a line after brace-free text. */
  lemma ExpandSecondArg(b: string, args: seq<string>)
    requires NoBrace(b) && |args| >= 2
    ensures Expand(b + "{1}", args) == b + args[1]
  {
    var p := "{" + Decimal(1) + "}";
    assert p == "{1}";
    ExpandAfterText(b, 1, [], args);
    assert b + "{1}" == b + (p + []);
    assert Expand([], args) == [];
  }

  /** A line with two placeholders `{0}` and `{1}` around brace-free text. */
  lemma ExpandTwoPlaceholders(a: string, b: string, args: seq<string>)
    requires NoBrace(a) && NoBrace(b) && |args| >= 2
    ensures Expand(a + "{0}" + b + "{1}", args) == a + args[0] + b + args[1]
  {
    ExpandSecondArg(b, args);
    ExpandFirstArg(a, b + "{1}", args);
    assert a + "{0}" + b + "{1}" == a + "{0}" + (b + "{1}");
  }

  /** The price template of the dialog, split around its two placeholders. */
  lemma SplitPriceTemplate(line: string) returns (a: string, b: string)
    requires line == "Price is {0} and change is {1}"
    ensures a == "Price is " && b == " and change is "
    ensures line == a + "{0}" + b + "{1}" && NoBrace(a) && NoBrace(b)
  {
    a, b := "Price is ", " and change is ";
  }

  /** The worked example of a price template. */
  lemma ReplaceParamsExample(line: string)
    requires line == "Price is {0} and change is {1}"
    ensures ReplaceParams(Some([line]), Some(["100.5", "up 3.2"]))
         == Some(["Price is 100.5 and change is up 3.2"])
  {
    var args := ["100.5", "up 3.2"];
    var a, b := SplitPriceTemplate(line);
    ExpandTwoPlaceholders(a, b, args);
    assert Join([line]) == line;
    assert a + "100.5" + b + "up 3.2" == "Price is 100.5 and change is up 3.2";
  }

  /** A '{' that no digit run follows is copied as it is. */
  lemma ExpandLoneBrace(args: seq<string>)
    ensures Expand("{", args) == "{"
  {
    var s := "{";
    assert MatchLength(s) == 0;
    assert s[1..] == [];
    assert Tokens(s) == [Char('{')] + [];
    RenderCons(Char('{'), [], args);
  }

  /** "{0}}" with `args[0] == "1"` becomes "1}". */
  lemma ExpandInnerMatch(inner: string, args: seq<string>)
    requires inner == "{0}}" && |args| >= 1 && args[0] == "1"
    ensures Expand(inner, args) == "1}"
  {
    var p := "{" + Decimal(0) + "}";
    assert p == "{0}";
    assert inner == p + "}";
    ExpandPlaceholder(0, "}", args);
    ExpandNoBrace("}", args);
  }

  /**
    Replacement text is not scanned again: in "{{0}}" with args ["1", "x"] the
    inner match becomes "1", and the "{1}" that this forms stays literal.
  */
  lemma ReplacementNotRescanned(line: string)
    requires line == "{{0}}"
    ensures ReplaceParams(Some([line]), Some(["1", "x"])) == Some(["{1}"])
  {
    var args := ["1", "x"];
    var inner := line[1..];
    assert inner == "{0}}" && line == "{" + inner;
    ExpandConcat("{", inner, args);
    ExpandLoneBrace(args);
    ExpandInnerMatch(inner, args);
    assert Join([line]) == line;
    assert "{" + "1}" == "{1}";
  }
}
