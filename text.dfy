/*
 * The string built-ins of JavaScript and Python that the barcode front end
 * (batch-processor.js, barcodeApp.js, sequence_generator.js, ...) and the
 * Flask back end (app.py) rely on: whitespace trimming, splitting on one
 * character, decimal rendering, zero padding and integer parsing.
 *
 * A string is a sequence of characters, one character per UTF-16 code unit
 * on the JavaScript side and one per code point on the Python side; the
 * characters that matter here (digits, signs, separators, white space) are
 * all in the basic plane, where the two agree.
 */
module Text {

  datatype Option<T> = None | Some(value: T)

  /** Which language's notion of white space a trim follows. */
  datatype Flavour = Js | Py

  /** JavaScript's WhiteSpace and LineTerminator characters (String.prototype.trim,
    * parseInt), and Python's str.isspace() characters (str.strip, int()). */
  predicate IsSpace(f: Flavour, c: char)
  {
    match f
    case Js =>
      ('\t' <= c <= '\r') || c == ' ' || c == '\U{00A0}' || c == '\U{1680}'
      || ('\U{2000}' <= c <= '\U{200A}') || c == '\U{2028}' || c == '\U{2029}'
      || c == '\U{202F}' || c == '\U{205F}' || c == '\U{3000}' || c == '\U{FEFF}'
    case Py =>
      ('\t' <= c <= '\r') || ('\U{001C}' <= c <= ' ') || c == '\U{0085}' || c == '\U{00A0}'
      || c == '\U{1680}' || ('\U{2000}' <= c <= '\U{200A}') || c == '\U{2028}'
      || c == '\U{2029}' || c == '\U{202F}' || c == '\U{205F}' || c == '\U{3000}'
  }

  predicate AllSpace(f: Flavour, s: string)
  {
    forall i :: 0 <= i < |s| ==> IsSpace(f, s[i])
  }

  /** Removes the leading white space: what is dropped is all white space and
    * what is kept starts with a character that is not. */
  function TrimStart(f: Flavour, s: string): (r: string)
    ensures |r| <= |s| && r == s[|s| - |r|..]
    ensures AllSpace(f, s[..|s| - |r|])
    ensures r == [] || !IsSpace(f, r[0])
    decreases |s|
  {
    if s != [] && IsSpace(f, s[0]) then
      var r := TrimStart(f, s[1..]);
      assert s[..|s| - |r|] == [s[0]] + s[1..][..|s| - 1 - |r|];
      r
    else s
  }

  /** Removes the trailing white space. */
  function TrimEnd(f: Flavour, s: string): (r: string)
    ensures |r| <= |s| && r == s[..|r|]
    ensures AllSpace(f, s[|r|..])
    ensures r == [] || !IsSpace(f, r[|r| - 1])
    decreases |s|
  {
    if s != [] && IsSpace(f, s[|s| - 1]) then
      var r := TrimEnd(f, s[..|s| - 1]);
      assert s[|r|..] == s[..|s| - 1][|r|..] + [s[|s| - 1]];
      r
    else s
  }

  /** String.prototype.trim / str.strip(): empty exactly when the input is
    * all white space, and otherwise begins and ends with a non-space. */
  function Trim(f: Flavour, s: string): (r: string)
    ensures |r| <= |s|
    ensures r == [] <==> AllSpace(f, s)
    ensures r == [] || (!IsSpace(f, r[0]) && !IsSpace(f, r[|r| - 1]))
  {
    var t := TrimStart(f, s);
    var r := TrimEnd(f, t);
    TrimBlank(f, s, t, r);
    r
  }

  lemma TrimBlank(f: Flavour, s: string, t: string, r: string)
    requires t == TrimStart(f, s) && r == TrimEnd(f, t)
    ensures r == [] <==> AllSpace(f, s)
  {
    if r == [] {
      assert t[|r|..] == t;
      assert s[..|s|] == s;
    }
  }

  lemma TrimUnchanged(f: Flavour, s: string)
    requires s == [] || (!IsSpace(f, s[0]) && !IsSpace(f, s[|s| - 1]))
    ensures Trim(f, s) == s
  {
  }

  /** Trimming twice is trimming once. */
  lemma TrimIdempotent(f: Flavour, s: string)
    ensures Trim(f, Trim(f, s)) == Trim(f, s)
  {
    TrimUnchanged(f, Trim(f, s));
  }

  // ---------------------------------------------------------------------
  // Splitting on one character (JavaScript String.prototype.split with a
  // one-character separator, Python str.split(sep)).

  /** The pieces between occurrences of `d`: never an empty list, and no
    * piece contains `d`. */
  function Split(s: string, d: char): (r: seq<string>)
    ensures |r| >= 1
    ensures forall i :: 0 <= i < |r| ==> d !in r[i]
    decreases |s|
  {
    if s == [] then [""]
    else
      var t := Split(s[1..], d);
      if s[0] == d then [""] + t
      else [[s[0]] + t[0]] + t[1..]
  }

  /** Array.prototype.join with a one-character separator. */
  function Join(ps: seq<string>, d: char): string
    decreases |ps|
  {
    if |ps| == 0 then ""
    else if |ps| == 1 then ps[0]
    else ps[0] + [d] + Join(ps[1..], d)
  }

  /** Joining the pieces gives back the text. */
  lemma {:induction false} JoinSplit(s: string, d: char)
    ensures Join(Split(s, d), d) == s
    decreases |s|
  {
    if s != [] {
      JoinSplit(s[1..], d);
      var t := Split(s[1..], d);
      if s[0] == d {
        assert ([""] + t)[1..] == t;
      } else {
        var u := [[s[0]] + t[0]] + t[1..];
        assert u[1..] == t[1..];
        if |t| > 1 {
          assert Join(t, d) == t[0] + [d] + Join(t[1..], d);
        }
        assert s == [s[0]] + s[1..];
      }
    }
  }

  lemma {:induction false} SplitPrefix(x: string, rest: string, d: char)
    requires d !in x
    ensures Split(x + rest, d) == [x + Split(rest, d)[0]] + Split(rest, d)[1..]
    decreases |x|
  {
    if x != [] {
      var whole := x + rest;
      assert whole[0] == x[0] && whole[1..] == x[1..] + rest;
      SplitPrefix(x[1..], rest, d);
      assert x[0] in x;
      var t := Split(x[1..] + rest, d);
      assert Split(whole, d) == [[x[0]] + t[0]] + t[1..];
      assert t[0] == x[1..] + Split(rest, d)[0];
      assert t[1..] == Split(rest, d)[1..];
      assert [x[0]] + (x[1..] + Split(rest, d)[0]) == x + Split(rest, d)[0];
    } else {
      var r := Split(rest, d);
      assert x + rest == rest && x + r[0] == r[0];
      assert r == [r[0]] + r[1..];
    }
  }

  /** Splitting a join of separator-free pieces gives back the pieces. */
  lemma {:induction false} SplitJoin(ps: seq<string>, d: char)
    requires |ps| >= 1
    requires forall i :: 0 <= i < |ps| ==> d !in ps[i]
    ensures Split(Join(ps, d), d) == ps
    decreases |ps|
  {
    if |ps| == 1 {
      SplitPrefix(ps[0], "", d);
      assert ps[0] + "" == ps[0];
    } else {
      SplitJoin(ps[1..], d);
      var tail := Join(ps[1..], d);
      var rest := [d] + tail;
      assert Join(ps, d) == ps[0] + rest;
      SplitPrefix(ps[0], rest, d);
      assert rest[0] == d && rest[1..] == tail;
      var sr := Split(rest, d);
      assert sr == [""] + ps[1..];
      assert sr[0] == "" && sr[1..] == ps[1..];
      assert ps[0] + sr[0] == ps[0];
      assert ps == [ps[0]] + ps[1..];
    }
  }

  /** JavaScript `text.split(/\r?\n/)`: split on line feeds, then drop the
    * carriage return that ends each piece followed by a line feed (the last
    * piece keeps its own). */
  function SplitLines(s: string): (r: seq<string>)
    ensures |r| == |Split(s, '\n')| >= 1
  {
    var p := Split(s, '\n');
    seq(|p|, i requires 0 <= i < |p| =>
      if i < |p| - 1 && p[i] != [] && p[i][|p[i]| - 1] == '\r' then p[i][..|p[i]| - 1] else p[i])
  }

  /** Text without carriage returns splits into lines exactly as on '\n'. */
  lemma SplitLinesNoCarriageReturn(s: string)
    requires '\r' !in s
    ensures SplitLines(s) == Split(s, '\n')
  {
    var p := Split(s, '\n');
    JoinSplit(s, '\n');
    forall i | 0 <= i < |p| - 1 && p[i] != []
      ensures p[i][|p[i]| - 1] != '\r'
    {
      JoinMember(p, '\n', i, |p[i]| - 1);
    }
  }

  lemma {:induction false} JoinMember(ps: seq<string>, d: char, i: nat, k: nat)
    requires i < |ps| && k < |ps[i]|
    ensures ps[i][k] in Join(ps, d)
    decreases |ps|
  {
    if i > 0 {
      JoinMember(ps[1..], d, i - 1, k);
      assert Join(ps, d) == ps[0] + [d] + Join(ps[1..], d);
    } else if |ps| > 1 {
      assert Join(ps, d) == ps[0] + ([d] + Join(ps[1..], d));
    }
  }

  /** Joining one more piece before a final empty piece adds that piece
    * and one separator. */
  lemma {:induction false} JoinAppend(lines: seq<string>, x: string, d: char)
    ensures Join(lines + [x] + [""], d) == Join(lines + [""], d) + x + [d]
    decreases |lines|
  {
    if |lines| == 0 {
      assert lines + [x] + [""] == [x, ""];
      assert Join([x, ""], d) == x + [d] + "";
      assert lines + [""] == [""];
    } else if |lines| == 1 {
      assert Join([x, ""], d) == x + [d] + "";
      assert (lines + [x] + [""])[1..] == [x, ""];
      assert (lines + [""])[1..] == [""];
    } else {
      JoinAppend(lines[1..], x, d);
      assert (lines + [x] + [""])[1..] == lines[1..] + [x] + [""];
      assert (lines + [""])[1..] == lines[1..] + [""];
    }
  }

  /** Each line followed by a newline, as the CSV exporters build their
    * text with `+=`. */
  function Terminated(ls: seq<string>): string
  {
    if ls == [] then "" else Terminated(ls[..|ls| - 1]) + ls[|ls| - 1] + "\n"
  }

  lemma TerminatedStep(ls: seq<string>, x: string)
    ensures Terminated(ls + [x]) == Terminated(ls) + x + "\n"
  {
    assert (ls + [x])[..|ls|] == ls;
  }

  /** Newline-terminated lines are the lines joined with newlines before a
    * final empty piece; when no line holds a newline, splitting gives them
    * back. */
  lemma {:induction false} TerminatedLines(ls: seq<string>)
    ensures Terminated(ls) == Join(ls + [""], '\n')
    ensures (forall i :: 0 <= i < |ls| ==> '\n' !in ls[i]) ==> Split(Terminated(ls), '\n') == ls + [""]
    decreases |ls|
  {
    if ls != [] {
      var init := ls[..|ls| - 1];
      TerminatedLines(init);
      JoinAppend(init, ls[|ls| - 1], '\n');
      assert init + [ls[|ls| - 1]] == ls;
    }
    if forall i :: 0 <= i < |ls| ==> '\n' !in ls[i] {
      var ps := ls + [""];
      forall i | 0 <= i < |ps| ensures '\n' !in ps[i] {
        if i < |ls| { assert ps[i] == ls[i]; }
      }
      SplitJoin(ps, '\n');
    }
  }

  /** A header line and newline-free lines, each newline-terminated, split
    * back into themselves. */
  lemma HeaderAndLinesSplit(header: string, ls: seq<string>)
    requires '\n' !in header
    requires forall i :: 0 <= i < |ls| ==> '\n' !in ls[i]
    ensures Split(Terminated([header] + ls), '\n') == [header] + ls + [""]
  {
    var all := [header] + ls;
    forall i | 0 <= i < |all| ensures '\n' !in all[i] {
      if i > 0 {
        assert all[i] == ls[i - 1];
      }
    }
    TerminatedLines(all);
  }

  function WithCarriageReturns(ls: seq<string>): seq<string>
  {
    seq(|ls|, i requires 0 <= i < |ls| => if i < |ls| - 1 then ls[i] + "\r" else ls[i])
  }

  /** Lines joined with Windows line endings ("\r\n") split back into the
    * same lines. */
  lemma CrlfLinesRoundTrip(ls: seq<string>)
    requires |ls| >= 1
    requires forall i :: 0 <= i < |ls| ==> '\n' !in ls[i]
    ensures SplitLines(Join(WithCarriageReturns(ls), '\n')) == ls
  {
    var w := WithCarriageReturns(ls);
    forall i | 0 <= i < |w| ensures '\n' !in w[i] {
      if i < |w| - 1 {
        assert w[i] == ls[i] + "\r";
      }
    }
    SplitJoin(w, '\n');
    var r := SplitLines(Join(w, '\n'));
    forall i | 0 <= i < |ls| ensures r[i] == ls[i] {
      if i < |ls| - 1 {
        assert w[i] == ls[i] + "\r";
        assert w[i][..|w[i]| - 1] == ls[i];
      }
    }
  }

  // ---------------------------------------------------------------------
  // Substrings, prefixes and case.

  predicate StartsWith(s: string, p: string)
  {
    p <= s
  }

  /** String.prototype.includes / Python's `in` on strings. */
  predicate Contains(s: string, t: string)
    decreases |s|
  {
    t <= s || (s != [] && Contains(s[1..], t))
  }

  lemma {:induction false} ContainsAt(s: string, t: string, i: nat)
    requires i + |t| <= |s| && s[i..i + |t|] == t
    ensures Contains(s, t)
    decreases i
  {
    if i > 0 {
      assert s[1..][i - 1..i - 1 + |t|] == t;
      ContainsAt(s[1..], t, i - 1);
    }
  }

  function LowerChar(c: char): char
  {
    if 'A' <= c <= 'Z' then (c as int + 32) as char else c
  }

  /** toLowerCase() / lower() on the ASCII letters. */
  function Lower(s: string): (r: string)
    ensures |r| == |s|
    ensures forall i :: 0 <= i < |s| ==> r[i] == LowerChar(s[i])
  {
    seq(|s|, i requires 0 <= i < |s| => LowerChar(s[i]))
  }

  // ---------------------------------------------------------------------
  // Digits and positional values.

  /** The value of a digit character in bases up to 36: 0-9, then a-z and A-Z. */
  function DigitValue(c: char): (v: nat)
    ensures v <= 36
  {
    if '0' <= c <= '9' then c as int - '0' as int
    else if 'a' <= c <= 'z' then c as int - 'a' as int + 10
    else if 'A' <= c <= 'Z' then c as int - 'A' as int + 10
    else 36
  }

  predicate IsDigitIn(c: char, base: nat)
  {
    DigitValue(c) < base
  }

  predicate AllDigitsIn(s: string, base: nat)
  {
    forall i :: 0 <= i < |s| ==> IsDigitIn(s[i], base)
  }

  /** Positional value, most significant digit first. */
  function DigitsValue(s: string, base: nat): nat
    requires AllDigitsIn(s, base)
  {
    if s == [] then 0 else DigitsValue(s[..|s| - 1], base) * base + DigitValue(s[|s| - 1])
  }

  function DigitChar(n: nat): (c: char)
    requires n < 10
    ensures IsDigitIn(c, 10) && DigitValue(c) == n
  {
    ('0' as int + n) as char
  }

  /** str(n) / String(n) for a natural number: decimal digits, no leading
    * zero, whose value is n. */
  function NatToDecimal(n: nat): (r: string)
    ensures |r| >= 1 && AllDigitsIn(r, 10)
    ensures r[0] == '0' ==> n == 0 && |r| == 1
    decreases n
  {
    if n < 10 then [DigitChar(n)] else NatToDecimal(n / 10) + [DigitChar(n % 10)]
  }

  /** The digits NatToDecimal writes have the value n. */
  lemma {:induction false} NatToDecimalValue(n: nat)
    ensures DigitsValue(NatToDecimal(n), 10) == n
    decreases n
  {
    if n >= 10 {
      var h := NatToDecimal(n / 10);
      var r := NatToDecimal(n);
      assert r[..|r| - 1] == h;
      NatToDecimalValue(n / 10);
    }
  }

  /** str(i) for any integer: a minus sign before the digits of |i|. */
  function IntToDecimal(i: int): (r: string)
    ensures |r| >= 1
    ensures i < 0 <==> r[0] == '-'
  {
    if i < 0 then "-" + NatToDecimal(-i) else NatToDecimal(i)
  }

  function Zeros(n: nat): (r: string)
    ensures |r| == n && forall i :: 0 <= i < n ==> r[i] == '0'
  {
    seq(n, _ => '0')
  }

  lemma {:induction false} LeadingZeros(k: nat, ds: string)
    requires AllDigitsIn(ds, 10)
    ensures AllDigitsIn(Zeros(k) + ds, 10)
    ensures DigitsValue(Zeros(k) + ds, 10) == DigitsValue(ds, 10)
    decreases |ds|
  {
    var z := Zeros(k) + ds;
    if ds == [] {
      assert z == Zeros(k);
      ZerosValue(k);
    } else {
      assert z[..|z| - 1] == Zeros(k) + ds[..|ds| - 1];
      LeadingZeros(k, ds[..|ds| - 1]);
    }
  }

  lemma {:induction false} ZerosValue(k: nat)
    ensures DigitsValue(Zeros(k), 10) == 0
    decreases k
  {
    if k > 0 {
      assert Zeros(k)[..k - 1] == Zeros(k - 1);
      ZerosValue(k - 1);
    }
  }

  /** Python's str.zfill(w): zeros after any leading sign until the string is
    * w characters long; a string already that long is unchanged. */
  function ZFill(s: string, w: int): (r: string)
    ensures |r| == if |s| >= w then |s| else w
    ensures |s| >= w ==> r == s
  {
    if |s| >= w then s
    else if s != [] && (s[0] == '+' || s[0] == '-') then [s[0]] + Zeros(w - |s|) + s[1..]
    else Zeros(w - |s|) + s
  }

  // ---------------------------------------------------------------------
  // Parsing integers.

  /** Python's int(s) on a string: surrounding white space, an optional sign,
    * then one or more ASCII digits; anything else raises ValueError (None). */
  function PyParseInt(s: string): Option<int>
  {
    var t := Trim(Py, s);
    if t != [] && (t[0] == '+' || t[0] == '-') then
      var ds := t[1..];
      if ds != [] && AllDigitsIn(ds, 10) then
        var v: int := DigitsValue(ds, 10);
        Some(if t[0] == '-' then -v else v)
      else None
    else if t != [] && AllDigitsIn(t, 10) then Some(DigitsValue(t, 10))
    else None
  }

  /** int(ds) and int("-" + ds) for a non-empty run of digits. */
  lemma PyParseIntDigits(ds: string, v: nat)
    requires ds != [] && AllDigitsIn(ds, 10) && DigitsValue(ds, 10) == v
    ensures PyParseInt(ds) == Some(v)
  {
    DigitsAreNotSpace(ds);
    TrimUnchanged(Py, ds);
  }

  lemma PyParseIntNegative(ds: string, v: nat)
    requires ds != [] && AllDigitsIn(ds, 10) && DigitsValue(ds, 10) == v
    ensures PyParseInt("-" + ds) == Some(-(v as int))
  {
    var m := "-" + ds;
    assert m[1..] == ds && m[0] == '-' && m[|m| - 1] == ds[|ds| - 1];
    DigitsAreNotSpace(ds);
    TrimUnchanged(Py, m);
  }

  /** int(str(n)) == n and int("-" + str(n)) == -n for a natural n. */
  lemma PyParseIntDecimal(n: nat)
    ensures PyParseInt(NatToDecimal(n)) == Some(n)
  {
    NatToDecimalValue(n);
    PyParseIntDigits(NatToDecimal(n), n);
  }

  lemma PyParseIntNegativeDecimal(n: nat)
    ensures PyParseInt("-" + NatToDecimal(n)) == Some(-(n as int))
  {
    NatToDecimalValue(n);
    PyParseIntNegative(NatToDecimal(n), n);
  }

  /** int(str(i)) == i. */
  lemma PyParseIntRoundTrip(i: int)
    ensures PyParseInt(IntToDecimal(i)) == Some(i)
  {
    if i < 0 {
      var n: nat := -i;
      assert IntToDecimal(i) == "-" + NatToDecimal(n);
      PyParseIntNegativeDecimal(n);
    } else {
      PyParseIntDecimal(i);
    }
  }

  /** A digit string neither begins with white space or a sign nor ends with white space. */
  lemma DigitsAreNotSpace(d: string)
    requires |d| >= 1 && AllDigitsIn(d, 10)
    ensures !IsSpace(Js, d[0]) && !IsSpace(Js, d[|d| - 1])
    ensures !IsSpace(Py, d[0]) && !IsSpace(Py, d[|d| - 1])
    ensures '0' <= d[0] <= '9' && '0' <= d[|d| - 1] <= '9'
  {
    assert IsDigitIn(d[0], 10) && IsDigitIn(d[|d| - 1], 10);
  }

  /** Zeros before the digits of n keep the value n, with or without a
    * minus sign in front. */
  lemma PyParseIntPadded(k: nat, n: nat)
    ensures PyParseInt(Zeros(k) + NatToDecimal(n)) == Some(n)
  {
    NatToDecimalValue(n);
    LeadingZeros(k, NatToDecimal(n));
    PyParseIntDigits(Zeros(k) + NatToDecimal(n), n);
  }

  lemma PyParseIntNegativePadded(k: nat, n: nat)
    ensures PyParseInt("-" + (Zeros(k) + NatToDecimal(n))) == Some(-(n as int))
  {
    NatToDecimalValue(n);
    LeadingZeros(k, NatToDecimal(n));
    PyParseIntNegative(Zeros(k) + NatToDecimal(n), n);
  }

  /** int(str(i).zfill(w)) == i: zero padding keeps the value. */
  lemma PyParseIntZFill(i: int, w: int)
    ensures PyParseInt(ZFill(IntToDecimal(i), w)) == Some(i)
  {
    var s := IntToDecimal(i);
    if |s| >= w {
      PyParseIntRoundTrip(i);
    } else if i < 0 {
      var n: nat := -i;
      var d := NatToDecimal(n);
      assert s == "-" + d && s[0] == '-' && s[1..] == d;
      assert ZFill(s, w) == "-" + (Zeros(w - |s|) + d);
      PyParseIntNegativePadded(w - |s|, n);
    } else {
      assert ZFill(s, w) == Zeros(w - |s|) + NatToDecimal(i);
      PyParseIntPadded(w - |s|, i);
    }
  }

  /** The longest prefix of s made of digits of the base. */
  function DigitPrefix(s: string, base: nat): (r: string)
    ensures r <= s && AllDigitsIn(r, base)
    ensures |r| == |s| || !IsDigitIn(s[|r|], base)
    decreases |s|
  {
    if s != [] && IsDigitIn(s[0], base) then [s[0]] + DigitPrefix(s[1..], base) else []
  }

  /** JavaScript's parseInt(s) with no radix: leading white space, an
    * optional sign, "0x"/"0X" for hexadecimal, then the longest run of
    * digits; None stands for NaN (no digit at all). Precision loss past
    * 2^53 is not modelled. */
  function ParseInt(s: string): Option<int>
  {
    var t := TrimStart(Js, s);
    var negative := t != [] && t[0] == '-';
    var u := if t != [] && (t[0] == '-' || t[0] == '+') then t[1..] else t;
    var hex := |u| >= 2 && u[0] == '0' && (u[1] == 'x' || u[1] == 'X');
    var base := if hex then 16 else 10;
    var ds := DigitPrefix(if hex then u[2..] else u, base);
    if ds == [] then None
    else
      var v: int := DigitsValue(ds, base);
      Some(if negative then -v else v)
  }

  /** parseInt reads a run of digits up to the first character that is not
    * one (and that does not make a "0x" prefix). */
  lemma ParseIntDigitsTail(d: string, tail: string, v: nat)
    requires d != [] && AllDigitsIn(d, 10) && DigitsValue(d, 10) == v
    requires tail == [] || (!IsDigitIn(tail[0], 10) && tail[0] != 'x' && tail[0] != 'X')
    ensures ParseInt(d + tail) == Some(v)
  {
    var s := d + tail;
    assert s[0] == d[0];
    NoHexPrefixBefore(d, tail);
    DigitsAreNotSpace(d);
    TrimStartKeeps(Js, s);
    DigitPrefixStops(d, tail, 10);
  }

  lemma NoHexPrefixBefore(d: string, tail: string)
    requires d != [] && AllDigitsIn(d, 10)
    requires tail == [] || (tail[0] != 'x' && tail[0] != 'X')
    ensures var s := d + tail; !(|s| >= 2 && s[0] == '0' && (s[1] == 'x' || s[1] == 'X'))
  {
    var s := d + tail;
    if |s| >= 2 {
      if |d| >= 2 {
        assert s[1] == d[1] && IsDigitIn(d[1], 10);
      } else {
        assert s[1] == tail[0];
      }
    }
  }

  lemma ParseIntNegative(d: string, v: nat)
    requires d != [] && AllDigitsIn(d, 10) && DigitsValue(d, 10) == v
    ensures ParseInt("-" + d) == Some(-(v as int))
  {
    var s := "-" + d;
    assert s[0] == '-' && s[1..] == d;
    TrimStartKeeps(Js, s);
    NoHexPrefix(d);
    AllDigitsPrefix(d, 10);
  }

  lemma TrimStartKeeps(f: Flavour, s: string)
    requires s != [] && !IsSpace(f, s[0])
    ensures TrimStart(f, s) == s
  {
  }

  /** A run of decimal digits never starts like "0x". */
  lemma NoHexPrefix(d: string)
    requires AllDigitsIn(d, 10)
    ensures !(|d| >= 2 && d[0] == '0' && (d[1] == 'x' || d[1] == 'X'))
  {
    if |d| >= 2 {
      assert IsDigitIn(d[1], 10);
    }
  }

  /** parseInt(String(i)) === i. */
  lemma ParseIntRoundTrip(i: int)
    ensures ParseInt(IntToDecimal(i)) == Some(i)
  {
    if i < 0 {
      var n: nat := -i;
      assert IntToDecimal(i) == "-" + NatToDecimal(n);
      ParseIntNegativeDecimal(n);
    } else {
      assert NatToDecimal(i) + "" == NatToDecimal(i);
      ParseIntIgnoresTail(i, "");
    }
  }

  lemma ParseIntNegativeDecimal(n: nat)
    ensures ParseInt("-" + NatToDecimal(n)) == Some(-(n as int))
  {
    NatToDecimalValue(n);
    ParseIntNegative(NatToDecimal(n), n);
  }

  lemma {:induction false} AllDigitsPrefix(s: string, base: nat)
    requires AllDigitsIn(s, base)
    ensures DigitPrefix(s, base) == s
    decreases |s|
  {
    if s != [] {
      AllDigitsPrefix(s[1..], base);
    }
  }

  /** parseInt stops at the first character that is not a digit: a number
    * followed by a unit still parses to the number. */
  lemma ParseIntIgnoresTail(n: nat, tail: string)
    requires tail == [] || (!IsDigitIn(tail[0], 10) && tail[0] != 'x' && tail[0] != 'X')
    ensures ParseInt(NatToDecimal(n) + tail) == Some(n)
  {
    NatToDecimalValue(n);
    ParseIntDigitsTail(NatToDecimal(n), tail, n);
  }

  lemma {:induction false} DigitPrefixStops(d: string, tail: string, base: nat)
    requires AllDigitsIn(d, base)
    requires tail == [] || !IsDigitIn(tail[0], base)
    ensures DigitPrefix(d + tail, base) == d
    decreases |d|
  {
    if d != [] {
      assert (d + tail)[1..] == d[1..] + tail;
      DigitPrefixStops(d[1..], tail, base);
    }
  }
}
