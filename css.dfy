/** The stylesheet transformer: every `<digits>rpx` becomes `<digits / 100>rem`,
    as the global regular-expression replace `/(\d+)rpx/g` does. */
module Css {

  import opened Options
  import opened Text
  import opened Paths
  import Asset

  // ---------------------------------------------------------------------------
  // `${n / 100}`: the printed value of a digit run divided by 100
  // ---------------------------------------------------------------------------

  function StripLeadingZeros(d: string): (z: string)
    requires AllDigits(d)
    ensures AllDigits(z) && |z| <= |d|
    ensures z == [] || z[0] != '0'
  {
    if d != [] && d[0] == '0' then StripLeadingZeros(d[1..]) else d
  }

  /** Leading zeros do not change the value of a numeral. */
  lemma {:induction false} StripKeepsValue(d: string)
    requires AllDigits(d)
    ensures NatOf(StripLeadingZeros(d)) == NatOf(d)
  {
    if d != [] && d[0] == '0' {
      assert d == "0" + d[1..];
      NatOfAppend("0", d[1..]);
      StripKeepsValue(d[1..]);
    }
  }

  function LeftPad2(z: string): (f: string)
    requires AllDigits(z) && |z| <= 2
    ensures |f| == 2 && AllDigits(f)
  {
    if |z| == 2 then z
    else if |z| == 1 then "0" + z
    else "00"
  }

  lemma LeftPadKeepsValue(z: string)
    requires AllDigits(z) && |z| <= 2
    ensures NatOf(LeftPad2(z)) == NatOf(z)
  {
    if |z| == 1 {
      NatOfAppend("0", z);
    }
  }

  /** The fraction digits as JavaScript prints them: trailing zeros dropped, and
      no point at all for a whole number. */
  function FractionSuffix(f: string): string
    requires |f| == 2
  {
    if f[1] != '0' then "." + f
    else if f[0] != '0' then "." + f[..1]
    else ""
  }

  /** JavaScript's printing of `n / 100` for the number `n` a digit run denotes,
      written as exact decimal arithmetic on the digits. */
  function Hundredths(d: string): (r: string)
    requires |d| > 0 && AllDigits(d)
    ensures |r| > 0 && IsDigit(r[0])
  {
    var z := StripLeadingZeros(d);
    if |z| <= 2 then "0" + FractionSuffix(LeftPad2(z))
    else z[..|z| - 2] + FractionSuffix(z[|z| - 2..])
  }

  /** A decimal numeral with at most two fraction digits: `W`, `W.F` or `W.FF`. */
  predicate IsDecimalNumeral(r: string)
  {
    if |r| >= 3 && r[|r| - 3] == '.' then |r| > 3 && AllDigits(r[..|r| - 3]) && AllDigits(r[|r| - 2..])
    else if |r| >= 2 && r[|r| - 2] == '.' then |r| > 2 && AllDigits(r[..|r| - 2]) && AllDigits(r[|r| - 1..])
    else |r| > 0 && AllDigits(r)
  }

  /** The value such a numeral denotes, counted in hundredths. */
  function ValueInHundredths(r: string): nat
    requires IsDecimalNumeral(r)
  {
    if |r| >= 3 && r[|r| - 3] == '.' then NatOf(r[..|r| - 3]) * 100 + NatOf(r[|r| - 2..])
    else if |r| >= 2 && r[|r| - 2] == '.' then NatOf(r[..|r| - 2]) * 100 + NatOf(r[|r| - 1..]) * 10
    else NatOf(r) * 100
  }

  /** The shortest spelling: no leading zero before a digit, no trailing zero
      after the point. */
  predicate IsShortestSpelling(r: string)
  {
    |r| > 0 &&
    (r[0] == '0' ==> |r| == 1 || r[1] == '.') &&
    ('.' in r ==> r[|r| - 1] != '0')
  }

  lemma {:induction false} TwoFractionDigits(w: string, f: string)
    requires |w| > 0 && AllDigits(w) && |f| == 2 && AllDigits(f) && f[1] != '0'
    ensures IsDecimalNumeral(w + "." + f)
    ensures ValueInHundredths(w + "." + f) == NatOf(w) * 100 + NatOf(f)
  {
    var r := w + "." + f;
    assert r[|r| - 3] == '.';
    assert r[..|r| - 3] == w && r[|r| - 2..] == f;
  }

  lemma {:induction false} OneFractionDigit(w: string, f: string)
    requires |w| > 0 && AllDigits(w) && |f| == 2 && AllDigits(f) && f[1] == '0'
    ensures IsDecimalNumeral(w + "." + f[..1])
    ensures ValueInHundredths(w + "." + f[..1]) == NatOf(w) * 100 + NatOf(f)
  {
    var r := w + "." + f[..1];
    assert r[|r| - 3] == w[|w| - 1];
    assert r[|r| - 2] == '.';
    assert r[..|r| - 2] == w && r[|r| - 1..] == f[..1];
    assert NatOf(f) == NatOf(f[..1]) * 10;
  }

  lemma {:induction false} WholeNumber(w: string)
    requires |w| > 0 && AllDigits(w)
    ensures IsDecimalNumeral(w) && ValueInHundredths(w) == NatOf(w) * 100
    ensures '.' !in w
  {
    assert |w| >= 3 ==> IsDigit(w[|w| - 3]);
    assert |w| >= 2 ==> IsDigit(w[|w| - 2]);
    assert forall i :: 0 <= i < |w| ==> w[i] != '.' by {
      forall i | 0 <= i < |w| ensures w[i] != '.' {
        assert IsDigit(w[i]);
      }
    }
  }

  lemma {:induction false} FractionSuffixValue(w: string, f: string)
    requires |w| > 0 && AllDigits(w) && |f| == 2 && AllDigits(f)
    ensures IsDecimalNumeral(w + FractionSuffix(f))
    ensures ValueInHundredths(w + FractionSuffix(f)) == NatOf(w) * 100 + NatOf(f)
    ensures '.' in w + FractionSuffix(f) ==> (w + FractionSuffix(f))[|w + FractionSuffix(f)| - 1] != '0'
  {
    if f[1] != '0' {
      TwoFractionDigits(w, f);
      assert w + FractionSuffix(f) == w + "." + f;
    } else if f[0] != '0' {
      OneFractionDigit(w, f);
      assert w + FractionSuffix(f) == w + "." + f[..1];
    } else {
      assert NatOf(f) == 0 by {
        assert f[..1][..0] == [];
        assert NatOf(f[..1]) == 0;
      }
      WholeNumber(w);
      assert w + FractionSuffix(f) == w;
    }
  }

  /** The printed quotient denotes exactly the digit run's value divided by 100,
      and is spelt the shortest way, as JavaScript prints numbers. */
  lemma {:induction false} HundredthsDenotes(d: string)
    requires |d| > 0 && AllDigits(d)
    ensures IsDecimalNumeral(Hundredths(d))
    ensures ValueInHundredths(Hundredths(d)) == NatOf(d)
    ensures IsShortestSpelling(Hundredths(d))
  {
    var z := StripLeadingZeros(d);
    StripKeepsValue(d);
    if |z| <= 2 {
      LeftPadKeepsValue(z);
      FractionSuffixValue("0", LeftPad2(z));
    } else {
      var w, f := z[..|z| - 2], z[|z| - 2..];
      assert w + f == z;
      NatOfAppend(w, f);
      FractionSuffixValue(w, f);
      assert Hundredths(d)[0] == z[0];
    }
  }

  // ---------------------------------------------------------------------------
  // The scan of `/(\d+)rpx/g`
  // ---------------------------------------------------------------------------

  /** Length of the maximal run of digits at the start of `s`. */
  function DigitRun(s: string): (n: nat)
    ensures n <= |s| && AllDigits(s[..n])
    ensures n < |s| ==> !IsDigit(s[n])
  {
    if s == [] || !IsDigit(s[0]) then 0
    else
      var n := 1 + DigitRun(s[1..]);
      assert s[..n] == [s[0]] + s[1..][..n - 1];
      n
  }

  /** Whether `(\d+)rpx` matches at the start of `s`, and the length of its digit
      group. `\d+` is greedy; backing off to a shorter run never helps, since the
      character after a shorter run is a digit and not `r`. */
  function MatchRpx(s: string): (m: Option<nat>)
    ensures m.Some? ==> m.value == DigitRun(s) && 0 < m.value && m.value + 3 <= |s| &&
                        s[m.value..m.value + 3] == "rpx"
  {
    var n := DigitRun(s);
    if 0 < n && StartsWith(s[n..], "rpx") then Some(n) else None
  }

  /** Any way of reading `s` as digits followed by `rpx` is the match found. */
  lemma MatchIsTheOnlyReading(s: string, k: nat)
    requires 0 < k && k + 3 <= |s| && AllDigits(s[..k]) && s[k..k + 3] == "rpx"
    ensures MatchRpx(s) == Some(k)
  {
    var n := DigitRun(s);
    assert s[k] == 'r';
    assert n == k;
    assert s[n..][..3] == s[n..n + 3];
  }

  /** `css.replace(/(\d+)rpx/g, (_, n) => `${n / 100}rem`)`: scanning from the
      left, a match is replaced and the scan resumes after it; otherwise one
      character is copied and the scan moves on by one. */
  function RpxToRem(s: string): string
    decreases |s|
  {
    if s == [] then ""
    else
      match MatchRpx(s)
      case Some(n) => Hundredths(s[..n]) + "rem" + RpxToRem(s[n + 3..])
      case None => [s[0]] + RpxToRem(s[1..])
  }

  /** One step of the scan where no match starts: a character is copied. */
  lemma CopyStep(s: string)
    requires s != [] && MatchRpx(s) == None
    ensures RpxToRem(s) == [s[0]] + RpxToRem(s[1..])
  {
  }

  /** A digit at `i` immediately followed by `rpx`. */
  predicate RpxTokenAt(t: string, i: nat)
    requires i < |t|
  {
    IsDigit(t[i]) && StartsWith(t[i + 1..], "rpx")
  }

  predicate HasNoRpxToken(t: string)
  {
    forall i :: 0 <= i < |t| ==> !RpxTokenAt(t, i)
  }

  /** Text without a digit before `rpx` is returned unchanged. */
  lemma {:induction false} UnchangedWithoutToken(s: string)
    requires HasNoRpxToken(s)
    ensures RpxToRem(s) == s
    decreases |s|
  {
    if s != [] {
      var n := DigitRun(s);
      if 0 < n {
        assert !StartsWith(s[n..], "rpx") by {
          assert !RpxTokenAt(s, n - 1);
          assert s[n - 1 + 1..] == s[n..];
        }
      }
      assert MatchRpx(s) == None;
      assert HasNoRpxToken(s[1..]) by {
        forall i | 0 <= i < |s[1..]| ensures !RpxTokenAt(s[1..], i) {
          assert !RpxTokenAt(s, i + 1);
          assert s[1..][i + 1..] == s[i + 2..];
        }
      }
      UnchangedWithoutToken(s[1..]);
    }
  }

  /** A character other than a digit at the head of the output was copied from
      the head of the input. */
  lemma {:induction false} CopiedHead(s: string, c: char)
    requires RpxToRem(s) != [] && RpxToRem(s)[0] == c && !IsDigit(c)
    ensures s != [] && s[0] == c && RpxToRem(s[1..]) == RpxToRem(s)[1..]
  {
  }

  /** Text without digits at the start of the output was copied from the start
      of the input. */
  lemma {:induction false} CopiedPrefix(t: string, p: string)
    requires forall i :: 0 <= i < |p| ==> !IsDigit(p[i])
    requires StartsWith(RpxToRem(t), p)
    ensures StartsWith(t, p)
    decreases |p|
  {
    if p != [] {
      var r := RpxToRem(t);
      assert r[0] == r[..|p|][0] == p[0];
      CopiedHead(t, p[0]);
      assert r[1..][..|p| - 1] == r[..|p|][1..];
      CopiedPrefix(t[1..], p[1..]);
      assert t[..|p|] == [t[0]] + t[1..][..|p| - 1];
    }
  }

  lemma HundredthsCharacters(d: string)
    requires |d| > 0 && AllDigits(d)
    ensures forall i :: 0 <= i < |Hundredths(d)| ==> IsDigit(Hundredths(d)[i]) || Hundredths(d)[i] == '.'
  {
  }

  /** A replacement `<number>rem` cannot start a token, nor complete one that
      begins in it. */
  lemma NoTokenAroundReplacement(f: string, rest: string)
    requires |f| > 0 && forall i :: 0 <= i < |f| ==> IsDigit(f[i]) || f[i] == '.'
    requires HasNoRpxToken(rest)
    ensures HasNoRpxToken(f + "rem" + rest)
  {
    var r := f + "rem" + rest;
    forall i | 0 <= i < |r| ensures !RpxTokenAt(r, i) {
      if i + 1 < |f| {
        assert r[i + 1] == f[i + 1];
      } else if i + 1 == |f| {
        assert r[i + 2] == 'e';
      } else if i < |f| + 3 {
        assert r[i] in "rem";
      } else {
        assert r[i + 1..] == rest[i - |f| - 3 + 1..];
        assert !RpxTokenAt(rest, i - |f| - 3);
      }
    }
  }

  /** A copied character starts no token unless it is a digit before `rpx`. */
  lemma NoTokenAroundCopy(c: char, rest: string)
    requires HasNoRpxToken(rest)
    requires !(IsDigit(c) && StartsWith(rest, "rpx"))
    ensures HasNoRpxToken([c] + rest)
  {
    var r := [c] + rest;
    forall i | 0 <= i < |r| ensures !RpxTokenAt(r, i) {
      assert r[i + 1..] == rest[i..];
      if i > 0 {
        assert !RpxTokenAt(rest, i - 1);
      }
    }
  }

  /** One step of the scan where a match starts: the match is replaced. */
  lemma ReplaceStep(s: string)
    requires MatchRpx(s).Some?
    ensures RpxToRem(s) == Hundredths(s[..MatchRpx(s).value]) + "rem" + RpxToRem(s[MatchRpx(s).value + 3..])
  {
  }

  /** No digit run followed by `rpx` survives the replacement. */
  lemma {:induction false} NoTokenInOutput(s: string)
    ensures HasNoRpxToken(RpxToRem(s))
    decreases |s|
  {
    if s != [] {
      match MatchRpx(s)
      case Some(n) =>
        ReplaceStep(s);
        NoTokenInOutput(s[n + 3..]);
        HundredthsCharacters(s[..n]);
        NoTokenAroundReplacement(Hundredths(s[..n]), RpxToRem(s[n + 3..]));
      case None =>
        CopyStep(s);
        NoTokenInOutput(s[1..]);
        if IsDigit(s[0]) && StartsWith(RpxToRem(s[1..]), "rpx") {
          CopiedPrefix(s[1..], "rpx");
          assert s[..1] == [s[0]] && s[1..4] == "rpx";
          MatchIsTheOnlyReading(s, 1);
        }
        NoTokenAroundCopy(s[0], RpxToRem(s[1..]));
    }
  }

  /** Running the replacement a second time changes nothing. */
  lemma Idempotent(s: string)
    ensures RpxToRem(RpxToRem(s)) == RpxToRem(s)
  {
    NoTokenInOutput(s);
    UnchangedWithoutToken(RpxToRem(s));
  }

  /** A digit run followed by `rpx` is replaced, and the scan resumes after it. */
  lemma ReplacesToken(d: string, rest: string)
    requires |d| > 0 && AllDigits(d)
    ensures RpxToRem(d + "rpx" + rest) == Hundredths(d) + "rem" + RpxToRem(rest)
  {
    var s := d + "rpx" + rest;
    assert s[..|d|] == d && s[|d|..|d| + 3] == "rpx" && s[|d| + 3..] == rest;
    MatchIsTheOnlyReading(s, |d|);
  }

  /** No match starts at any of the first `k` positions of `s`. */
  predicate NoMatchBefore(s: string, k: nat)
    requires k <= |s|
    decreases k
  {
    k > 0 ==> MatchRpx(s) == None && NoMatchBefore(s[1..], k - 1)
  }

  lemma Associative(a: string, b: string, c: string)
    ensures a + (b + c) == (a + b) + c
  {
  }

  /** Where no match starts, the scan copies the text unchanged. */
  lemma {:induction false} CopiesWhileNoMatch(s: string, k: nat)
    requires k <= |s| && NoMatchBefore(s, k)
    ensures RpxToRem(s) == s[..k] + RpxToRem(s[k..])
    decreases k
  {
    if k > 0 {
      var t := s[1..];
      CopyStep(s);
      CopiesWhileNoMatch(t, k - 1);
      assert t[k - 1..] == s[k..];
      assert s[..k] == [s[0]] + t[..k - 1];
      Associative([s[0]], t[..k - 1], RpxToRem(s[k..]));
    } else {
      assert s[..k] == [] && s[k..] == s;
    }
  }

  /** Text without digits is copied unchanged. */
  lemma {:induction false} NonDigitsDoNotMatch(s: string, k: nat)
    requires k <= |s|
    requires forall i :: 0 <= i < k ==> !IsDigit(s[i])
    ensures NoMatchBefore(s, k)
    decreases k
  {
    if k > 0 {
      assert !IsDigit(s[0]);
      NonDigitsDoNotMatch(s[1..], k - 1);
    }
  }

  lemma CopiesNonDigits(s: string, k: nat)
    requires k <= |s|
    requires forall i :: 0 <= i < k ==> !IsDigit(s[i])
    ensures RpxToRem(s) == s[..k] + RpxToRem(s[k..])
  {
    NonDigitsDoNotMatch(s, k);
    CopiesWhileNoMatch(s, k);
  }

  /** A digit run ending at `k` and not followed by `rpx` matches nowhere. */
  lemma {:induction false} UnmatchedRunDoesNotMatch(s: string, k: nat)
    requires k <= |s|
    requires AllDigits(s[..k])
    requires k < |s| ==> !IsDigit(s[k])
    requires !StartsWith(s[k..], "rpx")
    ensures NoMatchBefore(s, k)
    decreases k
  {
    if k > 0 {
      var n := DigitRun(s);
      assert n == k by {
        assert forall i :: 0 <= i < k ==> s[..k][i] == s[i];
        assert forall i :: 0 <= i < n ==> s[..n][i] == s[i];
      }
      assert s[1..][..k - 1] == s[..k][1..];
      assert s[1..][k - 1..] == s[k..];
      UnmatchedRunDoesNotMatch(s[1..], k - 1);
    }
  }

  /** A digit run not followed by `rpx` (`1` in `1.5rpx`) is copied unchanged. */
  lemma CopiesUnmatchedRun(s: string, k: nat)
    requires k <= |s|
    requires AllDigits(s[..k])
    requires k < |s| ==> !IsDigit(s[k])
    requires !StartsWith(s[k..], "rpx")
    ensures RpxToRem(s) == s[..k] + RpxToRem(s[k..])
  {
    UnmatchedRunDoesNotMatch(s, k);
    CopiesWhileNoMatch(s, k);
  }

  /** `${5 / 100}` is `0.05` and `${150 / 100}` is `1.5`. */
  lemma HundredthsExamples()
    ensures Hundredths("5") == "0.05"
    ensures Hundredths("150") == "1.5"
  {
    assert StripLeadingZeros("5") == "5";
    assert LeftPad2("5") == "05";
    assert FractionSuffix("05") == ".05";
    assert StripLeadingZeros("150") == "150";
    assert "150"[..1] == "1" && "150"[1..] == "50";
    assert FractionSuffix("50") == ".5";
  }

  /** `5rpx` becomes `0.05rem`. */
  lemma TokenExample()
    ensures RpxToRem("5rpx") == "0.05rem"
  {
  }

  /** A length written with a decimal point, `W.Frpx`: the regular expression sees
      only the digit run `F`, so `W.` is kept in front of the converted `F`
      (`1.5rpx` becomes `1.0.05rem`). */
  lemma {:induction false} DecimalPointKeepsIntegerPart(w: string, f: string, rest: string)
    requires |w| > 0 && AllDigits(w) && |f| > 0 && AllDigits(f)
    ensures RpxToRem(w + "." + f + "rpx" + rest) == w + "." + Hundredths(f) + "rem" + RpxToRem(rest)
  {
    var u := f + "rpx" + rest;
    var t := "." + u;
    var s := w + t;
    assert s == w + "." + f + "rpx" + rest;
    assert s[..|w|] == w && s[|w|..] == t;
    assert t[0] == '.' && t[..1] == "." && t[1..] == u;
    CopiesUnmatchedRun(s, |w|);
    CopiesNonDigits(t, 1);
    ReplacesToken(f, rest);
    var h := Hundredths(f);
    var tail := RpxToRem(rest);
    calc {
      RpxToRem(s);
      w + RpxToRem(t);
      w + ("." + RpxToRem(u));
      w + ("." + (h + "rem" + tail));
      { Regroup(w, ".", h, "rem", tail); }
      w + "." + h + "rem" + tail;
    }
  }

  lemma Regroup(a: string, b: string, c: string, d: string, e: string)
    ensures a + (b + (c + d + e)) == a + b + c + d + e
  {
  }

  /** `rpx` with no digit in front is left alone. */
  lemma BareUnitExample()
    ensures RpxToRem("a rpx") == "a rpx"
  {
    var s := "a rpx";
    forall i | 0 <= i < |s| ensures !RpxTokenAt(s, i) {
      assert !IsDigit(s[i]);
    }
    UnchangedWithoutToken(s);
  }

  // ---------------------------------------------------------------------------
  // The transformer object
  // ---------------------------------------------------------------------------

  class CssTransformer {
    const asset: Asset.Asset
    var code: string
    /** Declared by the class and never assigned. */
    var sourceCode: Option<string>

    constructor (sourceFilePath: Path, srcDirPath: Path, destDirPath: Path)
      ensures fresh(asset)
      ensures asset.sourceFilePath == sourceFilePath
      ensures asset.relativePath == Relative(srcDirPath, sourceFilePath)
      ensures asset.destinationFilePath == Resolve(destDirPath, asset.relativePath)
      ensures asset.content == None && code == "" && sourceCode == None
    {
      asset := new Asset.Asset(sourceFilePath, srcDirPath, destDirPath);
      code := "";
      sourceCode := None;
    }

    /** `transform()`: read the file, then store the converted text in both
        `content` and `code`. Nothing is written to the destination. */
    method Transform(text: string)
      modifies this, asset
      ensures asset.content == Some(RpxToRem(text)) && code == RpxToRem(text)
      ensures sourceCode == old(sourceCode)
    {
      asset.Read(text);
      var converted := RpxToRem(asset.content.value);
      code := converted;
      asset.content := Some(converted);
    }
  }
}
