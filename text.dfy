/** The text helpers the loader and the vertex welder rely on: openFrameworks'
    ofSplitString, ofToInt, ofToFloat, ofToLower and ofFilePath::getFileExt,
    and std::to_string on int. Each is given a definition of its own and the
    round trips that connect it to its inverse. */
module Text {

  // ---------------------------------------------------------------------------
  // Decimal digits

  predicate IsDigit(c: char) { '0' <= c <= '9' }

  function DigitChar(d: nat): (c: char)
    requires d < 10
    ensures IsDigit(c)
  {
    (48 + d) as char
  }

  function DigitValue(c: char): nat
    requires IsDigit(c)
  {
    c as int - 48
  }

  predicate AllDigits(s: string) { forall i :: 0 <= i < |s| ==> IsDigit(s[i]) }

  /** The decimal digits of n, most significant first, without leading zeros. */
  function NatToString(n: nat): string
    decreases n
  {
    if n < 10 then [DigitChar(n)] else NatToString(n / 10) + [DigitChar(n % 10)]
  }

  /** The decimal form is nonempty and made of digits only. */
  lemma {:induction false} NatToStringDigits(n: nat)
    ensures |NatToString(n)| >= 1 && AllDigits(NatToString(n))
    decreases n
  {
    if n >= 10 {
      NatToStringDigits(n / 10);
      var s := NatToString(n / 10);
      var c := DigitChar(n % 10);
      assert NatToString(n) == s + [c];
      forall i | 0 <= i < |s| + 1 ensures IsDigit((s + [c])[i]) {
        if i < |s| { assert (s + [c])[i] == s[i]; }
      }
    }
  }

  /** std::to_string(int): an optional '-' followed by the digits of |n|. */
  function IntToString(n: int): string
  {
    if n < 0 then "-" + NatToString(-n) else NatToString(n)
  }

  /** What std::to_string writes is nonempty and made of digits after an
      optional leading '-'. */
  lemma IntToStringChars(n: int)
    ensures |IntToString(n)| >= 1
    ensures forall i :: 0 <= i < |IntToString(n)| ==>
      IsDigit(IntToString(n)[i]) || (i == 0 && IntToString(n)[i] == '-')
  {
    NatToStringDigits(if n < 0 then -n else n);
  }

  /** The value of a string of decimal digits. */
  function DigitsValue(s: string): nat
    requires AllDigits(s)
  {
    if |s| == 0 then 0 else DigitsValue(s[..|s| - 1]) * 10 + DigitValue(s[|s| - 1])
  }

  lemma {:induction false} NatToStringValue(n: nat)
    ensures AllDigits(NatToString(n)) && DigitsValue(NatToString(n)) == n
    decreases n
  {
    NatToStringDigits(n);
    if n >= 10 {
      NatToStringValue(n / 10);
      var s := NatToString(n / 10);
      assert NatToString(n) == s + [DigitChar(n % 10)];
      assert (s + [DigitChar(n % 10)])[..|s|] == s;
    }
  }

  /** The length of the longest prefix of s made of digits. */
  function DigitRun(s: string): (r: nat)
    ensures r <= |s|
    ensures r < |s| ==> !IsDigit(s[r])
  {
    if |s| == 0 || !IsDigit(s[0]) then 0 else 1 + DigitRun(s[1..])
  }

  /** The run is made of digits. */
  lemma {:induction false} DigitRunDigits(s: string)
    ensures AllDigits(s[..DigitRun(s)])
    decreases |s|
  {
    if |s| > 0 && IsDigit(s[0]) {
      DigitRunDigits(s[1..]);
      var r := DigitRun(s);
      assert forall i :: 1 <= i < r ==> s[..r][i] == s[1..][..r - 1][i - 1];
    }
  }

  /** The longest prefix of s made of digits. */
  function LeadingDigits(s: string): (d: string)
    ensures AllDigits(d) && |d| == DigitRun(s) && d == s[..|d|]
  {
    DigitRunDigits(s);
    s[..DigitRun(s)]
  }

  /** The value of digits read after a decimal point. */
  function FractionValue(d: string): (r: real)
    requires AllDigits(d)
    ensures 0.0 <= r
  {
    DigitsValue(d) as real / Pow10(|d|) as real
  }

  function Pow10(n: nat): (r: nat)
    ensures r >= 1
  {
    if n == 0 then 1 else 10 * Pow10(n - 1)
  }

  // ---------------------------------------------------------------------------
  // Number conversion as performed by `std::istringstream >> x`

  /** The characters `operator>>` skips before a number. */
  predicate IsSpace(c: char)
  {
    c == ' ' || c == '\t' || c == '\n' || c == '\r' || c as int == 11 || c as int == 12
  }

  function SkipSpace(s: string): (t: string)
    ensures |t| <= |s|
    ensures |t| > 0 ==> !IsSpace(t[0])
  {
    if |s| > 0 && IsSpace(s[0]) then SkipSpace(s[1..]) else s
  }

  /** The string that follows an optional leading sign. */
  function Unsigned(t: string): string
  {
    if |t| > 0 && (t[0] == '-' || t[0] == '+') then t[1..] else t
  }

  predicate Negative(t: string) { |t| > 0 && t[0] == '-' }

  /** ofToInt: skips white space, reads an optional sign and the longest run of
      digits; when there is no digit the result is 0 (the extraction failed and
      the variable keeps its initial value 0). Trailing characters are ignored. */
  function ParseInt(s: string): int
  {
    var t := SkipSpace(s);
    var d := LeadingDigits(Unsigned(t));
    if |d| == 0 then 0
    else if Negative(t) then -(DigitsValue(d) as int)
    else DigitsValue(d)
  }

  /** ofToFloat: skips white space, reads an optional sign, a run of digits, and
      optionally a '.' followed by a second run of digits; with no digit at all the
      result is 0. */
  function ParseReal(s: string): real
  {
    var t := SkipSpace(s);
    var u := Unsigned(t);
    var whole := LeadingDigits(u);
    var rest := u[|whole|..];
    var frac := if |rest| > 0 && rest[0] == '.' then LeadingDigits(rest[1..]) else "";
    if |whole| == 0 && |frac| == 0 then 0.0
    else
      var r := DigitsValue(whole) as real + FractionValue(frac);
      if Negative(t) then -r else r
  }

  /** The sign-free part and the sign of what std::to_string writes. */
  lemma IntToStringParts(n: int)
    ensures SkipSpace(IntToString(n)) == IntToString(n)
    ensures Negative(IntToString(n)) == (n < 0)
    ensures Unsigned(IntToString(n)) == NatToString(if n < 0 then -n else n)
  {
    var s := IntToString(n);
    IntToStringChars(n);
    assert s[0] == '-' || IsDigit(s[0]);
    assert !IsSpace(s[0]);
    NoSpaceFirst(s);
    var m: nat := if n < 0 then -n else n;
    var digits := NatToString(m);
    NatToStringDigits(m);
    if n < 0 {
      assert s == "-" + digits;
      assert s[1..] == digits;
    } else {
      assert s == digits;
      assert IsDigit(digits[0]);
    }
  }

  lemma NoSpaceFirst(s: string)
    requires |s| > 0 && !IsSpace(s[0])
    ensures SkipSpace(s) == s
  {
  }

  /** Reading back what std::to_string wrote gives the number back. */
  lemma ParseIntOfIntToString(n: int)
    ensures ParseInt(IntToString(n)) == n
  {
    IntToStringParts(n);
    var m: nat := if n < 0 then -n else n;
    var u := NatToString(m);
    NatToStringDigits(m);
    assert DigitRun(u) == |u|;
    assert u[..|u|] == u;
    NatToStringValue(m);
  }

  /** When everything after the sign is digits, ofToFloat and ofToInt agree. */
  lemma ParseRealOfDigits(s: string)
    requires AllDigits(Unsigned(SkipSpace(s)))
    ensures ParseReal(s) == ParseInt(s) as real
  {
    var u := Unsigned(SkipSpace(s));
    assert DigitRun(u) == |u|;
    assert u[|u|..] == "";
  }

  lemma ParseRealOfIntToString(n: int)
    ensures ParseReal(IntToString(n)) == n as real
  {
    ParseIntOfIntToString(n);
    IntToStringParts(n);
    NatToStringDigits(if n < 0 then -n else n);
    ParseRealOfDigits(IntToString(n));
  }

  // ---------------------------------------------------------------------------
  // ofSplitString(source, delimiter) with ignoreEmpty = false and trim = false

  /** Cuts s at every occurrence of d and keeps the empty pieces; the empty
      string gives one empty piece. */
  function Split(s: string, d: char): (r: seq<string>)
    ensures |r| >= 1
    decreases |s|
  {
    if |s| == 0 then [""]
    else
      var rest := Split(s[1..], d);
      if s[0] == d then [""] + rest else [[s[0]] + rest[0]] + rest[1..]
  }

  /** No piece contains the delimiter. */
  lemma {:induction false} SplitPieces(s: string, d: char)
    ensures forall i :: 0 <= i < |Split(s, d)| ==> d !in Split(s, d)[i]
    decreases |s|
  {
    if |s| > 0 {
      SplitPieces(s[1..], d);
      var rest := Split(s[1..], d);
      if s[0] != d {
        var h := [s[0]] + rest[0];
        assert forall c :: c in h ==> c == s[0] || c in rest[0];
      }
    }
  }

  /** Puts the pieces back together with d between neighbours. */
  function Join(ts: seq<string>, d: char): string
  {
    if |ts| == 0 then "" else if |ts| == 1 then ts[0] else ts[0] + [d] + Join(ts[1..], d)
  }

  lemma {:induction false} JoinSplit(s: string, d: char)
    ensures Join(Split(s, d), d) == s
    decreases |s|
  {
    if |s| > 0 {
      JoinSplit(s[1..], d);
      var rest := Split(s[1..], d);
      assert s == [s[0]] + s[1..];
      if s[0] == d {
        assert ([""] + rest)[1..] == rest;
      } else {
        var h := [s[0]] + rest[0];
        if |rest| > 1 {
          assert ([h] + rest[1..])[1..] == rest[1..];
        }
      }
    }
  }

  lemma {:induction false} SplitNoDelimiter(t: string, d: char)
    requires d !in t
    ensures Split(t, d) == [t]
    decreases |t|
  {
    if |t| > 0 {
      SplitNoDelimiter(t[1..], d);
      assert t == [t[0]] + t[1..];
    }
  }

  lemma {:induction false} SplitAtDelimiter(t: string, u: string, d: char)
    requires d !in t
    ensures Split(t + [d] + u, d) == [t] + Split(u, d)
    decreases |t|
  {
    var s := t + [d] + u;
    if |t| == 0 {
      assert s[1..] == u;
    } else {
      assert s[1..] == t[1..] + [d] + u;
      SplitAtDelimiter(t[1..], u, d);
      assert [t[0]] + t[1..] == t;
    }
  }

  lemma {:induction false} SplitJoin(ts: seq<string>, d: char)
    requires |ts| >= 1
    requires forall i :: 0 <= i < |ts| ==> d !in ts[i]
    ensures Split(Join(ts, d), d) == ts
    decreases |ts|
  {
    if |ts| == 1 {
      SplitNoDelimiter(ts[0], d);
    } else {
      SplitJoin(ts[1..], d);
      SplitAtDelimiter(ts[0], Join(ts[1..], d), d);
      assert [ts[0]] + ts[1..] == ts;
    }
  }

  // ---------------------------------------------------------------------------
  // ofToLower and ofFilePath::getFileExt

  function LowerChar(c: char): char
  {
    if 'A' <= c <= 'Z' then (c as int + 32) as char else c
  }

  /** ofToLower on ASCII text. */
  function ToLower(s: string): (r: string)
    ensures |r| == |s|
    ensures forall i :: 0 <= i < |s| ==> r[i] == LowerChar(s[i])
  {
    seq(|s|, i requires 0 <= i < |s| => LowerChar(s[i]))
  }

  /** The position of the last c in s, or -1. */
  function LastIndexOf(s: string, c: char): (k: int)
    ensures -1 <= k < |s|
    ensures k >= 0 ==> s[k] == c
    ensures forall i :: k < i < |s| ==> s[i] != c
  {
    if |s| == 0 then -1 else if s[|s| - 1] == c then |s| - 1 else LastIndexOf(s[..|s| - 1], c)
  }

  /** The last component of a '/'-separated path. */
  function FileName(path: string): (name: string)
    ensures '/' !in name
    ensures |name| <= |path| && name == path[|path| - |name|..]
  {
    path[LastIndexOf(path, '/') + 1..]
  }

  /** The text after the last '.' of a file name, without the dot; empty when
      the name has no '.' or only a leading one. */
  function ExtOfName(name: string): (ext: string)
    ensures '.' !in ext
    ensures |ext| <= |name| && ext == name[|name| - |ext|..]
  {
    var k := LastIndexOf(name, '.');
    if k <= 0 then "" else name[k + 1..]
  }

  /** ofFilePath::getFileExt: the extension of the path's file name. */
  function FileExt(path: string): (ext: string)
    ensures '.' !in ext && '/' !in ext
  {
    ExtOfName(FileName(path))
  }

  /** The last c is at k when s[k] is c and nothing after it is. */
  lemma LastIndexOfIs(s: string, c: char, k: int)
    requires 0 <= k < |s| && s[k] == c
    requires forall i :: k < i < |s| ==> s[i] != c
    ensures LastIndexOf(s, c) == k
  {
  }

  /** No c from b on puts the last c before b. */
  lemma LastIndexOfBelow(s: string, c: char, b: int)
    requires b >= 0
    requires forall i :: b <= i < |s| ==> s[i] != c
    ensures LastIndexOf(s, c) < b
  {
  }

  /** The file name of stem + "." + ext ends in "." + ext, after at least one
      more character. */
  lemma FileNameOfStem(stem: string, ext: string)
    requires |stem| > 0 && stem[|stem| - 1] != '/'
    requires '/' !in ext
    ensures |FileName(stem + "." + ext)| >= |ext| + 2
    ensures FileName(stem + "." + ext)[|FileName(stem + "." + ext)| - |ext| - 1] == '.'
    ensures FileName(stem + "." + ext)[|FileName(stem + "." + ext)| - |ext|..] == ext
  {
    var p := stem + "." + ext;
    var at := |stem|;
    assert p[at] == '.' && p[at + 1..] == ext && p[at - 1] == stem[at - 1];
    forall i | at - 1 <= i < |p| ensures p[i] != '/' {
      if i > at {
        assert p[i] == p[at + 1..][i - at - 1];
      }
    }
    LastIndexOfBelow(p, '/', at - 1);
    var j := LastIndexOf(p, '/');
    assert FileName(p) == p[j + 1..];
    assert p[j + 1..][|p| - j - 1 - |ext|..] == p[at + 1..];
  }

  /** A name ending in "." + ext, with ext free of dots and something before
      the dot, has extension ext. */
  lemma ExtOfNameIs(name: string, ext: string)
    requires |name| >= |ext| + 2 && '.' !in ext
    requires name[|name| - |ext| - 1] == '.' && name[|name| - |ext|..] == ext
    ensures ExtOfName(name) == ext
  {
    var pos := |name| - |ext| - 1;
    forall i | pos < i < |name| ensures name[i] != '.' {
      assert name[i] == name[pos + 1..][i - pos - 1];
    }
    LastIndexOfIs(name, '.', pos);
  }

  /** Appending "." + ext to a nonempty file stem makes ext the extension. */
  lemma FileExtOfStem(stem: string, ext: string)
    requires |stem| > 0 && stem[|stem| - 1] != '/'
    requires '/' !in ext && '.' !in ext
    ensures FileExt(stem + "." + ext) == ext
  {
    FileNameOfStem(stem, ext);
    ExtOfNameIs(FileName(stem + "." + ext), ext);
  }
}
