/** The string operations the store and its components rely on, written out
    over seq<char>: JavaScript's whitespace class, trim, ASCII lowercase, the
    /\s+/g to '-' replacement, decimal rendering of integers, parseInt,
    includes/startsWith and the replacement of the first occurrence of a
    character. */
module Text {
  import opened Wrappers

  /** A character of JavaScript's whitespace class (WhiteSpace and
      LineTerminator), as matched by \s and removed by trim(). */
  predicate IsSpace(c: char)
  {
    c == '\t' || c == '\n' || c == '\U{000B}' || c == '\U{000C}' || c == '\r' || c == ' '
    || c == '\U{00A0}' || c == '\U{1680}' || ('\U{2000}' <= c <= '\U{200A}')
    || c == '\U{2028}' || c == '\U{2029}' || c == '\U{202F}' || c == '\U{205F}'
    || c == '\U{3000}' || c == '\U{FEFF}'
  }

  predicate IsDigit(c: char)
  {
    '0' <= c <= '9'
  }

  predicate IsAsciiUpper(c: char)
  {
    'A' <= c <= 'Z'
  }

  predicate IsAsciiAlnum(c: char)
  {
    IsDigit(c) || IsAsciiUpper(c) || 'a' <= c <= 'z'
  }

  function LowerChar(c: char): (d: char)
    ensures !IsAsciiUpper(d)
    ensures IsAsciiUpper(c) || d == c
    ensures IsSpace(d) <==> IsSpace(c)
  {
    if IsAsciiUpper(c) then (c as int - 'A' as int + 'a' as int) as char else c
  }

  /** toLowerCase on the ASCII letters. */
  function Lower(s: string): (r: string)
    ensures |r| == |s|
    ensures forall i :: 0 <= i < |s| ==> r[i] == LowerChar(s[i])
  {
    seq(|s|, i requires 0 <= i < |s| => LowerChar(s[i]))
  }

  /** How many whitespace characters open s. */
  function LeadingSpaces(s: string): (k: nat)
    ensures k <= |s|
    ensures forall i :: 0 <= i < k ==> IsSpace(s[i])
    ensures k < |s| ==> !IsSpace(s[k])
  {
    if s != [] && IsSpace(s[0]) then 1 + LeadingSpaces(s[1..]) else 0
  }

  /** Where the whitespace that closes s begins. */
  function ContentEnd(s: string): (e: nat)
    ensures e <= |s|
    ensures forall i :: e <= i < |s| ==> IsSpace(s[i])
    ensures e > 0 ==> !IsSpace(s[e - 1])
  {
    if s != [] && IsSpace(s[|s| - 1]) then ContentEnd(s[..|s| - 1]) else |s|
  }

  /** s without its leading whitespace (what parseInt skips). */
  function TrimStart(s: string): (r: string)
    ensures |r| <= |s| && r == s[|s| - |r|..]
    ensures r == [] || !IsSpace(r[0])
    ensures forall i :: 0 <= i < |s| - |r| ==> IsSpace(s[i])
  {
    s[LeadingSpaces(s)..]
  }

  /** String.prototype.trim: the piece of s left once the whitespace at both
      ends is cut away. */
  function Trim(s: string): (r: string)
    ensures LeadingSpaces(s) + |r| <= |s|
    ensures r == s[LeadingSpaces(s)..LeadingSpaces(s) + |r|]
    ensures forall i :: LeadingSpaces(s) + |r| <= i < |s| ==> IsSpace(s[i])
    ensures r == [] || (!IsSpace(r[0]) && !IsSpace(r[|r| - 1]))
  {
    var k := LeadingSpaces(s);
    if k == |s| then []
    else
      var e := ContentEnd(s);
      assert k < e;
      s[k..e]
  }

  /** trim() is empty exactly when the string is all whitespace. */
  lemma TrimEmptyIff(s: string)
    ensures Trim(s) == [] <==> forall i :: 0 <= i < |s| ==> IsSpace(s[i])
  {
    var r := Trim(s);
    if r != [] {
      assert s[LeadingSpaces(s)] == r[0];
    }
  }

  /** Trimming twice is trimming once. */
  lemma TrimIdempotent(s: string)
    ensures Trim(Trim(s)) == Trim(s)
  {
    var r := Trim(s);
    if r != [] {
      assert LeadingSpaces(r) == 0;
      assert ContentEnd(r) == |r|;
    }
  }

  /** s.replace(/\s+/g, '-'): every maximal run of whitespace becomes one '-'. */
  function CollapseSpaces(s: string): (r: string)
    ensures |r| <= |s|
    ensures forall i :: 0 <= i < |r| ==> !IsSpace(r[i])
    decreases |s|
  {
    if s == [] then []
    else if IsSpace(s[0]) then "-" + CollapseSpaces(TrimStart(s))
    else [s[0]] + CollapseSpaces(s[1..])
  }

  /** A whitespace-free prefix passes through the replacement untouched. */
  lemma {:induction false} CollapsePrefix(a: string, t: string)
    requires forall i :: 0 <= i < |a| ==> !IsSpace(a[i])
    ensures CollapseSpaces(a + t) == a + CollapseSpaces(t)
  {
    if a != [] {
      var s := a + t;
      assert s[0] == a[0];
      assert s[1..] == a[1..] + t;
      CollapsePrefix(a[1..], t);
      calc {
        CollapseSpaces(s);
        [a[0]] + CollapseSpaces(a[1..] + t);
        [a[0]] + (a[1..] + CollapseSpaces(t));
        { assert a == [a[0]] + a[1..]; }
        a + CollapseSpaces(t);
      }
    } else {
      assert a + t == t;
    }
  }

  /** A string without whitespace is left unchanged. */
  lemma CollapseNoSpaces(s: string)
    requires forall i :: 0 <= i < |s| ==> !IsSpace(s[i])
    ensures CollapseSpaces(s) == s
  {
    CollapsePrefix(s, []);
    assert s + [] == s;
  }

  /** One maximal run w of whitespace, between a whitespace-free a and a b
      that does not open with whitespace, becomes exactly one '-'; together
      with CollapseSpaces' own ensures for whitespace-free strings this fixes
      the result on every input. */
  lemma CollapseRun(a: string, w: string, b: string)
    requires forall i :: 0 <= i < |a| ==> !IsSpace(a[i])
    requires w != [] && forall i :: 0 <= i < |w| ==> IsSpace(w[i])
    requires b == [] || !IsSpace(b[0])
    ensures CollapseSpaces(a + w + b) == a + "-" + CollapseSpaces(b)
  {
    assert a + w + b == a + (w + b);
    CollapsePrefix(a, w + b);
    var s := w + b;
    assert LeadingSpaces(s) == |w| by {
      var k := LeadingSpaces(s);
      assert forall i :: 0 <= i < |w| ==> s[i] == w[i];
      assert k < |s| ==> !IsSpace(s[k]);
      assert |w| < |s| ==> s[|w|] == b[0];
    }
    assert TrimStart(s) == b;
    assert s[0] == w[0];
  }

  lemma DigitIsNotSpace(c: char)
    requires IsDigit(c)
    ensures !IsSpace(c)
  {
  }

  function DigitChar(d: nat): (c: char)
    requires d < 10
    ensures IsDigit(c)
  {
    ('0' as int + d) as char
  }

  function DigitValue(c: char): (d: nat)
    requires IsDigit(c)
    ensures d < 10 && DigitChar(d) == c
  {
    c as int - '0' as int
  }

  /** The decimal rendering JavaScript gives a non-negative integer. */
  function NatToString(n: nat): (s: string)
    ensures s != [] && forall i :: 0 <= i < |s| ==> IsDigit(s[i])
    ensures (s[0] == '0') == (n == 0)
  {
    if n < 10 then [DigitChar(n)] else NatToString(n / 10) + [DigitChar(n % 10)]
  }

  /** The decimal rendering of any integer, with a leading '-' when negative. */
  function IntToString(n: int): (s: string)
    ensures s != []
    ensures (s[0] == '-') == (n < 0)
  {
    if n < 0 then "-" + NatToString(-n) else NatToString(n)
  }

  /** The value of a string of decimal digits. */
  function ParseDigits(s: string): (n: nat)
    requires forall i :: 0 <= i < |s| ==> IsDigit(s[i])
  {
    if s == [] then 0 else ParseDigits(s[..|s| - 1]) * 10 + DigitValue(s[|s| - 1])
  }

  /** Reading a rendered number back gives the number. */
  lemma {:induction false} ParseNatToString(n: nat)
    ensures ParseDigits(NatToString(n)) == n
  {
    if n >= 10 {
      var s := NatToString(n);
      assert s[..|s| - 1] == NatToString(n / 10);
      ParseNatToString(n / 10);
    }
  }

  /** The longest prefix of s made of decimal digits. */
  function LeadingDigits(s: string): (r: string)
    ensures |r| <= |s| && r == s[..|r|]
    ensures forall i :: 0 <= i < |r| ==> IsDigit(r[i])
    ensures |r| == |s| || !IsDigit(s[|r|])
  {
    if s != [] && IsDigit(s[0]) then [s[0]] + LeadingDigits(s[1..]) else []
  }

  /** parseInt(s) in base ten: skip leading whitespace, read an optional sign
      and then as many digits as there are; None stands for NaN. */
  function ParseInt(s: string): (r: Option<int>)
  {
    var t := TrimStart(s);
    if t != [] && t[0] == '-' then Negate(ParseUnsigned(t[1..]))
    else if t != [] && t[0] == '+' then ParseUnsigned(t[1..])
    else ParseUnsigned(t)
  }

  /** The digits at the front of s, if there are any. */
  function ParseUnsigned(s: string): (r: Option<int>)
    ensures r.Some? ==> r.value >= 0
  {
    var digits := LeadingDigits(s);
    if digits == [] then None else Some(ParseDigits(digits))
  }

  function Negate(r: Option<int>): Option<int>
  {
    if r.Some? then Some(-r.value) else None
  }

  /** parseInt reads back what NatToString and IntToString write. */
  lemma ParseIntOfIntToString(n: int)
    ensures ParseInt(IntToString(n)) == Some(n)
  {
    if n < 0 {
      var s := NatToString(-n);
      ParseUnsignedOfNatToString(-n);
      var t := "-" + s;
      assert t[0] == '-' && t[1..] == s;
      NoLeadingSpace(t);
    } else {
      var s := NatToString(n);
      ParseUnsignedOfNatToString(n);
      assert IsDigit(s[0]);
      NoLeadingSpace(s);
    }
  }

  lemma NoLeadingSpace(s: string)
    requires s != [] && !IsSpace(s[0])
    ensures TrimStart(s) == s
  {
  }

  lemma ParseUnsignedOfNatToString(n: nat)
    ensures ParseUnsigned(NatToString(n)) == Some(n)
  {
    var s := NatToString(n);
    ParseNatToString(n);
    AllDigitsLeading(s);
  }

  lemma {:induction false} AllDigitsLeading(s: string)
    requires forall i :: 0 <= i < |s| ==> IsDigit(s[i])
    ensures LeadingDigits(s) == s
  {
    if s != [] {
      AllDigitsLeading(s[1..]);
    }
  }

  /** s.startsWith(t). */
  predicate StartsWith(s: string, t: string)
  {
    |t| <= |s| && s[..|t|] == t
  }

  /** s.includes(t): t starts at some position of s. */
  predicate Contains(s: string, t: string)
    decreases |s|
  {
    StartsWith(s, t) || (s != [] && Contains(s[1..], t))
  }

  /** A string that includes t holds t's first character. */
  lemma {:induction false} ContainsHasFirst(s: string, t: string)
    requires t != [] && Contains(s, t)
    ensures t[0] in s
    decreases |s|
  {
    if StartsWith(s, t) {
      assert s[0] == t[0];
    } else {
      ContainsHasFirst(s[1..], t);
    }
  }

  /** s.indexOf(c) for a character that occurs. */
  function IndexOf(s: string, c: char): (i: nat)
    requires c in s
    ensures i < |s| && s[i] == c && c !in s[..i]
  {
    if s[0] == c then 0 else 1 + IndexOf(s[1..], c)
  }

  /** s.replace(c, ''): the first occurrence of c, if any, is removed. */
  function RemoveFirst(s: string, c: char): (r: string)
    ensures c !in s ==> r == s
    ensures c in s ==> |r| == |s| - 1 && r[..IndexOf(s, c)] == s[..IndexOf(s, c)]
                       && r[IndexOf(s, c)..] == s[IndexOf(s, c) + 1..]
  {
    if s == [] then []
    else if s[0] == c then s[1..]
    else [s[0]] + RemoveFirst(s[1..], c)
  }
}
