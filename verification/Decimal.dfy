/**
  Numbers as the servers print them (`cat_num_to_msg`) and read them (`atoi`, section
  7.22.1.2 of ISO/IEC 9899:2011, for values that fit an int).
  */
module Decimal {
  predicate IsDigit(c: char) {
    '0' <= c <= '9'
  }

  function IntToChar(d: nat): (c: char)
    requires d < 10
    ensures IsDigit(c) && DigitValue(c) == d
  {
    match d
    case 0 => '0'
    case 1 => '1'
    case 2 => '2'
    case 3 => '3'
    case 4 => '4'
    case 5 => '5'
    case 6 => '6'
    case 7 => '7'
    case 8 => '8'
    case _ => '9'
  }

  function DigitValue(c: char): (d: nat)
    requires IsDigit(c)
    ensures d < 10
  {
    c as int - '0' as int
  }

  /** The value of a string of digits. */
  function Value(s: string): nat
    requires forall i :: 0 <= i < |s| ==> IsDigit(s[i])
  {
    if s == "" then 0 else 10 * Value(s[..|s| - 1]) + DigitValue(s[|s| - 1])
  }

  /** The usual decimal notation: no leading zero, except in 0 itself. */
  predicate Canonical(s: string) {
    s != "" && (forall i :: 0 <= i < |s| ==> IsDigit(s[i])) && (s[0] == '0' ==> |s| == 1)
  }

  // ---- Printing ----

  function Length(num: nat): nat {
    if num == 0 then 0 else 1 + Length(num / 10)
  }

  /** num / 10^k */
  function Shifted(num: nat, k: nat): nat {
    if k == 0 then num else Shifted(num, k - 1) / 10
  }

  lemma {:induction false} ShiftedFirst(num: nat, k: nat)
    ensures Shifted(num / 10, k) == Shifted(num, k) / 10
  {
    if k > 0 { ShiftedFirst(num, k - 1); }
  }

  lemma {:induction false} ShiftedOut(num: nat)
    requires num > 0
    ensures Length(num) > 0 && Shifted(num, Length(num)) == 0 && 0 < Shifted(num, Length(num) - 1) < 10
  {
    var n := Length(num) - 1;
    if num / 10 > 0 {
      ShiftedOut(num / 10);
      ShiftedFirst(num, n);
      ShiftedFirst(num, n - 1);
    }
  }

  /** The first loop of cat_num_to_msg. */
  method CountDigits(num: nat) returns (len: nat)
    ensures len == if num == 0 then 1 else Length(num)
  {
    len := 0;
    var tmp := num;
    if tmp == 0 {
      len := 1;
    } else {
      while tmp != 0
        invariant tmp >= 0 && len + Length(tmp) == Length(num)
        decreases tmp
      {
        len := len + 1;
        tmp := tmp / 10;
      }
    }
  }

  /** cat_num_to_msg: counts the digits, then fills a buffer from its end. */
  method CatNumToMsg(msg: string, num: nat) returns (text: string)
    ensures text == msg + Notation(num)
  {
    var len := CountDigits(num);
    if num > 0 { ShiftedOut(num); }
    var numStr := new char[len](i => '0');
    var rest := num;
    var i := len - 1;
    while i >= 0
      invariant -1 <= i < len && numStr.Length == len
      invariant rest == Shifted(num, len - 1 - i)
      invariant forall k :: i < k < len ==>
                  IsDigit(numStr[k]) && DigitValue(numStr[k]) == Shifted(num, len - 1 - k) % 10
    {
      numStr[i] := IntToChar(rest % 10);
      rest := rest / 10;
      i := i - 1;
    }
    text := msg + numStr[..];
    DigitsSpell(numStr[..], num);
    CanonicalIsUnique(numStr[..], Notation(num));
  }

  lemma {:induction false} DigitsSpell(s: string, num: nat)
    requires forall k :: 0 <= k < |s| ==> IsDigit(s[k]) && DigitValue(s[k]) == Shifted(num, |s| - 1 - k) % 10
    requires Shifted(num, |s|) == 0
    ensures Value(s) == num
  {
    if s != "" {
      var rest := s[..|s| - 1];
      forall k | 0 <= k < |rest|
        ensures DigitValue(rest[k]) == Shifted(num / 10, |rest| - 1 - k) % 10
      {
        ShiftedFirst(num, |rest| - 1 - k);
        assert Shifted(num, |s| - 1 - k) == Shifted(num, |rest| - 1 - k) / 10;
      }
      ShiftedFirst(num, |rest|);
      DigitsSpell(rest, num / 10);
      assert Shifted(num, 0) == num;
    }
  }

  // ---- Reading ----

  predicate IsSpace(c: char) {
    c == ' ' || c == '\t' || c == '\n' || c == '\r' || c as int == 11 || c as int == 12
  }

  /** How many digits s starts with. */
  function Leading(s: string): (n: nat)
    ensures n <= |s| && (forall i :: 0 <= i < n ==> IsDigit(s[i])) && (n < |s| ==> !IsDigit(s[n]))
  {
    if s == "" || !IsDigit(s[0]) then 0 else 1 + Leading(s[1..])
  }

  function Atoi(s: string): int {
    if s == "" then 0
    else if IsSpace(s[0]) then Atoi(s[1..])
    else if s[0] == '-' then 0 - Value(s[1..][..Leading(s[1..])])
    else if s[0] == '+' then Value(s[1..][..Leading(s[1..])])
    else Value(s[..Leading(s)])
  }

  /** Digits are read as the number they spell. */
  lemma AtoiReadsDigits(s: string)
    requires s != "" && forall i :: 0 <= i < |s| ==> IsDigit(s[i])
    ensures Atoi(s) == Value(s)
  {
    assert IsDigit(s[0]) && s[..|s|] == s;
  }

  lemma {:induction false} LeadingIs(digits: string, rest: string)
    requires (forall i :: 0 <= i < |digits| ==> IsDigit(digits[i])) && (rest == "" || !IsDigit(rest[0]))
    ensures Leading(digits + rest) == |digits|
  {
    if digits == "" {
      assert digits + rest == rest;
    } else {
      assert (digits + rest)[1..] == digits[1..] + rest;
      LeadingIs(digits[1..], rest);
    }
  }

  lemma {:induction false} SkipBlanks(blanks: string, s: string)
    requires forall i :: 0 <= i < |blanks| ==> IsSpace(blanks[i])
    ensures Atoi(blanks + s) == Atoi(s)
  {
    if blanks == "" {
      assert blanks + s == s;
    } else {
      assert (blanks + s)[1..] == blanks[1..] + s;
      SkipBlanks(blanks[1..], s);
    }
  }

  lemma SignedIs(sign: char, digits: string, rest: string)
    requires sign == '+' || sign == '-'
    requires (forall i :: 0 <= i < |digits| ==> IsDigit(digits[i])) && (rest == "" || !IsDigit(rest[0]))
    ensures Atoi([sign] + (digits + rest)) == if sign == '-' then 0 - Value(digits) else Value(digits)
  {
    LeadingIs(digits, rest);
    assert ([sign] + (digits + rest))[1..] == digits + rest;
    assert (digits + rest)[..|digits|] == digits;
  }

  lemma UnsignedIs(digits: string, rest: string)
    requires (forall i :: 0 <= i < |digits| ==> IsDigit(digits[i])) && (rest == "" || !IsDigit(rest[0]))
    requires digits == "" && rest != "" ==> !IsSpace(rest[0]) && rest[0] != '+' && rest[0] != '-'
    ensures Atoi(digits + rest) == Value(digits)
  {
    LeadingIs(digits, rest);
    assert (digits + rest)[..|digits|] == digits;
    assert digits != "" ==> (digits + rest)[0] == digits[0];
    assert digits == "" ==> digits + rest == rest;
  }

  /** White space, at most one sign, digits, and anything that does not go on with the number. */
  lemma AtoiReads(blanks: string, sign: string, digits: string, rest: string)
    requires (forall i :: 0 <= i < |blanks| ==> IsSpace(blanks[i])) && sign in ["", "+", "-"]
    requires (forall i :: 0 <= i < |digits| ==> IsDigit(digits[i])) && (rest == "" || !IsDigit(rest[0]))
    requires sign == "" && digits == "" && rest != "" ==> !IsSpace(rest[0]) && rest[0] != '+' && rest[0] != '-'
    ensures Atoi(blanks + (sign + (digits + rest))) == if sign == "-" then 0 - Value(digits) else Value(digits)
  {
    hide Atoi, Value, IsDigit, IsSpace;
    SkipBlanks(blanks, sign + (digits + rest));
    if sign == "" {
      UnsignedIs(digits, rest);
      assert sign + (digits + rest) == digits + rest;
    } else {
      SignedIs(sign[0], digits, rest);
      assert sign == [sign[0]];
    }
  }

  // ---- Printing and reading are inverse ----

  lemma NoLeadingZero(s: string)
    ensures Canonical(s) && Value(s) > 0 ==> s[0] != '0'
  {
    if Canonical(s) && s[0] == '0' {
      assert s[..|s| - 1] == "";
      assert Value(s) == DigitValue(s[0]);
    }
  }

  /** The decimal notation as a function: what CatNumToMsg appends. */
  function Notation(num: nat): (s: string)
    ensures Canonical(s) && Value(s) == num
  {
    if num < 10 then [IntToChar(num)]
    else
      var s := Notation(num / 10);
      var t := s + [IntToChar(num % 10)];
      assert t[..|t| - 1] == s;
      NoLeadingZero(s);
      t
  }

  lemma {:induction false} ValueBelow(s: string, n: nat)
    requires s != "" && n < |s| && forall i :: 0 <= i < |s| ==> IsDigit(s[i])
    requires s[0] != '0'
    ensures Value(s) > 0
  {
    if |s| > 1 { ValueBelow(s[..|s| - 1], 0); }
  }

  lemma TenTimes(v: nat, q: nat, d: nat)
    requires v == 10 * q + d && d < 10
    ensures v % 10 == d && v / 10 == q
  {
  }

  lemma LastDigit(s: string)
    requires Canonical(s)
    ensures DigitValue(s[|s| - 1]) == Value(s) % 10 && Value(s[..|s| - 1]) == Value(s) / 10
    ensures s == s[..|s| - 1] + [s[|s| - 1]]
  {
    TenTimes(Value(s), Value(s[..|s| - 1]), DigitValue(s[|s| - 1]));
  }

  lemma PrefixCanonical(s: string)
    requires Canonical(s) && |s| > 1
    ensures Canonical(s[..|s| - 1]) && Value(s[..|s| - 1]) > 0
  {
    ValueBelow(s[..|s| - 1], 0);
  }

  lemma ShortValue(s: string)
    requires Canonical(s) && |s| == 1
    ensures Value(s) < 10 && Value(s[..|s| - 1]) == 0
  {
  }

  /** There is only one canonical notation of a number. */
  lemma {:induction false} CanonicalIsUnique(a: string, b: string)
    requires Canonical(a) && Canonical(b) && Value(a) == Value(b)
    ensures a == b
  {
    LastDigit(a);
    LastDigit(b);
    if |a| > 1 { PrefixCanonical(a); } else { ShortValue(a); }
    if |b| > 1 { PrefixCanonical(b); } else { ShortValue(b); }
    hide Value, Canonical;
    if |a| > 1 && |b| > 1 { CanonicalIsUnique(a[..|a| - 1], b[..|b| - 1]); }
  }

  /** Every number is read back from its notation, and every canonical notation is printed back. */
  lemma PrintedIsRead(num: nat, s: string)
    ensures Atoi(Notation(num)) == num
    ensures Canonical(s) ==> Atoi(s) >= 0 && Notation(Atoi(s)) == s
  {
    AtoiReadsDigits(Notation(num));
    if Canonical(s) {
      AtoiReadsDigits(s);
      CanonicalIsUnique(Notation(Value(s)), s);
    }
  }
}
