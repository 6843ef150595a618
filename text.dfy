/** String operations the monitors rely on: Python's `str.lower`, the `in`
    operator on strings, `split`, `strip`, `replace` and `int()`, restricted to
    the ASCII behaviour the detectors and the dfx-output parser need. */
module Text {
  import opened Common

  /* ---------------------------------------------------------------------- */
  /* Lower-casing                                                           */
  /* ---------------------------------------------------------------------- */

  function LowerChar(c: char): char {
    if 'A' <= c <= 'Z' then (c as int + 32) as char else c
  }

  /** `s.lower()` on ASCII letters; every other character is kept. */
  function Lower(s: string): (r: string)
    ensures |r| == |s|
    ensures forall i :: 0 <= i < |s| ==> r[i] == LowerChar(s[i])
  {
    seq(|s|, i requires 0 <= i < |s| => LowerChar(s[i]))
  }

  /** Lower-casing twice is lower-casing once, so keyword lists written in
      lower case behave the same on already lower-cased names. */
  lemma LowerIdempotent(s: string)
    ensures Lower(Lower(s)) == Lower(s)
  {
    assert forall i :: 0 <= i < |s| ==> LowerChar(LowerChar(s[i])) == LowerChar(s[i]);
  }

  /* ---------------------------------------------------------------------- */
  /* Substring containment: Python's `needle in hay`                        */
  /* ---------------------------------------------------------------------- */

  predicate IsInfix(needle: string, hay: string)
    decreases |hay|
  {
    needle <= hay || (|hay| > 0 && IsInfix(needle, hay[1..]))
  }

  ghost predicate OccursAt(needle: string, hay: string, i: int) {
    0 <= i <= |hay| - |needle| && hay[i..i + |needle|] == needle
  }

  /** The recursive scan agrees with the positional definition of "occurs in". */
  lemma {:induction false} InfixIffOccurs(needle: string, hay: string)
    ensures IsInfix(needle, hay) <==> exists i :: OccursAt(needle, hay, i)
    decreases |hay|
  {
    if needle <= hay {
      assert OccursAt(needle, hay, 0);
    } else if |hay| > 0 {
      InfixIffOccurs(needle, hay[1..]);
      if IsInfix(needle, hay[1..]) {
        var j :| OccursAt(needle, hay[1..], j);
        assert hay[1..][j..j + |needle|] == hay[j + 1..j + 1 + |needle|];
        assert OccursAt(needle, hay, j + 1);
      }
      if i :| OccursAt(needle, hay, i) {
        assert i != 0;
        assert hay[1..][i - 1..i - 1 + |needle|] == hay[i..i + |needle|];
        assert OccursAt(needle, hay[1..], i - 1);
      }
    } else {
      assert |needle| > 0;
    }
  }

  /** A character of the needle is a character of any string containing it. */
  lemma InfixHasChars(needle: string, hay: string, k: int)
    requires IsInfix(needle, hay) && 0 <= k < |needle|
    ensures needle[k] in hay
  {
    InfixIffOccurs(needle, hay);
    var i :| OccursAt(needle, hay, i);
    assert hay[i + k] == needle[k];
  }

  /** A needle placed anywhere inside a string occurs in it. */
  lemma {:induction false} InfixAt(needle: string, before: string, after: string)
    ensures IsInfix(needle, before + needle + after)
    decreases |before|
  {
    var hay := before + needle + after;
    if before == [] {
      assert hay == needle + after;
      assert needle <= hay;
    } else {
      assert hay[1..] == before[1..] + needle + after;
      InfixAt(needle, before[1..], after);
    }
  }

  /** A string lacking the needle's first character does not contain it. */
  lemma NotInfixWithoutFirstChar(needle: string, hay: string)
    requires |needle| > 0 && needle[0] !in hay
    ensures !IsInfix(needle, hay)
  {
    if IsInfix(needle, hay) {
      InfixHasChars(needle, hay, 0);
    }
  }

  /** True iff one of `keywords` occurs in `s`: `any(k in s for k in keywords)`. */
  predicate ContainsAny(s: string, keywords: seq<string>) {
    exists i :: 0 <= i < |keywords| && IsInfix(keywords[i], s)
  }

  /* ---------------------------------------------------------------------- */
  /* Splitting and joining on one separator character                       */
  /* ---------------------------------------------------------------------- */

  /** `s.split(sep)` for a one-character separator: the pieces between
      separators, always at least one (`"".split("\n") == [""]`). */
  function Split(s: string, sep: char): (r: seq<string>)
    ensures |r| >= 1
    ensures forall i :: 0 <= i < |r| ==> sep !in r[i]
    ensures sep in s ==> |r| >= 2
    ensures sep !in s ==> r == [s]
  {
    if s == [] then [""]
    else
      var rest := Split(s[1..], sep);
      assert s == [s[0]] + s[1..];
      if s[0] == sep then [""] + rest
      else [[s[0]] + rest[0]] + rest[1..]
  }

  /** `sep.join(parts)`. */
  function Join(parts: seq<string>, sep: char): string {
    if |parts| == 0 then ""
    else if |parts| == 1 then parts[0]
    else parts[0] + [sep] + Join(parts[1..], sep)
  }

  /** Splitting a string at a separator it contains once splits off the head. */
  lemma {:induction false} SplitAfterHead(a: string, sep: char, b: string)
    requires sep !in a
    ensures Split(a + [sep] + b, sep) == [a] + Split(b, sep)
    decreases |a|
  {
    if a == [] {
      assert a + [sep] + b == [sep] + b;
      assert ([sep] + b)[1..] == b;
    } else {
      SplitAfterHead(a[1..], sep, b);
      assert (a + [sep] + b)[1..] == a[1..] + [sep] + b;
      assert [a[0]] + a[1..] == a;
    }
  }

  /** Splitting undoes joining, as long as no part holds the separator. */
  lemma {:induction false} SplitJoin(parts: seq<string>, sep: char)
    requires |parts| >= 1
    requires forall i :: 0 <= i < |parts| ==> sep !in parts[i]
    ensures Split(Join(parts, sep), sep) == parts
    decreases |parts|
  {
    if |parts| > 1 {
      SplitJoin(parts[1..], sep);
      SplitAfterHead(parts[0], sep, Join(parts[1..], sep));
      assert [parts[0]] + parts[1..] == parts;
    }
  }

  /* ---------------------------------------------------------------------- */
  /* Whitespace tokens: `s.strip().split()[0]`                              */
  /* ---------------------------------------------------------------------- */

  /** ASCII whitespace as `str.split()` and `str.strip()` see it. */
  predicate IsSpace(c: char) {
    c == ' ' || c == '\t' || c == '\n' || c == '\r' || c == '\U{0B}' || c == '\U{0C}'
    || c == '\U{1C}' || c == '\U{1D}' || c == '\U{1E}' || c == '\U{1F}'
  }

  function SkipSpace(s: string): (r: string)
    ensures |r| <= |s| && r == s[|s| - |r|..]
    ensures r != [] ==> !IsSpace(r[0])
    ensures forall i :: 0 <= i < |s| - |r| ==> IsSpace(s[i])
  {
    if s != [] && IsSpace(s[0]) then
      var r := SkipSpace(s[1..]);
      assert s[1..][|s| - 1 - |r|..] == s[|s| - |r|..];
      assert forall i :: 1 <= i < |s| - |r| ==> s[i] == s[1..][i - 1];
      r
    else s
  }

  function TakeToken(s: string): (r: string)
    ensures r <= s
    ensures forall i :: 0 <= i < |r| ==> !IsSpace(r[i])
    ensures |r| < |s| ==> IsSpace(s[|r|])
  {
    if s == [] || IsSpace(s[0]) then [] else [s[0]] + TakeToken(s[1..])
  }

  /** `t` is the first maximal run of non-space characters of `s`: it starts
      at `k`, only whitespace comes before it, and whitespace or the end of
      `s` comes right after it. */
  ghost predicate FirstRunAt(s: string, k: int, t: string) {
    0 <= k <= |s| - |t|
    && (forall i :: 0 <= i < k ==> IsSpace(s[i]))
    && s[k..k + |t|] == t
    && (k + |t| == |s| || IsSpace(s[k + |t|]))
  }

  /** The first whitespace-separated token of `s`, or None where
      `s.strip().split()[0]` raises IndexError (nothing but whitespace). */
  function FirstToken(s: string): (r: Option<string>)
    ensures r.Some? ==> r.value != [] && forall i :: 0 <= i < |r.value| ==> !IsSpace(r.value[i])
    ensures r.Some? ==> FirstRunAt(s, |s| - |SkipSpace(s)|, r.value)
    ensures r.None? <==> forall i :: 0 <= i < |s| ==> IsSpace(s[i])
  {
    var t := SkipSpace(s);
    if t == [] then None
    else
      TokenIsFirstRun(s);
      Some(TakeToken(t))
  }

  /** After the leading whitespace, the token taken is a whole run. */
  lemma TokenIsFirstRun(s: string)
    requires SkipSpace(s) != []
    ensures TakeToken(SkipSpace(s)) != []
    ensures FirstRunAt(s, |s| - |SkipSpace(s)|, TakeToken(SkipSpace(s)))
  {
    var t := SkipSpace(s);
    var token := TakeToken(t);
    assert token != [] by {
      assert !IsSpace(t[0]);
      assert token == [t[0]] + TakeToken(t[1..]);
    }
    var k := |s| - |t|;
    assert t == s[k..];
    assert 0 <= k <= |s| - |token|;
    assert forall i :: 0 <= i < k ==> IsSpace(s[i]);
    assert s[k..k + |token|] == token by {
      assert s[k..][..|token|] == s[k..k + |token|];
      assert t[..|token|] == token;
    }
    assert k + |token| == |s| || IsSpace(s[k + |token|]) by {
      if k + |token| < |s| {
        assert s[k + |token|] == t[|token|];
      }
    }
  }

  /** A run of non-space characters ended by a space or by the end of the
      string is taken whole. */
  lemma {:induction false} TakeTokenWhole(t: string, rest: string)
    requires forall i :: 0 <= i < |t| ==> !IsSpace(t[i])
    requires rest == [] || IsSpace(rest[0])
    ensures TakeToken(t + rest) == t
  {
    if t == [] {
      assert t + rest == rest;
    } else {
      assert (t + rest)[1..] == t[1..] + rest;
      TakeTokenWhole(t[1..], rest);
    }
  }

  /** The first token after one leading space. */
  lemma FirstTokenAfterSpace(t: string, rest: string)
    requires t != [] && forall i :: 0 <= i < |t| ==> !IsSpace(t[i])
    requires rest == [] || IsSpace(rest[0])
    ensures FirstToken(" " + t + rest) == Some(t)
  {
    var s := " " + t + rest;
    assert s[1..] == t + rest;
    assert SkipSpace(t + rest) == t + rest;
    TakeTokenWhole(t, rest);
  }

  /** `s.replace(c, "")`: every `c` is deleted, every other character is
      kept as often as it occurs. */
  function Without(s: string, c: char): (r: string)
    ensures c !in r
    ensures c !in s ==> r == s
  {
    if s == [] then [] else (if s[0] == c then [] else [s[0]]) + Without(s[1..], c)
  }

  /** Only `c` is deleted: every other character stays, as often as it
      occurs in `s`. */
  lemma {:induction false} WithoutKeepsOthers(s: string, c: char)
    ensures multiset(Without(s, c)) == multiset(s)[c := 0]
  {
    if s != [] {
      WithoutKeepsOthers(s[1..], c);
      assert s == [s[0]] + s[1..];
    }
  }

  /** Deleting a character works piece by piece, so the characters kept stay
      in their order. */
  lemma {:induction false} WithoutConcat(a: string, b: string, c: char)
    ensures Without(a + b, c) == Without(a, c) + Without(b, c)
    decreases |a|
  {
    if a == [] {
      assert a + b == b;
    } else {
      assert (a + b)[0] == a[0] && (a + b)[1..] == a[1..] + b;
      WithoutConcat(a[1..], b, c);
    }
  }

  /* ---------------------------------------------------------------------- */
  /* Decimal integers: `int(token)` and `str(n)`                            */
  /* ---------------------------------------------------------------------- */

  predicate IsDigit(c: char) { '0' <= c <= '9' }

  predicate AllDigits(s: string) { forall i :: 0 <= i < |s| ==> IsDigit(s[i]) }

  function DigitValue(c: char): nat requires IsDigit(c) { c as int - '0' as int }

  function DigitChar(d: nat): (c: char)
    requires d < 10
    ensures IsDigit(c) && DigitValue(c) == d
  {
    ('0' as int + d) as char
  }

  /** The value of a string of decimal digits, most significant first. */
  function DigitsValue(s: string): nat
    requires AllDigits(s)
  {
    if s == [] then 0 else 10 * DigitsValue(s[..|s| - 1]) + DigitValue(s[|s| - 1])
  }

  /** `int(s)` in base 10 for a string without whitespace or underscores: an
      optional sign, then at least one digit; None where Python raises
      ValueError. */
  function ParseInt(s: string): (r: Option<int>)
    ensures r.Some? <==>
      ((s != [] && AllDigits(s)) || (|s| >= 2 && (s[0] == '+' || s[0] == '-') && AllDigits(s[1..])))
    ensures r.Some? ==> r.value == if s[0] == '-' then -(DigitsValue(s[1..]) as int)
                                   else if s[0] == '+' then DigitsValue(s[1..])
                                   else DigitsValue(s)
    ensures r.Some? && s[0] != '-' ==> r.value >= 0
  {
    if |s| > 0 && (s[0] == '+' || s[0] == '-') then
      var digits := s[1..];
      if digits != [] && AllDigits(digits) then
        var v: int := DigitsValue(digits);
        Some(if s[0] == '-' then -v else v)
      else None
    else if s != [] && AllDigits(s) then Some(DigitsValue(s))
    else None
  }

  /** `str(n)` for a natural number. */
  function NatToString(n: nat): (r: string)
    ensures r != [] && AllDigits(r)
  {
    if n < 10 then [DigitChar(n)] else NatToString(n / 10) + [DigitChar(n % 10)]
  }

  /** Three decimal digits with leading zeros: one group of a grouped
      rendering. */
  function Group3(d: nat): (r: string)
    requires d < 1000
    ensures |r| == 3 && AllDigits(r)
  {
    [DigitChar(d / 100), DigitChar(d / 10 % 10), DigitChar(d % 10)]
  }

  /** How `dfx` prints a Candid `nat`: its decimal digits with an `_` between
      groups of three, counted from the right (`1_000_000`). */
  function GroupedNatToString(n: nat): (r: string)
    ensures r != []
    ensures forall k :: 0 <= k < |r| ==> IsDigit(r[k]) || r[k] == '_'
  {
    if n < 1000 then NatToString(n) else GroupedNatToString(n / 1000) + "_" + Group3(n % 1000)
  }

  /** The plain rendering of a number of four or more digits ends with its
      last three digits. */
  lemma NatToStringLastGroup(n: nat)
    requires n >= 1000
    ensures NatToString(n) == NatToString(n / 1000) + Group3(n % 1000)
  {
    var q, m := n / 1000, n % 1000;
    assert n / 10 == 100 * q + m / 10;
    assert n / 10 / 10 == 10 * q + m / 100;
    assert n / 10 / 10 / 10 == q;
    assert n / 10 % 10 == m / 10 % 10;
    assert n / 10 / 10 % 10 == m / 100;
    assert NatToString(n / 10 / 10) == NatToString(q) + [DigitChar(m / 100)];
  }

  /** A string of digits holds no group separator. */
  lemma DigitsHaveNoSeparator(s: string)
    requires AllDigits(s)
    ensures Without(s, '_') == s
  {
    assert forall k :: 0 <= k < |s| ==> s[k] != '_';
  }

  /** Deleting the separators around one group of digits. */
  lemma WithoutBeforeGroup(head: string, group: string)
    requires AllDigits(group)
    ensures Without(head + "_" + group, '_') == Without(head, '_') + group
  {
    var sep := ['_'];
    assert head + "_" + group == (head + sep) + group;
    WithoutConcat(head + sep, group, '_');
    WithoutConcat(head, sep, '_');
    assert Without(sep, '_') == [] by {
      assert sep[1..] == [];
    }
    DigitsHaveNoSeparator(group);
    assert Without(head + sep, '_') == Without(head, '_');
  }

  /** Deleting the group separators from the grouped rendering leaves the
      plain one: `int('1_000_000'.replace('_', ''))` reads the digits back. */
  lemma {:induction false} GroupedWithoutSeparators(n: nat)
    ensures Without(GroupedNatToString(n), '_') == NatToString(n)
  {
    if n < 1000 {
      DigitsHaveNoSeparator(NatToString(n));
    } else {
      var q: nat, m := n / 1000, n % 1000;
      WithoutBeforeGroup(GroupedNatToString(q), Group3(m));
      GroupedWithoutSeparators(q);
      NatToStringLastGroup(n);
    }
  }

  /** Python reads a grouped rendering back, once its separators are
      deleted. */
  lemma ParseGroupedNat(n: nat)
    ensures ParseInt(Without(GroupedNatToString(n), '_')) == Some(n)
  {
    GroupedWithoutSeparators(n);
    DigitsOfNat(n);
  }

  /** `str(i)` for any integer. */
  function IntToString(i: int): (r: string)
    ensures r != []
    ensures forall k :: 0 <= k < |r| ==> IsDigit(r[k]) || r[k] == '-'
  {
    if i < 0 then "-" + NatToString(-i) else NatToString(i)
  }

  lemma {:induction false} DigitsOfNat(n: nat)
    ensures DigitsValue(NatToString(n)) == n
  {
    if n >= 10 {
      DigitsOfNat(n / 10);
      var s := NatToString(n);
      assert s[..|s| - 1] == NatToString(n / 10);
    }
  }

  /** Parsing the decimal rendering of an integer gives the integer back. */
  lemma ParseIntToString(i: int)
    ensures ParseInt(IntToString(i)) == Some(i)
  {
    if i < 0 {
      DigitsOfNat(-i);
      assert IntToString(i)[1..] == NatToString(-i);
    } else {
      DigitsOfNat(i);
    }
  }
}
