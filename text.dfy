/** The JavaScript string operations the core relies on: `trim`, the
    character-class `replace` calls, `startsWith`, `toLowerCase`, the first-match
    `replace("+", "")` and `String(n)` on a natural number. */
module Text {
  import opened Wrappers

  /** A nullable string that JavaScript treats as true: present and non-empty. */
  predicate Truthy(s: Option<string>) { s.Some? && s.value != "" }

  /** `${v}` in a template literal: a string as it is, null as the text `null`. */
  function Interpolated(v: Option<string>): string { if v.Some? then v.value else "null" }

  predicate IsDigit(c: char) { '0' <= c <= '9' }

  predicate IsDigitOrPlus(c: char) { IsDigit(c) || c == '+' }

  /** The characters `String.prototype.trim` removes: ECMAScript WhiteSpace and LineTerminator. */
  predicate IsSpace(c: char) {
    || c == '\t' || c == '\n' || c == '\U{000B}' || c == '\U{000C}' || c == '\r' || c == ' '
    || c == '\U{00A0}' || c == '\U{1680}' || ('\U{2000}' <= c <= '\U{200A}')
    || c == '\U{2028}' || c == '\U{2029}' || c == '\U{202F}' || c == '\U{205F}'
    || c == '\U{3000}' || c == '\U{FEFF}'
  }

  predicate AllDigits(s: string) { forall i :: 0 <= i < |s| ==> IsDigit(s[i]) }

  /** Drops leading white space (`TrimStartDrops` states what it drops). */
  function TrimStart(s: string): (r: string)
    ensures |r| <= |s|
  {
    if |s| > 0 && IsSpace(s[0]) then TrimStart(s[1..]) else s
  }

  /** Drops trailing white space (`TrimEndDrops` states what it drops). */
  function TrimEnd(s: string): (r: string)
    ensures |r| <= |s|
  {
    if |s| > 0 && IsSpace(s[|s| - 1]) then TrimEnd(s[..|s| - 1]) else s
  }

  /** `s.trim()` (`TrimDrops` states what it drops). */
  function Trim(s: string): (r: string)
    ensures |r| <= |s|
  {
    TrimEnd(TrimStart(s))
  }

  /** The characters of `s` that satisfy `p`, in order: `s.replace(/[^…]/g, "")`. */
  function Keep(s: string, p: char -> bool): (r: string)
    ensures |r| <= |s|
  {
    if s == [] then [] else (if p(s[0]) then [s[0]] else []) + Keep(s[1..], p)
  }

  /** `s.replace(/[^\d]/g, "")`, also written `s.replace(/\D/g, "")`. */
  function Digits(s: string): string { Keep(s, IsDigit) }

  /** `s.replace(/[^\d+]/g, "")`. */
  function DigitsAndPlus(s: string): string { Keep(s, IsDigitOrPlus) }

  predicate StartsWith(s: string, prefix: string) {
    |prefix| <= |s| && s[..|prefix|] == prefix
  }

  function LowerChar(c: char): char {
    if 'A' <= c <= 'Z' then (c as int - 'A' as int + 'a' as int) as char else c
  }

  /** `s.toLowerCase()` on the ASCII letters. */
  function ToLower(s: string): (r: string)
    ensures |r| == |s|
  {
    seq(|s|, i requires 0 <= i < |s| => LowerChar(s[i]))
  }

  /** `s.replace("+", "")`: removes the first `'+'` only. */
  function RemoveFirstPlus(s: string): (r: string)
    ensures '+' !in s ==> r == s
    ensures '+' in s ==> |r| == |s| - 1 && multiset(r) == multiset(s) - multiset{'+'}
    ensures s != [] && s[0] == '+' ==> r == s[1..]
  {
    if s == [] then []
    else if s[0] == '+' then assert s == [s[0]] + s[1..]; s[1..]
    else assert s == [s[0]] + s[1..]; [s[0]] + RemoveFirstPlus(s[1..])
  }

  function DigitChar(d: nat): (c: char)
    requires d < 10
    ensures IsDigit(c)
  {
    ('0' as int + d) as char
  }

  /** `String(n)` for a natural number: its decimal digits, without leading zeros. */
  function Decimal(n: nat): (r: string)
    ensures |r| >= 1 && AllDigits(r)
    ensures n > 0 ==> r[0] != '0'
    decreases n
  {
    if n < 10 then [DigitChar(n)] else Decimal(n / 10) + [DigitChar(n % 10)]
  }

  /** The number a string of decimal digits denotes. */
  function DecimalValue(s: string): nat
    requires AllDigits(s)
  {
    if s == [] then 0 else 10 * DecimalValue(s[..|s| - 1]) + (s[|s| - 1] as int - '0' as int)
  }

  function Pow10(k: nat): nat { if k == 0 then 1 else 10 * Pow10(k - 1) }

  /** A character JavaScript stores as a surrogate pair: one outside the
      Basic Multilingual Plane. */
  predicate IsAstral(c: char) { c >= '\U{10000}' }

  /** `s.length`: the number of UTF-16 code units, two for an astral
      character and one for any other. */
  function Utf16Length(s: string): (n: nat)
    ensures |s| <= n <= 2 * |s|
  {
    if s == [] then 0 else (if IsAstral(s[0]) then 2 else 1) + Utf16Length(s[1..])
  }

  // ---------------------------------------------------------------- lemmas

  /** `TrimStart` returns a suffix of `s`; everything it drops is white space
      and what it keeps does not start with white space. */
  lemma {:induction false} TrimStartDrops(s: string)
    ensures var r := TrimStart(s);
            && r == s[|s| - |r|..]
            && (forall i :: 0 <= i < |s| - |r| ==> IsSpace(s[i]))
            && (r == [] || !IsSpace(r[0]))
  {
    if |s| > 0 && IsSpace(s[0]) {
      TrimStartDrops(s[1..]);
    }
  }

  /** `TrimEnd` returns a prefix of `s`; everything it drops is white space
      and what it keeps does not end with white space. */
  lemma {:induction false} TrimEndDrops(s: string)
    ensures var r := TrimEnd(s);
            && r == s[..|r|]
            && (forall i :: |r| <= i < |s| ==> IsSpace(s[i]))
            && (r == [] || !IsSpace(r[|r| - 1]))
  {
    if |s| > 0 && IsSpace(s[|s| - 1]) {
      TrimEndDrops(s[..|s| - 1]);
    }
  }

  /** `trim()` keeps a contiguous part of `s`, starting where `TrimStart`
      stops, that neither starts nor ends with white space, and drops only white
      space around it. */
  lemma TrimDrops(s: string)
    ensures var r, k := Trim(s), |s| - |TrimStart(s)|;
            && k + |r| <= |s| && r == s[k..k + |r|]
            && (forall i :: 0 <= i < k ==> IsSpace(s[i]))
            && (forall i :: k + |r| <= i < |s| ==> IsSpace(s[i]))
            && (r == [] || (!IsSpace(r[0]) && !IsSpace(r[|r| - 1])))
  {
    var t := TrimStart(s);
    var r := TrimEnd(t);
    TrimStartDrops(s);
    TrimEndDrops(t);
    var k := |s| - |t|;
    assert r == s[k..k + |r|];
    forall i | k + |r| <= i < |s| ensures IsSpace(s[i]) {
      assert s[i] == t[i - k];
    }
    if r != [] {
      assert r[0] == t[0] by { assert r == t[..|r|]; }
    }
  }

  /** Every kept character passes the filter. */
  lemma {:induction false} KeepPasses(s: string, p: char -> bool)
    ensures forall i :: 0 <= i < |Keep(s, p)| ==> p(Keep(s, p)[i])
  {
    if s != [] {
      KeepPasses(s[1..], p);
    }
  }

  lemma {:induction false} KeepConcat(a: string, b: string, p: char -> bool)
    ensures Keep(a + b, p) == Keep(a, p) + Keep(b, p)
  {
    if a != [] {
      assert (a + b)[1..] == a[1..] + b;
      KeepConcat(a[1..], b, p);
    } else {
      assert a + b == b;
    }
  }

  lemma {:induction false} KeepIgnoresTrimStart(s: string, p: char -> bool)
    requires forall c :: IsSpace(c) ==> !p(c)
    ensures Keep(TrimStart(s), p) == Keep(s, p)
  {
    if |s| > 0 && IsSpace(s[0]) {
      KeepIgnoresTrimStart(s[1..], p);
    }
  }

  lemma {:induction false} KeepIgnoresTrimEnd(s: string, p: char -> bool)
    requires forall c :: IsSpace(c) ==> !p(c)
    ensures Keep(TrimEnd(s), p) == Keep(s, p)
  {
    if |s| > 0 && IsSpace(s[|s| - 1]) {
      var init := s[..|s| - 1];
      assert s == init + [s[|s| - 1]];
      KeepConcat(init, [s[|s| - 1]], p);
      KeepIgnoresTrimEnd(init, p);
    }
  }

  /** A character is kept exactly when it occurs in `s` and passes the filter. */
  lemma {:induction false} KeepMembers(s: string, p: char -> bool)
    ensures forall c :: c in Keep(s, p) <==> c in s && p(c)
  {
    if s != [] {
      KeepMembers(s[1..], p);
      assert s == [s[0]] + s[1..];
    }
  }

  /** Filtering with a class that excludes white space makes a preceding `trim()` irrelevant. */
  lemma KeepIgnoresTrim(s: string, p: char -> bool)
    requires forall c :: IsSpace(c) ==> !p(c)
    ensures Keep(Trim(s), p) == Keep(s, p)
  {
    KeepIgnoresTrimStart(s, p);
    KeepIgnoresTrimEnd(TrimStart(s), p);
  }

  /** A character the filter rejects can be inserted anywhere without effect. */
  lemma KeepSkips(a: string, b: string, c: char, p: char -> bool)
    requires !p(c)
    ensures Keep(a + [c] + b, p) == Keep(a + b, p)
  {
    var ka, kb := Keep(a, p), Keep(b, p);
    var kc := Keep([c], p);
    assert kc == [] by {
      assert [c][1..] == [];
    }
    KeepConcat(a + [c], b, p);
    KeepConcat(a, [c], p);
    KeepConcat(a, b, p);
    assert ka + kc == ka;
  }

  /** Filtering a string all of whose characters pass changes nothing. */
  lemma {:induction false} KeepAll(s: string, p: char -> bool)
    requires forall i :: 0 <= i < |s| ==> p(s[i])
    ensures Keep(s, p) == s
  {
    if s != [] { KeepAll(s[1..], p); }
  }

  /** The digits of `+` followed by digits are those digits. */
  lemma DigitsAfterPlus(t: string)
    requires AllDigits(t)
    ensures Digits("+" + t) == t
  {
    KeepConcat("+", t, IsDigit);
    KeepAll(t, IsDigit);
  }

  /** Trimming a string without white space changes nothing. */
  lemma TrimNoSpace(s: string)
    requires forall i :: 0 <= i < |s| ==> !IsSpace(s[i])
    ensures Trim(s) == s
  {
    TrimStartDrops(s);
    TrimEndDrops(s);
  }

  /** `trim()` is idempotent. */
  lemma TrimTrim(s: string)
    ensures Trim(Trim(s)) == Trim(s)
  {
    var t := Trim(s);
    TrimDrops(s);
    if t != [] {
      assert TrimStart(t) == t;
      assert TrimEnd(t) == t;
    }
  }

  lemma DigitsIgnoresTrim(s: string)
    ensures Digits(Trim(s)) == Digits(s)
  {
    KeepIgnoresTrim(s, IsDigit);
  }

  /** The number of decimal digits of `n` is `k` exactly when `10^(k-1) <= n < 10^k`. */
  lemma {:induction false} DecimalLength(n: nat, k: nat)
    requires 1 <= k && Pow10(k - 1) <= n < Pow10(k)
    ensures |Decimal(n)| == k
    decreases k
  {
    if n >= 10 {
      DecimalLength(n / 10, k - 1);
    } else if k > 1 {
      Pow10AtLeastTen(k - 1);
    }
  }

  lemma {:induction false} Pow10AtLeastTen(k: nat)
    requires k >= 1
    ensures Pow10(k) >= 10
  {
    if k > 1 { Pow10AtLeastTen(k - 1); }
  }

  /** `String(n)` is read back as `n`. */
  lemma {:induction false} DecimalRoundTrip(n: nat)
    ensures DecimalValue(Decimal(n)) == n
    decreases n
  {
    if n >= 10 {
      var r := Decimal(n);
      assert r[..|r| - 1] == Decimal(n / 10);
      DecimalRoundTrip(n / 10);
    }
  }
  /** Without astral characters, `s.length` is the number of characters. */
  lemma {:induction false} Utf16LengthBmp(s: string)
    requires forall i :: 0 <= i < |s| ==> !IsAstral(s[i])
    ensures Utf16Length(s) == |s|
  {
    if s != [] {
      assert forall i :: 0 <= i < |s[1..]| ==> s[1..][i] == s[i + 1];
      Utf16LengthBmp(s[1..]);
    }
  }

  /** `s.length` of a concatenation is the sum of the lengths. */
  lemma {:induction false} Utf16LengthAppend(a: string, b: string)
    ensures Utf16Length(a + b) == Utf16Length(a) + Utf16Length(b)
  {
    if a != [] {
      assert (a + b)[0] == a[0] && (a + b)[1..] == a[1..] + b;
      Utf16LengthAppend(a[1..], b);
    } else {
      assert a + b == b;
    }
  }

  /** Two emoji are four code units, while ASCII letters count one each. */
  lemma Utf16Examples()
    ensures Utf16Length("\U{1F44D}\U{1F44D}") == 4
    ensures Utf16Length("abc") == 3
  {
    assert "\U{1F44D}\U{1F44D}"[1..] == "\U{1F44D}";
    assert "abc"[1..] == "bc" && "bc"[1..] == "c";
  }
}
