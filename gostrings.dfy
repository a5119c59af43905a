/** The pieces of Go's `strings` and `strconv` packages that the shell relies on:
    `strings.TrimSpace`, `strings.Replace` with a one-character pattern and no
    limit, and `strconv.Atoi` on a 64-bit platform. */
module GoStrings {

  datatype Option<T> = None | Some(value: T)

  /** Go's `unicode.IsSpace`: the Latin-1 spaces and the Unicode White_Space characters. */
  predicate IsSpace(c: char) {
    || c == ' ' || c == '\t' || c == '\n' || c == '\r' || c == '\U{B}' || c == '\U{C}'
    || c == '\U{85}' || c == '\U{A0}' || c == '\U{1680}'
    || ('\U{2000}' <= c <= '\U{200A}')
    || c == '\U{2028}' || c == '\U{2029}' || c == '\U{202F}' || c == '\U{205F}' || c == '\U{3000}'
  }

  /** How many white-space characters `s` starts with. */
  function LeadingSpaces(s: string): (n: nat)
    ensures n <= |s|
    ensures forall k | 0 <= k < n :: IsSpace(s[k])
    ensures n < |s| ==> !IsSpace(s[n])
    decreases |s|
  {
    if s != [] && IsSpace(s[0]) then 1 + LeadingSpaces(s[1..]) else 0
  }

  /** Where the white space that `s` ends with begins. */
  function TrailingStart(s: string): (n: nat)
    ensures n <= |s|
    ensures forall k | n <= k < |s| :: IsSpace(s[k])
    ensures n > 0 ==> !IsSpace(s[n - 1])
    decreases |s|
  {
    if s != [] && IsSpace(s[|s| - 1]) then TrailingStart(s[..|s| - 1]) else |s|
  }

  /** `strings.TrimSpace`: the part between the leading and the trailing white space. */
  function TrimSpace(s: string): (r: string)
    ensures |r| <= |s|
    ensures r == [] || (!IsSpace(r[0]) && !IsSpace(r[|r| - 1]))
    ensures r == [] <==> forall k | 0 <= k < |s| :: IsSpace(s[k])
  {
    var i := LeadingSpaces(s);
    if i == |s| then ""
    else
      assert !IsSpace(s[i]);
      s[i..TrailingStart(s)]
  }

  /** The trimmed string is a slice of the input with only spaces around it, and it
      neither starts nor ends with a space. */
  lemma TrimSpaceSlice(s: string)
    ensures var i, r := LeadingSpaces(s), TrimSpace(s);
      && i + |r| <= |s| && r == s[i..i + |r|]
      && (forall k | 0 <= k < i :: IsSpace(s[k]))
      && (forall k | i + |r| <= k < |s| :: IsSpace(s[k]))
      && (r == [] || (!IsSpace(r[0]) && !IsSpace(r[|r| - 1])))
  {
    var i := LeadingSpaces(s);
    if i < |s| {
      TrimSpaceInner(s);
    }
  }

  lemma TrimSpaceInner(s: string)
    requires LeadingSpaces(s) < |s|
    ensures var i, j := LeadingSpaces(s), TrailingStart(s);
      i < j && TrimSpace(s) == s[i..j] && !IsSpace(s[i]) && !IsSpace(s[j - 1])
  {
    var i := LeadingSpaces(s);
    assert !IsSpace(s[i]);
  }

  /** Trimming twice is trimming once. */
  lemma TrimSpaceIdempotent(s: string)
    ensures TrimSpace(TrimSpace(s)) == TrimSpace(s)
  {
    var r := TrimSpace(s);
    TrimSpaceSlice(s);
    if r != [] {
      assert LeadingSpaces(r) == 0;
      assert TrailingStart(r) == |r|;
      assert r[0..|r|] == r;
    }
  }

  /** A string is trimmed to nothing exactly when it is all white space. */
  lemma TrimSpaceEmpty(s: string)
    ensures TrimSpace(s) == "" <==> forall k | 0 <= k < |s| :: IsSpace(s[k])
  {
    TrimSpaceSlice(s);
    var r := TrimSpace(s);
    if r != "" {
      var i := LeadingSpaces(s);
      assert s[i] == r[0];
    }
  }

  /** `strings.Replace(s, string(c), rep, -1)`: every occurrence of the single
      character `c` is replaced by `rep`, every other character is kept in order. */
  function ReplaceAll(s: string, c: char, rep: string): (r: string)
    ensures c !in s ==> r == s
    ensures c !in rep ==> c !in r
    decreases |s|
  {
    if s == [] then ""
    else (if s[0] == c then rep else [s[0]]) + ReplaceAll(s[1..], c, rep)
  }

  /** Replacement works piecewise on a concatenation. */
  lemma {:induction false} ReplaceAllAppend(a: string, b: string, c: char, rep: string)
    ensures ReplaceAll(a + b, c, rep) == ReplaceAll(a, c, rep) + ReplaceAll(b, c, rep)
    decreases |a|
  {
    if a != [] {
      var head := if a[0] == c then rep else [a[0]];
      assert (a + b)[0] == a[0];
      assert (a + b)[1..] == a[1..] + b;
      assert ReplaceAll(a + b, c, rep) == head + ReplaceAll(a[1..] + b, c, rep);
      ReplaceAllAppend(a[1..], b, c, rep);
      assert ReplaceAll(a, c, rep) == head + ReplaceAll(a[1..], c, rep);
      assert head + (ReplaceAll(a[1..], c, rep) + ReplaceAll(b, c, rep))
          == (head + ReplaceAll(a[1..], c, rep)) + ReplaceAll(b, c, rep);
    } else {
      assert a + b == b;
    }
  }

  /** One occurrence of the character becomes the replacement text, and the parts
      around it are replaced on their own. */
  lemma ReplaceAllOccurrence(a: string, b: string, c: char, rep: string)
    ensures ReplaceAll(a + [c] + b, c, rep) == ReplaceAll(a, c, rep) + rep + ReplaceAll(b, c, rep)
  {
    ReplaceAllAppend(a + [c], b, c, rep);
    ReplaceAllAppend(a, [c], c, rep);
    ReplaceAllSingle(c, rep);
  }

  lemma ReplaceAllSingle(c: char, rep: string)
    ensures ReplaceAll([c], c, rep) == rep
  {
    assert [c][1..] == [];
    assert ReplaceAll([c], c, rep) == rep + ReplaceAll([], c, rep);
  }

  const MinInt64: int := -0x8000_0000_0000_0000
  const MaxInt64: int := 0x7FFF_FFFF_FFFF_FFFF

  predicate IsDigit(c: char) {
    '0' <= c <= '9'
  }

  predicate AllDigits(s: string) {
    forall i | 0 <= i < |s| :: IsDigit(s[i])
  }

  /** The value of a string of decimal digits, most significant first. */
  function DigitsValue(ds: string): nat
    requires AllDigits(ds)
    decreases |ds|
  {
    if ds == [] then 0
    else DigitsValue(ds[..|ds| - 1]) * 10 + (ds[|ds| - 1] as int - '0' as int)
  }

  /** `strconv.Atoi` with a 64-bit `int`: an optional sign, then at least one
      decimal digit, and a value that fits in 64 bits; anything else is an error. */
  function Atoi(s: string): (r: Option<int>)
    ensures r.Some? ==> MinInt64 <= r.value <= MaxInt64
    ensures s == "" ==> r.None?
    ensures (s == "+" || s == "-") ==> r.None?
    ensures (exists i | 1 <= i < |s| :: !IsDigit(s[i])) ==> r.None?
    ensures |s| > 0 && !IsDigit(s[0]) && s[0] != '+' && s[0] != '-' ==> r.None?
  {
    var signed := |s| > 0 && (s[0] == '+' || s[0] == '-');
    var digits := if signed then s[1..] else s;
    if digits == [] || !AllDigits(digits) then None
    else
      var magnitude: int := DigitsValue(digits);
      var v: int := if signed && s[0] == '-' then -magnitude else magnitude;
      if MinInt64 <= v <= MaxInt64 then Some(v) else None
  }

  /** The decimal spelling of a natural number, without sign or leading zeros. */
  function Decimal(n: nat): (r: string)
    ensures |r| > 0 && AllDigits(r)
  {
    if n < 10 then [('0' as int + n) as char]
    else Decimal(n / 10) + [('0' as int + n % 10) as char]
  }

  lemma {:induction false} DigitsValueOfDecimal(n: nat)
    ensures DigitsValue(Decimal(n)) == n
  {
    if n >= 10 {
      var d := Decimal(n);
      assert d[..|d| - 1] == Decimal(n / 10);
      DigitsValueOfDecimal(n / 10);
    }
  }

  /** Atoi reads back every decimal spelling that fits in 64 bits. */
  lemma AtoiDecimal(n: nat)
    requires n <= MaxInt64
    ensures Atoi(Decimal(n)) == Some(n)
  {
    DigitsValueOfDecimal(n);
  }
}
