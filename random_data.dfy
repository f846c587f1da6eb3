/** The arithmetic and string helpers of the data generator's `Random`
    namespace. The random source is not modelled: the digits `random.randint`
    draws, the offset it picks inside a range, the text of `uuid.uuid4()` and
    the names the fake-data provider returns are parameters. */
module RandomData {
  import opened Optional

  // ---------------------------------------------------------------------
  // ustr

  /** A lower-case hexadecimal digit, as `str(uuid.UUID)` writes them. */
  predicate IsHexDigit(c: char)
  {
    '0' <= c <= '9' || 'a' <= c <= 'f'
  }

  const UuidLength := 36

  /** The text of a UUID: 8-4-4-4-12 hexadecimal digits joined by hyphens. */
  predicate IsUuidText(u: string)
  {
    && |u| == UuidLength
    && forall i :: 0 <= i < |u| ==>
         if i == 8 || i == 13 || i == 18 || i == 23 then u[i] == '-' else IsHexDigit(u[i])
  }

  /** `prefix and prefix + "-" or ""`: a missing or empty prefix adds nothing. */
  function PrefixPart(prefix: Option<string>): string
  {
    if prefix.Some? && prefix.value != "" then prefix.value + "-" else ""
  }

  /** `Random.ustr(prefix=prefix)` when `uuid.uuid4()` yields `uuidText`. */
  function Ustr(prefix: Option<string>, uuidText: string): (r: string)
    requires IsUuidText(uuidText)
    ensures |r| >= UuidLength && IsUuidText(r[|r| - UuidLength..])
    ensures r[|r| - UuidLength..] == uuidText
    ensures prefix.Some? && prefix.value != "" ==>
      |r| == |prefix.value| + 1 + UuidLength && r[..|prefix.value|] == prefix.value && r[|prefix.value|] == '-'
    ensures prefix.None? || prefix.value == "" ==> r == uuidText
  {
    PrefixPart(prefix) + uuidText
  }

  /** Splits a generated unique string back into its prefix (absent when
      there was none) and its UUID text. */
  function SplitUstr(s: string): (Option<string>, string)
    requires |s| >= UuidLength
  {
    if |s| == UuidLength then (None, s)
    else (Some(s[..|s| - UuidLength - 1]), s[|s| - UuidLength..])
  }

  /** The prefix `ustr` effectively uses: an empty prefix counts as none. */
  function EffectivePrefix(prefix: Option<string>): Option<string>
  {
    if prefix.Some? && prefix.value != "" then prefix else None
  }

  /** Splitting a unique string recovers the UUID text and the prefix it was
      made with; an empty prefix and no prefix give the same string. */
  lemma SplitUstrRecovers(prefix: Option<string>, uuidText: string)
    requires IsUuidText(uuidText)
    ensures SplitUstr(Ustr(prefix, uuidText)) == (EffectivePrefix(prefix), uuidText)
    ensures Ustr(Some(""), uuidText) == Ustr(None, uuidText)
  {
    var r := Ustr(prefix, uuidText);
    if prefix.Some? && prefix.value != "" {
      assert r[..|r| - UuidLength - 1] == prefix.value;
    }
  }

  // ---------------------------------------------------------------------
  // name

  /** `Random.name()` when the provider yields `first` and `last`. */
  function Name(first: string, last: string): (r: string)
    ensures |r| == |first| + 1 + |last|
    ensures r[..|first|] == first && r[|first|] == ' ' && r[|first| + 1..] == last
  {
    first + " " + last
  }

  /** The position of the first space, if any. */
  function FirstSpace(s: string): (r: Option<nat>)
    ensures r.Some? ==> r.value < |s| && s[r.value] == ' ' && ' ' !in s[..r.value]
    ensures r.None? ==> ' ' !in s
  {
    if s == [] then None
    else if s[0] == ' ' then Some(0)
    else match FirstSpace(s[1..])
      case None => None
      case Some(k) => Some(k + 1)
  }

  /** Splits a full name at its first space. */
  function SplitName(s: string): Option<(string, string)>
  {
    match FirstSpace(s)
    case None => None
    case Some(k) => Some((s[..k], s[k + 1..]))
  }

  /** A full name splits back into the first and last name, as long as the
      first name has no space of its own. */
  lemma SplitNameRecovers(first: string, last: string)
    requires ' ' !in first
    ensures SplitName(Name(first, last)) == Some((first, last))
  {
    var s := Name(first, last);
    assert s[|first|] == ' ';
    assert s[..|first|] == first;
    var k := FirstSpace(s).value;
    assert k == |first|;
    assert s[k + 1..] == last;
  }

  // ---------------------------------------------------------------------
  // fixed_length_number

  /** `str(d)` for a single digit. */
  function DigitChar(d: nat): (c: char)
    requires d <= 9
    ensures '0' <= c <= '9'
  {
    ('0' as int + d) as char
  }

  function CharValue(c: char): nat
    requires '0' <= c <= '9'
  {
    c as int - '0' as int
  }

  predicate IsDecimal(s: string)
  {
    forall i :: 0 <= i < |s| ==> '0' <= s[i] <= '9'
  }

  /** `int(s)` for a string of decimal digits. */
  function DecimalValue(s: string): nat
    requires IsDecimal(s)
  {
    if s == [] then 0 else 10 * DecimalValue(s[..|s| - 1]) + CharValue(s[|s| - 1])
  }

  function Pow10(n: nat): (p: nat)
    ensures p >= 1
  {
    if n == 0 then 1 else 10 * Pow10(n - 1)
  }

  /** The decimal digits of a natural number, most significant first. */
  function ToDigits(n: nat): (ds: seq<nat>)
    ensures |ds| >= 1
  {
    if n < 10 then [n] else ToDigits(n / 10) + [n % 10]
  }

  /** The number of digits `fixed_length_number(length=length)` produces. */
  function NumberWidth(length: int): (n: nat)
    ensures n >= 1
  {
    if length >= 2 then length else 1
  }

  /** A decimal string of `n` digits without a leading zero denotes a number
      of exactly `n` digits. */
  lemma {:induction false} DecimalValueBounds(s: string)
    requires IsDecimal(s) && |s| >= 1 && s[0] != '0'
    ensures Pow10(|s| - 1) <= DecimalValue(s) < Pow10(|s|)
  {
    if |s| > 1 {
      var front := s[..|s| - 1];
      assert front[0] == s[0];
      DecimalValueBounds(front);
    }
  }

  /** The digits of the number a decimal string without a leading zero
      denotes are the string's digits. */
  lemma {:induction false} DigitsOfDecimal(s: string)
    requires IsDecimal(s) && |s| >= 1 && s[0] != '0'
    ensures ToDigits(DecimalValue(s)) == seq(|s|, i requires 0 <= i < |s| => CharValue(s[i]))
  {
    if |s| > 1 {
      var front := s[..|s| - 1];
      assert front[0] == s[0];
      DigitsOfDecimal(front);
      DecimalValueBounds(front);
      var v := DecimalValue(s);
      var d := CharValue(s[|s| - 1]);
      assert v == 10 * DecimalValue(front) + d;
      assert v / 10 == DecimalValue(front) && v % 10 == d;
    }
  }

  /** `Random.fixed_length_number(length=length)` when `random.randint`
      draws `lead` for the first digit and `rest` for the others. The result
      has exactly max(length, 1) digits, and they are the drawn ones. */
  method FixedLengthNumber(length: int, lead: nat, rest: seq<nat>) returns (r: nat)
    requires 1 <= lead <= 9
    requires |rest| == NumberWidth(length) - 1
    requires forall i :: 0 <= i < |rest| ==> rest[i] <= 9
    ensures Pow10(NumberWidth(length) - 1) <= r < Pow10(NumberWidth(length))
    ensures ToDigits(r) == [lead] + rest
  {
    var arr0 := [DigitChar(lead)];
    var arr: seq<char> := [];
    if length >= 2 {
      var i := 0;
      while i < length - 1
        invariant 0 <= i <= length - 1
        invariant |arr| == i
        invariant forall j :: 0 <= j < i ==> arr[j] == DigitChar(rest[j])
      {
        arr := arr + [DigitChar(rest[i])];
        i := i + 1;
      }
    }
    arr0 := arr0 + arr;
    r := DecimalValue(arr0);
    DecimalValueBounds(arr0);
    DigitsOfDecimal(arr0);
    assert seq(|arr0|, i requires 0 <= i < |arr0| => CharValue(arr0[i])) == [lead] + rest;
  }

  // ---------------------------------------------------------------------
  // int

  /** What `random.randint(begin, end)` yields: a number, or the ValueError
      it raises for an empty range. */
  datatype Drawn = Number(value: int) | EmptyRange

  /** `Random.int(end=end, begin=begin)` when `random.randint` picks the
      offset `offset` inside the range. */
  function Int(end: int, begin: int, offset: int): (r: Drawn)
    requires begin <= end ==> 0 <= offset <= end - begin
    ensures r.Number? <==> begin <= end
    ensures r.Number? ==> begin <= r.value <= end
  {
    if begin <= end then Number(begin + offset) else EmptyRange
  }

  /** Every number of the inclusive range is produced by exactly one offset. */
  lemma IntCoversRange(end: int, begin: int, v: int)
    requires begin <= v <= end
    ensures exists offset :: 0 <= offset <= end - begin && Int(end, begin, offset) == Number(v)
    ensures forall offset :: 0 <= offset <= end - begin && Int(end, begin, offset) == Number(v) ==> offset == v - begin
  {
    assert Int(end, begin, v - begin) == Number(v);
  }
}
