/** String operations of the Rust standard library used across the model. */
module Text {

  datatype Option<+T> = None | Some(value: T)

  predicate NewlineFree(s: string) {
    '\n' !in s
  }

  /** Position of the first `c` in `s`, as `str::find(char)`. */
  function IndexOf(s: string, c: char): (r: Option<nat>)
    ensures r.None? <==> c !in s
    ensures r.Some? ==> r.value < |s| && s[r.value] == c && c !in s[..r.value]
  {
    if s == "" then None
    else if s[0] == c then Some(0)
    else
      match IndexOf(s[1..], c)
      case None => None
      case Some(k) => assert s[..k + 1] == [s[0]] + s[1..][..k]; Some(k + 1)
  }

  predicate OccursAt(s: string, sub: string, i: nat) {
    i + |sub| <= |s| && s[i..i + |sub|] == sub
  }

  /** Position of the first occurrence of `sub` in `s`, as `str::find(&str)`. */
  function Find(s: string, sub: string): (r: Option<nat>)
    ensures r.Some? ==> OccursAt(s, sub, r.value)
    ensures forall i :: OccursAt(s, sub, i) ==> r.Some? && r.value <= i
    decreases |s|
  {
    if sub <= s then Some(0)
    else if s == "" then None
    else
      var r := Find(s[1..], sub);
      assert forall i :: 0 < i && OccursAt(s, sub, i) ==> OccursAt(s[1..], sub, i - 1);
      if r.None? then None else
      assert s[r.value + 1..r.value + 1 + |sub|] == s[1..][r.value..r.value + |sub|];
      Some(r.value + 1)
  }

  /** `str::contains`. */
  predicate Contains(s: string, sub: string) {
    Find(s, sub).Some?
  }

  function StripCr(line: string): string {
    if line != "" && line[|line| - 1] == '\r' then line[..|line| - 1] else line
  }

  /** `str::lines`: a final line break opens no further line, and "\r\n" counts as one break. */
  function Lines(s: string): (ls: seq<string>)
    ensures forall l :: l in ls ==> NewlineFree(l)
    decreases |s|
  {
    if s == "" then []
    else
      match IndexOf(s, '\n')
      case None => [s]
      case Some(k) => [StripCr(s[..k])] + Lines(s[k + 1..])
  }

  lemma LinesCons(line: string, rest: string)
    requires NewlineFree(line)
    ensures Lines(line + "\n" + rest) == [StripCr(line)] + Lines(rest)
  {
    var s := line + "\n" + rest;
    assert s[|line|] == '\n';
    assert IndexOf(s, '\n') == Some(|line|);
    assert s[..|line|] == line && s[|line| + 1..] == rest;
  }

  /** Unicode White_Space, as `char::is_whitespace`. */
  predicate IsWhite(c: char) {
    var n := c as int;
    0x9 <= n <= 0xD || n == 0x20 || n == 0x85 || n == 0xA0 || n == 0x1680 || 0x2000 <= n <= 0x200A
    || n == 0x2028 || n == 0x2029 || n == 0x202F || n == 0x205F || n == 0x3000
  }

  function TrimStart(s: string): string {
    if s != "" && IsWhite(s[0]) then TrimStart(s[1..]) else s
  }

  function TrimEnd(s: string): string {
    if s != "" && IsWhite(s[|s| - 1]) then TrimEnd(s[..|s| - 1]) else s
  }

  function Trim(s: string): string {
    TrimEnd(TrimStart(s))
  }

  predicate IsDigit(c: char) {
    '0' <= c <= '9'
  }

  function DigitChar(d: nat): (c: char)
    requires d < 10
    ensures IsDigit(c) && c as int == '0' as int + d
  {
    ('0' as int + d) as char
  }

  /** `format!("{}", n)` for an unsigned integer. */
  function Decimal(n: nat): (s: string)
    ensures s != "" && forall c :: c in s ==> IsDigit(c)
  {
    if n < 10 then [DigitChar(n)] else Decimal(n / 10) + [DigitChar(n % 10)]
  }

  function DigitsValue(s: string): Option<nat> {
    if s == "" then Some(0)
    else if !IsDigit(s[|s| - 1]) then None
    else
      match DigitsValue(s[..|s| - 1])
      case None => None
      case Some(v) => Some(10 * v + (s[|s| - 1] as int - '0' as int))
  }

  /** `str::parse` for an unsigned type of `limit` values: an optional '+', then digits, no overflow. */
  function ParseUnsigned(s: string, limit: nat): (r: Option<nat>)
    ensures r.Some? ==> r.value < limit
  {
    var digits := if s != "" && s[0] == '+' then s[1..] else s;
    if digits == "" then None
    else
      match DigitsValue(digits)
      case None => None
      case Some(v) => if v < limit then Some(v) else None
  }

  lemma {:induction false} DigitsValueOfDecimal(n: nat)
    ensures DigitsValue(Decimal(n)) == Some(n)
  {
    if n < 10 {
      assert Decimal(n)[..0] == "";
    } else {
      DigitsValueOfDecimal(n / 10);
      var s := Decimal(n);
      assert s[..|s| - 1] == Decimal(n / 10);
    }
  }

  /** Printing and parsing an integer that fits the type gives it back. */
  lemma ParseOfDecimal(n: nat, limit: nat)
    requires n < limit
    ensures ParseUnsigned(Decimal(n), limit) == Some(n)
  {
    DigitsValueOfDecimal(n);
    assert Decimal(n)[0] in Decimal(n);
  }

  /** A leading plus sign changes nothing. */
  lemma ParseOfSigned(n: nat, limit: nat)
    requires n < limit
    ensures ParseUnsigned("+" + Decimal(n), limit) == Some(n)
  {
    DigitsValueOfDecimal(n);
    assert ("+" + Decimal(n))[1..] == Decimal(n);
  }
}
