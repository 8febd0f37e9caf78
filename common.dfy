/** Values and helpers shared by the read routes and the client components:
    contract reads and their multicall results, the JavaScript string
    operations the code relies on (toLowerCase, trim, includes, slice) and
    parseInt with radix 10. */
module Common {

  datatype Option<T> = None | Some(value: T)

  function Max(a: int, b: int): int { if a >= b then a else b }
  function Min(a: int, b: int): int { if a <= b then a else b }

  type Address = string

  /** The fallback organiser of every failed read. */
  const ZeroAddress: Address := "0x0000000000000000000000000000000000000000"

  /** A decoded contract result: a uint256, a string (team name or address) or a bool. */
  datatype Value = Num(n: nat) | Text(s: string) | Flag(b: bool)

  /** One entry of a multicall with allowFailure: true. */
  datatype CallResult = Success(result: Value) | Failure

  /** The view functions of one match contract that the read layer calls. */
  datatype Getter =
    | HomeTeam | AwayTeam | Stake | StartTime | Organiser
    | TotalHomeBets | TotalAwayBets | HomeTeamPool | AwayTeamPool
    | HomeTeamGoals | AwayTeamGoals | IsSettled

  /** One request of a multicall: a view function on a match address. */
  datatype Call = Call(address: Address, getter: Getter)

  /** The chain as seen by a read: the result each call would return. */
  type Chain = Call -> CallResult

  /** multicall({contracts, allowFailure: true}): one result per request, in request order. */
  function Multicall(chain: Chain, calls: seq<Call>): (res: seq<CallResult>)
    ensures |res| == |calls|
    ensures forall k :: 0 <= k < |calls| ==> res[k] == chain(calls[k])
  {
    seq(|calls|, k requires 0 <= k < |calls| => chain(calls[k]))
  }

  /** JavaScript truthiness of a decoded value, as Boolean(x) computes it. */
  predicate Truthy(v: Value)
  {
    match v
    case Num(n) => n != 0
    case Text(s) => s != ""
    case Flag(b) => b
  }

  /** `entry.result ?? fallback` followed by Boolean(...). */
  function BoolOr(r: CallResult, fallback: bool): bool
  {
    if r.Success? then Truthy(r.result) else fallback
  }

  /** A numeric result, or the fallback. A non-numeric value cannot come
      back at a uint getter's own position; it reads as the fallback. */
  function NumOr(r: CallResult, fallback: nat): nat
  {
    if r.Success? && r.result.Num? then r.result.n else fallback
  }

  /** A string result, or the fallback (same convention as NumOr). */
  function TextOr(r: CallResult, fallback: string): string
  {
    if r.Success? && r.result.Text? then r.result.s else fallback
  }

  // ---------- strings ----------

  function LowerChar(c: char): char
  {
    if 'A' <= c <= 'Z' then (c as int + 32) as char else c
  }

  /** String.prototype.toLowerCase on ASCII letters. */
  function Lower(s: string): (r: string)
    ensures |r| == |s|
    ensures forall i :: 0 <= i < |s| ==> r[i] == LowerChar(s[i])
  {
    seq(|s|, i requires 0 <= i < |s| => LowerChar(s[i]))
  }

  /** A case-insensitive address comparison: a.toLowerCase() === b.toLowerCase(). */
  predicate SameAddress(a: Address, b: Address)
  {
    Lower(a) == Lower(b)
  }

  lemma LowerIdempotent(s: string)
    ensures Lower(Lower(s)) == Lower(s)
  {
  }

  /** ECMAScript WhiteSpace and LineTerminator code points, which trim() removes
      and parseInt skips. */
  predicate IsJsSpace(c: char)
  {
    c == '\t' || c == '\n' || c == '\U{000B}' || c == '\U{000C}' || c == '\r' || c == ' '
    || c == '\U{00A0}' || c == '\U{1680}' || ('\U{2000}' <= c <= '\U{200A}')
    || c == '\U{2028}' || c == '\U{2029}' || c == '\U{202F}' || c == '\U{205F}'
    || c == '\U{3000}' || c == '\U{FEFF}'
  }

  function TrimStart(s: string): (r: string)
    ensures |r| <= |s|
    ensures r == s[|s| - |r|..]
    ensures r == [] || !IsJsSpace(r[0])
    ensures forall i :: 0 <= i < |s| - |r| ==> IsJsSpace(s[i])
  {
    if |s| > 0 && IsJsSpace(s[0]) then TrimStart(s[1..]) else s
  }

  function TrimEnd(s: string): (r: string)
    ensures |r| <= |s|
    ensures r == s[..|r|]
    ensures r == [] || !IsJsSpace(r[|r| - 1])
    ensures forall i :: |r| <= i < |s| ==> IsJsSpace(s[i])
  {
    if |s| > 0 && IsJsSpace(s[|s| - 1]) then TrimEnd(s[..|s| - 1]) else s
  }

  /** String.prototype.trim: white space removed at both ends. */
  function Trim(s: string): (r: string)
    ensures |r| <= |s|
    ensures r == [] || (!IsJsSpace(r[0]) && !IsJsSpace(r[|r| - 1]))
  {
    TrimEnd(TrimStart(s))
  }

  predicate OccursAt(s: string, q: string, i: nat)
  {
    i + |q| <= |s| && s[i..i + |q|] == q
  }

  /** String.prototype.includes. */
  predicate Contains(s: string, q: string)
  {
    exists i: nat :: i <= |s| && OccursAt(s, q, i)
  }

  lemma EmptyQueryOccurs(s: string)
    ensures Contains(s, "")
  {
    assert OccursAt(s, "", 0);
  }

  // ---------- parseInt(s, 10) ----------

  predicate IsDigit(c: char) { '0' <= c <= '9' }

  /** The longest prefix of decimal digits. */
  function DigitPrefix(s: string): (d: string)
    ensures |d| <= |s| && d == s[..|d|]
    ensures forall i :: 0 <= i < |d| ==> IsDigit(d[i])
    ensures |d| < |s| ==> !IsDigit(s[|d|])
  {
    if |s| > 0 && IsDigit(s[0]) then [s[0]] + DigitPrefix(s[1..]) else []
  }

  function DigitValue(c: char): nat
    requires IsDigit(c)
  {
    c as int - '0' as int
  }

  function DigitsValue(d: string): nat
    requires forall i :: 0 <= i < |d| ==> IsDigit(d[i])
  {
    if |d| == 0 then 0
    else 10 * DigitsValue(d[..|d| - 1]) + DigitValue(d[|d| - 1])
  }

  /** parseInt(s, 10): skip leading white space, read an optional sign and the
      longest run of digits; None stands for NaN (no digit at all). */
  function ParseInt(s: string): Option<int>
  {
    var t := TrimStart(s);
    var negative := |t| > 0 && t[0] == '-';
    var body := if |t| > 0 && (t[0] == '-' || t[0] == '+') then t[1..] else t;
    var d := DigitPrefix(body);
    var v: int := if |d| == 0 then 0 else DigitsValue(d);
    if |d| == 0 then None
    else if negative then Some(-v)
    else Some(v)
  }

  /** A single decimal digit parses to its value; in particular the default
      rating '5' parses to 5. */
  lemma ParseSingleDigit(c: char)
    requires IsDigit(c)
    ensures ParseInt([c]) == Some(DigitValue(c))
  {
    var s := [c];
    assert !IsJsSpace(c);
    assert TrimStart(s) == s;
    assert DigitPrefix(s[1..]) == [];
    assert DigitPrefix(s) == s;
    assert s[..0] == [];
    assert DigitsValue(s) == DigitValue(c);
  }

  /** A string with no digit after its optional sign is NaN; the empty input is one. */
  lemma ParseEmptyIsNaN()
    ensures ParseInt("") == None
  {
  }

  // ---------- Array.prototype.slice ----------

  /** s.slice(lo, hi) for non-negative bounds: both are clamped to the length,
      and an empty result when the clamped start is not below the clamped end. */
  function JsSlice<T>(s: seq<T>, lo: nat, hi: nat): (r: seq<T>)
    ensures |r| <= |s|
    ensures hi <= |s| && lo <= hi ==> r == s[lo..hi]
    ensures |r| == Max(0, Min(hi, |s|) - Min(lo, |s|))
    ensures forall k :: 0 <= k < |r| ==> r[k] == s[lo + k]
  {
    var a := Min(lo, |s|);
    var b := Min(hi, |s|);
    if a < b then s[a..b] else []
  }
}
