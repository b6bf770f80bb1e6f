/** Types shared by every module: optional values, results, JSON values and payloads. */
module Core {
  datatype Option<+T> = None | Some(value: T)

  datatype Result<+T, +E> = Ok(value: T) | Err(error: E)

  /** A JSON value as the stores see it: `null` and integers told apart, the rest by its text. */
  datatype Json = Null | Number(n: int) | Value(text: string)

  /** A JSON object. */
  type Payload = map<string, Json>

  predicate IsSpace(c: char) {
    c == ' ' || c == '\t' || c == '\n' || c == '\r'
  }

  function StripLeft(s: string): string {
    if s != "" && IsSpace(s[0]) then StripLeft(s[1..]) else s
  }

  function StripRight(s: string): string {
    if s != "" && IsSpace(s[|s| - 1]) then StripRight(s[..|s| - 1]) else s
  }

  /** `str.strip()` over ASCII white space. */
  function Strip(s: string): string {
    StripRight(StripLeft(s))
  }

  lemma {:induction false} StripRightEnds(s: string)
    ensures StripRight(s) != "" ==> !IsSpace(StripRight(s)[|StripRight(s)| - 1])
    ensures StripRight(s) <= s
  {
    if s != "" && IsSpace(s[|s| - 1]) {
      StripRightEnds(s[..|s| - 1]);
    }
  }

  lemma {:induction false} StripLeftEnds(s: string)
    ensures StripLeft(s) != "" ==> !IsSpace(StripLeft(s)[0])
  {
    if s != "" && IsSpace(s[0]) {
      StripLeftEnds(s[1..]);
    }
  }

  /** Stripped text neither begins nor ends with white space, and stripping it again changes nothing. */
  lemma StripEnds(s: string)
    ensures Strip(s) != "" ==> !IsSpace(Strip(s)[0]) && !IsSpace(Strip(s)[|Strip(s)| - 1])
    ensures Strip(Strip(s)) == Strip(s)
  {
    StripLeftEnds(s);
    StripRightEnds(StripLeft(s));
    assert Strip(s) != "" ==> Strip(s)[0] == StripLeft(s)[0];
    StripStripped(Strip(s));
  }

  predicate AllSpace(s: string) {
    forall i :: 0 <= i < |s| ==> IsSpace(s[i])
  }

  /** What is stripped off is white space at the two ends. */
  lemma StripMeaning(s: string)
    ensures exists before, after :: AllSpace(before) && AllSpace(after) && s == before + Strip(s) + after
  {
    var before := StripLeftMeaning(s);
    var after := StripRightMeaning(StripLeft(s));
    assert s == before + (Strip(s) + after) == before + Strip(s) + after;
  }

  lemma {:induction false} StripLeftMeaning(s: string) returns (before: string)
    ensures AllSpace(before) && s == before + StripLeft(s)
  {
    before := "";
    if s != "" && IsSpace(s[0]) {
      before := StripLeftMeaning(s[1..]);
      before := [s[0]] + before;
    }
  }

  lemma {:induction false} StripRightMeaning(s: string) returns (after: string)
    ensures AllSpace(after) && s == StripRight(s) + after
  {
    after := "";
    if s != "" && IsSpace(s[|s| - 1]) {
      after := StripRightMeaning(s[..|s| - 1]);
      after := after + [s[|s| - 1]];
    }
  }

  lemma StripStripped(s: string)
    requires s == "" || (!IsSpace(s[0]) && !IsSpace(s[|s| - 1]))
    ensures Strip(s) == s
  {
  }

  const UPPER := "ABCDEFGHIJKLMNOPQRSTUVWXYZ"

  function LowerChar(c: char): char {
    if 'A' <= c <= 'Z' then (c as int - 'A' as int + 'a' as int) as char else c
  }

  /** `str.lower()` over ASCII letters. */
  function Lower(s: string): (r: string)
    ensures |r| == |s|
    ensures forall i :: 0 <= i < |s| && s[i] in UPPER ==>
      r[i] in "abcdefghijklmnopqrstuvwxyz" && r[i] as int - s[i] as int == 'a' as int - 'A' as int
    ensures forall i :: 0 <= i < |s| && s[i] !in UPPER ==> r[i] == s[i]
  {
    seq(|s|, i requires 0 <= i < |s| => LowerChar(s[i]))
  }

  lemma LowerSame(s: string)
    requires forall i :: 0 <= i < |s| ==> !('A' <= s[i] <= 'Z')
    ensures Lower(s) == s
  {
  }

  function Decimal(n: nat): string {
    if n < 10 then [('0' as int + n) as char] else Decimal(n / 10) + [('0' as int + n % 10) as char]
  }

  /** The number that decimal digits stand for. */
  function Digits(s: string): nat
    requires forall i :: 0 <= i < |s| ==> '0' <= s[i] <= '9'
  {
    if s == "" then 0 else Digits(s[..|s| - 1]) * 10 + (s[|s| - 1] as int - '0' as int)
  }

  lemma {:induction false} DecimalReadsBack(n: nat)
    ensures Decimal(n) != "" && forall i :: 0 <= i < |Decimal(n)| ==> '0' <= Decimal(n)[i] <= '9'
    ensures Digits(Decimal(n)) == n
  {
    if n >= 10 {
      DecimalReadsBack(n / 10);
      var last := [('0' as int + n % 10) as char];
      assert (Decimal(n / 10) + last)[..|Decimal(n / 10) + last| - 1] == Decimal(n / 10);
    } else {
      assert Decimal(n)[..0] == "";
    }
  }

  /** A text is itself; `null`, nothing and zero are the empty text; any other number is its decimal
      digits, after a sign if it is negative. */
  lemma TextOfMeaning(p: Payload, k: string)
    ensures k !in p || p[k] == Null || p[k] == Number(0) ==> TextOf(p, k) == ""
    ensures k in p && p[k].Value? ==> TextOf(p, k) == p[k].text
    ensures k in p && p[k].Number? && p[k].n > 0 ==> TextOf(p, k) == Decimal(p[k].n)
    ensures k in p && p[k].Number? && p[k].n < 0 ==> TextOf(p, k) == "-" + Decimal(-p[k].n)
  {
  }

  /** `str(payload.get(k) or "")`. */
  function TextOf(p: Payload, k: string): string {
    if k !in p then ""
    else match p[k]
      case Null => ""
      case Number(n) => if n == 0 then "" else if n < 0 then "-" + Decimal(-n) else Decimal(n)
      case Value(t) => t
  }
}
