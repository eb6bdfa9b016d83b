/** What several modules share: optional values, byte strings, hexadecimal text,
    decimal numerals and JSON objects of strings. */
module Common {

  datatype Option<+T> = None | Some(value: T)

  type Byte = b: int | 0 <= b < 256 witness 0
  type Bytes = seq<Byte>

  /** A JSON object of strings; a missing field reads as empty. */
  type Record = map<string, string>

  function Get(r: Record, field: string): string {
    if field in r then r[field] else ""
  }

  predicate Hex(s: string, n: nat) {
    |s| == n && forall c | c in s :: '0' <= c <= '9' || 'a' <= c <= 'f'
  }

  const DIGITS := "0123456789abcdef"

  /** The characters are those of the sixteen digits, and no other. */
  lemma {:induction false} HexDigits(s: string, n: nat)
    ensures Hex(s, n) <==> |s| == n && forall i | 0 <= i < |s| :: s[i] in DIGITS
  {
    if Hex(s, n) {
      forall i | 0 <= i < |s| ensures s[i] in DIGITS {
        assert s[i] in s;
        HexDigit(s[i]);
      }
    }
    if |s| == n && forall i | 0 <= i < |s| :: s[i] in DIGITS {
      forall c | c in s ensures '0' <= c <= '9' || 'a' <= c <= 'f' {
        HexDigit(c);
      }
    }
  }

  lemma {:induction false} HexDigit(c: char)
    ensures c in DIGITS <==> '0' <= c <= '9' || 'a' <= c <= 'f'
  {
    if '0' <= c <= '9' { assert DIGITS[c as int - '0' as int] == c; }
    if 'a' <= c <= 'f' { assert DIGITS[c as int - 'a' as int + 10] == c; }
  }

  function Digit(n: nat): char
    requires n < 10
  {
    '0' + n as char
  }

  function Decimal(n: nat): string {
    if n < 10 then [Digit(n)] else Decimal(n / 10) + [Digit(n % 10)]
  }

  /** Reading a numeral digit by digit, from the left. */
  function Reading(s: string): int {
    if s == "" then 0 else 10 * Reading(s[..|s| - 1]) + (s[|s| - 1] as int - '0' as int)
  }

  /** A numeral has decimal digits only and reads as its number. */
  lemma {:induction false} DecimalReads(n: nat)
    ensures Reading(Decimal(n)) == n && Decimal(n) != ""
    ensures forall i | 0 <= i < |Decimal(n)| :: '0' <= Decimal(n)[i] <= '9'
  {
    if n < 10 {
      assert Decimal(n)[..0] == "";
    } else {
      DecimalReads(n / 10);
      assert Decimal(n)[..|Decimal(n)| - 1] == Decimal(n / 10);
    }
  }
}
