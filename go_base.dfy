/** Go values the other modules share: the `error` interface reduced to its
    message, byte slices (where nil differs from empty), results of calls that
    return `(T, error)`, and the decimal rendering `fmt` uses for `%d`. */
module GoBase {

  type byte = x: int | 0 <= x < 256

  datatype Option<T> = None | Some(value: T)

  /** A Go `error` value, observed through its `Error()` text. */
  datatype GoError = GoError(message: string)

  /** The `(T, error)` pair of a Go call: exactly one side is meaningful. */
  datatype Result<T> = Ok(value: T) | Err(error: GoError)

  /** A Go `[]byte`: `NilSlice` is the nil slice, `Slice([])` an empty non-nil one. */
  datatype ByteSlice = NilSlice | Slice(data: seq<byte>)

  /** Go's `string(b)`: every byte becomes the character with the same code. */
  function BytesToString(b: seq<byte>): (s: string)
    ensures |s| == |b|
    ensures forall i :: 0 <= i < |b| ==> s[i] as int == b[i]
  {
    seq(|b|, i requires 0 <= i < |b| => b[i] as char)
  }

  predicate IsByteString(s: string) {
    forall i :: 0 <= i < |s| ==> s[i] as int < 256
  }

  /** Go's `[]byte(s)` for a string whose characters are single bytes. */
  function StringToBytes(s: string): (b: seq<byte>)
    requires IsByteString(s)
    ensures |b| == |s|
    ensures forall i :: 0 <= i < |s| ==> b[i] == s[i] as int
  {
    seq(|s|, i requires 0 <= i < |s| => s[i] as int)
  }

  lemma BytesStringRoundTrip(b: seq<byte>)
    ensures IsByteString(BytesToString(b))
    ensures StringToBytes(BytesToString(b)) == b
  {
  }

  lemma StringBytesRoundTrip(s: string)
    requires IsByteString(s)
    ensures BytesToString(StringToBytes(s)) == s
  {
  }

  // ---- fmt's %d ---------------------------------------------------------

  function DigitChar(d: nat): (c: char)
    requires d < 10
  {
    (48 + d) as char
  }

  predicate IsDigit(c: char) {
    '0' <= c <= '9'
  }

  predicate AllDigits(s: string) {
    forall i :: 0 <= i < |s| ==> IsDigit(s[i])
  }

  /** The decimal digits of `n`, most significant first, without leading zeros. */
  function Digits(n: nat): (s: string)
    ensures |s| >= 1 && AllDigits(s)
    ensures n >= 10 ==> s[0] != '0'
    decreases n
  {
    if n < 10 then [DigitChar(n)] else Digits(n / 10) + [DigitChar(n % 10)]
  }

  /** `fmt.Sprintf("%d", n)` for a Go `int`. */
  function FormatInt(n: int): (s: string)
    ensures IsDecimal(s)
    ensures s[0] == '-' <==> n < 0
  {
    if n < 0 then
      var d := Digits(-n);
      assert ("-" + d)[1..] == d;
      "-" + d
    else
      var d := Digits(n);
      assert IsDigit(d[0]);
      d
  }

  predicate IsDecimal(s: string) {
    if |s| > 0 && s[0] == '-' then |s| > 1 && AllDigits(s[1..]) else |s| > 0 && AllDigits(s)
  }

  function DigitValue(c: char): (d: nat)
    requires IsDigit(c)
    ensures d < 10
  {
    c as int - 48
  }

  function ParseDigits(s: string): nat
    requires AllDigits(s)
  {
    if s == [] then 0 else ParseDigits(s[..|s| - 1]) * 10 + DigitValue(s[|s| - 1])
  }

  /** Reads back what `FormatInt` writes (what `strconv.Atoi` does on such text). */
  function ParseInt(s: string): int
    requires IsDecimal(s)
  {
    if s[0] == '-' then -(ParseDigits(s[1..]) as int) else ParseDigits(s)
  }

  lemma {:induction false} ParseDigitsInverse(n: nat)
    ensures ParseDigits(Digits(n)) == n
    decreases n
  {
    if n >= 10 {
      var prefix := Digits(n / 10);
      var s := prefix + [DigitChar(n % 10)];
      assert s[..|s| - 1] == prefix;
      ParseDigitsInverse(n / 10);
    }
  }

  /** `%d` is injective: the text it writes names exactly one integer. */
  lemma FormatIntRoundTrip(n: int)
    ensures IsDecimal(FormatInt(n))
    ensures ParseInt(FormatInt(n)) == n
  {
    if n < 0 {
      var d := Digits(-n);
      var s := "-" + d;
      assert s[0] == '-' && s[1..] == d;
      ParseDigitsInverse(-n);
    } else {
      var d := Digits(n);
      assert IsDigit(d[0]);
      ParseDigitsInverse(n);
    }
  }
}
