/** Values shared by the record screens: the numeric form field, the outcome of a
    submit handler, and the decimal timestamp that new record ids are built from. */
module Forms {

  datatype Option<T> = None | Some(value: T)

  /** A numeric form field: the empty marker '' until the user types something,
      after which it holds the number the text parses to. */
  datatype Numeric = Blank | Num(value: real)

  /** What an input handler stores for the text `text` of a numeric field;
      `number` stands for the parse of `text`, which is not modelled. */
  function FromText(text: string, number: real): (r: Numeric)
    ensures r == Blank <==> text == ""
    ensures text != "" ==> r.value == number
  {
    if text == "" then Blank else Num(number)
  }

  /** What a submit handler did: either it went through, or it raised an alert
      and changed nothing. */
  datatype Outcome = Done | Alert(message: string)

  function DigitChar(d: nat): (c: char)
    requires d < 10
    ensures '0' <= c <= '9'
  {
    (('0' as int) + d) as char
  }

  predicate AllDigits(s: string)
  {
    forall k :: 0 <= k < |s| ==> '0' <= s[k] <= '9'
  }

  /** The decimal text of a natural number, as a template literal prints it. */
  function Decimal(n: nat): (s: string)
    ensures |s| >= 1 && AllDigits(s)
    decreases n
  {
    if n < 10 then [DigitChar(n)] else Decimal(n / 10) + [DigitChar(n % 10)]
  }

  /** The number a string of decimal digits denotes; the partner of Decimal. */
  function DecimalValue(s: string): nat
    requires AllDigits(s)
  {
    if s == [] then 0
    else DecimalValue(s[..|s| - 1]) * 10 + (s[|s| - 1] as int - '0' as int)
  }

  lemma {:induction false} DecimalRoundTrip(n: nat)
    ensures DecimalValue(Decimal(n)) == n
    decreases n
  {
    var s := Decimal(n);
    if n >= 10 {
      DecimalRoundTrip(n / 10);
      assert s[..|s| - 1] == Decimal(n / 10);
    }
  }

  /** The id given to a record created at time `now` (milliseconds). */
  function NewId(prefix: string, now: nat): (id: string)
    ensures |id| > |prefix| && id[..|prefix|] == prefix
  {
    prefix + Decimal(now)
  }

  /** Creates at different milliseconds get different ids; creates within the
      same millisecond get the same one. */
  lemma NewIdInjective(prefix: string, now1: nat, now2: nat)
    ensures NewId(prefix, now1) == NewId(prefix, now2) <==> now1 == now2
  {
    if NewId(prefix, now1) == NewId(prefix, now2) {
      assert Decimal(now1) == NewId(prefix, now1)[|prefix|..];
      assert Decimal(now2) == NewId(prefix, now2)[|prefix|..];
      DecimalRoundTrip(now1);
      DecimalRoundTrip(now2);
    }
  }
}
