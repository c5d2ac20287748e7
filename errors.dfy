/** The error values the lifecycle controller produces or passes on.
    Go's open `error` interface is closed here to the three kinds the core
    distinguishes: the wait primitive's retry error, the named
    "not starting" error, and whatever the remote client reports. A remote
    failure is normally `Remote`, but the client model may answer with any
    of the three. */
module Errors {

  datatype Error =
    | RetriesExceeded(maxAttempts: int)  // the wait primitive's budget ran out
    | NotStarting                        // the distinguished starting-timeout error
    | Remote(message: string)            // a failure reported by the remote service client

  /** A Go `error` result: `nil` or an error value. */
  datatype Outcome = Nil | Fail(error: Error)

  /** A Go `(T, error)` pair in which exactly one side is meaningful. */
  datatype Result<T> = Ok(value: T) | Err(error: Error) {

    /** Drops the value, keeping only whether (and how) the call failed. */
    function ToOutcome(): (o: Outcome)
      ensures o.Nil? <==> Ok?
      ensures o.Fail? ==> o.error == error
    {
      match this
      case Ok(_) => Nil
      case Err(e) => Fail(e)
    }
  }

  /** The decimal text of a natural number, as `%d` prints it. */
  function Digits(n: nat): (s: string)
    ensures |s| >= 1
    ensures forall i :: 0 <= i < |s| ==> '0' <= s[i] <= '9'
  {
    if n < 10 then ["0123456789"[n]] else Digits(n / 10) + ["0123456789"[n % 10]]
  }

  /** The decimal text of an integer, with a leading minus when negative. */
  function Decimal(n: int): string
  {
    if n < 0 then "-" + Digits(-n) else Digits(n)
  }

  /** The value of a decimal digit; any other character reads as 0. */
  function DigitValue(c: char): nat
  {
    if '0' <= c <= '9' then c as int - '0' as int else 0
  }

  /** Reads a string of decimal digits, most significant first. */
  function ReadDigits(s: string): nat
  {
    if s == [] then 0 else 10 * ReadDigits(s[..|s| - 1]) + DigitValue(s[|s| - 1])
  }

  /** Reads an integer written with an optional leading minus. */
  function ReadDecimal(s: string): int
  {
    if |s| > 0 && s[0] == '-' then -(ReadDigits(s[1..]) as int) else ReadDigits(s)
  }

  /** The digits of `n` read back as `n`. */
  lemma {:induction false} DigitsReadBack(n: nat)
    ensures ReadDigits(Digits(n)) == n
  {
    var s := Digits(n);
    if n < 10 {
      assert s[..0] == [];
      assert DigitValue("0123456789"[n]) == n;
    } else {
      DigitsReadBack(n / 10);
      assert s[..|s| - 1] == Digits(n / 10);
      assert DigitValue("0123456789"[n % 10]) == n % 10;
    }
  }

  /** A leading minus negates what the digits after it read as. */
  lemma ReadSigned(d: string)
    ensures ReadDecimal("-" + d) == -(ReadDigits(d) as int)
  {
    assert ("-" + d)[1..] == d;
  }

  /** The decimal text of a negative integer reads back as that integer. */
  lemma NegativeReadBack(m: nat)
    ensures ReadDecimal("-" + Digits(m)) == -(m as int)
  {
    ReadSigned(Digits(m));
    DigitsReadBack(m);
  }

  /** The decimal text of a non-negative integer reads back as that integer. */
  lemma NonNegativeReadBack(m: nat)
    ensures ReadDecimal(Digits(m)) == m
  {
    var d := Digits(m);
    assert ReadDecimal(d) == ReadDigits(d) by {
      assert '0' <= d[0] <= '9';
    }
    DigitsReadBack(m);
  }

  /** The decimal text of any integer, sign included, reads back as that integer. */
  lemma DecimalReadBack(n: int)
    ensures ReadDecimal(Decimal(n)) == n
  {
    if n < 0 {
      NegativeReadBack(-n);
    } else {
      NonNegativeReadBack(n);
    }
  }

  const NotStartingPrefix := "Brooklyn application state should be Starting: "

  /** The retry error's text around the attempt count it reports. */
  function RetryText(count: string): string
  {
    "Maximum number of retries (" + count + ") exceeded"
  }

  /** The text each error prints. The starting-timeout text is one fixed
      string; it is written here as the prefix followed by the retry text
      with the count "10", which spells out the same characters. */
  function Message(e: Error): (text: string)
    ensures e.RetriesExceeded? ==> text == "Maximum number of retries (" + Decimal(e.maxAttempts) + ") exceeded"
    ensures e.NotStarting? ==> text == NotStartingPrefix + RetryText("10")
    ensures e.Remote? ==> text == e.message
  {
    match e
    case RetriesExceeded(n) => RetryText(Decimal(n))
    case NotStarting => NotStartingPrefix + RetryText("10")
    case Remote(m) => m
  }

  /** The count inside the retry error's text, between "Maximum number of
      retries (" and ") exceeded", reads back as the budget it was given. */
  lemma RetryCountReadsBack(n: int)
    ensures var t := Message(RetriesExceeded(n));
            |"Maximum number of retries ("| + |") exceeded"| <= |t|
            && ReadDecimal(t[|"Maximum number of retries ("|..|t| - |") exceeded"|]) == n
  {
    var c := Decimal(n);
    var t := RetryText(c);
    assert t[|"Maximum number of retries ("|..|t| - |") exceeded"|] == c;
    DecimalReadBack(n);
  }

  /** Distinct budgets print distinct retry errors. */
  lemma RetryTextsDistinct(a: int, b: int)
    ensures Message(RetriesExceeded(a)) == Message(RetriesExceeded(b)) ==> a == b
  {
    RetryCountReadsBack(a);
    RetryCountReadsBack(b);
  }

  /** The starting-timeout error reads as the retry error of a 10-attempt wait,
      prefixed with the state it waited for. */
  lemma NotStartingReadsAsTenAttempts()
    ensures Message(NotStarting) == NotStartingPrefix + Message(RetriesExceeded(10))
  {
    assert Digits(1) == "1" && Digits(0) == "0";
    assert Decimal(10) == "10";
  }
}
