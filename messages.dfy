/**
 * The text the employee mutations produce: the confirmation returned by
 * delete_employee and the not-found message both embed the employee id as
 * Python's f-string renders an int, in decimal with a leading '-' when negative.
 */
module Messages {
  import opened Models

  function DigitChar(d: nat): (c: char)
    requires d < 10
    ensures '0' <= c <= '9' && c as int - '0' as int == d
  {
    ('0' as int + d) as char
  }

  predicate AllDigits(s: string) {
    forall i :: 0 <= i < |s| ==> '0' <= s[i] <= '9'
  }

  /** The decimal digits of `n`, most significant first, without leading zeros. */
  function Digits(n: nat): (s: string)
    ensures |s| > 0 && (|s| > 1 ==> s[0] != '0')
    ensures AllDigits(s)
    decreases n
  {
    if n < 10 then [DigitChar(n)] else Digits(n / 10) + [DigitChar(n % 10)]
  }

  /** Reads a run of decimal digits back as a number. */
  function DigitsValue(s: string): nat
    requires AllDigits(s)
    decreases |s|
  {
    if |s| == 0 then 0
    else DigitsValue(s[..|s| - 1]) * 10 + (s[|s| - 1] as int - '0' as int)
  }

  lemma {:induction false} DigitsRoundTrip(n: nat)
    ensures DigitsValue(Digits(n)) == n
    decreases n
  {
    if n >= 10 {
      var s := Digits(n);
      DigitsRoundTrip(n / 10);
      assert s[..|s| - 1] == Digits(n / 10);
    }
  }

  /** `str(n)` for a Python int. */
  function Decimal(n: int): (s: string)
    ensures |s| > 0 && (s[0] == '-' <==> n < 0)
    ensures s[0] == '-' ==> AllDigits(s[1..])
    ensures s[0] != '-' ==> AllDigits(s)
  {
    if n < 0 then "-" + Digits(-n) else Digits(n)
  }

  /** Text of the shape `Decimal` produces: digits, optionally after a '-'. */
  predicate IsDecimal(s: string) {
    |s| > 0 && (s[0] == '-' ==> AllDigits(s[1..])) && (s[0] != '-' ==> AllDigits(s))
  }

  /** Reads the text of `Decimal` back; the inverse that makes `Decimal` injective. */
  function DecimalValue(s: string): int
    requires IsDecimal(s)
  {
    if s[0] == '-' then 0 - DigitsValue(s[1..]) else DigitsValue(s)
  }

  lemma DecimalRoundTrip(n: int)
    ensures DecimalValue(Decimal(n)) == n
  {
    if n < 0 {
      DigitsRoundTrip(-n);
      assert Decimal(n)[1..] == Digits(-n);
    } else {
      DigitsRoundTrip(n);
    }
  }

  const EmployeePrefix := "Employee with ID "
  const DeletedSuffix := " has been deleted."
  const NotFoundSuffix := " not found."

  /** `f"Employee with ID {employee_id}{suffix}"`. */
  function EmployeeMessage(employeeId: int, suffix: string): string {
    EmployeePrefix + Decimal(employeeId) + suffix
  }

  /** The confirmation delete_employee returns. */
  function DeletedMessage(employeeId: int): string {
    EmployeeMessage(employeeId, DeletedSuffix)
  }

  /** The text of the exception update_employee and delete_employee raise for an unknown id. */
  function NotFoundMessage(employeeId: int): string {
    EmployeeMessage(employeeId, NotFoundSuffix)
  }

  /** A message names exactly one employee: different ids give different texts. */
  lemma EmployeeMessageNamesTheEmployee(a: int, b: int, suffix: string)
    ensures EmployeeMessage(a, suffix) == EmployeeMessage(b, suffix) <==> a == b
  {
    var m, n := EmployeeMessage(a, suffix), EmployeeMessage(b, suffix);
    if m == n {
      assert m[|EmployeePrefix|..|m| - |suffix|] == Decimal(a);
      assert n[|EmployeePrefix|..|n| - |suffix|] == Decimal(b);
      DecimalRoundTrip(a);
      DecimalRoundTrip(b);
    }
  }

  /**
   * The text a resolver's error carries: the not-found exception of
   * update_employee and delete_employee has its own message; the texts of
   * Django's own exceptions are not modelled (None).
   */
  function Message(e: Error): (r: Option<string>)
    ensures r.Some? <==> e.EmployeeNotFound?
    ensures r.Some? ==> r.value == NotFoundMessage(e.employeeId)
    ensures r.Some? ==>
              && |r.value| > |EmployeePrefix| + |NotFoundSuffix|
              && r.value[..|EmployeePrefix|] == EmployeePrefix
              && r.value[|r.value| - |NotFoundSuffix|..] == NotFoundSuffix
              && IsDecimal(r.value[|EmployeePrefix|..|r.value| - |NotFoundSuffix|])
              && DecimalValue(r.value[|EmployeePrefix|..|r.value| - |NotFoundSuffix|]) == e.employeeId
  {
    match e
    case EmployeeNotFound(employeeId) =>
      var text := NotFoundMessage(employeeId);
      assert text[|EmployeePrefix|..|text| - |NotFoundSuffix|] == Decimal(employeeId);
      DecimalRoundTrip(employeeId);
      Some(text)
    case _ => None
  }

  /** Two not-found errors carry the same text exactly when they are the same error. */
  lemma MessageIdentifiesError(a: Error, b: Error)
    requires a.EmployeeNotFound? && b.EmployeeNotFound?
    ensures Message(a) == Message(b) <==> a == b
  {
    EmployeeMessageNamesTheEmployee(a.employeeId, b.employeeId, NotFoundSuffix);
  }
}
