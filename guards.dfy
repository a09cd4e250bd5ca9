/** The argument checks of `Logic`: the ones it makes before it calls the
    data-access layer, and `Integer.valueOf`, which turns a path segment
    into an id and may throw first. What `Logic` calls afterwards is not
    modelled; a guard that lets the call through answers `Delegates` with
    the argument it would pass on. */
module Guards {

  import opened Wrappers
  import opened Records

  /** `Logic.MAX_INT`, which equals `Integer.MAX_VALUE`. */
  const MaxInt: int := 2147483647
  /** `Integer.MIN_VALUE`. */
  const MinInt: int := -2147483648

  const NothingToPatch: string := "Please specify at least one field to patch."
  const InvalidAccountId: string := "Invalid account id."

  /** What a guarded `Logic` method does: return `null` without calling
      anything, throw, or call the data-access layer with `arg`. */
  datatype Reply<+T> = ReturnsNull | Throws(error: Thrown) | Delegates(arg: T)

  // ---------------------------------------------------------------------
  // Integer.valueOf

  predicate IsDigit(c: char)
  {
    '0' <= c <= '9'
  }

  predicate AllDigits(s: string)
  {
    forall i :: 0 <= i < |s| ==> IsDigit(s[i])
  }

  /** The value of a string of decimal digits, most significant first. */
  function DigitsValue(s: string): nat
    requires AllDigits(s)
  {
    if s == [] then 0
    else DigitsValue(s[..|s| - 1]) * 10 + (s[|s| - 1] as int - '0' as int)
  }

  /** `Integer.valueOf`: an optional `-` or `+`, then at least one decimal
      digit, with a value in the range of `int`; anything else throws a
      `NumberFormatException`. */
  function ParseInt(s: string): (r: Result<int>)
    ensures r.Success? ==> MinInt <= r.value <= MaxInt
    ensures r.Failure? ==> r.error == NumberFormatException(s)
  {
    var signed := |s| > 0 && (s[0] == '-' || s[0] == '+');
    var digits := if signed then s[1..] else s;
    if digits == [] || !AllDigits(digits) then Failure(NumberFormatException(s))
    else
      var v: int := if s[0] == '-' then 0 - DigitsValue(digits) else DigitsValue(digits);
      if v < MinInt || v > MaxInt then Failure(NumberFormatException(s)) else Success(v)
  }

  /** The digit character of `d`. */
  function DigitChar(d: nat): (c: char)
    requires d < 10
    ensures IsDigit(c) && c as int - '0' as int == d
  {
    ('0' as int + d) as char
  }

  /** The decimal digits of `n`, without leading zeros. */
  function Digits(n: nat): string
  {
    if n < 10 then [DigitChar(n)] else Digits(n / 10) + [DigitChar(n % 10)]
  }

  /** `Integer.toString`. */
  function IntToString(n: int): string
  {
    if n < 0 then "-" + Digits(-n) else Digits(n)
  }

  /** Reading back the digits of `n` gives `n`. */
  lemma {:induction false} DigitsRoundTrip(n: nat)
    ensures Digits(n) != [] && AllDigits(Digits(n))
    ensures DigitsValue(Digits(n)) == n
  {
    if n >= 10 {
      DigitsRoundTrip(n / 10);
      var d := Digits(n);
      assert d[..|d| - 1] == Digits(n / 10);
    }
  }

  /** `Integer.valueOf(Integer.toString(n)) == n` for every `int`. */
  lemma ParseIntRoundTrip(n: int)
    requires MinInt <= n <= MaxInt
    ensures ParseInt(IntToString(n)) == Success(n)
  {
    var s := IntToString(n);
    if n < 0 {
      DigitsRoundTrip(-n);
      assert s[1..] == Digits(-n);
    } else {
      DigitsRoundTrip(n);
      assert IsDigit(s[0]);
    }
  }

  // ---------------------------------------------------------------------
  // Currency codes

  predicate IsAsciiLetter(c: char)
  {
    'a' <= c <= 'z' || 'A' <= c <= 'Z'
  }

  /** `s.matches("[a-zA-Z]*")`: the whole string is ASCII letters. */
  function MatchesLetters(s: string): (r: bool)
    ensures r <==> forall i :: 0 <= i < |s| ==> IsAsciiLetter(s[i])
  {
    s == [] || (IsAsciiLetter(s[0]) && MatchesLetters(s[1..]))
  }

  /** `Logic.getCurrency`: a code that is not three ASCII letters gives
      `null` without a lookup; `code.length()` throws on a null code. */
  function GetCurrencyGuard(code: Option<string>): (r: Reply<string>)
    ensures r.Throws? <==> code.None?
    ensures r.Throws? ==> r.error == NullPointerException
    ensures r.Delegates? <==>
              code.Some? && |code.value| == 3 && forall i :: 0 <= i < 3 ==> IsAsciiLetter(code.value[i])
    ensures r.Delegates? ==> r.arg == code.value
  {
    match code
    case None => Throws(NullPointerException)
    case Some(s) => if |s| != 3 || !MatchesLetters(s) then ReturnsNull else Delegates(s)
  }

  // ---------------------------------------------------------------------
  // Account ids

  /** `Logic.getAccount`: a segment that is not an `int` throws; a negative
      id gives `null` without a lookup. The `id > MAX_INT` test never
      holds for an `int`, so the lookup happens exactly for the ids from 0
      up. */
  function GetAccountGuard(idString: string): (r: Reply<int>)
    ensures r.Throws? <==> ParseInt(idString).Failure?
    ensures r.Throws? ==> r.error == NumberFormatException(idString)
    ensures r.Delegates? <==> ParseInt(idString).Success? && ParseInt(idString).value >= 0
    ensures r.Delegates? ==> r.arg == ParseInt(idString).value
  {
    var id := ParseInt(idString);
    if id.Failure? then Throws(id.error)
    else if id.value < 0 || id.value > MaxInt then ReturnsNull
    else Delegates(id.value)
  }

  /** `Logic.patchCurrency`: a patch with no field set throws; any other is
      passed on unchanged. */
  function PatchCurrencyGuard(c: Currency): (r: Reply<Currency>)
    ensures r.Throws? <==> c.code.None? && c.name.None? && c.typeName.None?
    ensures r.Throws? ==> r.error == Exception(NothingToPatch)
    ensures !r.Throws? ==> r == Delegates(c)
  {
    if c.code.None? && c.name.None? && c.typeName.None? then Throws(Exception(NothingToPatch))
    else Delegates(c)
  }

  /** `Logic.patchAccount`: the id is checked before the fields, so a
      negative id is reported as invalid even when nothing is to be
      patched. */
  function PatchAccountGuard(idString: string, a: Account): (r: Reply<int>)
    ensures !r.ReturnsNull?
    ensures ParseInt(idString).Failure? ==> r == Throws(NumberFormatException(idString))
    ensures ParseInt(idString).Success? && ParseInt(idString).value < 0 ==> r == Throws(Exception(InvalidAccountId))
    ensures r.Delegates? <==>
              ParseInt(idString).Success? && ParseInt(idString).value >= 0 && (a.typeName.Some? || a.name.Some?)
    ensures ParseInt(idString).Success? && ParseInt(idString).value >= 0 && a.typeName.None? && a.name.None? ==>
              r == Throws(Exception(NothingToPatch))
    ensures r.Delegates? ==> r.arg == ParseInt(idString).value
  {
    var id := ParseInt(idString);
    if id.Failure? then Throws(id.error)
    else if id.value < 0 || id.value > MaxInt then Throws(Exception(InvalidAccountId))
    else if a.typeName.None? && a.name.None? then Throws(Exception(NothingToPatch))
    else Delegates(id.value)
  }

  /** `Logic.deleteAccount`: a negative id throws before anything is
      deleted. */
  function DeleteAccountGuard(idString: string): (r: Reply<int>)
    ensures !r.ReturnsNull?
    ensures ParseInt(idString).Failure? ==> r == Throws(NumberFormatException(idString))
    ensures r.Delegates? <==> ParseInt(idString).Success? && ParseInt(idString).value >= 0
    ensures r.Delegates? ==> r.arg == ParseInt(idString).value
    ensures ParseInt(idString).Success? && ParseInt(idString).value < 0 ==> r == Throws(Exception(InvalidAccountId))
  {
    var id := ParseInt(idString);
    if id.Failure? then Throws(id.error)
    else if id.value < 0 || id.value > MaxInt then Throws(Exception(InvalidAccountId))
    else Delegates(id.value)
  }
}
