/**
 * The phone-number field of the login screen: the chosen country's dial
 * code, flag and display pattern, and the formatter that lays the typed
 * digits over that pattern (each '#' stands for a digit, any other
 * character of the pattern is inserted as it is).
 *
 * Positions in the pattern are taken as character positions; Swift
 * indexes the pattern by UTF-16 offset, which is the same for the ASCII
 * patterns of the country table.
 */
module PhoneNumberFormat {
  import opened Decimal

  /** `replacingOccurrences(of: "[^0-9]", with: "", options: .regularExpression)`:
      the ASCII digits of `s`, in order. */
  function Digits(s: string): (r: string)
    ensures |r| <= |s| && AllDigits(r)
  {
    if s == [] then []
    else (if IsDigit(s[0]) then [s[0]] else []) + Digits(s[1..])
  }

  /** The loop of `applyPatternOnNumbers` from pattern position `index` on,
      applied to the partly formatted `number`. */
  function FormatFrom(number: string, pattern: string, replacement: char, index: nat): string
    decreases |pattern| - index
  {
    if index >= |pattern| then number
    else if index >= |number| then number
    else if pattern[index] == replacement then FormatFrom(number, pattern, replacement, index + 1)
    else FormatFrom(number[..index] + [pattern[index]] + number[index..], pattern, replacement, index + 1)
  }

  /** What `applyPatternOnNumbers` leaves in the field. */
  function ApplyPattern(s: string, pattern: string, replacement: char): string {
    FormatFrom(Digits(s), pattern, replacement, 0)
  }

  /** `applyPatternOnNumbers(_:pattern:replacementCharacter:)` on the
      field's current text; the `inout` string is the result. */
  method ApplyPatternOnNumbers(s: string, pattern: string, replacement: char) returns (r: string)
    ensures r == ApplyPattern(s, pattern, replacement)
  {
    var pureNumber := Digits(s);
    for index := 0 to |pattern|
      invariant FormatFrom(pureNumber, pattern, replacement, index) == ApplyPattern(s, pattern, replacement)
    {
      if !(index < |pureNumber|) {
        return pureNumber;
      }
      var patternCharacter := pattern[index];
      if patternCharacter == replacement {
        continue;
      }
      pureNumber := pureNumber[..index] + [patternCharacter] + pureNumber[index..];
    }
    return pureNumber;
  }

  /* ---------------------------------------------------------------------
   * Digits
   * --------------------------------------------------------------------- */

  /** Digits of a concatenation. */
  lemma {:induction false} DigitsAppend(a: string, b: string)
    ensures Digits(a + b) == Digits(a) + Digits(b)
  {
    if a == [] {
      assert a + b == b;
    } else {
      var head := if IsDigit(a[0]) then [a[0]] else [];
      assert (a + b)[0] == a[0];
      assert (a + b)[1..] == a[1..] + b;
      DigitsAppend(a[1..], b);
      assert Digits(a + b) == head + Digits(a[1..] + b);
      assert Digits(a) == head + Digits(a[1..]);
    }
  }

  /** A string of digits is its own digit string. */
  lemma {:induction false} DigitsOfDigits(s: string)
    requires AllDigits(s)
    ensures Digits(s) == s
  {
    if s != [] {
      DigitsOfDigits(s[1..]);
    }
  }

  /** Every digit of the input is kept, as often as it occurs, and every
      other character is dropped. */
  lemma {:induction false} DigitsCount(s: string)
    ensures forall c :: multiset(Digits(s))[c] == if IsDigit(c) then multiset(s)[c] else 0
  {
    if s != [] {
      DigitsCount(s[1..]);
      assert s == [s[0]] + s[1..];
    }
  }

  /** A single character is kept exactly when it is a digit. */
  lemma DigitsOfOne(c: char)
    ensures Digits([c]) == if IsDigit(c) then [c] else []
  {
    assert [c][1..] == [];
  }

  /** The result depends only on the digits typed, not on what else the
      field held. */
  lemma {:induction false} OnlyDigitsMatter(s: string, pattern: string, replacement: char)
    ensures ApplyPattern(s, pattern, replacement) == ApplyPattern(Digits(s), pattern, replacement)
  {
    DigitsOfDigits(Digits(s));
  }

  /* ---------------------------------------------------------------------
   * The pattern's literals
   * --------------------------------------------------------------------- */

  /** Every character of the pattern other than the placeholder is a
      non-digit. */
  predicate LiteralsAreNonDigits(pattern: string, replacement: char) {
    forall i :: 0 <= i < |pattern| && pattern[i] != replacement ==> !IsDigit(pattern[i])
  }

  /** Inserting literals keeps the digit string. */
  lemma {:induction false} FormatKeepsDigits(number: string, pattern: string, replacement: char, index: nat)
    requires LiteralsAreNonDigits(pattern, replacement)
    ensures Digits(FormatFrom(number, pattern, replacement, index)) == Digits(number)
    decreases |pattern| - index
  {
    if index < |pattern| && index < |number| && pattern[index] != replacement {
      var next := number[..index] + [pattern[index]] + number[index..];
      DigitsAppend(number[..index] + [pattern[index]], number[index..]);
      DigitsAppend(number[..index], [pattern[index]]);
      DigitsAppend(number[..index], number[index..]);
      assert number[..index] + number[index..] == number;
      assert Digits([pattern[index]]) == [];
      FormatKeepsDigits(next, pattern, replacement, index + 1);
    } else if index < |pattern| && index < |number| {
      FormatKeepsDigits(number, pattern, replacement, index + 1);
    }
  }

  /** With non-digit literals, deleting them from the result gives back
      the digits typed: no digit is lost, added or reordered, including
      the digits past the end of the pattern. */
  lemma {:induction false} ResultDigitsAreInputDigits(s: string, pattern: string, replacement: char)
    requires LiteralsAreNonDigits(pattern, replacement)
    ensures Digits(ApplyPattern(s, pattern, replacement)) == Digits(s)
  {
    FormatKeepsDigits(Digits(s), pattern, replacement, 0);
    DigitsOfDigits(Digits(s));
  }

  /** With non-digit literals, formatting a formatted number changes
      nothing, so re-running the formatter on every change is stable. */
  lemma {:induction false} FormatIdempotent(s: string, pattern: string, replacement: char)
    requires LiteralsAreNonDigits(pattern, replacement)
    ensures ApplyPattern(ApplyPattern(s, pattern, replacement), pattern, replacement) ==
      ApplyPattern(s, pattern, replacement)
  {
    ResultDigitsAreInputDigits(s, pattern, replacement);
    DigitsOfDigits(Digits(s));
  }

  /* ---------------------------------------------------------------------
   * Shape of the result
   * --------------------------------------------------------------------- */

  /** Literals already placed stay where they are. */
  lemma {:induction false} FormatPlacesLiterals(number: string, pattern: string, replacement: char, index: nat)
    requires forall i :: 0 <= i < index && i < |pattern| && pattern[i] != replacement ==>
      i < |number| && number[i] == pattern[i]
    ensures var r := FormatFrom(number, pattern, replacement, index);
      forall i :: 0 <= i < |pattern| && i < |r| && pattern[i] != replacement ==> r[i] == pattern[i]
    decreases |pattern| - index
  {
    if index < |pattern| && index < |number| {
      if pattern[index] == replacement {
        FormatPlacesLiterals(number, pattern, replacement, index + 1);
      } else {
        var next := number[..index] + [pattern[index]] + number[index..];
        assert forall i :: 0 <= i < index ==> next[i] == number[i];
        FormatPlacesLiterals(next, pattern, replacement, index + 1);
      }
    }
  }

  /** Every position of the result that the pattern covers holds the
      pattern's literal there, wherever the pattern has one. */
  lemma {:induction false} LiteralsInPlace(s: string, pattern: string, replacement: char)
    ensures var r := ApplyPattern(s, pattern, replacement);
      forall i :: 0 <= i < |pattern| && i < |r| && pattern[i] != replacement ==> r[i] == pattern[i]
  {
    FormatPlacesLiterals(Digits(s), pattern, replacement, 0);
  }

  /** Insertions happen before the last character, which therefore never
      changes. */
  lemma {:induction false} FormatKeepsLast(number: string, pattern: string, replacement: char, index: nat)
    ensures var r := FormatFrom(number, pattern, replacement, index);
      |r| >= |number| && (number != [] ==> r[|r| - 1] == number[|number| - 1])
    decreases |pattern| - index
  {
    if index < |pattern| && index < |number| {
      if pattern[index] == replacement {
        FormatKeepsLast(number, pattern, replacement, index + 1);
      } else {
        var next := number[..index] + [pattern[index]] + number[index..];
        assert next[|next| - 1] == number[|number| - 1];
        FormatKeepsLast(next, pattern, replacement, index + 1);
      }
    }
  }

  /** The result is empty exactly when no digit was typed, and otherwise
      ends with the last digit typed, never with an inserted literal. */
  lemma {:induction false} EndsWithLastDigit(s: string, pattern: string, replacement: char)
    ensures var r := ApplyPattern(s, pattern, replacement);
      var d := Digits(s);
      (r == [] <==> d == []) && (d != [] ==> r[|r| - 1] == d[|d| - 1])
  {
    FormatKeepsLast(Digits(s), pattern, replacement, 0);
    if Digits(s) == [] {
      assert ApplyPattern(s, pattern, replacement) == [];
    }
  }

  /** Number of literals in `pattern` from `index` on. */
  function LiteralCount(pattern: string, replacement: char, index: nat): nat
    decreases |pattern| - index
  {
    if index >= |pattern| then 0
    else (if pattern[index] != replacement then 1 else 0) + LiteralCount(pattern, replacement, index + 1)
  }

  /** Each step inserts at most one literal. */
  lemma {:induction false} FormatLengthBounds(number: string, pattern: string, replacement: char, index: nat)
    ensures var r := FormatFrom(number, pattern, replacement, index);
      |number| <= |r| <= |number| + LiteralCount(pattern, replacement, index)
    decreases |pattern| - index
  {
    if index < |pattern| && index < |number| {
      if pattern[index] == replacement {
        FormatLengthBounds(number, pattern, replacement, index + 1);
      } else {
        FormatLengthBounds(number[..index] + [pattern[index]] + number[index..], pattern, replacement, index + 1);
      }
    }
  }

  /** The result keeps every digit and adds at most one character per
      literal of the pattern. */
  lemma {:induction false} ResultLength(s: string, pattern: string, replacement: char)
    ensures |Digits(s)| <= |ApplyPattern(s, pattern, replacement)| <= |Digits(s)| + LiteralCount(pattern, replacement, 0)
  {
    FormatLengthBounds(Digits(s), pattern, replacement, 0);
  }

  /** Example: typing "12345" under "##-##" gives "12-345": the separator
      is placed and the digit past the pattern is kept. */
  lemma SmallPatternExample()
    ensures ApplyPattern("12345", "##-##", '#') == "12-345"
  {
    DigitsOfDigits("12345");
    ExampleFormat();
  }

  /** The example's dash is inserted at position 2 and nothing after it. */
  lemma ExampleFormat()
    ensures FormatFrom("12345", "##-##", '#', 0) == "12-345"
  {
    var n := "12345";
    var p := "##-##";
    var formatted := "12-345";
    assert n[..2] + [p[2]] + n[2..] == formatted;
    assert FormatFrom(formatted, p, '#', 3) == formatted;
    assert FormatFrom(n, p, '#', 2) == formatted;
  }


  /* ---------------------------------------------------------------------
   * The login screen's country state
   * --------------------------------------------------------------------- */

  /** An entry of the country table. */
  datatype CountryData = CountryData(id: string, name: string, flag: string, code: string,
                                     dialCode: string, pattern: string, limit: int)

  class PhoneLoginState {
    var presentSheet: bool
    var countryCode: string
    var countryFlag: string
    var countryPattern: string
    var mobPhoneNumber: string
    var searchCountry: string

    /** The screen opens on the United States entry with empty fields. */
    constructor()
      ensures !presentSheet && countryCode == "+1" && countryFlag == "🇺🇸"
      ensures countryPattern == "### ### ####" && mobPhoneNumber == "" && searchCountry == ""
    {
      presentSheet := false;
      countryCode := "+1";
      countryFlag := "🇺🇸";
      countryPattern := "### ### ####";
      mobPhoneNumber := "";
      searchCountry := "";
    }

    /** `selectCountry(_:)`: take flag, dial code and pattern from the
        entry, close the sheet and clear the search. */
    method SelectCountry(country: CountryData)
      modifies this
      ensures countryFlag == country.flag && countryCode == country.dialCode && countryPattern == country.pattern
      ensures !presentSheet && searchCountry == ""
      ensures mobPhoneNumber == old(mobPhoneNumber)
    {
      countryFlag := country.flag;
      countryCode := country.dialCode;
      countryPattern := country.pattern;
      presentSheet := false;
      searchCountry := "";
    }

    /** The field's change handler: reformat the typed number in place. */
    method ReformatNumber()
      modifies this
      ensures mobPhoneNumber == ApplyPattern(old(mobPhoneNumber), countryPattern, '#')
      ensures countryPattern == old(countryPattern) && countryCode == old(countryCode)
      ensures countryFlag == old(countryFlag) && presentSheet == old(presentSheet) && searchCountry == old(searchCountry)
    {
      mobPhoneNumber := ApplyPatternOnNumbers(mobPhoneNumber, countryPattern, '#');
    }
  }
}
