/** Numbers and names as `schedule.ts` reads them, and that it reads exactly those of the language. */
module CronAtoms {
  import opened CronText
  import opened CronLanguage

  function NumberOf(token: string): nat
    requires AllDigits(token)
  {
    if token == "" then 0 else 10 * NumberOf(token[..|token| - 1]) + (token[|token| - 1] - '0') as nat
  }

  /** Upper-casing into the letters of a name; the long s and the dotless i upper-case to S and I. */
  function Upper(token: string): string {
    if token == "" then ""
    else
      var c := token[0];
      [if 'a' <= c <= 'z' then c - 32 as char else if c == '\U{17F}' then 'S' else if c == '\U{131}' then 'I' else c]
        + Upper(token[1..])
  }

  const MonthNames := ["JAN", "FEB", "MAR", "APR", "MAY", "JUN", "JUL", "AUG", "SEP", "OCT", "NOV", "DEC"]
  const DayNames := ["SUN", "MON", "TUE", "WED", "THU", "FRI", "SAT"]

  function IndexIn(name: string, names: seq<string>): (at: Option<nat>)
    ensures at.Some? ==> at.value < |names| && names[at.value] == name
  {
    if names == [] then None
    else if names[0] == name then Some(0)
    else match IndexIn(name, names[1..])
      case None => None
      case Some(i) => Some(i + 1)
  }

  /** `atomValue`: a whole number, or a complete name in a field that has names. */
  function Atom(token: string, f: FieldName): Option<nat> {
    if IsNumeral(token) then Some(NumberOf(token))
    else match f
      case Month => (match IndexIn(Upper(token), MonthNames) case None => None case Some(i) => Some(i + 1))
      case DayOfWeek => IndexIn(Upper(token), DayNames)
      case _ => None
  }

  // ----- numbers -----

  lemma {:induction false} ZerosAreNothing(k: nat)
    ensures AllDigits(Zeros(k)) && NumberOf(Zeros(k)) == 0
  {
    if k > 0 {
      ZerosAreNothing(k - 1);
      assert Zeros(k)[..|Zeros(k)| - 1] == Zeros(k - 1);
    }
  }

  lemma OneMoreDigit(front: string, digit: nat)
    requires AllDigits(front) && digit < 10
    ensures var token := front + [digit as char + '0']; AllDigits(token) && NumberOf(token) == 10 * NumberOf(front) + digit
  {
    var token := front + [digit as char + '0'];
    assert token[..|token| - 1] == front;
  }

  lemma DecimalsGrow(n: nat, digit: nat)
    requires n > 0 && digit < 10
    ensures Decimal(10 * n + digit) == Decimal(n) + [digit as char + '0']
  {
    assert (10 * n + digit) / 10 == n && (10 * n + digit) % 10 == digit;
  }

  lemma {:induction false} DecimalIsRead(k: nat, n: nat)
    ensures var token := Zeros(k) + Decimal(n); IsNumeral(token) && NumberOf(token) == n
  {
    hide NumberOf;
    if n < 10 {
      ZerosAreNothing(k);
      OneMoreDigit(Zeros(k), n);
    } else {
      DecimalIsRead(k, n / 10);
      OneMoreDigit(Zeros(k) + Decimal(n / 10), n % 10);
      assert Zeros(k) + Decimal(n) == Zeros(k) + Decimal(n / 10) + [(n % 10) as char + '0'];
    }
  }

  lemma {:induction false} NumeralIsDecimal(token: string)
    requires IsNumeral(token)
    ensures Numeral(token, NumberOf(token))
  {
    var front, digit := token[..|token| - 1], (token[|token| - 1] - '0') as nat;
    assert '0' <= token[|token| - 1] <= '9' && token == front + [digit as char + '0'];
    if front != "" { NumeralIsDecimal(front); }
    NumeralGrows(front, digit);
  }

  lemma NumeralGrows(front: string, digit: nat)
    requires AllDigits(front) && digit < 10 && (front != "" ==> Numeral(front, NumberOf(front)))
    ensures var token := front + [digit as char + '0']; AllDigits(token) && Numeral(token, NumberOf(token))
  {
    hide NumberOf, Decimal, AllDigits;
    OneMoreDigit(front, digit);
    var token, n := front + [digit as char + '0'], NumberOf(front);
    OneDigit(digit);
    OneDigit(0);
    if front == "" {
      ZerosAreNothing(0);
      assert NumberOf(front) == 0 && token == Zeros(0) + Decimal(digit);
    } else {
      var k: nat :| front == Zeros(k) + Decimal(n);
      if n == 0 {
        assert token == Zeros(k + 1) + Decimal(digit);
      } else {
        DecimalsGrow(n, digit);
        assert token == Zeros(k) + Decimal(10 * n + digit);
      }
    }
  }

  lemma OneDigit(digit: nat)
    requires digit < 10
    ensures Decimal(digit) == [digit as char + '0']
  {
  }

  /** What is read as a number is a numeral, with or without zeros before it; and every such numeral is read as its number. */
  lemma NumeralsAreRead(token: string, n: nat)
    ensures IsNumeral(token) && NumberOf(token) == n <==> Numeral(token, n)
  {
    if IsNumeral(token) { NumeralIsDecimal(token); }
    if k: nat :| token == Zeros(k) + Decimal(n) { DecimalIsRead(k, n); }
  }

  // ----- names -----

  predicate Capitals(name: string) {
    forall i :: 0 <= i < |name| ==> 'A' <= name[i] <= 'Z'
  }

  lemma {:induction false} UpperSpells(token: string, name: string)
    requires Capitals(name) && name != ""
    ensures Upper(token) == name <==> Spells(token, name)
  {
    LettersOneByOne(token);
    if Upper(token) == name {
      forall i | 0 <= i < |name| ensures Letter(token[i], name[i]) {
        assert Upper(token)[i] == Capital(token[i]);
      }
    } else if |token| == |name| {
      var i :| 0 <= i < |name| && Upper(token)[i] != name[i];
      assert Upper(token)[i] == Capital(token[i]);
      assert !Letter(token[i], name[i]);
    }
  }

  function Capital(c: char): char {
    if 'a' <= c <= 'z' then c - 32 as char else if c == '\U{17F}' then 'S' else if c == '\U{131}' then 'I' else c
  }

  lemma {:induction false} LettersOneByOne(token: string)
    ensures |Upper(token)| == |token| && forall i :: 0 <= i < |token| ==> Upper(token)[i] == Capital(token[i])
  {
    if token != "" { LettersOneByOne(token[1..]); }
  }

  lemma {:induction false} FoundIsFirst(name: string, names: seq<string>, i: nat)
    requires forall a, b :: 0 <= a < b < |names| ==> names[a] != names[b]
    ensures IndexIn(name, names) == Some(i) <==> i < |names| && names[i] == name
  {
    if names != [] {
      FoundIsFirst(name, names[1..], if i > 0 then i - 1 else 0);
    }
  }

  lemma MonthIsSpelt(token: string, v: nat)
    ensures 1 <= v && IndexIn(Upper(token), MonthNames) == Some((v - 1) as nat) <==> Spells(token, MonthName(v))
  {
    hide Upper, IndexIn;
    if 1 <= v <= 12 {
      FoundIsFirst(Upper(token), MonthNames, v - 1);
      MonthsListed(v);
      hide MonthName, Spells;
      UpperSpells(token, MonthName(v));
    }
  }

  lemma MonthsListed(v: nat)
    requires 1 <= v <= 12
    ensures MonthNames[v - 1] == MonthName(v) != "" && Capitals(MonthName(v))
  {
  }

  lemma DayIsSpelt(token: string, v: nat)
    ensures IndexIn(Upper(token), DayNames) == Some(v) <==> Spells(token, DayName(v))
  {
    hide Upper, IndexIn;
    FoundIsFirst(Upper(token), DayNames, v);
    if v <= 6 {
      assert DayNames[v] == DayName(v);
      UpperSpells(token, DayName(v));
    }
  }

  lemma NoNumeralSpells(token: string, v: nat)
    requires IsNumeral(token)
    ensures !Spells(token, MonthName(v)) && !Spells(token, DayName(v))
  {
    assert '0' <= token[0] <= '9';
  }

  /** A token is read as a value exactly if it denotes that. */
  lemma AtomsAreRead(token: string, f: FieldName, v: nat)
    ensures Atom(token, f) == Some(v) <==> Denotes(token, f, v)
  {
    hide IndexIn, Upper, Spells, Numeral, NumberOf, MonthName, DayName;
    NumeralsAreRead(token, v);
    if IsNumeral(token) {
      NoNumeralSpells(token, v);
    } else {
      if f.Month? { MonthIsSpelt(token, v); }
      DayIsSpelt(token, v);
    }
  }
}
