/** The codec of `ulid.ts`: a 48-bit time and an 80-bit random number in Crockford's base 32 (ULID Specification,
    sections "Encoding" and "Overflow Errors when Parsing Base32 Strings"). */
module UlidCodec {

  type byte = x: int | 0 <= x < 0x100

  const ENCODING: string := "0123456789ABCDEFGHJKMNPQRSTVWXYZ"
  const TIME_LEN := 10
  const RANDOM_LEN := 16
  const ULID_LEN := 26
  const MAX_TIME := 0xFFFF_FFFF_FFFF

  /** What `Number.isInteger` tells apart. */
  datatype JsNumber = Integer(value: int) | NotInteger

  datatype Encoded = Text(text: string) | InvalidTime
  datatype Decoded = Time(time: nat) | BadLength | BadCharacter(at: nat) | TooLate

  // ----- numbers and digits -----

  function Pow(base: nat, n: nat): nat {
    if n == 0 then 1 else base * Pow(base, n - 1)
  }

  lemma {:induction false} PowSplits(base: nat, m: nat, n: nat)
    ensures Pow(base, m + n) == Pow(base, m) * Pow(base, n)
    decreases m
  {
    if m > 0 {
      PowSplits(base, m - 1, n);
      assert base * (Pow(base, m - 1) * Pow(base, n)) == base * Pow(base, m - 1) * Pow(base, n);
    }
  }

  /** The alphabet skips I, L, O and U. */
  function Symbol(digit: nat): char
    requires digit < 32
  {
    if digit < 10 then '0' + digit as char
    else if digit < 18 then 'A' + (digit - 10) as char
    else if digit < 20 then 'J' + (digit - 18) as char
    else if digit < 22 then 'M' + (digit - 20) as char
    else if digit < 27 then 'P' + (digit - 22) as char
    else 'V' + (digit - 27) as char
  }

  lemma AlphabetIsSymbols(digit: nat)
    requires digit < |ENCODING|
    ensures |ENCODING| == 32 && ENCODING[digit] == Symbol(digit)
  {
  }

  /** The last `n` base-32 digits of `v`, most significant first. */
  function Digits(v: nat, n: nat): (s: string)
    ensures |s| == n
  {
    if n == 0 then "" else Digits(v / 32, n - 1) + [Symbol(v % 32)]
  }

  /** `ENCODING.indexOf(c.toUpperCase())` or -1. Besides the ASCII letters, the long s (U+017F) upper-cases to "S",
      and the two st ligatures to "ST", which occurs in the alphabet at S. */
  function Lookup(c: char): (digit: int)
    ensures -1 <= digit < 32
    ensures digit >= 0 ==> Symbol(digit) == Folded(c)
    ensures digit == -1 ==> forall d: nat :: d < 32 ==> Symbol(d) != Folded(c)
  {
    var up := Folded(c);
    if '0' <= up <= '9' then up as int - '0' as int
    else if 'A' <= up <= 'H' then up as int - 'A' as int + 10
    else if 'J' <= up <= 'K' then up as int - 'J' as int + 18
    else if 'M' <= up <= 'N' then up as int - 'M' as int + 20
    else if 'P' <= up <= 'T' then up as int - 'P' as int + 22
    else if 'V' <= up <= 'Z' then up as int - 'V' as int + 27
    else -1
  }

  function Folded(c: char): char {
    if 'a' <= c <= 'z' then c - 32 as char
    else if c == '\U{017F}' || c == '\U{FB05}' || c == '\U{FB06}' then 'S'
    else c
  }

  function Canonical(s: string): (t: string)
    ensures |t| == |s| && forall i :: 0 <= i < |s| ==> t[i] == Folded(s[i])
  {
    if s == "" then "" else Canonical(s[..|s| - 1]) + [Folded(s[|s| - 1])]
  }

  predicate Readable(s: string) {
    forall i :: 0 <= i < |s| ==> Lookup(s[i]) >= 0
  }

  /** Place value of a string of symbols. */
  function Value(s: string): nat
    requires Readable(s)
  {
    if s == "" then 0 else 32 * Value(s[..|s| - 1]) + Lookup(s[|s| - 1])
  }

  lemma SymbolIsRead(digit: nat)
    requires digit < 32
    ensures Folded(Symbol(digit)) == Symbol(digit) && Lookup(Symbol(digit)) == digit
  {
  }

  lemma {:induction false} DigitsAreRead(v: nat, n: nat)
    requires v < Pow(32, n)
    ensures Readable(Digits(v, n)) && Value(Digits(v, n)) == v && Canonical(Digits(v, n)) == Digits(v, n)
  {
    if n > 0 {
      DigitsAreRead(v / 32, n - 1);
      SymbolIsRead(v % 32);
      assert Digits(v, n)[..n - 1] == Digits(v / 32, n - 1);
    }
  }

  lemma {:induction false} ReadAreDigits(s: string)
    requires Readable(s)
    ensures Value(s) < Pow(32, |s|) && Digits(Value(s), |s|) == Canonical(s)
  {
    if s != "" {
      var front, digit := s[..|s| - 1], Lookup(s[|s| - 1]);
      ReadAreDigits(front);
      assert Value(s) == 32 * Value(front) + digit;
      assert Value(s) / 32 == Value(front) && Value(s) % 32 == digit;
    }
  }

  function AsciiUpper(c: char): char {
    if 'a' <= c <= 'z' then c - 32 as char else c
  }

  /** Exactly which characters are accepted: those of the alphabet in either case, and, against the documented
      contract, three more that upper-case into it. */
  lemma AcceptedCharacters(c: char)
    ensures Lookup(c) >= 0 <==>
      (exists d: nat :: d < 32 && Symbol(d) == AsciiUpper(c)) || c == '\U{017F}' || c == '\U{FB05}' || c == '\U{FB06}'
  {
    if Lookup(c) >= 0 {
      assert Symbol(Lookup(c)) == Folded(c);
    }
  }

  /** The alphabet is the digits and the capital letters without I, L, O and U; and they ascend (`SymbolsAscend`). */
  lemma AlphabetIsCrockfords(c: char)
    ensures (exists d: nat :: d < 32 && Symbol(d) == c) <==> '0' <= c <= '9' || ('A' <= c <= 'Z' && c !in "ILOU")
  {
    if '0' <= c <= '9' || ('A' <= c <= 'Z' && c !in "ILOU") {
      assert Folded(c) == c && Symbol(Lookup(c)) == c;
    }
  }

  // ----- order -----

  /** The order JavaScript compares strings by. */
  predicate Less(a: string, b: string) {
    b != "" && (a == "" || a[0] < b[0] || (a[0] == b[0] && Less(a[1..], b[1..])))
  }

  lemma {:induction false} LessByLast(a: string, b: string, x: char, y: char)
    requires |a| == |b|
    ensures Less(a + [x], b + [y]) <==> Less(a, b) || (a == b && x < y)
  {
    if a != "" {
      LessByLast(a[1..], b[1..], x, y);
      assert (a + [x])[1..] == a[1..] + [x] && (b + [y])[1..] == b[1..] + [y];
      assert a == [a[0]] + a[1..] && b == [b[0]] + b[1..];
    } else {
      assert (a + [x])[1..] == "" && (b + [y])[1..] == "";
    }
  }

  /** Comparing digit strings of one length is comparing their numbers. */
  lemma {:induction false} OrderIsNumeric(u: nat, v: nat, n: nat)
    requires u < Pow(32, n) && v < Pow(32, n)
    ensures Less(Digits(u, n), Digits(v, n)) <==> u < v
    ensures Digits(u, n) == Digits(v, n) <==> u == v
  {
    DigitsAreRead(u, n);
    DigitsAreRead(v, n);
    if n > 0 {
      OrderIsNumeric(u / 32, v / 32, n - 1);
      LessByLast(Digits(u / 32, n - 1), Digits(v / 32, n - 1), Symbol(u % 32), Symbol(v % 32));
      SymbolsAscend(u % 32, v % 32);
    }
  }

  lemma SymbolsAscend(a: nat, b: nat)
    requires a < 32 && b < 32
    ensures Symbol(a) < Symbol(b) <==> a < b
  {
  }

  lemma {:induction false} DigitsJoin(u: nat, m: nat, v: nat, n: nat)
    requires v < Pow(32, n)
    ensures Digits(u * Pow(32, n) + v, m + n) == Digits(u, m) + Digits(v, n)
    decreases n
  {
    if n > 0 {
      var up := u * Pow(32, n - 1);
      Scaled(u, Pow(32, n - 1));
      DigitsJoin(u, m, v / 32, n - 1);
      Shifted(up, v);
      assert Digits(32 * up + v, m + n) == Digits((32 * up + v) / 32, m + n - 1) + [Symbol((32 * up + v) % 32)];
    }
  }

  lemma Scaled(u: nat, p: nat)
    ensures u * (32 * p) == 32 * (u * p) >= 0
  {
  }

  lemma Shifted(up: nat, v: nat)
    ensures (32 * up + v) / 32 == up + v / 32 && (32 * up + v) % 32 == v % 32
  {
  }

  // ----- encodeTime -----

  predicate IsTime(time: JsNumber) {
    time.Integer? && 0 <= time.value <= MAX_TIME
  }

  method EncodeTime(number: JsNumber) returns (encoded: Encoded)
    ensures encoded == if IsTime(number) then Text(Digits(number.value, TIME_LEN)) else InvalidTime
  {
    if number.NotInteger? || number.value < 0 || number.value > MAX_TIME { return InvalidTime; }
    var time: nat := number.value;
    var text := "";
    var i := TIME_LEN - 1;
    while i >= 0
      invariant -1 <= i < TIME_LEN
      invariant Digits(number.value, TIME_LEN) == Digits(time, i + 1) + text
    {
      var mod := time % 32;
      assert Digits(time, i + 1) + text == Digits(time / 32, i) + ([Symbol(mod)] + text);
      time := time / 32;
      AlphabetIsSymbols(mod);
      text := [ENCODING[mod]] + text;
      i := i - 1;
    }
    encoded := Text(text);
  }

  // ----- encodeRandom -----

  /** A byte array as one big-endian number. */
  function Number(bytes: seq<byte>): nat {
    if bytes == [] then 0 else 0x100 * Number(bytes[..|bytes| - 1]) + bytes[|bytes| - 1]
  }

  lemma {:induction false} NumberBound(bytes: seq<byte>)
    ensures Number(bytes) < Pow(0x100, |bytes|)
  {
    if bytes != [] { NumberBound(bytes[..|bytes| - 1]); }
  }

  /** JavaScript's conversion to a signed 32-bit integer. */
  function ToInt32(x: int): (r: int)
    ensures -0x8000_0000 <= r < 0x8000_0000 && (r - x) % 0x1_0000_0000 == 0
  {
    var low := x % 0x1_0000_0000;
    if low < 0x8000_0000 then low else low - 0x1_0000_0000
  }

  /** `(x << 8) | b`: the shift leaves eight zero bits, which the byte fills. */
  function ShiftIn(x: int, b: byte): int {
    ToInt32(x * 0x100) + b
  }

  /** 2 to the number of bits a shift can be over here: never more than twelve stay in the buffer unread. */
  function Two(n: nat): (p: nat)
    requires n <= 12
    ensures p > 0
  {
    if n == 0 then 1 else if n == 1 then 2 else if n == 2 then 4 else if n == 3 then 8 else if n == 4 then 16
    else if n == 5 then 32 else if n == 6 then 64 else if n == 7 then 128 else if n == 8 then 256
    else if n == 9 then 512 else if n == 10 then 1024 else if n == 11 then 2048 else 4096
  }

  /** `x >> n`, which extends the sign. */
  function ShiftOut(x: int, n: nat): int
    requires n <= 12
  {
    x / Two(n)
  }

  /** However the 32-bit buffer has wrapped, its bits below 12 are those of the number read so far. */
  lemma WrapIsHarmless(buffer: int, number: nat, n: nat)
    requires (buffer - number) % 0x1_0000_0000 == 0 && n <= 7
    ensures ShiftOut(buffer, n) % 32 == ShiftOut(number, n) % 32
  {
    var k := (buffer - number) / 0x1_0000_0000;
    if n == 0 { WrapAt(buffer, number, 1, 0x800_0000, k); }
    else if n == 1 { WrapAt(buffer, number, 2, 0x400_0000, k); }
    else if n == 2 { WrapAt(buffer, number, 4, 0x200_0000, k); }
    else if n == 3 { WrapAt(buffer, number, 8, 0x100_0000, k); }
    else if n == 4 { WrapAt(buffer, number, 16, 0x80_0000, k); }
    else if n == 5 { WrapAt(buffer, number, 32, 0x40_0000, k); }
    else if n == 6 { WrapAt(buffer, number, 64, 0x20_0000, k); }
    else { WrapAt(buffer, number, 128, 0x10_0000, k); }
  }

  lemma WrapAt(buffer: int, number: nat, p: nat, q: nat, k: int)
    requires p > 0 && buffer == number + k * (32 * q * p)
    ensures (buffer / p) % 32 == (number / p) % 32
  {
    var high := 32 * (k * q);
    Regrouped(k, q, p);
    DivisionShifts(number, p, high);
    assert (number / p + high) % 32 == (number / p) % 32;
  }

  lemma Regrouped(k: int, q: nat, p: nat)
    ensures k * (32 * q * p) == (32 * (k * q)) * p
  {
  }

  lemma DivisionShifts(x: int, p: nat, high: int)
    requires p > 0
    ensures (x + high * p) / p == x / p + high
  {
    var q, q' := x / p, (x + high * p) / p;
    assert (q + high) * p == q * p + high * p;
    MixedRadix(q + high, x % p, q', (x + high * p) % p, p);
    MixedRadix(q', (x + high * p) % p, q + high, x % p, p);
  }

  /** Numbers written to one base compare by their upper part first. */
  lemma MixedRadix(t: int, r: int, t': int, r': int, p: nat)
    requires 0 <= r < p && 0 <= r' < p
    ensures t * p + r < t' * p + r' <==> t < t' || (t == t' && r < r')
  {
    if t < t' {
      Multiples(t' - t - 1, p);
      assert (t' - t - 1) * p == t' * p - t * p - p;
    } else if t > t' {
      Multiples(t - t' - 1, p);
      assert (t - t' - 1) * p == t * p - t' * p - p;
    }
  }

  lemma Multiples(d: nat, p: nat)
    ensures d * p >= 0
  {
  }

  lemma ShiftInKeepsTrack(buffer: int, number: nat, b: byte)
    requires (buffer - number) % 0x1_0000_0000 == 0
    ensures (ShiftIn(buffer, b) - (0x100 * number + b)) % 0x1_0000_0000 == 0
  {
    var k := (buffer - number) / 0x1_0000_0000;
    var j := (ToInt32(buffer * 0x100) - buffer * 0x100) / 0x1_0000_0000;
    assert ShiftIn(buffer, b) - (0x100 * number + b) == (j + 0x100 * k) * 0x1_0000_0000;
  }

  lemma NextDigit(number: nat, n: nat, k: nat)
    requires n <= 7
    ensures ShiftOut(number, n) >= 0 && ShiftOut(number, n + 5) >= 0
    ensures Digits(ShiftOut(number, n), k + 1) == Digits(ShiftOut(number, n + 5), k) + [Symbol(ShiftOut(number, n) % 32)]
  {
    assert ShiftOut(number, n) / 32 == ShiftOut(number, n + 5);
  }

  lemma Widened(number: nat, b: byte, bits: nat)
    requires bits < 5
    ensures ShiftOut(0x100 * number + b, bits + 8) == ShiftOut(number, bits) >= 0
  {
  }

  method EncodeRandom(bytes: array<byte>) returns (text: string)
    requires bytes.Length == 10
    ensures text == Digits(Number(bytes[..]), RANDOM_LEN)
  {
    hide Digits, Two, ShiftOut, ShiftIn;
    text := "";
    var buffer, bits := 0, 0;
    Unshifted(0);
    for i := 0 to 10
      invariant 0 <= bits < 5 && 8 * i == 5 * |text| + bits
      invariant (buffer - Number(bytes[..i])) % 0x1_0000_0000 == 0
      invariant 0 <= ShiftOut(Number(bytes[..i]), bits)
      invariant text == Digits(ShiftOut(Number(bytes[..i]), bits), |text|)
    {
      ghost var number := Number(bytes[..i + 1]);
      assert bytes[..i + 1][..i] == bytes[..i];
      ShiftInKeepsTrack(buffer, Number(bytes[..i]), bytes[i]);
      Widened(Number(bytes[..i]), bytes[i], bits);
      buffer := ShiftIn(buffer, bytes[i]);
      bits := bits + 8;
      while bits >= 5
        invariant 0 <= bits <= 12 && 8 * (i + 1) == 5 * |text| + bits
        invariant 0 <= ShiftOut(number, bits)
        invariant text == Digits(ShiftOut(number, bits), |text|)
      {
        bits := bits - 5;
        WrapIsHarmless(buffer, number, bits);
        NextDigit(number, bits, |text|);
        var index := ShiftOut(buffer, bits) % 32;
        AlphabetIsSymbols(index);
        text := text + [ENCODING[index]];
      }
    }
    if bits > 0 {
      // ten bytes are sixteen digits exactly, so there is never anything left to pad
      assert false;
    }
    Unshifted(Number(bytes[..]));
    assert bytes[..10] == bytes[..];
  }

  lemma Unshifted(number: nat)
    ensures ShiftOut(number, 0) == number && Digits(0, 0) == ""
  {
  }

  // ----- getTimestamp -----

  predicate Unreadable(id: string, at: nat) {
    at < |id| && Lookup(id[at]) < 0 && Readable(id[..at])
  }

  function FirstUnreadable(s: string): (at: nat)
    requires !Readable(s)
    ensures Unreadable(s, at)
  {
    if Readable(s[..|s| - 1]) then |s| - 1 else
      var at := FirstUnreadable(s[..|s| - 1]);
      assert s[..|s| - 1][..at] == s[..at];
      at
  }

  /** `getTimestamp` as a function of the string: length first, then the leftmost bad character, then the range. */
  function Timestamp(id: string): Decoded {
    if |id| != ULID_LEN then BadLength
    else if !Readable(id) then BadCharacter(FirstUnreadable(id))
    else if Value(id[..TIME_LEN]) > MAX_TIME then TooLate
    else Time(Value(id[..TIME_LEN]))
  }

  lemma UnreadableIsFirst(id: string, at: nat)
    requires Unreadable(id, at)
    ensures !Readable(id) && FirstUnreadable(id) == at
  {
    var first := FirstUnreadable(id);
  }

  method GetTimestamp(id: string) returns (decoded: Decoded)
    ensures decoded == Timestamp(id)
  {
    hide FirstUnreadable;
    if |id| != ULID_LEN { return BadLength; }
    var timestamp := 0;
    for i := 0 to TIME_LEN
      invariant Readable(id[..i]) && timestamp == Value(id[..i])
    {
      var value := Lookup(id[i]);
      if value == -1 {
        UnreadableIsFirst(id, i);
        return BadCharacter(i);
      }
      assert id[..i + 1][..i] == id[..i];
      timestamp := timestamp * 32 + value;
    }
    for i := TIME_LEN to ULID_LEN
      invariant Readable(id[..i])
    {
      if Lookup(id[i]) == -1 {
        UnreadableIsFirst(id, i);
        return BadCharacter(i);
      }
    }
    assert id[..ULID_LEN] == id;
    if timestamp > MAX_TIME { return TooLate; }
    decoded := Time(timestamp);
  }

  // ----- results -----

  /** The text of a time and a random number, as one 130-bit number in base 32. */
  function Ulid(time: nat, random: nat): (id: string)
    ensures |id| == ULID_LEN
  {
    Digits(time, TIME_LEN) + Digits(random, RANDOM_LEN)
  }

  /** Decoding gives back exactly the time encoded, whatever readable characters follow it. */
  lemma DecodeUndoesEncode(time: nat, tail: string)
    requires time <= MAX_TIME && |tail| == RANDOM_LEN && Readable(tail)
    ensures Timestamp(Digits(time, TIME_LEN) + tail) == Time(time)
  {
    hide Digits, Lookup, Value, FirstUnreadable, Pow;
    PowsOf32();
    DigitsAreRead(time, TIME_LEN);
    Decodes(Digits(time, TIME_LEN), tail);
  }

  lemma Decodes(head: string, tail: string)
    requires |head| == TIME_LEN && |tail| == RANDOM_LEN && Readable(head) && Readable(tail) && Value(head) <= MAX_TIME
    ensures Timestamp(head + tail) == Time(Value(head))
  {
    hide Lookup, Value, FirstUnreadable;
    assert (head + tail)[..TIME_LEN] == head;
  }

  lemma PowsOf32()
    ensures Pow(32, TIME_LEN) == 0x4_0000_0000_0000 && Pow(32, RANDOM_LEN) == 0x1_0000_0000_0000_0000_0000
    ensures Pow(0x100, 10) == 0x1_0000_0000_0000_0000_0000
  {
    assert Pow(32, 5) == 0x200_0000;
    PowSplits(32, 5, 5);
    PowSplits(32, 10, 6);
    assert Pow(32, 6) == 0x4000_0000;
    assert Pow(0x100, 5) == 0x100_0000_0000;
    PowSplits(0x100, 5, 5);
  }

  /** A string decodes to `time` exactly when it is 26 readable characters whose canonical form starts with the
      encoding of `time`: accepted strings re-encode to their own prefix. */
  lemma AcceptedIsEncoded(id: string, time: nat)
    ensures Timestamp(id) == Time(time) <==>
      |id| == ULID_LEN && Readable(id) && time <= MAX_TIME && Canonical(id)[..TIME_LEN] == Digits(time, TIME_LEN)
  {
    hide Digits, Lookup, Value, Canonical, FirstUnreadable, Pow;
    if |id| == ULID_LEN && Readable(id) {
      PowsOf32();
      var head := id[..TIME_LEN];
      ReadAreDigits(head);
      assert Canonical(id)[..TIME_LEN] == Canonical(head);
      if time <= MAX_TIME {
        DigitsAreRead(time, TIME_LEN);
        DigitsAreRead(Value(head), TIME_LEN);
      }
    }
  }

  predicate InAlphabet(c: char) {
    '0' <= c <= '9' || ('A' <= c <= 'Z' && c !in "ILOU")
  }

  /** Which strings are refused, and as what: any but 26 characters; else the leftmost character that is not of the alphabet
      once in upper case; else a time past 48 bits, which is a first character above 7. */
  lemma RefusedExactlyWhen(id: string)
    ensures Timestamp(id).BadLength? <==> |id| != 26
    ensures forall at: nat :: Timestamp(id) == BadCharacter(at) <==>
      |id| == 26 && at < 26 && !InAlphabet(Folded(id[at])) && forall i :: 0 <= i < at ==> InAlphabet(Folded(id[i]))
    ensures Timestamp(id).TooLate? <==> |id| == 26 && (forall i :: 0 <= i < 26 ==> InAlphabet(Folded(id[i]))) && Folded(id[0]) > '7'
  {
    hide Value, Symbol, Folded, FirstUnreadable;
    forall i | 0 <= i < |id| ensures Lookup(id[i]) >= 0 <==> InAlphabet(Folded(id[i])) {
      LookedUpIsInAlphabet(id[i]);
    }
    if |id| == 26 && Readable(id) {
      FirstDigitDecides(id[..TIME_LEN]);
    } else if |id| == 26 {
      var first := FirstUnreadable(id);
      assert forall i :: 0 <= i < first ==> id[i] == id[..first][i];
    }
  }

  lemma LookedUpIsInAlphabet(c: char)
    ensures Lookup(c) >= 0 <==> InAlphabet(Folded(c))
  {
    AlphabetIsCrockfords(Folded(c));
    if Lookup(c) >= 0 {
      assert Symbol(Lookup(c)) == Folded(c);
    }
  }

  lemma {:induction false} ValueSplits(s: string)
    requires Readable(s) && s != ""
    ensures Value(s) == Lookup(s[0]) * Pow(32, |s| - 1) + Value(s[1..])
    decreases |s|
  {
    if |s| > 1 {
      var front, first := s[..|s| - 1], Lookup(s[0]);
      ValueSplits(front);
      assert s[1..][..|s| - 2] == front[1..];
      Scaled(first, Pow(32, |s| - 2));
    }
  }

  /** Ten digits are past 48 bits exactly if the first of them is 8 or more. */
  lemma FirstDigitDecides(head: string)
    requires |head| == TIME_LEN && Readable(head)
    ensures Value(head) > MAX_TIME <==> Folded(head[0]) > '7'
  {
    hide Value, Digits, Pow;
    var first, p := Lookup(head[0]), Pow(32, 9);
    assert Symbol(first) == Folded(head[0]);
    PowsOf32();
    assert p == 0x2000_0000_0000 by { PowSplits(32, 1, 9); OneDigitPower(); }
    ValueSplits(head);
    ReadAreDigits(head[1..]);
  }

  lemma OneDigitPower()
    ensures Pow(32, 1) == 32
  {
  }

  /** The digits of ten bytes are canonical and give the 80-bit number back. */
  lemma RandomRoundTrip(bytes: seq<byte>)
    requires |bytes| == 10
    ensures var text := Digits(Number(bytes), RANDOM_LEN);
      Readable(text) && Canonical(text) == text && Value(text) == Number(bytes)
  {
    PowsOf32();
    NumberBound(bytes);
    DigitsAreRead(Number(bytes), RANDOM_LEN);
  }

  /** ULIDs sort as strings by time first, then by random number. */
  lemma OrderIsTimeThenRandom(t: nat, r: nat, t': nat, r': nat)
    requires t <= MAX_TIME && t' <= MAX_TIME && r < Pow(32, RANDOM_LEN) && r' < Pow(32, RANDOM_LEN)
    ensures Less(Ulid(t, r), Ulid(t', r')) <==> t < t' || (t == t' && r < r')
  {
    hide Digits, Pow, Less;
    PowsOf32();
    var p := Pow(32, RANDOM_LEN);
    DigitsJoin(t, TIME_LEN, r, RANDOM_LEN);
    DigitsJoin(t', TIME_LEN, r', RANDOM_LEN);
    PowSplits(32, TIME_LEN, RANDOM_LEN);
    Fits(t, r, Pow(32, TIME_LEN), p);
    Fits(t', r', Pow(32, TIME_LEN), p);
    OrderIsNumeric(t * p + r, t' * p + r', ULID_LEN);
    MixedRadix(t, r, t', r', p);
  }

  lemma Fits(t: nat, r: nat, m: nat, p: nat)
    requires t < m && r < p
    ensures 0 <= t * p + r < m * p
  {
    MixedRadix(t, r, m, 0, p);
    Multiples(t, p);
  }
}
