/** The schedule language of `schedule.ts`: how a field of an expression is written, and which values it means.
    (IEEE Std 1003.1, `crontab`, section "INPUT FILES", with the steps, names and star rule of Vixie cron.) */
module CronLanguage {
  import opened CronText

  datatype FieldName = Minute | Hour | DayOfMonth | Month | DayOfWeek

  // ----- how it is written -----

  datatype Span = All | One(atom: string) | Range(lo: string, hi: string)

  /** One item of a list, with the step written after it, if any. */
  datatype Item = Item(span: Span, step: Option<string>)

  predicate AllDigits(token: string) {
    forall i :: 0 <= i < |token| ==> '0' <= token[i] <= '9'
  }

  predicate IsNumeral(token: string) {
    token != "" && AllDigits(token)
  }

  predicate Token(s: string) {
    s != "" && ',' !in s && '/' !in s && '-' !in s
  }

  predicate Formed(item: Item) {
    && (match item.span
        case All => true
        case One(atom) => Token(atom) && atom != "*"
        case Range(lo, hi) => Token(lo) && Token(hi))
    && (item.step.Some? ==> IsNumeral(item.step.value))
  }

  function ShowSpan(span: Span): string {
    match span
    case All => "*"
    case One(atom) => atom
    case Range(lo, hi) => lo + "-" + hi
  }

  function Show(item: Item): string {
    ShowSpan(item.span) + if item.step.Some? then "/" + item.step.value else ""
  }

  function Shown(items: seq<Item>): (parts: seq<string>)
    ensures |parts| == |items| && forall i :: 0 <= i < |items| ==> parts[i] == Show(items[i])
  {
    if items == [] then [] else Shown(items[..|items| - 1]) + [Show(items[|items| - 1])]
  }

  /** `raw` is a comma-separated list of these items. */
  ghost predicate Lists(items: seq<Item>, raw: string, f: FieldName) {
    |items| >= 1 && (forall item :: item in items ==> Sound(item, f)) && raw == Join(Shown(items), ',')
  }

  // ----- numbers and names -----

  function Decimal(n: nat): string {
    if n < 10 then [n as char + '0'] else Decimal(n / 10) + [(n % 10) as char + '0']
  }

  function Zeros(k: nat): string {
    if k == 0 then "" else Zeros(k - 1) + "0"
  }

  /** `n` in decimal, after any number of zeros. */
  ghost predicate Numeral(token: string, n: nat) {
    exists k: nat :: token == Zeros(k) + Decimal(n)
  }

  function MonthName(v: nat): string {
    match v
    case 1 => "JAN" case 2 => "FEB" case 3 => "MAR" case 4 => "APR" case 5 => "MAY" case 6 => "JUN"
    case 7 => "JUL" case 8 => "AUG" case 9 => "SEP" case 10 => "OCT" case 11 => "NOV" case 12 => "DEC"
    case _ => ""
  }

  function DayName(v: nat): string {
    match v
    case 0 => "SUN" case 1 => "MON" case 2 => "TUE" case 3 => "WED" case 4 => "THU" case 5 => "FRI" case 6 => "SAT"
    case _ => ""
  }

  /** A capital or its small letter; the long s and the dotless i stand for S and I as well. */
  predicate Letter(c: char, capital: char) {
    || c == capital || ('A' <= capital <= 'Z' && c == capital + ' ')
    || (c == '\U{17F}' && capital == 'S') || (c == '\U{131}' && capital == 'I')
  }

  predicate Spells(token: string, name: string) {
    |token| == |name| > 0 && forall i :: 0 <= i < |name| ==> Letter(token[i], name[i])
  }

  /** The token is a number, or in a field that has names the whole of a name, and means `v`. */
  ghost predicate Denotes(token: string, f: FieldName, v: nat) {
    || Numeral(token, v)
    || (f.Month? && Spells(token, MonthName(v)))
    || (f.DayOfWeek? && Spells(token, DayName(v)))
  }

  // ----- what it means -----

  predicate InField(f: FieldName, v: nat) {
    match f
    case Minute => v <= 59
    case Hour => v <= 23
    case DayOfMonth => 1 <= v <= 31
    case Month => 1 <= v <= 12
    case DayOfWeek => v <= 7
  }

  /** Days of the month and months count from 1. */
  function First(f: FieldName): nat {
    match f
    case DayOfMonth => 1
    case Month => 1
    case _ => 0
  }

  /** The step written, or 1. */
  ghost predicate StepIs(item: Item, stride: nat) {
    match item.step
    case None => stride == 1
    case Some(step) => Numeral(step, stride)
  }

  function Nth(from: nat, stride: nat, k: nat): nat {
    from + k * stride
  }

  ghost predicate OnStride(from: nat, stride: nat, w: nat) {
    exists k: nat :: w == Nth(from, stride, k)
  }

  /** A star reaches the field's values a whole number of steps from its first one; an atom its own value or, with a step, the
      field's values so many steps from that; a range those from its first to its last. */
  ghost predicate Reaches(item: Item, f: FieldName, w: nat) {
    exists stride: nat :: StepIs(item, stride) && StepsTo(item, f, stride, w)
  }

  ghost predicate StepsTo(item: Item, f: FieldName, stride: nat, w: nat) {
    match item.span
    case All => InField(f, w) && OnStride(First(f), stride, w)
    case One(atom) =>
      if item.step.None? then Denotes(atom, f, w)
      else exists a: nat :: Denotes(atom, f, a) && InField(f, w) && OnStride(a, stride, w)
    case Range(lo, hi) =>
      exists a: nat, b: nat :: Denotes(lo, f, a) && Denotes(hi, f, b) && OnStride(a, stride, w) && w <= b
  }

  /** The item means `v`; a 7 is Sunday, which is 0. */
  ghost predicate Hits(item: Item, f: FieldName, v: nat) {
    exists w: nat :: Reaches(item, f, w) && v == if f.DayOfWeek? && w == 7 then 0 else w
  }

  ghost predicate AnyHits(items: seq<Item>, f: FieldName, v: nat) {
    exists item :: item in items && Hits(item, f, v)
  }

  /** Numbers and names are the field's own, a range is not reversed, and a step is at least 1 and leads to a second value where
      there is room for one. */
  ghost predicate Sound(item: Item, f: FieldName) {
    Formed(item) && exists stride: nat :: StepIs(item, stride) && stride >= 1 && HasRoom(item, f, stride)
  }

  ghost predicate HasRoom(item: Item, f: FieldName, stride: nat) {
    match item.span
    case All => item.step.Some? ==> InField(f, First(f) + stride)
    case One(atom) =>
      exists a: nat :: Denotes(atom, f, a) && InField(f, a) && (item.step.Some? ==> InField(f, a + stride) || !InField(f, a + 1))
    case Range(lo, hi) =>
      exists a: nat, b: nat ::
        && Denotes(lo, f, a) && Denotes(hi, f, b) && InField(f, a) && InField(f, b)
        && a <= b && (item.step.Some? ==> a + stride <= b || a == b)
  }
}
