/** Parsing a whole expression and matching a date against it, by the code's loops and by what the expression means. */
module CronMatching {
  import opened CronText
  import opened CronLanguage
  import opened CronAtoms
  import opened CronSchedule

  datatype ParsedSchedule = ParsedSchedule(
    minute: set<nat>, hour: set<nat>, dayOfMonth: set<nat>, month: set<nat>, dayOfWeek: set<nat>,
    domRestricted: bool, dowRestricted: bool, fixedTime: bool)

  /** A rejection names the field at fault, or none when the expression has not five of them. */
  datatype Parsed = Accepted(schedule: ParsedSchedule) | InvalidSchedule(field: Option<FieldName>)

  /** Local calendar fields, as `Date` gives them: months from 0, Sunday as 0. */
  datatype Date = Date(minutes: nat, hours: nat, date: nat, month: nat, day: nat)

  // ----- one part, one field -----

  /** The values a part runs between; only a reversed range is refused here. */
  method ParseRange(rangePart: string, stepped: bool, f: FieldName) returns (result: Option<(nat, nat)>)
    requires rangePart != ""
    ensures result.Some? <==>
      ReadSpan(rangePart).Some? && Bounds(ReadSpan(rangePart).value, stepped, f).Some? &&
      var (from, upto) := Bounds(ReadSpan(rangePart).value, stepped, f).value;
      ReadSpan(rangePart).value.Range? ==> from <= upto
    ensures result.Some? ==> result == Bounds(ReadSpan(rangePart).value, stepped, f)
    ensures result.Some? ==> result.value.0 <= result.value.1 || result.value.0 > Max(f)
  {
    hide Atom;
    if rangePart == "*" { return Some((Min(f), Max(f))); }
    if '-' in rangePart {
      var bounds := Split(rangePart, '-');
      if |bounds| != 2 || bounds[0] == "" || bounds[1] == "" { return None; }
      var from, upto := Atom(bounds[0], f), Atom(bounds[1], f);
      if from.None? || upto.None? { return None; }
      if from.value > upto.value { return None; }
      return Some((from.value, upto.value));
    }
    var from := Atom(rangePart, f);
    if from.None? { return None; }
    result := Some((from.value, if stepped then Max(f) else from.value));
  }

  method ParsePart(part: string, f: FieldName) returns (result: Option<set<nat>>)
    requires ',' !in part
    ensures result == PartValues(part, f)
  {
    hide Values, Bounds, Formed;
    if part == "" { return None; }
    var slash := Split(part, '/');
    if |slash| > 2 { return None; }
    var rangePart := slash[0];
    if |slash| == 2 && slash[1] == "" { return None; }
    if rangePart == "" { return None; }
    var step := 1;
    if |slash| == 2 {
      if !IsNumeral(slash[1]) { return None; }
      step := NumberOf(slash[1]);
    }
    var range := ParseRange(rangePart, |slash| == 2, f);
    if Read(part).Some? { ReadIsFormed(part); }
    if step < 1 || range.None? { return None; }
    var (from, upto) := range.value;
    if from < Min(f) || from > Max(f) || upto > Max(f) { return None; }
    if |slash| == 2 && upto > from && step > upto - from { return None; }
    var values := Stepped(from, upto, step, f);
    result := Some(values);
  }

  method Stepped(from: nat, upto: nat, step: nat, f: FieldName) returns (values: set<nat>)
    requires step >= 1
    ensures values == Values(from, upto, step, f)
  {
    values := {};
    var v := from;
    while v <= upto
      invariant values + Values(v, upto, step, f) == Values(from, upto, step, f)
      decreases upto + 1 - v
    {
      values := values + {Fold(f, v)};
      v := v + step;
    }
  }

  method ParseField(raw: string, f: FieldName) returns (result: Option<set<nat>>)
    ensures result == Field(raw, f)
  {
    hide PartValues;
    var parts := Split(raw, ',');
    SplitThenJoin(raw, ',');
    var values: set<nat> := {};
    for i := 0 to |parts|
      invariant PartsValues(parts[..i], f) == Some(values)
    {
      assert parts[..i + 1][..i] == parts[..i] && parts[i] in parts;
      var part := ParsePart(parts[i], f);
      if part.None? {
        OneBadPartFails(parts, f, i);
        return None;
      }
      values := values + part.value;
    }
    assert parts[..|parts|] == parts;
    result := Some(values);
  }

  // ----- the expression -----

  predicate StartsWithStar(raw: string) {
    raw != "" && raw[0] == '*'
  }

  function Parse(expression: string): Parsed {
    var w := Words(expression);
    if |w| != 5 then InvalidSchedule(None)
    else if Field(w[0], Minute).None? then InvalidSchedule(Some(Minute))
    else if Field(w[1], Hour).None? then InvalidSchedule(Some(Hour))
    else if Field(w[2], DayOfMonth).None? then InvalidSchedule(Some(DayOfMonth))
    else if Field(w[3], Month).None? then InvalidSchedule(Some(Month))
    else if Field(w[4], DayOfWeek).None? then InvalidSchedule(Some(DayOfWeek))
    else Accepted(ParsedSchedule(
      Field(w[0], Minute).value, Field(w[1], Hour).value, Field(w[2], DayOfMonth).value, Field(w[3], Month).value,
      Field(w[4], DayOfWeek).value, !StartsWithStar(w[2]), !StartsWithStar(w[4]),
      !StartsWithStar(w[0]) && !StartsWithStar(w[1])))
  }

  method ParseSchedule(expression: string) returns (result: Parsed)
    ensures result == Parse(expression)
  {
    hide Field, Words;
    var fields := Words(expression);
    if |fields| != 5 { return InvalidSchedule(None); }
    var minute := ParseField(fields[0], Minute);
    if minute.None? { return InvalidSchedule(Some(Minute)); }
    var hour := ParseField(fields[1], Hour);
    if hour.None? { return InvalidSchedule(Some(Hour)); }
    var dayOfMonth := ParseField(fields[2], DayOfMonth);
    if dayOfMonth.None? { return InvalidSchedule(Some(DayOfMonth)); }
    var month := ParseField(fields[3], Month);
    if month.None? { return InvalidSchedule(Some(Month)); }
    var dayOfWeek := ParseField(fields[4], DayOfWeek);
    if dayOfWeek.None? { return InvalidSchedule(Some(DayOfWeek)); }
    result := Accepted(ParsedSchedule(minute.value, hour.value, dayOfMonth.value, month.value, dayOfWeek.value,
      !StartsWithStar(fields[2]), !StartsWithStar(fields[4]), !StartsWithStar(fields[0]) && !StartsWithStar(fields[1])));
  }

  function Matches(schedule: ParsedSchedule, date: Date): bool {
    if date.minutes !in schedule.minute then false
    else if date.hours !in schedule.hour then false
    else if date.month + 1 !in schedule.month then false
    else
      var domOk, dowOk := date.date in schedule.dayOfMonth, date.day in schedule.dayOfWeek;
      if schedule.domRestricted && schedule.dowRestricted then domOk || dowOk else domOk && dowOk
  }

  // ----- its meaning -----

  /** A cron table entry, item by item. */
  datatype Cron = Cron(minute: seq<Item>, hour: seq<Item>, dayOfMonth: seq<Item>, month: seq<Item>, dayOfWeek: seq<Item>)

  /** `words` are the five fields listing these items. */
  ghost predicate Fields(cron: Cron, words: seq<string>) {
    && |words| == 5
    && Lists(cron.minute, words[0], Minute) && Lists(cron.hour, words[1], Hour) && Lists(cron.dayOfMonth, words[2], DayOfMonth)
    && Lists(cron.month, words[3], Month) && Lists(cron.dayOfWeek, words[4], DayOfWeek)
  }

  /** `expression` is the five fields set apart by white space. */
  ghost predicate Written(expression: string, cron: Cron) {
    exists gaps, words :: Spacing(gaps, words) && expression == Layout(gaps, words) && Fields(cron, words)
  }

  ghost predicate Starred(items: seq<Item>) {
    items != [] && items[0].span.All?
  }

  ghost predicate AllSound(items: seq<Item>, f: FieldName) {
    forall item :: item in items ==> Sound(item, f)
  }

  ghost predicate SoundCron(cron: Cron) {
    && AllSound(cron.minute, Minute) && AllSound(cron.hour, Hour) && AllSound(cron.dayOfMonth, DayOfMonth)
    && AllSound(cron.month, Month) && AllSound(cron.dayOfWeek, DayOfWeek)
  }

  /** The entry is due: minute, hour and month are hit, and the day is hit by both day fields, or by either one when
      neither begins with a star. */
  ghost predicate Due(cron: Cron, date: Date)
  {
    && AnyHits(cron.minute, Minute, date.minutes)
    && AnyHits(cron.hour, Hour, date.hours)
    && AnyHits(cron.month, Month, date.month + 1)
    && var dom, dow := AnyHits(cron.dayOfMonth, DayOfMonth, date.date), AnyHits(cron.dayOfWeek, DayOfWeek, date.day);
       if Starred(cron.dayOfMonth) || Starred(cron.dayOfWeek) then dom && dow else dom || dow
  }

  lemma FieldHits(items: seq<Item>, raw: string, f: FieldName)
    requires Lists(items, raw, f)
    ensures Field(raw, f).Some?
    ensures forall v :: v in Field(raw, f).value <==> AnyHits(items, f, v)
    ensures StartsWithStar(raw) <==> Starred(items)
  {
    hide Split, Join, PartsValues, Hits, Sound, Bounds;
    ItemsAreAccepted(items, f);
    JoinThenSplit(Shown(items), ',');
    SplitThenJoin(raw, ',');
    var read := PartsAreItems(Split(raw, ','), f);
    assert Lists(read, raw, f);
    ListedOnce(items, read, raw, f);
    StarShows(items, raw, f);
  }

  /** Only an item that begins with the wildcard begins with a star. */
  lemma StarShows(items: seq<Item>, raw: string, f: FieldName)
    requires Lists(items, raw, f)
    ensures StartsWithStar(raw) <==> Starred(items)
  {
    hide Sound, Show, Shown;
    var first := items[0];
    assert first in items;
    SoundStart(first, f);
    assert Shown(items)[0] == Show(first);
  }

  lemma SoundStart(item: Item, f: FieldName)
    requires Sound(item, f)
    ensures Show(item) != "" && (Show(item)[0] == '*' <==> item.span.All?)
  {
    SoundFits(item, f);
    hide Sound, Atom;
    match item.span
    case All =>
    case One(atom) => AtomStart(atom, f);
    case Range(lo, hi) => AtomStart(lo, f);
  }

  lemma AtomStart(token: string, f: FieldName)
    requires token != "" && Atom(token, f).Some?
    ensures token[0] != '*'
  {
    if !IsNumeral(token) {
      NamesStart(if f.Month? then IndexIn(Upper(token), MonthNames).value else IndexIn(Upper(token), DayNames).value);
    }
  }

  lemma NamesStart(i: nat)
    ensures i < |MonthNames| ==> MonthNames[i] != "" && MonthNames[i][0] != '*'
    ensures i < |DayNames| ==> DayNames[i] != "" && DayNames[i][0] != '*'
  {
  }

  /** An expression is accepted exactly when it is five white-space-separated lists of sound items. */
  lemma AcceptsExactlyTheLanguage(expression: string)
    ensures Parse(expression).Accepted? <==> exists cron :: Written(expression, cron)
  {
    hide Words, Field, Layout, Spacing, Lists;
    var words := Words(expression);
    if Parse(expression).Accepted? {
      var gaps := LaidOut(expression);
      var cron := Cron(ReadField(words[0], Minute), ReadField(words[1], Hour), ReadField(words[2], DayOfMonth),
                       ReadField(words[3], Month), ReadField(words[4], DayOfWeek));
      assert Fields(cron, words);
      assert Written(expression, cron);
    }
    forall cron | Written(expression, cron) ensures Parse(expression).Accepted? {
      MatchingIsMeaning(expression, cron, Date(0, 0, 0, 0, 0));
    }
  }

  const Order := [Minute, Hour, DayOfMonth, Month, DayOfWeek]

  ghost predicate IsList(raw: string, f: FieldName) {
    exists items :: Lists(items, raw, f)
  }

  /** A rejection names no field exactly when there are not five words, and else the first one that is no list of sound items. */
  lemma RejectedAtTheFirstBadField(expression: string)
    ensures Parse(expression) == InvalidSchedule(None) <==> |Words(expression)| != 5
    ensures |Words(expression)| == 5 ==> var words := Words(expression);
      forall i :: 0 <= i < 5 ==>
        (Parse(expression) == InvalidSchedule(Some(Order[i])) <==>
           !IsList(words[i], Order[i]) && forall j :: 0 <= j < i ==> IsList(words[j], Order[j]))
  {
    hide Words, Field, IsList;
    var words := Words(expression);
    if |words| == 5 {
      ListIsAccepted(words[0], Minute);
      ListIsAccepted(words[1], Hour);
      ListIsAccepted(words[2], DayOfMonth);
      ListIsAccepted(words[3], Month);
      ListIsAccepted(words[4], DayOfWeek);
    }
  }

  lemma ListIsAccepted(raw: string, f: FieldName)
    ensures IsList(raw, f) <==> Field(raw, f).Some?
  {
    hide Field, Lists, AnyHits;
    if Field(raw, f).Some? { FieldMeaning(raw, f, Field(raw, f).value); }
    if items :| Lists(items, raw, f) { FieldHits(items, raw, f); }
  }

  ghost function ReadField(raw: string, f: FieldName): (items: seq<Item>)
    requires Field(raw, f).Some?
    ensures Lists(items, raw, f)
  {
    FieldMeaning(raw, f, Field(raw, f).value);
    var items :| Lists(items, raw, f);
    items
  }

  /** A parsed expression matches a date exactly when the entry it is written as is due then. */
  lemma MatchingIsMeaning(expression: string, cron: Cron, date: Date)
    requires Written(expression, cron)
    ensures Parse(expression).Accepted? && SoundCron(cron)
    ensures Matches(Parse(expression).schedule, date) <==> Due(cron, date)
    ensures Parse(expression).schedule.fixedTime <==> !Starred(cron.minute) && !Starred(cron.hour)
  {
    var gaps, words :| Spacing(gaps, words) && expression == Layout(gaps, words) && Fields(cron, words);
    LayoutHasWords(gaps, words);
    FieldHits(cron.minute, words[0], Minute);
    FieldHits(cron.hour, words[1], Hour);
    FieldHits(cron.dayOfMonth, words[2], DayOfMonth);
    FieldHits(cron.month, words[3], Month);
    FieldHits(cron.dayOfWeek, words[4], DayOfWeek);
    hide Field, Words, Layout, Spacing, AnyHits, Starred, StartsWithStar, Sound;
  }

  /** Every accepted schedule has at least one value in each field, all in range, with Sunday as 0 only. */
  lemma FieldsAreUsable(expression: string)
    requires Parse(expression).Accepted?
    ensures var s := Parse(expression).schedule;
      && s.minute != {} && s.hour != {} && s.dayOfMonth != {} && s.month != {} && s.dayOfWeek != {}
      && (forall v :: v in s.minute ==> v <= 59) && (forall v :: v in s.hour ==> v <= 23)
      && (forall v :: v in s.dayOfMonth ==> 1 <= v <= 31) && (forall v :: v in s.month ==> 1 <= v <= 12)
      && (forall v :: v in s.dayOfWeek ==> v <= 6)
  {
    hide Field, Words;
    var words := Words(expression);
    FieldIsInRange(words[0], Minute);
    FieldIsInRange(words[1], Hour);
    FieldIsInRange(words[2], DayOfMonth);
    FieldIsInRange(words[3], Month);
    FieldIsInRange(words[4], DayOfWeek);
  }
}
