/** The field parser of `schedule.ts`, and that what it makes of a field is what the field means. */
module CronSchedule {
  import opened CronText
  import opened CronLanguage
  import opened CronAtoms

  function Min(f: FieldName): nat {
    if f.DayOfMonth? || f.Month? then 1 else 0
  }

  function Max(f: FieldName): nat {
    match f
    case Minute => 59
    case Hour => 23
    case DayOfMonth => 31
    case Month => 12
    case DayOfWeek => 7
  }

  /** Sunday is 0, and 7 as well. */
  function Fold(f: FieldName, v: nat): nat {
    if f.DayOfWeek? && v == 7 then 0 else v
  }

  /** First and last value; an atom with a step runs to the end of the field. */
  function Bounds(span: Span, stepped: bool, f: FieldName): Option<(nat, nat)> {
    match span
    case All => Some((Min(f), Max(f)))
    case One(atom) =>
      (match Atom(atom, f)
       case None => None
       case Some(v) => Some((v, if stepped then Max(f) else v)))
    case Range(lo, hi) =>
      if Atom(lo, f).None? || Atom(hi, f).None? then None else Some((Atom(lo, f).value, Atom(hi, f).value))
  }

  function Stride(item: Item): nat
    requires Formed(item)
  {
    if item.step.Some? then NumberOf(item.step.value) else 1
  }

  /** In range, not reversed, and stepping by at least one and at most the whole span, if the span is not a point. */
  predicate Fits(item: Item, f: FieldName) {
    Formed(item) && Stride(item) >= 1 && Bounds(item.span, item.step.Some?, f).Some? &&
    var (from, upto) := Bounds(item.span, item.step.Some?, f).value;
    Min(f) <= from <= upto <= Max(f) && (item.step.Some? && upto > from ==> Stride(item) <= upto - from)
  }

  ghost predicate InSteps(from: nat, upto: nat, stride: nat, f: FieldName, v: nat) {
    exists k: nat :: Nth(from, stride, k) <= upto && v == Fold(f, Nth(from, stride, k))
  }

  // ----- the parser's view and the language's -----

  /** The step is what the parser reads, and nothing else. */
  lemma StrideIsStep(item: Item)
    requires Formed(item)
    ensures StepIs(item, Stride(item)) && forall stride: nat :: StepIs(item, stride) ==> stride == Stride(item)
  {
    hide Numeral;
    forall stride: nat ensures StepIs(item, stride) <==> stride == Stride(item) {
      if item.step.Some? { NumeralsAreRead(item.step.value, stride); }
    }
  }

  /** So is what a token denotes. */
  lemma AtomIsDenoted(token: string, f: FieldName)
    ensures match Atom(token, f)
      case None => forall v: nat :: !Denotes(token, f, v)
      case Some(a) => Denotes(token, f, a) && forall v: nat :: Denotes(token, f, v) ==> v == a
  {
    hide Atom, Denotes;
    forall v: nat ensures Atom(token, f) == Some(v) <==> Denotes(token, f, v) {
      AtomsAreRead(token, f, v);
    }
  }

  lemma AtomsAreDenoted(item: Item, f: FieldName)
    ensures item.span.One? ==>
      match Atom(item.span.atom, f)
      case None => forall v: nat :: !Denotes(item.span.atom, f, v)
      case Some(a) => Denotes(item.span.atom, f, a) && forall v: nat :: Denotes(item.span.atom, f, v) ==> v == a
    ensures item.span.Range? ==>
      match Atom(item.span.lo, f)
      case None => forall v: nat :: !Denotes(item.span.lo, f, v)
      case Some(a) => Denotes(item.span.lo, f, a) && forall v: nat :: Denotes(item.span.lo, f, v) ==> v == a
    ensures item.span.Range? ==>
      match Atom(item.span.hi, f)
      case None => forall v: nat :: !Denotes(item.span.hi, f, v)
      case Some(a) => Denotes(item.span.hi, f, a) && forall v: nat :: Denotes(item.span.hi, f, v) ==> v == a
  {
    hide Atom, Denotes;
    match item.span
    case All =>
    case One(atom) => AtomIsDenoted(atom, f);
    case Range(lo, hi) => AtomIsDenoted(lo, f); AtomIsDenoted(hi, f);
  }

  /** An item that the parser takes is a sound one, and the other way round. */
  lemma SoundFits(item: Item, f: FieldName)
    ensures Fits(item, f) <==> Sound(item, f)
  {
    hide HasRoom, StepIs, Formed, Bounds;
    if Formed(item) {
      StrideIsStep(item);
      if Stride(item) >= 1 { RoomFits(item, f); }
    }
  }

  lemma RoomFits(item: Item, f: FieldName)
    requires Formed(item) && Stride(item) >= 1
    ensures Fits(item, f) <==> HasRoom(item, f, Stride(item))
  {
    hide Atom, Denotes, StepIs, Formed, Stride;
    AtomsAreDenoted(item, f);
    match item.span
    case All =>
    case One(atom) =>
      if Atom(atom, f).Some? { OneFits(item, f, Atom(atom, f).value); }
    case Range(lo, hi) =>
  }

  lemma OneFits(item: Item, f: FieldName, a: nat)
    requires Formed(item) && Stride(item) >= 1 && item.span.One? && Atom(item.span.atom, f) == Some(a)
    ensures Fits(item, f) <==> InField(f, a) && (item.step.Some? ==> InField(f, a + Stride(item)) || !InField(f, a + 1))
  {
    hide Atom, Formed, Stride;
  }

  /** What an item means is what lies on the parser's steps. */
  lemma HitsAreSteps(item: Item, f: FieldName, v: nat)
    requires Fits(item, f)
    ensures var (from, upto) := Bounds(item.span, item.step.Some?, f).value;
      Hits(item, f, v) <==> InSteps(from, upto, Stride(item), f, v)
  {
    hide Atom, Formed, Nth, Bounds, StepIs, StepsTo, Stride;
    var (from, upto) := Bounds(item.span, item.step.Some?, f).value;
    forall w: nat ensures Reaches(item, f, w) <==> OnStride(from, Stride(item), w) && w <= upto {
      ReachesSteps(item, f, w);
    }
    hide Reaches, Fits;
    if w: nat :| Reaches(item, f, w) && v == Fold(f, w) {
      var k: nat :| w == Nth(from, Stride(item), k);
    }
    if k: nat :| Nth(from, Stride(item), k) <= upto && v == Fold(f, Nth(from, Stride(item), k)) {
      assert OnStride(from, Stride(item), Nth(from, Stride(item), k));
    }
  }

  lemma ReachesSteps(item: Item, f: FieldName, w: nat)
    requires Fits(item, f)
    ensures var (from, upto) := Bounds(item.span, item.step.Some?, f).value;
      Reaches(item, f, w) <==> OnStride(from, Stride(item), w) && w <= upto
  {
    hide Atom, Denotes, Formed, OnStride, StepsTo, Bounds, StepIs;
    StrideIsStep(item);
    StepsAreBounded(item, f, w);
  }

  lemma StepsAreBounded(item: Item, f: FieldName, w: nat)
    requires Fits(item, f)
    ensures var (from, upto) := Bounds(item.span, item.step.Some?, f).value;
      StepsTo(item, f, Stride(item), w) <==> OnStride(from, Stride(item), w) && w <= upto
  {
    hide Atom, Denotes, Formed, OnStride, StepIs;
    AtomsAreDenoted(item, f);
    OnOrAbove(Bounds(item.span, item.step.Some?, f).value.0, Stride(item), w);
  }

  lemma OnOrAbove(from: nat, stride: nat, w: nat)
    ensures OnStride(from, stride, w) ==> w >= from
    ensures w == from ==> OnStride(from, stride, w)
  {
    assert Nth(from, stride, 0) == from;
  }

  // ----- reading it -----

  function ReadSpan(text: string): Option<Span> {
    if text == "" then None
    else if text == "*" then Some(All)
    else if '-' in text then
      var bounds := Split(text, '-');
      if |bounds| != 2 || bounds[0] == "" || bounds[1] == "" then None else Some(Range(bounds[0], bounds[1]))
    else Some(One(text))
  }

  function Read(part: string): Option<Item> {
    var slash := Split(part, '/');
    if |slash| > 2 || (|slash| == 2 && !IsNumeral(slash[1])) || ReadSpan(slash[0]).None? then None
    else Some(Item(ReadSpan(slash[0]).value, if |slash| == 2 then Some(slash[1]) else None))
  }

  lemma SpanIsRead(span: Span)
    requires Formed(Item(span, None))
    ensures ReadSpan(ShowSpan(span)) == Some(span) && '/' !in ShowSpan(span) && ',' !in ShowSpan(span)
  {
    if span.Range? {
      JoinThenSplit([span.lo, span.hi], '-');
      assert ShowSpan(span) == Join([span.lo, span.hi], '-');
      assert ShowSpan(span)[|span.lo|] == '-';
    }
  }

  lemma ReadSpanIsFormed(text: string)
    requires ReadSpan(text).Some? && ',' !in text && '/' !in text
    ensures Formed(Item(ReadSpan(text).value, None)) && ShowSpan(ReadSpan(text).value) == text
  {
    if '-' in text {
      SplitThenJoin(text, '-');
      var bounds := Split(text, '-');
      if |bounds| == 2 {
        assert Join(bounds, '-') == bounds[0] + ['-'] + Join(bounds[1..], '-');
        assert bounds[0] in bounds && bounds[1] in bounds;
        assert forall c :: c in bounds[0] || c in bounds[1] ==> c in text;
      }
    }
  }

  /** Reading and showing are inverse: a comma-free part reads as an item exactly when it is how the item is written. */
  lemma ReadIsShowInverted(part: string, item: Item)
    requires ',' !in part
    ensures Read(part) == Some(item) <==> Formed(item) && Show(item) == part
  {
    hide Read, Show, Formed;
    if Formed(item) && Show(item) == part { ShownIsRead(item); }
    if Read(part) == Some(item) { ReadIsFormed(part); }
  }

  lemma ShownIsRead(item: Item)
    requires Formed(item)
    ensures Read(Show(item)) == Some(item) && ',' !in Show(item)
  {
    SpanIsRead(item.span);
    var span := ShowSpan(item.span);
    if item.step.Some? {
      assert '/' !in item.step.value;
      JoinThenSplit([span, item.step.value], '/');
      assert Show(item) == Join([span, item.step.value], '/');
    } else {
      JoinThenSplit([span], '/');
      assert Show(item) == span;
    }
    hide Split, Join, ReadSpan, ShowSpan;
  }

  lemma ReadIsFormed(part: string)
    requires ',' !in part && Read(part).Some?
    ensures Formed(Read(part).value) && Show(Read(part).value) == part
  {
    hide ReadSpan, ShowSpan, IsNumeral;
    var slash := Split(part, '/');
    SlashParts(part);
    ReadSpanIsFormed(slash[0]);
    assert Formed(Item(ReadSpan(slash[0]).value, None));
  }

  /** What a part of at most one slash is made of. */
  lemma SlashParts(part: string)
    requires ',' !in part
    ensures var slash := Split(part, '/');
      && ',' !in slash[0] && '/' !in slash[0]
      && (|slash| == 1 ==> part == slash[0]) && (|slash| == 2 ==> part == slash[0] + "/" + slash[1])
  {
    hide Split;
    SplitThenJoin(part, '/');
    var slash := Split(part, '/');
    assert slash[0] in slash;
    if |slash| > 1 { assert part == slash[0] + ['/'] + Join(slash[1..], '/'); }
  }

  // ----- its values -----

  function Values(from: nat, upto: nat, stride: nat, f: FieldName): set<nat>
    requires stride >= 1
    decreases upto + 1 - from
  {
    if from > upto then {} else {Fold(f, from)} + Values(from + stride, upto, stride, f)
  }

  /** The first step, and the others. */
  lemma StepsUnroll(from: nat, upto: nat, stride: nat, f: FieldName, v: nat)
    ensures InSteps(from, upto, stride, f, v) <==> from <= upto && (v == Fold(f, from) || InSteps(from + stride, upto, stride, f, v))
  {
    hide Nth;
    NthNext(from, stride, 0);
    if k: nat :| Nth(from, stride, k) <= upto && v == Fold(f, Nth(from, stride, k)) {
      NthNext(from, stride, k);
      if k > 0 { NthNext(from, stride, k - 1); }
    }
    var next := from + stride;
    if k: nat :| Nth(next, stride, k) <= upto && v == Fold(f, Nth(next, stride, k)) {
      NthNext(from, stride, k);
    }
  }

  lemma NthNext(from: nat, stride: nat, k: nat)
    ensures Nth(from, stride, k + 1) == Nth(from + stride, stride, k)
    ensures Nth(from, stride, 0) == from <= Nth(from, stride, k) <= Nth(from, stride, k + 1)
  {
    assert (k + 1) * stride == k * stride + stride;
  }

  lemma {:induction false} ValuesAreOnGrid(from: nat, upto: nat, stride: nat, f: FieldName, v: nat)
    requires stride >= 1
    ensures v in Values(from, upto, stride, f) <==> InSteps(from, upto, stride, f, v)
    decreases upto + 1 - from
  {
    hide InSteps;
    StepsUnroll(from, upto, stride, f, v);
    if from <= upto { ValuesAreOnGrid(from + stride, upto, stride, f, v); }
  }

  lemma StepsStayWithin(from: nat, upto: nat, stride: nat, f: FieldName, v: nat)
    requires InSteps(from, upto, stride, f, v)
    ensures exists w: nat :: from <= w <= upto && v == Fold(f, w)
  {
    var k: nat :| Nth(from, stride, k) <= upto && v == Fold(f, Nth(from, stride, k));
    NthNext(from, stride, k);
  }

  /** What the parser makes of one part. */
  function PartValues(part: string, f: FieldName): Option<set<nat>> {
    match Read(part)
    case None => None
    case Some(item) =>
      if Fits(item, f)
      then Some(Values(Bounds(item.span, item.step.Some?, f).value.0, Bounds(item.span, item.step.Some?, f).value.1, Stride(item), f))
      else None
  }

  function PartsValues(parts: seq<string>, f: FieldName): Option<set<nat>> {
    if parts == [] then Some({})
    else
      var before, last := PartsValues(parts[..|parts| - 1], f), PartValues(parts[|parts| - 1], f);
      if before.None? || last.None? then None else Some(before.value + last.value)
  }

  function Field(raw: string, f: FieldName): Option<set<nat>> {
    PartsValues(Split(raw, ','), f)
  }

  lemma {:induction false} OneBadPartFails(parts: seq<string>, f: FieldName, i: nat)
    requires i < |parts| && PartsValues(parts[..i + 1], f).None?
    ensures PartsValues(parts, f).None?
    decreases |parts|
  {
    if i + 1 == |parts| {
      assert parts[..i + 1] == parts;
    } else {
      assert parts[..|parts| - 1][..i + 1] == parts[..i + 1];
      OneBadPartFails(parts[..|parts| - 1], f, i);
    }
  }

  /** The items a list of parts reads as, when it is accepted. */
  lemma {:induction false} PartsAreItems(parts: seq<string>, f: FieldName) returns (items: seq<Item>)
    requires PartsValues(parts, f).Some? && Free(parts, ',')
    ensures Shown(items) == parts && forall item :: item in items ==> Sound(item, f)
    ensures forall v :: v in PartsValues(parts, f).value <==> AnyHits(items, f, v)
  {
    hide Read, Show, Formed, Sound, Hits, AnyHits, PartValues;
    if parts == [] {
      items := [];
      NothingHits(f);
    } else {
      var front, last := parts[..|parts| - 1], parts[|parts| - 1];
      var before := PartsAreItems(front, f);
      PartHits(last, f, 0);
      var item := Read(last).value;
      ReadIsShowInverted(last, item);
      items := before + [item];
      assert items[..|items| - 1] == before;
      forall v ensures v in PartsValues(parts, f).value <==> AnyHits(items, f, v) {
        PartHits(last, f, v);
        HitsSplit(before, item, f, v);
      }
    }
  }

  lemma PartHits(part: string, f: FieldName, v: nat)
    requires PartValues(part, f).Some?
    ensures Read(part).Some? && Sound(Read(part).value, f) && (v in PartValues(part, f).value <==> Hits(Read(part).value, f, v))
  {
    hide Read, Bounds, Values, Sound, Hits;
    var item := Read(part).value;
    SoundFits(item, f);
    HitsAreSteps(item, f, v);
    ValuesAreOnGrid(Bounds(item.span, item.step.Some?, f).value.0, Bounds(item.span, item.step.Some?, f).value.1, Stride(item), f, v);
  }

  lemma NothingHits(f: FieldName)
    ensures forall v :: !AnyHits([], f, v)
  {
  }

  lemma HitsSplit(before: seq<Item>, item: Item, f: FieldName, v: nat)
    ensures AnyHits(before + [item], f, v) <==> AnyHits(before, f, v) || Hits(item, f, v)
  {
    hide Hits, Sound;
    var items := before + [item];
    assert item in items && forall x :: x in items <==> x in before || x == item;
  }

  lemma {:induction false} ItemsAreAccepted(items: seq<Item>, f: FieldName)
    requires forall item :: item in items ==> Sound(item, f)
    ensures PartsValues(Shown(items), f).Some? && Free(Shown(items), ',')
  {
    hide Read, Show;
    if items != [] {
      var last := items[|items| - 1];
      ItemsAreAccepted(items[..|items| - 1], f);
      assert Shown(items)[..|items| - 1] == Shown(items[..|items| - 1]);
      assert last in items;
      SoundFits(last, f);
      ShownIsRead(last);
    }
  }

  lemma ShownOnce(items: seq<Item>, items': seq<Item>)
    requires Shown(items) == Shown(items')
    requires forall item :: item in items || item in items' ==> Formed(item)
    ensures items == items'
  {
    hide Show, Read, Formed, Shown;
    assert |items| == |Shown(items)| == |items'|;
    forall i | 0 <= i < |items| ensures items[i] == items'[i] {
      ShownIsRead(items[i]);
      ShownIsRead(items'[i]);
      assert Shown(items)[i] == Show(items[i]) && Shown(items')[i] == Show(items'[i]);
    }
  }

  /** A field is accepted with these values exactly when it lists sound items, and the values are those the items hit. */
  lemma FieldMeaning(raw: string, f: FieldName, values: set<nat>)
    ensures Field(raw, f) == Some(values) <==>
      exists items :: Lists(items, raw, f) && forall v :: v in values <==> AnyHits(items, f, v)
  {
    hide Hits, Sound, Split, Join, PartsValues;
    SplitThenJoin(raw, ',');
    if Field(raw, f).Some? {
      var items := PartsAreItems(Split(raw, ','), f);
      assert Lists(items, raw, f);
      if Field(raw, f) != Some(values) {
        forall other | Lists(other, raw, f) ensures !(forall v :: v in values <==> AnyHits(other, f, v)) {
          ListedOnce(items, other, raw, f);
          assert values != Field(raw, f).value;
          SetsDiffer(values, Field(raw, f).value);
        }
      }
    } else {
      forall items | Lists(items, raw, f) ensures false {
        ItemsAreAccepted(items, f);
        JoinThenSplit(Shown(items), ',');
      }
    }
  }

  lemma SetsDiffer(a: set<nat>, b: set<nat>)
    requires a != b
    ensures exists v :: !(v in a <==> v in b)
  {
    if a <= b { var v :| v in b && v !in a; } else { var v :| v in a && v !in b; }
  }

  /** A field's text lists one sequence of items only. */
  lemma ListedOnce(items: seq<Item>, items': seq<Item>, raw: string, f: FieldName)
    requires Lists(items, raw, f) && Lists(items', raw, f)
    ensures items == items'
  {
    ItemsAreAccepted(items, f);
    ItemsAreAccepted(items', f);
    JoinThenSplit(Shown(items), ',');
    JoinThenSplit(Shown(items'), ',');
    ShownOnce(items, items');
  }

  /** No accepted field is empty or leaves its range; Sunday is always 0. */
  lemma FieldIsInRange(raw: string, f: FieldName)
    requires Field(raw, f).Some?
    ensures Field(raw, f).value != {}
    ensures forall v :: v in Field(raw, f).value ==> Min(f) <= v <= Max(f) && !(f.DayOfWeek? && v == 7)
  {
    hide Split, Join, PartsValues, Sound, Hits;
    SplitThenJoin(raw, ',');
    var items := PartsAreItems(Split(raw, ','), f);
    var first := items[0];
    assert first in items;
    HitsSomething(first, f);
    var v :| Hits(first, f, v);
    assert AnyHits(items, f, v);
    forall v | v in Field(raw, f).value ensures Min(f) <= v <= Max(f) && !(f.DayOfWeek? && v == 7) {
      var item :| item in items && Hits(item, f, v);
      HitsInRange(item, f, v);
    }
  }

  lemma HitsSomething(item: Item, f: FieldName)
    requires Sound(item, f)
    ensures exists v :: Hits(item, f, v)
  {
    hide Hits, Sound;
    SoundFits(item, f);
    var (from, upto) := Bounds(item.span, item.step.Some?, f).value;
    StepsUnroll(from, upto, Stride(item), f, Fold(f, from));
    HitsAreSteps(item, f, Fold(f, from));
  }

  lemma HitsInRange(item: Item, f: FieldName, v: nat)
    requires Sound(item, f) && Hits(item, f, v)
    ensures Min(f) <= v <= Max(f) && !(f.DayOfWeek? && v == 7)
  {
    hide Hits, Sound;
    SoundFits(item, f);
    HitsAreSteps(item, f, v);
    var (from, upto) := Bounds(item.span, item.step.Some?, f).value;
    StepsStayWithin(from, upto, Stride(item), f, v);
  }
}
