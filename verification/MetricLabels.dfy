/** The series key of `BaseMetric.ts`: labels sorted by name, values escaped as the Prometheus text exposition format
    asks. `less` is the collation names are sorted by; all that is asked of it is to be a strict total order. */
module MetricLabels {

  /** A label, in the order the record lists its entries. */
  datatype Entry = Entry(name: string, value: string)
  type Labels = map<string, string>

  datatype Keyed = Key(text: string) | InvalidLabel(name: string)

  predicate Letter(c: char) {
    'a' <= c <= 'z' || 'A' <= c <= 'Z' || c == '_'
  }

  predicate LegalName(name: string) {
    name != "" && Letter(name[0]) && forall c :: c in name ==> Letter(c) || '0' <= c <= '9'
  }

  /** A record has each name once. */
  ghost predicate IsRecord(entries: seq<Entry>) {
    forall i, j :: 0 <= i < j < |entries| ==> entries[i].name != entries[j].name
  }

  predicate Legal(entries: seq<Entry>) {
    forall e :: e in entries ==> LegalName(e.name)
  }

  /** The record as a map: what two records with the same labels have in common. */
  function MapOf(entries: seq<Entry>): Labels {
    if entries == [] then map[]
    else MapOf(entries[..|entries| - 1])[entries[|entries| - 1].name := entries[|entries| - 1].value]
  }

  lemma {:induction false} MapHasEntries(entries: seq<Entry>)
    requires IsRecord(entries)
    ensures forall n, v :: n in MapOf(entries) && MapOf(entries)[n] == v <==> Entry(n, v) in entries
  {
    if entries != [] {
      var front := entries[..|entries| - 1];
      MapHasEntries(front);
      var last := entries[|entries| - 1];
      forall n, v ensures n in MapOf(entries) && MapOf(entries)[n] == v <==> Entry(n, v) in entries {
        assert Entry(n, v) in entries <==> Entry(n, v) in front || last == Entry(n, v);
        assert forall i :: 0 <= i < |front| ==> entries[i].name != last.name;
      }
    }
  }

  // ----- sorting -----

  ghost predicate StrictTotal(less: (string, string) -> bool) {
    && (forall a, b :: less(a, b) ==> !less(b, a))
    && (forall a, b, c :: less(a, b) && less(b, c) ==> less(a, c))
    && (forall a, b :: a != b ==> less(a, b) || less(b, a))
  }

  function Insert(less: (string, string) -> bool, e: Entry, sorted: seq<Entry>): (r: seq<Entry>)
    ensures forall x :: x in r <==> x == e || x in sorted
  {
    if sorted == [] || less(e.name, sorted[0].name) then [e] + sorted
    else [sorted[0]] + Insert(less, e, sorted[1..])
  }

  /** What a stable sort by name returns. */
  function Sorted(less: (string, string) -> bool, entries: seq<Entry>): (r: seq<Entry>)
    ensures forall x :: x in r <==> x in entries
  {
    if entries == [] then [] else Insert(less, entries[|entries| - 1], Sorted(less, entries[..|entries| - 1]))
  }

  ghost predicate Ascending(less: (string, string) -> bool, entries: seq<Entry>) {
    forall i, j :: 0 <= i < j < |entries| ==> less(entries[i].name, entries[j].name)
  }

  lemma {:induction false} InsertKeepsOrder(less: (string, string) -> bool, e: Entry, sorted: seq<Entry>)
    requires StrictTotal(less) && Ascending(less, sorted) && forall x :: x in sorted ==> x.name != e.name
    ensures Ascending(less, Insert(less, e, sorted))
  {
    if sorted != [] && !less(e.name, sorted[0].name) {
      InsertKeepsOrder(less, e, sorted[1..]);
      var rest := Insert(less, e, sorted[1..]);
      assert sorted[0] in sorted;
      forall x | x in rest ensures less(sorted[0].name, x.name) {
        if x != e {
          var k :| 0 <= k < |sorted[1..]| && sorted[1..][k] == x;
          assert x == sorted[k + 1];
        }
      }
    }
  }

  lemma {:induction false} SortedIsAscending(less: (string, string) -> bool, entries: seq<Entry>)
    requires StrictTotal(less) && IsRecord(entries)
    ensures Ascending(less, Sorted(less, entries))
  {
    if entries != [] {
      var front, last := entries[..|entries| - 1], entries[|entries| - 1];
      SortedIsAscending(less, front);
      forall x | x in Sorted(less, front) ensures x.name != last.name {
        var i :| 0 <= i < |front| && front[i] == x;
        assert entries[i].name != entries[|entries| - 1].name;
      }
      InsertKeepsOrder(less, last, Sorted(less, front));
    }
  }

  /** There is only one way to list a set of entries in order. */
  lemma {:induction false} OneOrderOnly(less: (string, string) -> bool, a: seq<Entry>, b: seq<Entry>)
    requires StrictTotal(less) && Ascending(less, a) && Ascending(less, b)
    requires forall x :: x in a <==> x in b
    ensures a == b
  {
    if a == [] {
      HeadIsIn(b);
    } else {
      assert a[0] in b && b != [];
      HeadIsLeast(less, a, b);
      Tails(less, a, b);
      OneOrderOnly(less, a[1..], b[1..]);
      assert a == [a[0]] + a[1..] && b == [b[0]] + b[1..];
    }
  }

  lemma HeadIsIn(a: seq<Entry>)
    ensures a != [] ==> a[0] in a
  {
  }

  lemma HeadIsLeast(less: (string, string) -> bool, a: seq<Entry>, b: seq<Entry>)
    requires StrictTotal(less) && Ascending(less, a) && Ascending(less, b) && a != [] && b != []
    requires forall x :: x in a <==> x in b
    ensures a[0] == b[0]
  {
    assert a[0] in b && b[0] in a;
    var i :| 0 <= i < |b| && b[i] == a[0];
    var j :| 0 <= j < |a| && a[j] == b[0];
  }

  lemma Tails(less: (string, string) -> bool, a: seq<Entry>, b: seq<Entry>)
    requires StrictTotal(less) && Ascending(less, a) && Ascending(less, b) && a != [] && b != [] && a[0] == b[0]
    requires forall x :: x in a <==> x in b
    ensures forall x :: x in a[1..] <==> x in b[1..]
  {
    HeadOnce(less, a);
    HeadOnce(less, b);
  }

  lemma HeadOnce(less: (string, string) -> bool, a: seq<Entry>)
    requires StrictTotal(less) && Ascending(less, a) && a != []
    ensures forall x :: x in a[1..] <==> x in a && x != a[0]
  {
    assert a == [a[0]] + a[1..];
    assert forall k :: 0 <= k < |a[1..]| ==> less(a[0].name, a[1..][k].name);
  }

  // ----- rendering -----

  function EscapedChar(c: char): string {
    if c == '\\' then "\\\\" else if c == '"' then "\\\"" else if c == '\n' then "\\n" else [c]
  }

  function Escaped(value: string): string {
    if value == "" then "" else Escaped(value[..|value| - 1]) + EscapedChar(value[|value| - 1])
  }

  method Escape(value: string) returns (out: string)
    ensures out == Escaped(value)
  {
    out := "";
    for i := 0 to |value|
      invariant out == Escaped(value[..i])
    {
      assert value[..i + 1][..i] == value[..i];
      var ch := value[i];
      if ch == '\\' { out := out + "\\\\"; }
      else if ch == '"' { out := out + "\\\""; }
      else if ch == '\n' { out := out + "\\n"; }
      else { out := out + [ch]; }
    }
    assert value[..|value|] == value;
  }

  function Segment(e: Entry): string {
    e.name + "=\"" + Escaped(e.value) + "\""
  }

  function Rendered(entries: seq<Entry>): string
    requires entries != []
  {
    if |entries| == 1 then Segment(entries[0]) else Segment(entries[0]) + "," + Rendered(entries[1..])
  }

  const NoLabel := "no_label"

  /** The key of a legal record. */
  function KeyText(less: (string, string) -> bool, entries: seq<Entry>): string {
    if entries == [] then NoLabel else
      assert entries[0] in Sorted(less, entries);
      Rendered(Sorted(less, entries))
  }

  method Render(sorted: seq<Entry>) returns (text: string)
    requires sorted != []
    ensures text == Rendered(sorted)
  {
    text := "";
    var i := 0;
    while i + 1 < |sorted|
      invariant 0 <= i < |sorted|
      invariant Rendered(sorted) == text + Rendered(sorted[i..])
    {
      var value := Escape(sorted[i].value);
      var segment := sorted[i].name + "=\"" + value + "\"";
      RenderedUnrolls(sorted, i, text);
      text := text + segment + ",";
      i := i + 1;
    }
    var value := Escape(sorted[i].value);
    text := text + (sorted[i].name + "=\"" + value + "\"");
  }

  lemma RenderedUnrolls(sorted: seq<Entry>, i: nat, text: string)
    requires i + 1 < |sorted|
    ensures text + Rendered(sorted[i..]) == text + Segment(sorted[i]) + "," + Rendered(sorted[i + 1..])
  {
    assert sorted[i..][1..] == sorted[i + 1..];
    assert Rendered(sorted[i..]) == Segment(sorted[i]) + "," + Rendered(sorted[i + 1..]);
  }

  /** `_labelKey`. */
  method LabelKey(less: (string, string) -> bool, entries: seq<Entry>) returns (keyed: Keyed)
    ensures keyed.Key? <==> Legal(entries)
    ensures keyed.Key? ==> keyed.text == KeyText(less, entries)
    ensures keyed.InvalidLabel? ==> exists i ::
      0 <= i < |entries| && entries[i].name == keyed.name && !LegalName(keyed.name) && Legal(entries[..i])
  {
    hide LegalName, Rendered, Sorted;
    if entries == [] { return Key(NoLabel); }
    for i := 0 to |entries|
      invariant Legal(entries[..i])
    {
      if !LegalName(entries[i].name) { return InvalidLabel(entries[i].name); }
      assert entries[..i + 1] == entries[..i] + [entries[i]];
    }
    assert entries[..|entries|] == entries;
    var sorted := Sorted(less, entries);
    assert entries[0] in sorted;
    var text := Render(sorted);
    keyed := Key(text);
  }

  // ----- reading it back -----

  lemma DoesNotStart(s: string, c: char)
    requires c !in s
    ensures s == "" || s[0] != c
  {
  }

  lemma {:induction false} SplitAt(a: string, b: string, x: string, y: string, c: char)
    requires c !in a && c !in b && a + [c] + x == b + [c] + y
    ensures a == b && x == y
  {
    if a == "" || b == "" {
      assert (a + [c] + x)[0] == (b + [c] + y)[0];
      DoesNotStart(a, c);
      DoesNotStart(b, c);
      assert (a + [c] + x)[1..] == x && (b + [c] + y)[1..] == y;
    } else {
      assert (a + [c] + x)[0] == a[0] && (b + [c] + y)[0] == b[0];
      assert (a + [c] + x)[1..] == a[1..] + [c] + x && (b + [c] + y)[1..] == b[1..] + [c] + y;
      SplitAt(a[1..], b[1..], x, y, c);
      assert a == [a[0]] + a[1..] && b == [b[0]] + b[1..];
    }
  }

  lemma {:induction false} EscapedFromLeft(value: string)
    requires value != ""
    ensures Escaped(value) == EscapedChar(value[0]) + Escaped(value[1..])
  {
    if |value| > 1 {
      var front := value[..|value| - 1];
      EscapedFromLeft(front);
      assert front[1..] == value[1..][..|value| - 2];
      assert value[1..][|value| - 2] == value[|value| - 1];
    } else {
      assert value[..0] == "" && value[1..] == "";
    }
  }

  /** A value with its closing quote, and what follows. */
  function Closed(value: string, rest: string): string {
    Escaped(value) + "\"" + rest
  }

  lemma ClosedUnrolls(value: string, rest: string)
    ensures Closed("", rest) != "" && Closed("", rest)[0] == '"' && Closed("", rest)[1..] == rest
    ensures value != "" ==>
      && Closed(value, rest) == EscapedChar(value[0]) + Closed(value[1..], rest)
      && EscapedChar(value[0]) != "" && EscapedChar(value[0])[0] != '"'
  {
    if value != "" {
      EscapedFromLeft(value);
      assert Escaped(value) + "\"" + rest == EscapedChar(value[0]) + (Escaped(value[1..]) + "\"" + rest);
    }
  }

  /** An escaped value never shows a bare quote, so the quote that closes it can be found. */
  lemma {:induction false} ValueEnds(v: string, w: string, x: string, y: string)
    requires Closed(v, x) == Closed(w, y)
    ensures v == w && x == y
  {
    hide Closed, EscapedChar;
    ClosedUnrolls(v, x);
    ClosedUnrolls(w, y);
    assert v == "" <==> Closed(v, x)[0] == '"';
    assert w == "" <==> Closed(w, y)[0] == '"';
    if v != "" {
      SameChar(v[0], w[0], Closed(v[1..], x), Closed(w[1..], y), Closed(v, x));
      ValueEnds(v[1..], w[1..], x, y);
      assert v == [v[0]] + v[1..] && w == [w[0]] + w[1..];
    }
  }

  lemma SameChar(c: char, d: char, p: string, q: string, s: string)
    requires s == EscapedChar(c) + p && s == EscapedChar(d) + q
    ensures c == d && p == q
  {
    assert s[0] == EscapedChar(c)[0] == EscapedChar(d)[0];
    if s[0] == '\\' {
      assert s[1] == EscapedChar(c)[1] == EscapedChar(d)[1];
      assert s[2..] == p && s[2..] == q;
    } else {
      assert s[1..] == p && s[1..] == q;
    }
  }

  lemma NameHasNoSign(name: string)
    requires LegalName(name)
    ensures '=' !in name
  {
  }

  lemma SegmentEnds(e: Entry, f: Entry, x: string, y: string)
    requires LegalName(e.name) && LegalName(f.name) && Segment(e) + x == Segment(f) + y
    ensures e == f && x == y
  {
    hide Escaped;
    var p, q := Escaped(e.value) + "\"" + x, Escaped(f.value) + "\"" + y;
    NameHasNoSign(e.name);
    NameHasNoSign(f.name);
    assert Segment(e) + x == e.name + ['='] + ("\"" + p);
    assert Segment(f) + y == f.name + ['='] + ("\"" + q);
    SplitAt(e.name, f.name, "\"" + p, "\"" + q, '=');
    assert ("\"" + p)[1..] == p && ("\"" + q)[1..] == q;
    ValueEnds(e.value, f.value, x, y);
  }

  function Rest(entries: seq<Entry>): (rest: string)
    requires entries != []
    ensures Rendered(entries) == Segment(entries[0]) + rest
  {
    if |entries| == 1 then "" else "," + Rendered(entries[1..])
  }

  /** A rendered list reads back as one list of entries only. */
  lemma {:induction false} RenderedOnce(a: seq<Entry>, b: seq<Entry>)
    requires a != [] && b != [] && Legal(a) && Legal(b) && Rendered(a) == Rendered(b)
    ensures a == b
  {
    hide Segment, LegalName, Rendered;
    SegmentEnds(a[0], b[0], Rest(a), Rest(b));
    if |a| > 1 && |b| > 1 {
      assert Rest(a)[1..] == Rendered(a[1..]) && Rest(b)[1..] == Rendered(b[1..]);
      RenderedOnce(a[1..], b[1..]);
      assert a == [a[0]] + a[1..] && b == [b[0]] + b[1..];
    }
  }

  /** A rendered list has a quote in it, so it is never the name of the unlabelled series. */
  lemma NeverNoLabel(entries: seq<Entry>)
    requires entries != []
    ensures Rendered(entries) != NoLabel
  {
    var n := |entries[0].name|;
    assert Rendered(entries)[n + 1] == '"';
    assert forall i :: 0 <= i < |NoLabel| ==> NoLabel[i] != '"';
  }

  /** Two records have the same key exactly when they are the same labels, in whatever order they were written. */
  lemma KeysAreLabels(less: (string, string) -> bool, a: seq<Entry>, b: seq<Entry>)
    requires StrictTotal(less) && IsRecord(a) && IsRecord(b) && Legal(a) && Legal(b)
    ensures KeyText(less, a) == KeyText(less, b) <==> MapOf(a) == MapOf(b)
    ensures KeyText(less, a) == NoLabel <==> a == []
  {
    hide Rendered, Sorted, Ascending, StrictTotal, MapOf;
    MapHasEntries(a);
    MapHasEntries(b);
    SortedIsAscending(less, a);
    SortedIsAscending(less, b);
    if a != [] { assert a[0] in Sorted(less, a); NeverNoLabel(Sorted(less, a)); }
    if b != [] { assert b[0] in Sorted(less, b); NeverNoLabel(Sorted(less, b)); }
    if MapOf(a) == MapOf(b) {
      forall x ensures x in a <==> x in b {
        assert x == Entry(x.name, x.value);
      }
      OneOrderOnly(less, Sorted(less, a), Sorted(less, b));
      HeadIsIn(a);
      HeadIsIn(b);
    } else if KeyText(less, a) == KeyText(less, b) && a != [] && b != [] {
      RenderedOnce(Sorted(less, a), Sorted(less, b));
      SameEntriesSameMap(a, b);
    }
  }

  lemma SameEntriesSameMap(a: seq<Entry>, b: seq<Entry>)
    requires IsRecord(a) && IsRecord(b) && forall x :: x in a <==> x in b
    ensures MapOf(a) == MapOf(b)
  {
    hide MapOf;
    MapHasEntries(a);
    MapHasEntries(b);
    forall n | n in MapOf(a) || n in MapOf(b) ensures n in MapOf(a) && n in MapOf(b) && MapOf(a)[n] == MapOf(b)[n] {
      if n in MapOf(a) { assert Entry(n, MapOf(a)[n]) in b; }
      if n in MapOf(b) { assert Entry(n, MapOf(b)[n]) in a; }
    }
  }

  // ----- a reader of the exposition format -----

  /** A legal name, character by character. */
  lemma NamesAreLegalExactlyWhen(name: string)
    ensures LegalName(name) <==>
      && name != ""
      && forall i :: 0 <= i < |name| ==>
           'a' <= name[i] <= 'z' || 'A' <= name[i] <= 'Z' || name[i] == '_' || (i > 0 && '0' <= name[i] <= '9')
  {
    assert forall i :: 0 <= i < |name| ==> name[i] in name;
    if name != "" && Letter(name[0]) && !LegalName(name) {
      var c :| c in name && !(Letter(c) || '0' <= c <= '9');
      var i :| 0 <= i < |name| && name[i] == c;
    }
  }

  /** The character that a backslash and `c` stand for, if any. */
  function Unescaped(c: char): (found: seq<char>)
    ensures |found| <= 1
  {
    match c
    case '\\' => ['\\']
    case '"' => ['"']
    case 'n' => ['\n']
    case _ => []
  }

  datatype Reading<+T> = Bad | Read(value: T, rest: string)

  /** A label value up to its closing quote; it stays on its line. */
  function ReadValue(s: string): (r: Reading<string>)
    ensures r.Read? ==> |r.rest| < |s|
  {
    if s == "" || s[0] == '\n' then Bad
    else if s[0] == '"' then Read("", s[1..])
    else if s[0] == '\\' then
      if |s| < 2 || Unescaped(s[1]) == [] then Bad
      else match ReadValue(s[2..])
        case Bad => Bad
        case Read(value, rest) => Read(Unescaped(s[1]) + value, rest)
    else match ReadValue(s[1..])
      case Bad => Bad
      case Read(value, rest) => Read([s[0]] + value, rest)
  }

  /** What comes before the first sign, and what after it. */
  function ReadUpTo(s: string, sign: char): (r: Reading<string>)
    ensures r.Read? ==> |r.rest| < |s|
  {
    if s == "" then Bad
    else if s[0] == sign then Read("", s[1..])
    else match ReadUpTo(s[1..], sign)
      case Bad => Bad
      case Read(before, rest) => Read([s[0]] + before, rest)
  }

  /** A label list: a legal name, an equals sign and a quoted value, and after a comma another. */
  function ReadLabels(s: string): Reading<seq<Entry>>
    decreases |s|
  {
    match ReadUpTo(s, '=')
    case Bad => Bad
    case Read(name, quoted) =>
      if !LegalName(name) || quoted == "" || quoted[0] != '"' then Bad
      else match ReadValue(quoted[1..])
        case Bad => Bad
        case Read(value, rest) =>
          if rest == "" then Read([Entry(name, value)], "")
          else if rest[0] != ',' then Bad
          else match ReadLabels(rest[1..])
            case Bad => Bad
            case Read(more, left) => Read([Entry(name, value)] + more, left)
  }

  lemma {:induction false} ValueIsReadBack(value: string, rest: string)
    ensures ReadValue(Closed(value, rest)) == Read(value, rest)
  {
    hide Closed;
    ClosedUnrolls(value, rest);
    if value != "" {
      ValueIsReadBack(value[1..], rest);
      CharIsReadBack(value[0], Closed(value[1..], rest));
      assert value == [value[0]] + value[1..];
    }
  }

  lemma CharIsReadBack(c: char, more: string)
    ensures ReadValue(EscapedChar(c) + more) ==
      match ReadValue(more) case Bad => Bad case Read(value, rest) => Read([c] + value, rest)
  {
    assert (EscapedChar(c) + more)[|EscapedChar(c)|..] == more;
  }

  lemma {:induction false} NameIsReadBack(name: string, sign: char, rest: string)
    requires sign !in name
    ensures ReadUpTo(name + [sign] + rest, sign) == Read(name, rest)
  {
    var s := name + [sign] + rest;
    if name == "" {
      assert s[1..] == rest;
    } else {
      assert s[1..] == name[1..] + [sign] + rest && s[0] == name[0];
      NameIsReadBack(name[1..], sign, rest);
      assert name == [name[0]] + name[1..];
    }
  }

  lemma SegmentIsReadBack(e: Entry, rest: string)
    requires LegalName(e.name) && (rest == "" || rest[0] == ',')
    ensures ReadLabels(Segment(e) + rest) ==
      if rest == "" then Read([e], "")
      else match ReadLabels(rest[1..]) case Bad => Bad case Read(more, left) => Read([e] + more, left)
  {
    hide Escaped, ReadValue, ReadUpTo, LegalName;
    NameHasNoSign(e.name);
    var quoted := "\"" + Closed(e.value, rest);
    assert Segment(e) + rest == e.name + ['='] + quoted;
    NameIsReadBack(e.name, '=', quoted);
    ValueIsReadBack(e.value, rest);
    assert quoted[1..] == Closed(e.value, rest);
  }

  /** A rendered label list, read by the rules of the format, gives back its names and values. */
  lemma {:induction false} RenderedIsReadBack(entries: seq<Entry>)
    requires entries != [] && Legal(entries)
    ensures ReadLabels(Rendered(entries)) == Read(entries, "")
  {
    hide ReadLabels, Segment, LegalName;
    SegmentIsReadBack(entries[0], Rest(entries));
    assert Rendered(entries) == Segment(entries[0]) + Rest(entries);
    if |entries| > 1 {
      RenderedIsReadBack(entries[1..]);
      assert Rest(entries)[1..] == Rendered(entries[1..]);
      assert entries == [entries[0]] + entries[1..];
    } else {
      assert entries == [entries[0]];
    }
  }

  /** The key of a labelled record reads as exactly its labels, in ascending order of their names. */
  lemma KeyReadsAsTheLabels(less: (string, string) -> bool, entries: seq<Entry>)
    requires StrictTotal(less) && IsRecord(entries) && Legal(entries) && entries != []
    ensures var read := ReadLabels(KeyText(less, entries));
      read.Read? && read.rest == "" && Ascending(less, read.value) && forall e :: e in read.value <==> e in entries
  {
    hide Rendered, Sorted, Ascending, StrictTotal, ReadLabels, LegalName;
    SortedIsAscending(less, entries);
    assert entries[0] in Sorted(less, entries);
    RenderedIsReadBack(Sorted(less, entries));
  }
}
