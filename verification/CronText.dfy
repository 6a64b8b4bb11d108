/** Splitting text, as `schedule.ts` does with `split(',')`, `split('/')`, `split('-')` and `split(/\s+/)`. */
module CronText {

  datatype Option<+T> = None | Some(value: T)

  // ----- split on a separator -----

  /** `s.split(sep)`: always at least one part. */
  function Split(s: string, sep: char): (parts: seq<string>)
    ensures |parts| >= 1
  {
    if s == "" then [""]
    else
      var rest := Split(s[1..], sep);
      if s[0] == sep then [""] + rest else [[s[0]] + rest[0]] + rest[1..]
  }

  function Join(parts: seq<string>, sep: char): string
    requires |parts| >= 1
  {
    if |parts| == 1 then parts[0] else parts[0] + [sep] + Join(parts[1..], sep)
  }

  ghost predicate Free(parts: seq<string>, sep: char) {
    forall p :: p in parts ==> sep !in p
  }

  lemma {:induction false} SplitThenJoin(s: string, sep: char)
    ensures Join(Split(s, sep), sep) == s && Free(Split(s, sep), sep)
  {
    if s != "" {
      SplitThenJoin(s[1..], sep);
      var rest := Split(s[1..], sep);
      assert s == [s[0]] + s[1..];
      if s[0] == sep {
        assert ([""] + rest)[1..] == rest;
      } else {
        var parts := [[s[0]] + rest[0]] + rest[1..];
        assert parts[1..] == rest[1..];
      }
    }
  }

  lemma {:induction false} JoinThenSplit(parts: seq<string>, sep: char)
    requires |parts| >= 1 && Free(parts, sep)
    ensures Split(Join(parts, sep), sep) == parts
    decreases |parts|, |parts[0]|
  {
    var s := Join(parts, sep);
    if parts[0] == "" {
      if |parts| > 1 {
        JoinThenSplit(parts[1..], sep);
        assert s[1..] == Join(parts[1..], sep);
        assert parts == [""] + parts[1..];
      } else {
        assert parts == [""];
      }
    } else {
      var c := parts[0][0];
      assert sep !in parts[0];
      var shorter := [parts[0][1..]] + parts[1..];
      assert shorter[1..] == parts[1..];
      assert forall p :: p in shorter ==> sep !in p by {
        forall p | p in shorter ensures sep !in p { if p == parts[0][1..] { assert forall x :: x in p ==> x in parts[0]; } else { assert p in parts; } }
      }
      JoinThenSplit(shorter, sep);
      assert parts[0] == [c] + parts[0][1..];
      assert s == [c] + Join(shorter, sep);
      assert s[1..] == Join(shorter, sep);
      assert parts == [parts[0]] + parts[1..];
    }
  }

  // ----- split on white space -----

  predicate Blank(c: char) {
    || '\t' <= c <= '\r' || c == ' ' || c == '\U{A0}' || c == '\U{1680}' || '\U{2000}' <= c <= '\U{200A}'
    || c == '\U{2028}' || c == '\U{2029}' || c == '\U{202F}' || c == '\U{205F}' || c == '\U{3000}' || c == '\U{FEFF}'
  }

  /** `s.trim().split(/\s+/)`, and no words at all of a blank string. */
  function Words(s: string): (words: seq<string>)
    ensures s != "" && !Blank(s[0]) ==> |words| >= 1
  {
    if s == "" then []
    else if Blank(s[0]) then Words(s[1..])
    else if |s| == 1 || Blank(s[1]) then [[s[0]]] + Words(s[1..])
    else var rest := Words(s[1..]); [[s[0]] + rest[0]] + rest[1..]
  }

  predicate AllBlank(s: string) {
    forall c :: c in s ==> Blank(c)
  }

  predicate Solid(s: string) {
    s != "" && forall c :: c in s ==> !Blank(c)
  }

  /** Words set apart by blanks: `gaps[i]` comes before `words[i]`, and one more ends the text. */
  ghost predicate Spacing(gaps: seq<string>, words: seq<string>) {
    && |gaps| == |words| + 1
    && (forall i :: 0 <= i < |gaps| ==> AllBlank(gaps[i]))
    && (forall i :: 0 < i < |words| ==> gaps[i] != "")
    && (forall i :: 0 <= i < |words| ==> Solid(words[i]))
  }

  function Layout(gaps: seq<string>, words: seq<string>): string
    requires |gaps| == |words| + 1
  {
    if words == [] then gaps[0] else gaps[0] + words[0] + Layout(gaps[1..], words[1..])
  }

  lemma {:induction false} BlanksAreSkipped(gap: string, s: string)
    requires AllBlank(gap)
    ensures Words(gap + s) == Words(s)
  {
    if gap == "" {
      assert gap + s == s;
    } else {
      BlanksAreSkipped(gap[1..], s);
      assert (gap + s)[1..] == gap[1..] + s;
    }
  }

  lemma {:induction false} WordIsTaken(word: string, s: string)
    requires Solid(word) && (s == "" || Blank(s[0]))
    ensures Words(word + s) == [word] + Words(s)
  {
    assert (word + s)[1..] == word[1..] + s;
    if |word| == 1 {
      assert word + s == word + s && [word[0]] == word;
    } else {
      WordIsTaken(word[1..], s);
      assert word == [word[0]] + word[1..];
      assert (word + s)[1] == word[1] && word[1] in word;
    }
  }

  lemma {:induction false} LayoutHasWords(gaps: seq<string>, words: seq<string>)
    requires Spacing(gaps, words)
    ensures Words(Layout(gaps, words)) == words
  {
    if words == [] {
      assert gaps[0] == gaps[0] + "";
      BlanksAreSkipped(gaps[0], "");
    } else {
      var rest := Layout(gaps[1..], words[1..]);
      LayoutHasWords(gaps[1..], words[1..]);
      assert gaps[0] + words[0] + rest == gaps[0] + (words[0] + rest);
      BlanksAreSkipped(gaps[0], words[0] + rest);
      assert rest == "" || Blank(rest[0]) by {
        if gaps[1] != "" { assert rest[0] == gaps[1][0] && gaps[1][0] in gaps[1]; }
      }
      WordIsTaken(words[0], rest);
    }
  }

  lemma GapGrows(c: char, gaps: seq<string>, words: seq<string>)
    requires Spacing(gaps, words) && Blank(c)
    ensures var more := [[c] + gaps[0]] + gaps[1..];
      Spacing(more, words) && Layout(more, words) == [c] + Layout(gaps, words)
  {
    var more := [[c] + gaps[0]] + gaps[1..];
    assert more[1..] == gaps[1..];
  }

  lemma WordStarts(c: char, gaps: seq<string>, words: seq<string>)
    requires Spacing(gaps, words) && !Blank(c) && (words != [] ==> gaps[0] != "")
    ensures Spacing([""] + gaps, [[c]] + words) && Layout([""] + gaps, [[c]] + words) == [c] + Layout(gaps, words)
  {
    assert ([""] + gaps)[1..] == gaps && ([[c]] + words)[1..] == words;
    forall i | 0 < i < |words| + 1 ensures ([""] + gaps)[i] != "" {
      assert ([""] + gaps)[i] == gaps[i - 1];
    }
  }

  lemma WordGrows(c: char, gaps: seq<string>, words: seq<string>)
    requires Spacing(gaps, words) && !Blank(c) && words != [] && gaps[0] == ""
    ensures var longer := [[c] + words[0]] + words[1..];
      Spacing(gaps, longer) && Layout(gaps, longer) == [c] + Layout(gaps, words)
  {
    hide Spacing, Layout;
    var longer := [[c] + words[0]] + words[1..];
    SpacingFits(gaps, words);
    WordLongerSpacing(c, gaps, words);
    StartsWithWord(gaps, words);
    StartsWithWord(gaps, longer);
    assert longer[1..] == words[1..];
    Regrouped(c, words[0], Layout(gaps[1..], words[1..]));
  }

  lemma SpacingFits(gaps: seq<string>, words: seq<string>)
    requires Spacing(gaps, words)
    ensures |gaps| == |words| + 1
  {
  }

  lemma StartsWithWord(gaps: seq<string>, words: seq<string>)
    requires |gaps| == |words| + 1 && words != [] && gaps[0] == ""
    ensures Layout(gaps, words) == words[0] + Layout(gaps[1..], words[1..])
  {
  }

  lemma Regrouped(c: char, word: string, rest: string)
    ensures ([c] + word) + rest == [c] + (word + rest)
  {
  }

  lemma WordLongerSpacing(c: char, gaps: seq<string>, words: seq<string>)
    requires Spacing(gaps, words) && !Blank(c) && words != []
    ensures Spacing(gaps, [[c] + words[0]] + words[1..])
  {
    hide Solid, AllBlank;
    SolidGrows(c, words[0]);
  }

  lemma SolidGrows(c: char, word: string)
    requires Solid(word) && !Blank(c)
    ensures Solid([c] + word)
  {
  }

  /** Every text is laid out from its words. */
  lemma {:induction false} LaidOut(s: string) returns (gaps: seq<string>)
    ensures Spacing(gaps, Words(s)) && Layout(gaps, Words(s)) == s
    ensures s != "" ==> (gaps[0] == "" <==> !Blank(s[0]))
  {
    if s == "" {
      gaps := [""];
    } else {
      var rest := LaidOut(s[1..]);
      var words := Words(s[1..]);
      assert s == [s[0]] + s[1..];
      if Blank(s[0]) {
        gaps := [[s[0]] + rest[0]] + rest[1..];
        GapGrows(s[0], rest, words);
      } else if |s| == 1 || Blank(s[1]) {
        gaps := [""] + rest;
        WordStarts(s[0], rest, words);
      } else {
        gaps := rest;
        WordGrows(s[0], rest, words);
      }
      hide Spacing, Layout;
    }
  }
}
