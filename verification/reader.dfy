/**
  The digit reader: the data text is split into lines, empty lines are skipped,
  and every other line is split on commas into 64 grid fields followed by the
  class. Text-to-number parsing is a library call, so the two parsers are
  parameters: `parseClass` for the class field (an unsigned byte) and
  `parseField` for a grid field.
*/
module Reader {
  import opened Prelude
  import opened Digits

  /** The highest value a grid field holds; fields are scaled by it into [0, 1]. */
  const Levels: real := 16.0

  /** The pieces joined back together with `sep` between neighbours. */
  function Join(parts: seq<string>, sep: char): string
    decreases |parts|
  {
    if |parts| == 0 then ""
    else if |parts| == 1 then parts[0]
    else parts[0] + [sep] + Join(parts[1..], sep)
  }

  /**
    `str::split` on a single character: the maximal pieces between separators, in
    order, including empty ones; a text without separator is one piece.
  */
  function Split(s: string, sep: char): (parts: seq<string>)
    ensures |parts| >= 1
    ensures forall i :: 0 <= i < |parts| ==> sep !in parts[i]
    ensures Join(parts, sep) == s
    decreases |s|
  {
    if |s| == 0 then [""]
    else
      var rest := Split(s[1..], sep);
      if s[0] == sep then
        assert [sep] + s[1..] == s;
        [""] + rest
      else
        var parts := [[s[0]] + rest[0]] + rest[1..];
        assert parts[1..] == rest[1..];
        assert s == [s[0]] + s[1..];
        parts
  }

  /** A piece without separator splits into itself. */
  lemma {:induction false} SplitPiece(w: string, sep: char)
    requires sep !in w
    ensures Split(w, sep) == [w]
    decreases |w|
  {
    if |w| > 0 {
      SplitPiece(w[1..], sep);
      assert [w[0]] + w[1..] == w;
    }
  }

  /** A piece followed by a separator splits off as the first piece. */
  lemma {:induction false} SplitAfterPiece(w: string, sep: char, t: string)
    requires sep !in w
    ensures Split(w + [sep] + t, sep) == [w] + Split(t, sep)
    decreases |w|
  {
    var s := w + [sep] + t;
    if |w| == 0 {
      assert s[1..] == t;
    } else {
      assert s[1..] == w[1..] + [sep] + t;
      SplitAfterPiece(w[1..], sep, t);
      assert [w[0]] + w[1..] == w;
    }
  }

  /** Splitting undoes joining, as long as no piece holds the separator. */
  lemma {:induction false} SplitJoin(parts: seq<string>, sep: char)
    requires |parts| >= 1
    requires forall i :: 0 <= i < |parts| ==> sep !in parts[i]
    ensures Split(Join(parts, sep), sep) == parts
    decreases |parts|
  {
    if |parts| == 1 {
      SplitPiece(parts[0], sep);
    } else {
      SplitJoin(parts[1..], sep);
      SplitAfterPiece(parts[0], sep, Join(parts[1..], sep));
      assert [parts[0]] + parts[1..] == parts;
    }
  }

  /** The grid fields, each parsed and divided by 16, in order. */
  function Grid(fields: seq<string>, parseField: string -> real): (grid: seq<real>)
    ensures |grid| == |fields|
    ensures forall i :: 0 <= i < |fields| ==> grid[i] == parseField(fields[i]) / Levels
    decreases |fields|
  {
    if |fields| == 0 then [] else [parseField(fields[0]) / Levels] + Grid(fields[1..], parseField)
  }

  /** A line the validator accepts: 64 grid fields and a class of at most 9. */
  predicate ValidRecord(line: string, parseClass: string -> u8)
  {
    var fields := Split(line, ',');
    |fields| == GridSize + 1 && parseClass(fields[|fields| - 1]) as real <= MaxClass
  }

  /**
    One line as a digit: the last comma-separated field is the class, the others
    are the grid. `None` stands for the validator's panic.
  */
  function ParseLine(line: string, parseClass: string -> u8, parseField: string -> real): (d: Option<Digit>)
    ensures d.Some? <==> ValidRecord(line, parseClass)
    ensures d.Some? ==> var fields := Split(line, ',');
      && d.value.category == parseClass(fields[|fields| - 1]) as real
      && |d.value.grid| == GridSize
      && forall i :: 0 <= i < GridSize ==> d.value.grid[i] == parseField(fields[i]) / Levels
  {
    var fields := Split(line, ',');
    var category := parseClass(fields[|fields| - 1]);
    Digits.New(category as real, Grid(fields[..|fields| - 1], parseField))
  }

  /** The non-empty lines, in order. */
  function NonEmpty(lines: seq<string>): (kept: seq<string>)
    ensures |kept| <= |lines|
    ensures forall k :: 0 <= k < |kept| ==> kept[k] != ""
    decreases |lines|
  {
    if |lines| == 0 then []
    else if lines[0] == "" then NonEmpty(lines[1..])
    else [lines[0]] + NonEmpty(lines[1..])
  }

  /** A line is kept exactly when it occurs among the lines and is not empty. */
  lemma {:induction false} NonEmptyKeeps(lines: seq<string>, l: string)
    ensures l in NonEmpty(lines) <==> l in lines && l != ""
    decreases |lines|
  {
    if |lines| > 0 {
      NonEmptyKeeps(lines[1..], l);
      assert lines == [lines[0]] + lines[1..];
    }
  }

  /**
    `NonEmpty` is the filter of the non-empty lines: a single line is kept exactly
    when it is not empty, and the lines of a concatenation are filtered part by
    part, so order and repetitions are kept.
  */
  lemma {:induction false} NonEmptyFilter(a: seq<string>, b: seq<string>, l: string)
    ensures NonEmpty([l]) == if l == "" then [] else [l]
    ensures NonEmpty(a + b) == NonEmpty(a) + NonEmpty(b)
    decreases |a|
  {
    assert [l][1..] == [];
    if |a| == 0 {
      assert a + b == b;
    } else {
      NonEmptyFilter(a[1..], b, l);
      assert (a + b)[1..] == a[1..] + b;
    }
  }

  /** Every non-empty line is one the validator accepts. */
  predicate AllValid(lines: seq<string>, parseClass: string -> u8)
  {
    forall i :: 0 <= i < |lines| && lines[i] != "" ==> ValidRecord(lines[i], parseClass)
  }

  /** `AllValid` of a non-empty list: its head, if non-empty, is valid, and so is the rest. */
  lemma AllValidCons(lines: seq<string>, parseClass: string -> u8)
    requires |lines| > 0
    ensures AllValid(lines, parseClass)
      <==> (lines[0] != "" ==> ValidRecord(lines[0], parseClass)) && AllValid(lines[1..], parseClass)
  {
    if AllValid(lines[1..], parseClass) && (lines[0] != "" ==> ValidRecord(lines[0], parseClass)) {
      forall i | 0 <= i < |lines| && lines[i] != ""
        ensures ValidRecord(lines[i], parseClass)
      {
        if i > 0 {
          assert lines[i] == lines[1..][i - 1];
        }
      }
    }
  }

  /**
    The digits of the given lines: empty lines are skipped, every other line
    gives one digit in line order, and one invalid line makes the whole read
    fail.
  */
  function ReadLines(lines: seq<string>, parseClass: string -> u8, parseField: string -> real): (r: Option<seq<Digit>>)
    ensures r.Some? <==> AllValid(lines, parseClass)
    ensures r.Some? ==> |r.value| == |NonEmpty(lines)|
    ensures r.Some? ==> forall k :: 0 <= k < |r.value| ==>
      ParseLine(NonEmpty(lines)[k], parseClass, parseField) == Some(r.value[k])
    decreases |lines|
  {
    if |lines| == 0 then Some([])
    else
      AllValidCons(lines, parseClass);
      var rest := ReadLines(lines[1..], parseClass, parseField);
      if |lines[0]| == 0 then rest
      else
        var first := ParseLine(lines[0], parseClass, parseField);
        if first.None? || rest.None? then None
        else
          var r := [first.value] + rest.value;
          var kept := NonEmpty(lines);
          assert kept == [lines[0]] + NonEmpty(lines[1..]);
          assert forall k :: 0 <= k < |r| ==> ParseLine(kept[k], parseClass, parseField) == Some(r[k]) by {
            forall k | 0 <= k < |r|
              ensures ParseLine(kept[k], parseClass, parseField) == Some(r[k])
            {
              if k > 0 {
                assert kept[k] == NonEmpty(lines[1..])[k - 1] && r[k] == rest.value[k - 1];
              }
            }
          }
          Some(r)
  }

  /** The lines of the data text, split on newlines. */
  function Lines(text: string): (lines: seq<string>)
    ensures |lines| >= 1
    ensures forall i :: 0 <= i < |lines| ==> '\n' !in lines[i]
    ensures Join(lines, '\n') == text
  {
    Split(text, '\n')
  }

  /**
    All digits of the data text: one per non-empty line, in line order; the read
    fails as a whole when any non-empty line is rejected by the validator.
  */
  function ReadDigits(text: string, parseClass: string -> u8, parseField: string -> real): (r: Option<seq<Digit>>)
    ensures r.Some? <==> AllValid(Lines(text), parseClass)
    ensures r.Some? ==> |r.value| == |NonEmpty(Lines(text))|
    ensures r.Some? ==> forall k :: 0 <= k < |r.value| ==>
      ParseLine(NonEmpty(Lines(text))[k], parseClass, parseField) == Some(r.value[k])
  {
    ReadLines(Lines(text), parseClass, parseField)
  }
}
