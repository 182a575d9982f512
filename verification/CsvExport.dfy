/** The CSV printer, and a reader following section 2 of RFC 4180 with LF as the
    line break, which recovers what was printed. */
module CsvExport {
  import opened Market

  // ----- the printer -----

  predicate Includes(s: string, c: char)
  {
    c in s
  }

  function Doubled(s: string): string
  {
    if s == "" then "" else (if s[0] == '"' then "\"\"" else [s[0]]) + Doubled(s[1..])
  }

  function Escape(value: string): string
  {
    if Includes(value, ',') || Includes(value, '"') || Includes(value, '\n') then "\"" + Doubled(value) + "\""
    else value
  }

  /** A cell is printed as it is unless it holds a comma, a quote or a line break,
      and then it is put in quotes. */
  lemma EscapesExactlyWhen(value: string)
    ensures Escape(value) == value <==> ',' !in value && '"' !in value && '\n' !in value
    ensures Escape(value) != value ==> |Escape(value)| >= |value| + 2 && Escape(value)[0] == '"'
  {
    DoubledIsLonger(value);
    hide Doubled;
  }

  lemma {:induction false} DoubledIsLonger(value: string)
    ensures |Doubled(value)| >= |value|
  {
    if value != "" {
      DoubledIsLonger(value[1..]);
    }
  }

  function Join(parts: seq<string>, separator: char): string
  {
    if parts == [] then ""
    else if |parts| == 1 then parts[0]
    else parts[0] + [separator] + Join(parts[1..], separator)
  }

  function EscapeAll(row: seq<string>): (cells: seq<string>)
    ensures |cells| == |row|
    ensures forall i :: 0 <= i < |row| ==> cells[i] == Escape(row[i])
  {
    seq(|row|, i requires 0 <= i < |row| => Escape(row[i]))
  }

  function Line(row: seq<string>): string
  {
    Join(EscapeAll(row), ',')
  }

  function Lines(rows: seq<seq<string>>): (ls: seq<string>)
    ensures |ls| == |rows|
    ensures forall i :: 0 <= i < |rows| ==> ls[i] == Line(rows[i])
  {
    seq(|rows|, i requires 0 <= i < |rows| => Line(rows[i]))
  }

  function ToCsv(headers: seq<string>, rows: seq<seq<string>>): string
  {
    Join(Lines([headers] + rows), '\n')
  }

  // ----- the reader -----

  /** A field and what follows it, or nothing for text that is no field: a
      quoted one ends at a quote that is not doubled, a plain one at a comma,
      a line break or the end, and may hold no quote. */
  datatype Field = Field(value: string, rest: string)

  predicate EndsField(s: string)
  {
    s == "" || s[0] == ',' || s[0] == '\n'
  }

  function ReadPlain(s: string): (f: Option<Field>)
    ensures f.Some? ==> |f.value.rest| <= |s| && EndsField(f.value.rest)
  {
    if EndsField(s) then Some(Field("", s))
    else if s[0] == '"' then None
    else
      match ReadPlain(s[1..])
      case None => None
      case Some(f) => Some(Field([s[0]] + f.value, f.rest))
  }

  /** The text after an opening quote. */
  function ReadQuoted(s: string): (f: Option<Field>)
    ensures f.Some? ==> |f.value.rest| < |s| && EndsField(f.value.rest)
  {
    if s == "" then None
    else if s[0] != '"' then
      match ReadQuoted(s[1..])
      case None => None
      case Some(f) => Some(Field([s[0]] + f.value, f.rest))
    else if |s| >= 2 && s[1] == '"' then
      match ReadQuoted(s[2..])
      case None => None
      case Some(f) => Some(Field("\"" + f.value, f.rest))
    else if EndsField(s[1..]) then Some(Field("", s[1..]))
    else None
  }

  function ReadField(s: string): (f: Option<Field>)
    ensures f.Some? ==> |f.value.rest| <= |s| && EndsField(f.value.rest)
  {
    if s != "" && s[0] == '"' then ReadQuoted(s[1..]) else ReadPlain(s)
  }

  /** Records read so far end with `row`, whose next field starts at `s`.  The
      standard lets the last record end with a line break or not; `lenient`
      says whether a final break is taken as that ending or as the start of
      one more record. */
  function ReadFrom(s: string, lenient: bool, done: seq<seq<string>>, row: seq<string>): Option<seq<seq<string>>>
    decreases |s|
  {
    match ReadField(s)
    case None => None
    case Some(f) =>
      var row' := row + [f.value];
      if f.rest == "" || (lenient && f.rest == "\n") then Some(done + [row'])
      else if f.rest[0] == ',' then ReadFrom(f.rest[1..], lenient, done, row')
      else ReadFrom(f.rest[1..], lenient, done + [row'], [])
  }

  function Read(text: string, lenient: bool): Option<seq<seq<string>>>
  {
    ReadFrom(text, lenient, [], [])
  }

  // ----- what is printed is read back -----

  lemma QuotedStep(c: char, tail: string)
    ensures var next := if c == '"' then "\"\"" + tail else [c] + tail;
            ReadQuoted(tail).Some? ==>
              ReadQuoted(next) == Some(Field([c] + ReadQuoted(tail).value.value, ReadQuoted(tail).value.rest))
  {
    if c == '"' {
      assert ("\"\"" + tail)[2..] == tail;
    } else {
      assert ([c] + tail)[1..] == tail;
    }
  }

  lemma QuoteCloses(after: string)
    requires EndsField(after)
    ensures ReadQuoted("\"" + after) == Some(Field("", after))
  {
    assert ("\"" + after)[1..] == after;
  }

  lemma {:induction false} QuotedReadBack(value: string, after: string)
    requires EndsField(after)
    ensures ReadQuoted(Doubled(value) + "\"" + after) == Some(Field(value, after))
  {
    hide ReadQuoted, EndsField;
    if value == "" {
      QuoteCloses(after);
      assert Doubled(value) + "\"" + after == "\"" + after;
    } else {
      var tail := Doubled(value[1..]) + "\"" + after;
      QuotedReadBack(value[1..], after);
      QuotedStep(value[0], tail);
      assert value == [value[0]] + value[1..];
      if value[0] == '"' {
        assert Doubled(value) + "\"" + after == "\"\"" + tail;
      } else {
        assert Doubled(value) + "\"" + after == [value[0]] + tail;
      }
    }
  }

  lemma PlainStep(c: char, tail: string)
    requires c != ',' && c != '\n' && c != '"' && ReadPlain(tail).Some?
    ensures ReadPlain([c] + tail) == Some(Field([c] + ReadPlain(tail).value.value, ReadPlain(tail).value.rest))
  {
    assert ([c] + tail)[1..] == tail;
  }

  lemma PlainEnds(after: string)
    requires EndsField(after)
    ensures ReadPlain(after) == Some(Field("", after))
  {
  }

  lemma {:induction false} PlainReadBack(value: string, after: string)
    requires EndsField(after)
    requires ',' !in value && '"' !in value && '\n' !in value
    ensures ReadPlain(value + after) == Some(Field(value, after))
  {
    hide ReadPlain, EndsField;
    if value == "" {
      PlainEnds(after);
      assert value + after == after;
    } else {
      PlainReadBack(value[1..], after);
      assert value[0] in value;
      PlainStep(value[0], value[1..] + after);
      assert value == [value[0]] + value[1..];
      assert value + after == [value[0]] + (value[1..] + after);
    }
  }

  lemma FieldReadBack(value: string, after: string)
    requires EndsField(after)
    ensures ReadField(Escape(value) + after) == Some(Field(value, after))
  {
    hide Doubled, ReadPlain, ReadQuoted;
    if Includes(value, ',') || Includes(value, '"') || Includes(value, '\n') {
      QuotedReadBack(value, after);
      assert (Escape(value) + after)[1..] == Doubled(value) + "\"" + after;
    } else {
      PlainReadBack(value, after);
      if value == "" {
        assert Escape(value) + after == after;
      } else {
        assert (Escape(value) + after)[0] == value[0];
        assert value[0] in value;
      }
    }
  }

  lemma LineUnfolds(row: seq<string>)
    requires row != []
    ensures Line(row) == if |row| == 1 then Escape(row[0]) else Escape(row[0]) + "," + Line(row[1..])
  {
    assert EscapeAll(row)[1..] == EscapeAll(row[1..]);
  }

  predicate EndsFile(after: string, lenient: bool)
  {
    after == "" || (lenient && after == "\n")
  }

  /** A printed record is read to its end, whatever was read before it. */
  lemma {:induction false} LineReadBack(row: seq<string>, after: string, lenient: bool, done: seq<seq<string>>,
                                        before: seq<string>)
    requires row != [] && (after == "" || after[0] == '\n')
    ensures ReadFrom(Line(row) + after, lenient, done, before)
            == if EndsFile(after, lenient) then Some(done + [before + row])
               else ReadFrom(after[1..], lenient, done + [before + row], [])
  {
    hide ReadField, Escape, Line;
    LineUnfolds(row);
    if |row| == 1 {
      FieldReadBack(row[0], after);
      assert row == [row[0]];
    } else {
      var rest := "," + Line(row[1..]) + after;
      FieldReadBack(row[0], rest);
      assert Line(row) + after == Escape(row[0]) + rest;
      assert rest[1..] == Line(row[1..]) + after;
      LineReadBack(row[1..], after, lenient, done, before + [row[0]]);
      assert before + [row[0]] + row[1..] == before + row;
    }
  }

  lemma LinesUnfold(rows: seq<seq<string>>)
    requires rows != []
    ensures Join(Lines(rows), '\n')
            == if |rows| == 1 then Line(rows[0]) else Line(rows[0]) + "\n" + Join(Lines(rows[1..]), '\n')
  {
    assert Lines(rows)[1..] == Lines(rows[1..]);
  }

  predicate NoEmptyRow(rows: seq<seq<string>>)
  {
    forall i :: 0 <= i < |rows| ==> rows[i] != []
  }

  /** Only the row with one empty field prints as nothing. */
  lemma OnlyBlankPrintsNothing(rows: seq<seq<string>>)
    requires rows != [] && NoEmptyRow(rows)
    ensures Join(Lines(rows), '\n') == "" <==> rows == [[""]]
  {
    hide Lines, Join, Line, Escape;
    LinesUnfold(rows);
    LineUnfolds(rows[0]);
    EscapesToNothing(rows[0][0]);
    if |rows| == 1 && |rows[0]| == 1 && rows[0][0] == "" {
      assert rows[0] == [""] && rows == [[""]];
    }
  }

  lemma EscapesToNothing(value: string)
    ensures Escape(value) == "" <==> value == ""
  {
  }

  /** What a reading keeps: a lenient one takes the break before a blank last
      row for the end of the file. */
  function Kept(rows: seq<seq<string>>, lenient: bool): seq<seq<string>>
  {
    if lenient && |rows| > 1 && rows[|rows| - 1] == [""] then rows[..|rows| - 1] else rows
  }

  lemma {:induction false} RowsReadBack(rows: seq<seq<string>>, lenient: bool, done: seq<seq<string>>)
    requires rows != [] && NoEmptyRow(rows)
    ensures ReadFrom(Join(Lines(rows), '\n'), lenient, done, []) == Some(done + Kept(rows, lenient))
  {
    hide ReadFrom, Line, Lines, Join;
    LinesUnfold(rows);
    if |rows| == 1 {
      LineReadBack(rows[0], "", lenient, done, []);
      assert Line(rows[0]) + "" == Line(rows[0]);
      assert [] + rows[0] == rows[0] && rows == [rows[0]];
    } else {
      var tail := rows[1..];
      var text := Join(Lines(tail), '\n');
      var after := "\n" + text;
      LineReadBack(rows[0], after, lenient, done, []);
      assert Line(rows[0]) + after == Line(rows[0]) + "\n" + text;
      assert after[1..] == text;
      assert [] + rows[0] == rows[0];
      RowsReadBack(tail, lenient, done + [rows[0]]);
      assert done + [rows[0]] + tail == done + rows;
      OnlyBlankPrintsNothing(tail);
      if lenient && tail == [[""]] {
        assert after == "\n";
        assert Kept(rows, lenient) == [rows[0]];
      } else {
        KeptTail(rows, lenient);
        assert text != "" || !lenient;
        assert !EndsFile(after, lenient);
        assert done + [rows[0]] + Kept(tail, lenient) == done + Kept(rows, lenient);
      }
    }
  }

  lemma KeptTail(rows: seq<seq<string>>, lenient: bool)
    requires |rows| > 1 && !(lenient && rows[1..] == [[""]])
    ensures Kept(rows, lenient) == [rows[0]] + Kept(rows[1..], lenient)
  {
    var tail := rows[1..];
    assert rows == [rows[0]] + tail;
    if |tail| == 1 {
      assert tail == [rows[1]];
    } else if Kept(tail, lenient) != tail {
      assert rows[..|rows| - 1] == [rows[0]] + tail[..|tail| - 1];
    }
  }

  /** Whatever the cells hold, a reader that takes every break as a separator
      recovers the header and the rows. */
  lemma ExportDecodes(headers: seq<string>, rows: seq<seq<string>>)
    requires headers != [] && NoEmptyRow(rows)
    ensures Read(ToCsv(headers, rows), false) == Some([headers] + rows)
  {
    hide ReadFrom, Lines, Join;
    RowsReadBack([headers] + rows, false, []);
    assert [] + ([headers] + rows) == [headers] + rows;
  }

  /** A reader that lets the last record end with a break recovers them exactly
      when the last row is not a single empty cell, and otherwise drops it. */
  lemma LenientDecodesExactlyWhen(headers: seq<string>, rows: seq<seq<string>>)
    requires headers != [] && NoEmptyRow(rows)
    ensures Read(ToCsv(headers, rows), true) == Some([headers] + rows) <==> rows == [] || rows[|rows| - 1] != [""]
    ensures rows != [] && rows[|rows| - 1] == [""]
            ==> Read(ToCsv(headers, rows), true) == Some([headers] + rows[..|rows| - 1])
  {
    hide ReadFrom, Lines, Join;
    var all := [headers] + rows;
    RowsReadBack(all, true, []);
    assert [] + Kept(all, true) == Kept(all, true);
    if rows != [] {
      assert all[|all| - 1] == rows[|rows| - 1];
      assert all[..|all| - 1] == [headers] + rows[..|rows| - 1];
    }
  }

  /** So two exports with the same text have the same header and rows. */
  lemma ExportInjective(headers: seq<string>, rows: seq<seq<string>>, headers': seq<string>, rows': seq<seq<string>>)
    requires headers != [] && NoEmptyRow(rows) && headers' != [] && NoEmptyRow(rows')
    requires ToCsv(headers, rows) == ToCsv(headers', rows')
    ensures headers == headers' && rows == rows'
  {
    ExportDecodes(headers, rows);
    ExportDecodes(headers', rows');
    hide *;
    assert ([headers] + rows)[0] == ([headers'] + rows')[0];
    assert ([headers] + rows)[1..] == rows && ([headers'] + rows')[1..] == rows';
  }

  /** A row without fields prints as one with a single empty field, so it is the
      one shape the text does not determine. */
  lemma EmptyRowCollides(headers: seq<string>)
    ensures ToCsv(headers, [[]]) == ToCsv(headers, [[""]])
  {
    assert Line([]) == "";
    assert Line([""]) == "" by {
      LineUnfolds([""]);
    }
    assert Lines([headers] + [[]]) == Lines([headers] + [[""]]);
  }
}
