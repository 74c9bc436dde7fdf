/** `trading_bots::details::io::csv`: the splitting of a CSV line into a `record`, field
    by field from the right, and the stack `generate_datas` fills with the records of a
    file. Reading the file and its header is not part of this model; the text-to-float
    conversion `std::stof` is a parameter (`parse`). */
module Csv {
  import opened Outcomes
  import opened DataTypes
  import opened Seqs

  /** `std::string::rfind(c)`. */
  function LastIndexOf(s: string, c: char): (r: Option<nat>)
    ensures r.Some? ==> r.value < |s| && s[r.value] == c
  {
    if |s| == 0 then None
    else if s[|s| - 1] == c then Some(|s| - 1)
    else
      var r := LastIndexOf(s[..|s| - 1], c);
      assert r.Some? ==> s[..|s| - 1][r.value] == s[r.value];
      r
  }

  /** `rfind` finds the last occurrence: none follows the position it returns, and there
      is none at all when it finds nothing. */
  lemma {:induction false} LastIndexOfIsLast(s: string, c: char)
    ensures LastIndexOf(s, c).None? ==> forall k :: 0 <= k < |s| ==> s[k] != c
    ensures LastIndexOf(s, c).Some? ==> forall k :: LastIndexOf(s, c).value < k < |s| ==> s[k] != c
  {
    if |s| != 0 && s[|s| - 1] != c {
      var init := s[..|s| - 1];
      LastIndexOfIsLast(init, c);
      assert forall k :: 0 <= k < |init| ==> init[k] == s[k];
    }
  }

  /** A field holds no comma. */
  predicate CommaFree(field: string) {
    forall k :: 0 <= k < |field| ==> field[k] != ','
  }

  /** `extract_last_field(line)`, as the pair (field, what is left of the line). With a
      comma, the field is the text after the last one and the line is cut at it. Without a
      comma, a non-empty line is moved out whole and leaves the buffer empty. An empty line
      is "incomplete input". */
  function SplitLastField(line: string): (r: Result<(string, string)>)
    ensures r.Err? <==> line == []
    ensures r.Err? ==> r.error == IncompleteInput
    ensures r.Ok? ==> |r.value.1| < |line|
  {
    match LastIndexOf(line, ',')
    case Some(pos) => Ok((line[pos + 1..], line[..pos]))
    case None =>
      if line != [] then Ok((line, [])) else Err(IncompleteInput)
  }

  /** The two parts of a split: with a comma, the line is the rest, a comma and a
      comma-free field; without one, the field is the whole line and nothing is left. */
  lemma SplitLastFieldParts(line: string)
    requires line != []
    ensures var r := SplitLastField(line).value;
      (!CommaFree(line) ==> line == r.1 + "," + r.0 && CommaFree(r.0)) &&
      (CommaFree(line) ==> r == (line, []))
  {
    LastIndexOfIsLast(line, ',');
    match LastIndexOf(line, ',')
    case Some(pos) =>
      assert line == line[..pos] + "," + line[pos + 1..];
    case None =>
  }

  /** `fields` joined by commas, the inverse of the splitting. */
  function Join(fields: seq<string>): string {
    if |fields| <= 1 then (if fields == [] then [] else fields[0])
    else Join(fields[..|fields| - 1]) + "," + fields[|fields| - 1]
  }

  /** Splitting a line of comma-free fields returns its last field and the line of the
      others; the last field alone comes back whole when it is not empty. */
  lemma SplitOfJoin(fields: seq<string>)
    requires |fields| >= 1 && forall i :: 0 <= i < |fields| ==> CommaFree(fields[i])
    requires |fields| == 1 ==> fields[0] != []
    ensures SplitLastField(Join(fields)) == Ok((fields[|fields| - 1], Join(fields[..|fields| - 1])))
  {
    if |fields| > 1 {
      var line := Join(fields);
      var last := fields[|fields| - 1];
      assert line == Join(fields[..|fields| - 1]) + "," + last;
      assert !CommaFree(line) by {
        assert line[|Join(fields[..|fields| - 1])|] == ',';
      }
      var r := SplitLastField(line).value;
      SplitLastFieldParts(line);
      SplitIsUnique(r.1, r.0, Join(fields[..|fields| - 1]), last);
    }
  }

  /** The last comma of `prefix + "," + field` is the one before a comma-free `field`. */
  lemma {:induction false} LastCommaPosition(prefix: string, field: string)
    requires CommaFree(field)
    ensures LastIndexOf(prefix + "," + field, ',') == Some(|prefix|)
  {
    var s := prefix + "," + field;
    if field != [] {
      var shorter := field[..|field| - 1];
      assert s[..|s| - 1] == prefix + "," + shorter;
      assert s[|s| - 1] == field[|field| - 1] != ',';
      LastCommaPosition(prefix, shorter);
    }
  }

  /** A line cut at its last comma: what follows the comma is comma-free, so the cut point
      is determined. */
  lemma SplitIsUnique(p1: string, f1: string, p2: string, f2: string)
    requires p1 + "," + f1 == p2 + "," + f2
    requires CommaFree(f1) && CommaFree(f2)
    ensures p1 == p2 && f1 == f2
  {
    var s := p1 + "," + f1;
    LastCommaPosition(p1, f1);
    LastCommaPosition(p2, f2);
    assert |p1| == |p2|;
    assert f1 == s[|p1| + 1..] == f2;
    assert p1 == s[..|p1|] == p2;
  }

  /** One numeric field: split it off, then `std::stof` it. */
  function ParsedLastField(line: string, parse: string -> Option<real>): (r: Result<(real, string)>)
    ensures r.Ok? ==> SplitLastField(line).Ok? && parse(SplitLastField(line).value.0) == Some(r.value.0)
    ensures r.Ok? ==> r.value.1 == SplitLastField(line).value.1
  {
    var split :- SplitLastField(line);
    match parse(split.0)
    case Some(v) => Ok((v, split.1))
    case None => Err(ParseFailure)
  }

  /** `make_record(line)`: the designated initialisers run in order, each peeling the last
      field of what is left: Low, High, Open, Volume, Close/Last, Date (the header
      `Date,Close/Last,Volume,Open,High,Low` read backwards), then `ensure_datas_integrity`.
      Whatever is left of the line after the Date is ignored. */
  function MakeRecordOf(line: string, parse: string -> Option<real>): (r: Result<Record>)
    ensures r.Ok? ==> EnsureDataIntegrity(r.value).Pass?
    ensures r.Ok? ==> r.value.date != [] && r.value.high >= r.value.low
  {
    var low :- ParsedLastField(line, parse);
    var high :- ParsedLastField(low.1, parse);
    var open :- ParsedLastField(high.1, parse);
    var volume :- SplitLastField(open.1);
    var close :- ParsedLastField(volume.1, parse);
    var date :- SplitLastField(close.1);
    var record := Record(low.0, high.0, open.0, volume.0, close.0, date.0);
    match EnsureDataIntegrity(record)
    case Pass => Ok(record)
    case Fail(e) => Err(e)
  }

  /** A well-formed line, in the header's order, yields exactly the record of its fields. */
  lemma MakeRecordOfLine(date: string, close: string, volume: string, open: string, high: string, low: string,
                         parse: string -> Option<real>)
    requires CommaFree(date) && CommaFree(close) && CommaFree(volume) && CommaFree(open) && CommaFree(high) && CommaFree(low)
    requires date != []
    requires parse(low).Some? && parse(high).Some? && parse(open).Some? && parse(close).Some?
    requires parse(high).value >= parse(low).value
    ensures MakeRecordOf(Join([date, close, volume, open, high, low]), parse) ==
      Ok(Record(parse(low).value, parse(high).value, parse(open).value, volume, parse(close).value, date))
  {
    var l2 := date + "," + close;
    var l3 := l2 + "," + volume;
    var l4 := l3 + "," + open;
    var l5 := l4 + "," + high;
    var line := l5 + "," + low;
    assert Join([date]) == date;
    JoinSnoc([date], close);
    assert [date] + [close] == [date, close];
    JoinSnoc([date, close], volume);
    assert [date, close] + [volume] == [date, close, volume];
    JoinSnoc([date, close, volume], open);
    assert [date, close, volume] + [open] == [date, close, volume, open];
    JoinSnoc([date, close, volume, open], high);
    assert [date, close, volume, open] + [high] == [date, close, volume, open, high];
    JoinSnoc([date, close, volume, open, high], low);
    assert [date, close, volume, open, high] + [low] == [date, close, volume, open, high, low];
    assert Join([date, close, volume, open, high, low]) == line;
    SplitOfAppend(l5, low);
    SplitOfAppend(l4, high);
    SplitOfAppend(l3, open);
    SplitOfAppend(l2, volume);
    SplitOfAppend(date, close);
    MakeRecordOfFields(line, l5, l4, l3, l2, date, close, volume, open, high, low, parse);
  }

  /** Joining one more field appends a comma and the field. */
  lemma JoinSnoc(fields: seq<string>, field: string)
    requires fields != []
    ensures Join(fields + [field]) == Join(fields) + "," + field
  {
    assert (fields + [field])[..|fields|] == fields;
  }

  /** Splitting `prefix + "," + field` for a comma-free `field` gives back the two parts. */
  lemma SplitOfAppend(prefix: string, field: string)
    requires CommaFree(field)
    ensures SplitLastField(prefix + "," + field) == Ok((field, prefix))
  {
    var line := prefix + "," + field;
    LastCommaPosition(prefix, field);
    assert line[|prefix| + 1..] == field && line[..|prefix|] == prefix;
  }

  /** `make_record` on a line whose successive splits give the six fields. */
  lemma MakeRecordOfFields(line: string, l5: string, l4: string, l3: string, l2: string,
                           date: string, close: string, volume: string, open: string, high: string, low: string,
                           parse: string -> Option<real>)
    requires SplitLastField(line) == Ok((low, l5)) && SplitLastField(l5) == Ok((high, l4))
    requires SplitLastField(l4) == Ok((open, l3)) && SplitLastField(l3) == Ok((volume, l2))
    requires SplitLastField(l2) == Ok((close, date)) && SplitLastField(date) == Ok((date, []))
    requires parse(low).Some? && parse(high).Some? && parse(open).Some? && parse(close).Some?
    requires date != [] && parse(high).value >= parse(low).value
    ensures MakeRecordOf(line, parse) ==
      Ok(Record(parse(low).value, parse(high).value, parse(open).value, volume, parse(close).value, date))
  {
    assert ParsedLastField(line, parse) == Ok((parse(low).value, l5));
    assert ParsedLastField(l5, parse) == Ok((parse(high).value, l4));
    assert ParsedLastField(l4, parse) == Ok((parse(open).value, l3));
    assert ParsedLastField(l2, parse) == Ok((parse(close).value, date));
  }

  /** A line with too few fields runs out before the Date: "incomplete input". */
  lemma ShortLineIsIncomplete(close: string, volume: string, open: string, high: string, low: string,
                              parse: string -> Option<real>)
    requires CommaFree(close) && CommaFree(volume) && CommaFree(open) && CommaFree(high) && CommaFree(low)
    requires close != []
    requires parse(low).Some? && parse(high).Some? && parse(open).Some? && parse(close).Some?
    ensures MakeRecordOf(Join([close, volume, open, high, low]), parse) == Err(IncompleteInput)
  {
    var l2 := close + "," + volume;
    var l3 := l2 + "," + open;
    var l4 := l3 + "," + high;
    var line := l4 + "," + low;
    assert Join([close]) == close;
    JoinSnoc([close], volume);
    assert [close] + [volume] == [close, volume];
    JoinSnoc([close, volume], open);
    assert [close, volume] + [open] == [close, volume, open];
    JoinSnoc([close, volume, open], high);
    assert [close, volume, open] + [high] == [close, volume, open, high];
    JoinSnoc([close, volume, open, high], low);
    assert [close, volume, open, high] + [low] == [close, volume, open, high, low];
    assert Join([close, volume, open, high, low]) == line;
    SplitOfAppend(l4, low);
    SplitOfAppend(l3, high);
    SplitOfAppend(l2, open);
    SplitOfAppend(close, volume);
    assert ParsedLastField(line, parse) == Ok((parse(low).value, l4));
    assert ParsedLastField(l4, parse) == Ok((parse(high).value, l3));
    assert ParsedLastField(l3, parse) == Ok((parse(open).value, l2));
    assert SplitLastField(l2) == Ok((volume, close));
    assert ParsedLastField(close, parse) == Ok((parse(close).value, []));
    assert SplitLastField([]) == Err(IncompleteInput);
  }

  /** The line buffer `make_record` owns and `extract_last_field` shrinks in place. */
  class LineBuffer {
    var line: string

    constructor (line: string)
      ensures this.line == line
    {
      this.line := line;
    }

    /** `extract_last_field(fwd(line))`. */
    method ExtractLastField() returns (r: Result<string>)
      modifies this
      ensures var s := SplitLastField(old(line));
        (r.Err? <==> s.Err?) &&
        (s.Err? ==> r.error == s.error && line == old(line)) &&
        (s.Ok? ==> r.value == s.value.0 && line == s.value.1)
    {
      var pos := LastIndexOf(line, ',');
      if pos.Some? {
        var value := line[pos.value + 1..];
        line := line[..pos.value];
        return Ok(value);
      } else if line != [] {
        var value := line;
        line := [];
        return Ok(value);
      } else {
        return Err(IncompleteInput);
      }
    }

    /** A field peeled and converted by `std::stof`. */
    method ExtractNumber(parse: string -> Option<real>) returns (r: Result<real>)
      modifies this
      ensures var p := ParsedLastField(old(line), parse);
        (r.Err? <==> p.Err?) &&
        (p.Err? ==> r.error == p.error) &&
        (p.Ok? ==> r.value == p.value.0 && line == p.value.1)
    {
      var field := ExtractLastField();
      if field.Err? {
        return Err(field.error);
      }
      var v := parse(field.value);
      if v.None? {
        return Err(ParseFailure);
      }
      return Ok(v.value);
    }
  }

  /** `make_record(std::move(buffer))`. */
  method MakeRecord(line: string, parse: string -> Option<real>) returns (r: Result<Record>)
    ensures r == MakeRecordOf(line, parse)
  {
    var buffer := new LineBuffer(line);
    var low := buffer.ExtractNumber(parse);
    if low.Err? {
      return Err(low.error);
    }
    var high := buffer.ExtractNumber(parse);
    if high.Err? {
      return Err(high.error);
    }
    var open := buffer.ExtractNumber(parse);
    if open.Err? {
      return Err(open.error);
    }
    var volume := buffer.ExtractLastField();
    if volume.Err? {
      return Err(volume.error);
    }
    var close := buffer.ExtractNumber(parse);
    if close.Err? {
      return Err(close.error);
    }
    var date := buffer.ExtractLastField();
    if date.Err? {
      return Err(date.error);
    }
    var record := Record(low.value, high.value, open.value, volume.value, close.value, date.value);
    var check := EnsureDataIntegrity(record);
    if check.Fail? {
      return Err(check.error);
    }
    return Ok(record);
  }

  /** The outcome of each line's `make_record`, in file order. */
  function MadeRecords(lines: seq<string>, parse: string -> Option<real>): (r: seq<Result<Record>>)
    ensures |r| == |lines| && forall i :: 0 <= i < |lines| ==> r[i] == MakeRecordOf(lines[i], parse)
  {
    seq(|lines|, i requires 0 <= i < |lines| => MakeRecordOf(lines[i], parse))
  }

  /** What the generator yields from a sequence of `make_record` outcomes: their records, up
      to the first failure, which its `unhandled_exception` turns into its own error. */
  function Collect(results: seq<Result<Record>>): (r: Result<seq<Record>>)
    ensures r.Err? ==> r.error == GeneratorUnhandledException
    ensures r.Ok? ==> |r.value| == |results|
  {
    if results == [] then Ok([])
    else
      var init :- Collect(results[..|results| - 1]);
      match results[|results| - 1]
      case Ok(record) => Ok(init + [record])
      case Err(_) => Err(GeneratorUnhandledException)
  }

  /** The generator succeeds exactly when every outcome is a record, and then yields each
      of them in order. */
  lemma {:induction false} CollectIsElementwise(results: seq<Result<Record>>)
    ensures Collect(results).Ok? <==> forall i :: 0 <= i < |results| ==> results[i].Ok?
    ensures Collect(results).Ok? ==> forall i :: 0 <= i < |results| ==> results[i] == Ok(Collect(results).value[i])
  {
    if results != [] {
      var init := results[..|results| - 1];
      CollectIsElementwise(init);
      assert forall i :: 0 <= i < |init| ==> init[i] == results[i];
    }
  }

  /** One more record outcome extends what the generator has yielded by its record. */
  lemma CollectSnoc(results: seq<Result<Record>>, i: nat, records: seq<Record>)
    requires i < |results| && results[i].Ok? && Collect(results[..i]) == Ok(records)
    ensures Collect(results[..i + 1]) == Ok(records + [results[i].value])
  {
    assert results[..i + 1][..i] == results[..i];
  }

  /** A failed outcome makes every longer sequence fail. */
  lemma {:induction false} CollectFailsAfter(results: seq<Result<Record>>, n: nat)
    requires 0 < n <= |results| && results[n - 1].Err?
    ensures Collect(results) == Err(GeneratorUnhandledException)
  {
    CollectIsElementwise(results);
  }

  /** The records of `lines` in file order, or the generator's error. */
  function RecordsOf(lines: seq<string>, parse: string -> Option<real>): (r: Result<seq<Record>>)
    ensures r.Err? ==> r.error == GeneratorUnhandledException
    ensures r.Ok? ==> |r.value| == |lines|
  {
    Collect(MadeRecords(lines, parse))
  }

  /** `generate_datas`: every record the generator yields is pushed onto the stack, whose top
      is the end of the sequence. The stack therefore holds the file's records in file order,
      bottom to top. */
  method GenerateDatas(lines: seq<string>, parse: string -> Option<real>) returns (r: Result<seq<Record>>)
    ensures r == RecordsOf(lines, parse)
  {
    ghost var made := MadeRecords(lines, parse);
    var stack: seq<Record> := [];
    var i := 0;
    while i < |lines|
      invariant 0 <= i <= |lines|
      invariant Collect(made[..i]) == Ok(stack)
    {
      var record := MakeRecord(lines[i], parse);
      assert made[i] == record;
      if record.Err? {
        CollectFailsAfter(made, i + 1);
        return Err(GeneratorUnhandledException);
      }
      CollectSnoc(made, i, stack);
      stack := stack + [record.value];
      i := i + 1;
    }
    assert made[..i] == made;
    return Ok(stack);
  }

  /** The generator succeeds exactly when every line makes a record, and then yields the
      record of each line, in file order. */
  lemma RecordsOfIsLinewise(lines: seq<string>, parse: string -> Option<real>)
    ensures RecordsOf(lines, parse).Ok? <==> forall i :: 0 <= i < |lines| ==> MakeRecordOf(lines[i], parse).Ok?
    ensures RecordsOf(lines, parse).Ok? ==>
      forall i :: 0 <= i < |lines| ==> MakeRecordOf(lines[i], parse) == Ok(RecordsOf(lines, parse).value[i])
  {
    CollectIsElementwise(MadeRecords(lines, parse));
  }

  /** Popping the whole stack delivers the records newest line first: the first record
      processed is the file's last line. */
  lemma StackDeliversLastLineFirst(lines: seq<string>, parse: string -> Option<real>)
    requires RecordsOf(lines, parse).Ok?
    ensures var delivered := Reverse(RecordsOf(lines, parse).value);
      |delivered| == |lines| &&
      forall k :: 0 <= k < |lines| ==> MakeRecordOf(lines[|lines| - 1 - k], parse) == Ok(delivered[k])
  {
    var records := RecordsOf(lines, parse).value;
    var make := (line: string) => MakeRecordOf(line, parse);
    forall j | 0 <= j < |lines| ensures make(lines[j]) == Ok(records[j]) {
      RecordOfLine(lines, parse, j);
    }
    ReversedLinewise(lines, make, records);
  }

  /** Records made line by line, reversed, belong to the lines back to front. */
  lemma ReversedLinewise(lines: seq<string>, make: string -> Result<Record>, records: seq<Record>)
    requires |records| == |lines| && forall j :: 0 <= j < |lines| ==> make(lines[j]) == Ok(records[j])
    ensures forall k :: 0 <= k < |lines| ==> make(lines[|lines| - 1 - k]) == Ok(Reverse(records)[k])
  {
  }

  /** The record the generator yields at position `j` is the one line `j` makes. */
  lemma RecordOfLine(lines: seq<string>, parse: string -> Option<real>, j: nat)
    requires RecordsOf(lines, parse).Ok? && j < |lines|
    ensures MakeRecordOf(lines[j], parse) == Ok(RecordsOf(lines, parse).value[j])
  {
    RecordsOfIsLinewise(lines, parse);
  }
}
