/**
 * Comma-separated text as section 2 of RFC 4180 lays it out: records separated by line
 * breaks (here "\n"), fields by commas, and a field that holds a comma, a double quote
 * or a line break enclosed in double quotes with each inner double quote doubled
 * (rules 6 and 7). `Parse` reads such text back, and `ParseEncode` proves that it
 * recovers every encoded table exactly.
 */
module CsvFormat {
  import Text

  /** A field needs enclosing quotes when it holds a comma, a double quote or a line break. */
  predicate NeedsQuotes(field: string)
  {
    ',' in field || '"' in field || '\n' in field || '\r' in field
  }

  /** Each double quote doubled. */
  function Escape(field: string): (r: string)
    ensures |r| >= |field|
  {
    if field == [] then []
    else (if field[0] == '"' then "\"\"" else [field[0]]) + Escape(field[1..])
  }

  /** A field as it is written into the text. */
  function QuoteField(field: string): string
  {
    if NeedsQuotes(field) then "\"" + Escape(field) + "\"" else field
  }

  function QuoteAll(fields: seq<string>): (r: seq<string>)
    ensures |r| == |fields|
    ensures forall i :: 0 <= i < |fields| ==> r[i] == QuoteField(fields[i])
  {
    if fields == [] then [] else [QuoteField(fields[0])] + QuoteAll(fields[1..])
  }

  /** One record: its fields, quoted where needed, joined by commas. */
  function EncodeRecord(fields: seq<string>): string
  {
    Text.Join(QuoteAll(fields), ',')
  }

  function EncodeAll(records: seq<seq<string>>): (r: seq<string>)
    ensures |r| == |records|
    ensures forall i :: 0 <= i < |records| ==> r[i] == EncodeRecord(records[i])
  {
    if records == [] then [] else [EncodeRecord(records[0])] + EncodeAll(records[1..])
  }

  /** The whole table: its records joined by line breaks. */
  function Encode(records: seq<seq<string>>): string
  {
    Text.Join(EncodeAll(records), '\n')
  }

  // ---------------------------------------------------------------------------
  // Reading the text back

  /** What a scan has read, and the text after it. */
  datatype Scan<T> = Scan(value: T, rest: string)

  datatype Read<T> = Failed | Done(scan: Scan<T>)

  /** An unquoted field: everything up to the next comma or line break. */
  function ScanPlain(s: string): (r: Scan<string>)
    ensures r.value + r.rest == s
    ensures r.rest == [] || r.rest[0] == ',' || r.rest[0] == '\n'
  {
    if s == [] || s[0] == ',' || s[0] == '\n' then Scan("", s)
    else
      var tail := ScanPlain(s[1..]);
      assert [s[0]] + tail.value + tail.rest == s;
      Scan([s[0]] + tail.value, tail.rest)
  }

  /** The inside of a quoted field, after its opening quote, up to and past its closing quote. */
  function ScanQuoted(s: string): (r: Read<string>)
    ensures r.Done? ==> |r.scan.rest| < |s|
  {
    if s == [] then Failed
    else if s[0] == '"' then
      if |s| >= 2 && s[1] == '"' then
        match ScanQuoted(s[2..])
        case Failed => Failed
        case Done(Scan(inner, rest)) => Done(Scan("\"" + inner, rest))
      else Done(Scan("", s[1..]))
    else
      match ScanQuoted(s[1..])
      case Failed => Failed
      case Done(Scan(inner, rest)) => Done(Scan([s[0]] + inner, rest))
  }

  function ParseField(s: string): (r: Read<string>)
    ensures r.Done? ==> |r.scan.rest| <= |s|
  {
    if s != [] && s[0] == '"' then ScanQuoted(s[1..]) else Done(ScanPlain(s))
  }

  /** Fields separated by commas, up to the end of the record. */
  function ParseRecord(s: string): (r: Read<seq<string>>)
    ensures r.Done? ==> |r.scan.rest| <= |s|
    decreases |s|
  {
    match ParseField(s)
    case Failed => Failed
    case Done(Scan(field, rest)) =>
      if rest != [] && rest[0] == ',' then
        match ParseRecord(rest[1..])
        case Failed => Failed
        case Done(Scan(fields, after)) => Done(Scan([field] + fields, after))
      else Done(Scan([field], rest))
  }

  /** Records separated by line breaks, to the end of the text; None when the text is malformed. */
  function Parse(s: string): (r: Read<seq<seq<string>>>)
    decreases |s|
  {
    match ParseRecord(s)
    case Failed => Failed
    case Done(Scan(record, rest)) =>
      if rest == [] then Done(Scan([record], ""))
      else if rest[0] == '\n' then
        match Parse(rest[1..])
        case Failed => Failed
        case Done(Scan(records, after)) => Done(Scan([record] + records, after))
      else Failed
  }

  // ---------------------------------------------------------------------------
  // The round trip

  /** Text that may follow a field: nothing, or a separator. */
  predicate AfterField(rest: string)
  {
    rest == [] || rest[0] == ',' || rest[0] == '\n'
  }

  lemma {:induction false} ScanPlainOf(field: string, rest: string)
    requires ',' !in field && '\n' !in field && AfterField(rest)
    ensures ScanPlain(field + rest) == Scan(field, rest)
  {
    if field != [] {
      assert (field + rest)[1..] == field[1..] + rest;
      ScanPlainOf(field[1..], rest);
      assert [field[0]] + field[1..] == field;
    } else {
      assert field + rest == rest;
    }
  }

  lemma {:induction false} ScanQuotedOf(field: string, rest: string)
    requires rest == [] || rest[0] != '"'
    ensures ScanQuoted(Escape(field) + "\"" + rest) == Done(Scan(field, rest))
  {
    var s := Escape(field) + "\"" + rest;
    if field == [] {
      assert s == "\"" + rest;
      assert s[1..] == rest;
    } else if field[0] == '"' {
      assert s == "\"\"" + (Escape(field[1..]) + "\"" + rest);
      assert s[2..] == Escape(field[1..]) + "\"" + rest;
      ScanQuotedOf(field[1..], rest);
      assert "\"" + field[1..] == field;
    } else {
      assert s == [field[0]] + (Escape(field[1..]) + "\"" + rest);
      assert s[1..] == Escape(field[1..]) + "\"" + rest;
      ScanQuotedOf(field[1..], rest);
      assert [field[0]] + field[1..] == field;
    }
  }

  /** Every field, whatever it holds, reads back from its written form. */
  lemma ParseFieldOf(field: string, rest: string)
    requires AfterField(rest)
    ensures ParseField(QuoteField(field) + rest) == Done(Scan(field, rest))
  {
    if NeedsQuotes(field) {
      var s := "\"" + Escape(field) + "\"" + rest;
      assert s[1..] == Escape(field) + "\"" + rest;
      ScanQuotedOf(field, rest);
    } else {
      ScanPlainOf(field, rest);
      if field != [] {
        assert (field + rest)[0] == field[0];
      }
    }
  }

  lemma {:induction false} ParseRecordOf(fields: seq<string>, rest: string)
    requires |fields| >= 1 && (rest == [] || rest[0] == '\n')
    ensures ParseRecord(EncodeRecord(fields) + rest) == Done(Scan(fields, rest))
  {
    var quoted := QuoteAll(fields);
    if |fields| == 1 {
      assert EncodeRecord(fields) == QuoteField(fields[0]);
      ParseFieldOf(fields[0], rest);
      assert ParseField(EncodeRecord(fields) + rest) == Done(Scan(fields[0], rest));
      assert [fields[0]] == fields;
    } else {
      var tail := EncodeRecord(fields[1..]) + rest;
      assert QuoteAll(fields[1..]) == quoted[1..];
      assert EncodeRecord(fields) + rest == QuoteField(fields[0]) + ("," + tail);
      ParseFieldOf(fields[0], "," + tail);
      assert ("," + tail)[1..] == tail;
      ParseRecordOf(fields[1..], rest);
      assert [fields[0]] + fields[1..] == fields;
    }
  }

  /** Reading back an encoded table, with at least one record of at least one field each, gives the table. */
  lemma {:induction false} ParseEncode(records: seq<seq<string>>)
    requires |records| >= 1
    requires forall i :: 0 <= i < |records| ==> |records[i]| >= 1
    ensures Parse(Encode(records)) == Done(Scan(records, ""))
  {
    var lines := EncodeAll(records);
    if |records| == 1 {
      assert Encode(records) == EncodeRecord(records[0]);
      assert EncodeRecord(records[0]) + "" == EncodeRecord(records[0]);
      ParseRecordOf(records[0], "");
      assert [records[0]] == records;
    } else {
      var tail := Encode(records[1..]);
      assert EncodeAll(records[1..]) == lines[1..];
      assert Encode(records) == EncodeRecord(records[0]) + ("\n" + tail);
      ParseRecordOf(records[0], "\n" + tail);
      assert ("\n" + tail)[1..] == tail;
      ParseEncode(records[1..]);
      assert [records[0]] + records[1..] == records;
    }
  }

  /** Text with no character that needs quoting is written as it is. */
  lemma QuoteAllPlain(fields: seq<string>)
    requires forall i :: 0 <= i < |fields| ==> !NeedsQuotes(fields[i])
    ensures QuoteAll(fields) == fields
  {
  }
}
