/**
 The CSV exports: fields are quoted on demand, separated by commas, and records
 end in a line feed.  The partner is a reader with the quoting rules of section
 2 of RFC 4180, except that records end in a line feed.
 */
module Csv {
  import opened Keys
  import opened Lists

  // ---- the writer ----------------------------------------------------------

  predicate Special(c: char) {
    c == ',' || c == '"' || c == '\n'
  }

  /** Every quote is written twice. */
  function Doubled(s: string): string {
    if s == [] then [] else (if s[0] == '"' then ['"', '"'] else [s[0]]) + Doubled(s[1..])
  }

  function CsvField(s: string): string {
    if exists i | 0 <= i < |s| :: Special(s[i]) then ['"'] + Doubled(s) + ['"'] else s
  }

  /** The fields of one record, each but the first after a comma, and the line feed. */
  function WriteRecord(fields: seq<string>): string
    requires fields != []
  {
    CsvField(fields[0]) + if |fields| == 1 then ['\n'] else [','] + WriteRecord(fields[1..])
  }

  function Write(records: seq<seq<string>>): string
    requires forall r <- records :: r != []
  {
    if records == [] then []
    else
      assert records[0] in records && forall r <- records[1..] :: r in records;
      WriteRecord(records[0]) + Write(records[1..])
  }

  // ---- the reader ----------------------------------------------------------

  /** A field's text and what follows it. */
  datatype Read = Read(field: string, rest: string)

  /** The inside of a quoted field: a doubled quote is a quote, a single one ends the field. */
  function ReadQuoted(s: string): (r: Option<Read>)
    ensures r.Some? ==> |r.value.rest| < |s|
  {
    if s == [] then None
    else if s[0] != '"' then Prepend(s[0], ReadQuoted(s[1..]))
    else if |s| > 1 && s[1] == '"' then Prepend('"', ReadQuoted(s[2..]))
    else Some(Read([], s[1..]))
  }

  function Prepend(c: char, r: Option<Read>): (r': Option<Read>)
    ensures r'.Some? == r.Some? && (r.Some? ==> r'.value == Read([c] + r.value.field, r.value.rest))
  {
    if r.None? then None else Some(Read([c] + r.value.field, r.value.rest))
  }

  /** Text without quotes, up to a separator or the end. */
  function ReadPlain(s: string): (r: Option<Read>)
    ensures r.Some? ==> |r.value.rest| <= |s|
  {
    if s == [] || s[0] == ',' || s[0] == '\n' then Some(Read([], s))
    else if s[0] == '"' then None
    else Prepend(s[0], ReadPlain(s[1..]))
  }

  function ReadField(s: string): (r: Option<Read>)
    ensures r.Some? ==> |r.value.rest| <= |s|
  {
    if s != [] && s[0] == '"' then ReadQuoted(s[1..]) else ReadPlain(s)
  }

  /** The fields of the first record, and the text after its end. */
  datatype ReadFields = ReadFields(fields: seq<string>, rest: string)

  function ReadRecord(s: string): (r: Option<ReadFields>)
    ensures r.Some? && s != [] ==> |r.value.rest| < |s|
    decreases |s|
  {
    var f := ReadField(s);
    if f.None? then None
    else if f.value.rest == [] then Some(ReadFields([f.value.field], []))
    else if f.value.rest[0] == '\n' then Some(ReadFields([f.value.field], f.value.rest[1..]))
    else if f.value.rest[0] != ',' then None
    else
      var more := ReadRecord(f.value.rest[1..]);
      if more.None? then None else Some(ReadFields([f.value.field] + more.value.fields, more.value.rest))
  }

  function ReadAll(s: string): Option<seq<seq<string>>>
    decreases |s|
  {
    if s == [] then Some([])
    else
      var r := ReadRecord(s);
      if r.None? then None
      else
        var more := ReadAll(r.value.rest);
        if more.None? then None else Some([r.value.fields] + more.value)
  }

  // ---- round trip ----------------------------------------------------------

  predicate Separated(rest: string) {
    rest != [] && (rest[0] == ',' || rest[0] == '\n')
  }

  lemma {:induction false} QuotedReadsBack(s: string, rest: string)
    requires Separated(rest)
    ensures ReadQuoted(Doubled(s) + ['"'] + rest) == Some(Read(s, rest))
  {
    if s == [] {
      assert Doubled(s) + ['"'] + rest == ['"'] + rest;
      assert (['"'] + rest)[1..] == rest;
    } else {
      QuotedReadsBack(s[1..], rest);
      var tail := Doubled(s[1..]) + ['"'] + rest;
      var head := if s[0] == '"' then ['"', '"'] else [s[0]];
      assert Doubled(s) + ['"'] + rest == head + tail;
      assert (head + tail)[|head|..] == tail;
      assert s == [s[0]] + s[1..];
    }
  }

  lemma {:induction false} PlainReadsBack(s: string, rest: string)
    requires Separated(rest) && forall i | 0 <= i < |s| :: !Special(s[i])
    ensures ReadPlain(s + rest) == Some(Read(s, rest))
  {
    if s == [] {
      assert s + rest == rest;
    } else {
      PlainReadsBack(s[1..], rest);
      assert (s + rest)[0] == s[0] && (s + rest)[1..] == s[1..] + rest;
      assert s == [s[0]] + s[1..];
    }
  }

  lemma FieldReadsBack(s: string, rest: string)
    requires Separated(rest)
    ensures ReadField(CsvField(s) + rest) == Some(Read(s, rest))
  {
    hide Doubled, ReadQuoted, ReadPlain;
    if exists i | 0 <= i < |s| :: Special(s[i]) {
      QuotedReadsBack(s, rest);
      assert (CsvField(s) + rest)[1..] == Doubled(s) + ['"'] + rest;
    } else {
      PlainReadsBack(s, rest);
      assert (s + rest)[0] == if s == [] then rest[0] else s[0];
    }
  }

  lemma {:induction false} DoubledLength(s: string)
    ensures |Doubled(s)| >= |s|
  {
    if s != [] {
      DoubledLength(s[1..]);
    }
  }

  /** A field is quoted exactly when it holds a comma, a quote or a line feed. */
  lemma QuotedOnDemand(s: string)
    ensures CsvField(s) == s <==> ',' !in s && '"' !in s && '\n' !in s
    ensures CsvField(s) != s ==> CsvField(s)[0] == '"' && CsvField(s)[|CsvField(s)| - 1] == '"'
  {
    DoubledLength(s);
  }

  /** Counters are printed without `csvField`; it would not change them. */
  lemma NumbersNeedNoQuotes(n: int)
    ensures CsvField(IntText(n)) == IntText(n)
  {
    hide NatText;
    NatTextDigits(if n < 0 then -n else n);
  }

  lemma {:induction false} RecordReadsBack(fields: seq<string>, rest: string)
    requires fields != []
    ensures ReadRecord(WriteRecord(fields) + rest) == Some(ReadFields(fields, rest))
    decreases |fields|
  {
    hide CsvField, ReadField;
    var tail := (if |fields| == 1 then ['\n'] else [','] + WriteRecord(fields[1..])) + rest;
    assert WriteRecord(fields) + rest == CsvField(fields[0]) + tail;
    FieldReadsBack(fields[0], tail);
    if |fields| == 1 {
      assert tail[1..] == rest && fields == [fields[0]];
    } else {
      assert tail[1..] == WriteRecord(fields[1..]) + rest;
      RecordReadsBack(fields[1..], rest);
      assert fields == [fields[0]] + fields[1..];
    }
  }

  /** Whatever the fields hold, reading an export gives back exactly the records written. */
  lemma {:induction false} CsvRoundTrip(records: seq<seq<string>>)
    requires forall r <- records :: r != []
    ensures ReadAll(Write(records)) == Some(records)
    decreases |records|
  {
    hide ReadRecord, WriteRecord;
    if records != [] {
      assert records[0] in records && forall r <- records[1..] :: r in records;
      RecordReadsBack(records[0], Write(records[1..]));
      RecordNotEmpty(records[0]);
      CsvRoundTrip(records[1..]);
      assert records == [records[0]] + records[1..];
    }
  }

  lemma {:induction false} RecordNotEmpty(fields: seq<string>)
    requires fields != []
    ensures WriteRecord(fields) != []
  {
  }
}
