/** The CSV export of the audit log, and a reader of section 2 of RFC 4180 with LF as line break. */
module AuditCsv {
  import opened Common

  const CSV_MAX_ROWS: nat := 10000
  const HEADER_FIELDS: seq<string> :=
    ["id", "timestamp", "user_id", "action", "entity_type", "entity_id", "ip_address", "metadata"]

  /** `metadata` is the JSON text of the stored object, which is never empty. */
  datatype AuditLog = AuditLog(
    id: string,
    createdAt: string,
    userId: Option<string>,
    action: string,
    entityType: Option<string>,
    entityId: Option<string>,
    ipAddress: Option<string>,
    metadata: Option<string>)

  datatype Export = Csv(text: string) | BadRequest

  // ---- the printer ----

  function EscapeChar(c: char): string {
    if c == '"' then "\"\"" else [c]
  }

  function EscapeQuotes(s: string): string {
    if s == "" then "" else EscapeChar(s[0]) + EscapeQuotes(s[1..])
  }

  /** `parts.join(separator)`. */
  function Join(parts: seq<string>, separator: string): string {
    if parts == [] then ""
    else if |parts| == 1 then parts[0]
    else parts[0] + separator + Join(parts[1..], separator)
  }

  const HEADER: string := Join(HEADER_FIELDS, ",")

  function PlainFields(r: AuditLog): seq<string> {
    [r.id, r.createdAt, r.userId.GetOr(""), r.action,
     r.entityType.GetOr(""), r.entityId.GetOr(""), r.ipAddress.GetOr("")]
  }

  function Quoted(metadata: string): string {
    "\"" + EscapeQuotes(metadata) + "\""
  }

  function Line(r: AuditLog): string {
    Join(PlainFields(r) + [Quoted(r.metadata.GetOr(""))], ",")
  }

  function Lines(rows: seq<AuditLog>): seq<string> {
    if rows == [] then [] else [Line(rows[0])] + Lines(rows[1..])
  }

  function ExportText(rows: seq<AuditLog>): string {
    Join([HEADER] + Lines(rows), "\n")
  }

  function ExportToCsv(rows: seq<AuditLog>): Export {
    if |rows| > CSV_MAX_ROWS then BadRequest else Csv(ExportText(rows))
  }

  // ---- the reader ----

  /** What was read, and what is left to read. */
  datatype Read<T> = Read(value: T, rest: string)

  /** The rest of a field that is not enclosed in quotes. */
  function ReadPlain(s: string): Option<Read<string>> {
    if s == "" || s[0] == ',' || s[0] == '\n' then Some(Read("", s))
    else if s[0] == '"' then None
    else
      match ReadPlain(s[1..])
      case None => None
      case Some(r) => Some(Read([s[0]] + r.value, r.rest))
  }

  /** The rest of a field after its opening quote. */
  function ReadQuoted(s: string): Option<Read<string>> {
    if s == "" then None
    else if s[0] == '"' && (|s| == 1 || s[1] != '"') then Some(Read("", s[1..]))
    else
      match ReadQuoted(if s[0] == '"' then s[2..] else s[1..])
      case None => None
      case Some(r) => Some(Read([s[0]] + r.value, r.rest))
  }

  function ReadField(s: string): (r: Option<Read<string>>)
    ensures r.Some? ==> |r.value.rest| <= |s|
  {
    if s != "" && s[0] == '"'
    then QuotedShrinks(s[1..]); ReadQuoted(s[1..])
    else PlainShrinks(s); ReadPlain(s)
  }

  lemma PlainShrinks(s: string)
    ensures ReadPlain(s).Some? ==> |ReadPlain(s).value.rest| <= |s|
  {
  }

  lemma QuotedShrinks(s: string)
    ensures ReadQuoted(s).Some? ==> |ReadQuoted(s).value.rest| <= |s|
  {
  }

  function ReadRecord(s: string): (r: Option<Read<seq<string>>>)
    ensures r.Some? ==> |r.value.rest| <= |s|
    ensures r.Some? ==> r.value.value != []
    decreases |s|
  {
    match ReadField(s)
    case None => None
    case Some(f) =>
      if f.rest == "" || f.rest[0] == '\n' then Some(Read([f.value], f.rest))
      else if f.rest[0] != ',' then None
      else
        match ReadRecord(f.rest[1..])
        case None => None
        case Some(r) => Some(Read([f.value] + r.value, r.rest))
  }

  /** The last record may or may not end in a line break. */
  function ReadFile(s: string): Option<seq<seq<string>>>
    decreases |s|
  {
    match ReadRecord(s)
    case None => None
    case Some(r) =>
      if r.rest == "" || r.rest == "\n" then Some([r.value])
      else if r.rest[0] != '\n' then None
      else
        match ReadFile(r.rest[1..])
        case None => None
        case Some(more) => Some([r.value] + more)
  }

  // ---- reading undoes printing ----

  /** No comma, quote or line break. */
  predicate Clean(field: string) {
    forall i :: 0 <= i < |field| ==> field[i] != ',' && field[i] != '"' && field[i] != '\n'
  }

  predicate AllClean(fields: seq<string>) {
    forall i :: 0 <= i < |fields| ==> Clean(fields[i])
  }

  predicate CleanRows(rows: seq<AuditLog>) {
    forall i :: 0 <= i < |rows| ==> AllClean(PlainFields(rows[i]))
  }

  function Fields(r: AuditLog): seq<string> {
    PlainFields(r) + [r.metadata.GetOr("")]
  }

  function Records(rows: seq<AuditLog>): seq<seq<string>> {
    if rows == [] then [] else [Fields(rows[0])] + Records(rows[1..])
  }

  /** The text ends here, or the field or record does. */
  predicate Ends(rest: string) {
    rest == "" || rest[0] == ',' || rest[0] == '\n'
  }

  lemma {:induction false} PlainRoundTrip(field: string, rest: string)
    requires Clean(field) && Ends(rest)
    ensures ReadField(field + rest) == ReadPlain(field + rest) == Some(Read(field, rest))
    decreases |field|
  {
    if field == "" {
      assert field + rest == rest;
    } else {
      PlainRoundTrip(field[1..], rest);
      assert (field + rest)[1..] == field[1..] + rest;
      assert [field[0]] + field[1..] == field;
    }
  }

  lemma EscapedCharReads(c: char, tail: string)
    ensures ReadQuoted(EscapeChar(c) + tail) ==
      match ReadQuoted(tail)
      case None => None
      case Some(r) => Some(Read([c] + r.value, r.rest))
  {
    var s := EscapeChar(c) + tail;
    assert if c == '"' then s[0] == s[1] == '"' && s[2..] == tail else s[0] == c && s[1..] == tail;
  }

  lemma {:induction false} QuotedRoundTrip(text: string, rest: string)
    requires Ends(rest)
    ensures ReadQuoted(EscapeQuotes(text) + "\"" + rest) == Some(Read(text, rest))
    decreases |text|
  {
    var s := EscapeQuotes(text) + "\"" + rest;
    if text == "" {
      assert s == "\"" + rest;
    } else {
      var tail := EscapeQuotes(text[1..]) + "\"" + rest;
      QuotedRoundTrip(text[1..], rest);
      EscapedCharReads(text[0], tail);
      assert s == EscapeChar(text[0]) + tail;
      assert [text[0]] + text[1..] == text;
    }
  }

  lemma QuotedFieldRoundTrip(text: string, rest: string)
    requires Ends(rest)
    ensures ReadField(Quoted(text) + rest) == Some(Read(text, rest))
  {
    QuotedRoundTrip(text, rest);
    assert (Quoted(text) + rest)[1..] == EscapeQuotes(text) + "\"" + rest;
  }

  lemma JoinCons(first: string, more: seq<string>, separator: string)
    requires more != []
    ensures Join([first] + more, separator) == first + separator + Join(more, separator)
  {
    assert ([first] + more)[1..] == more;
  }

  lemma CleanFieldReads(field: string, more: string)
    requires Clean(field)
    ensures ReadRecord(field + ("," + more)) ==
      match ReadRecord(more)
      case None => None
      case Some(r) => Some(Read([field] + r.value, r.rest))
  {
    PlainRoundTrip(field, "," + more);
    assert ("," + more)[1..] == more;
  }

  lemma JoinedLine(first: string, others: seq<string>, printed: string, rest: string)
    ensures Join([first] + others + [printed], ",") + rest == first + ("," + (Join(others + [printed], ",") + rest))
  {
    assert [first] + others + [printed] == [first] + (others + [printed]);
    JoinCons(first, others + [printed], ",");
  }

  /** A line of clean fields and a last field reads back, if the last one does. */
  lemma {:induction false} RecordRoundTrip(plain: seq<string>, last: string, printed: string, rest: string)
    requires AllClean(plain) && (rest == "" || rest[0] == '\n')
    requires ReadField(printed + rest) == Some(Read(last, rest))
    ensures ReadRecord(Join(plain + [printed], ",") + rest) == Some(Read(plain + [last], rest))
    decreases |plain|
  {
    if plain == [] {
      assert plain + [printed] == [printed] && plain + [last] == [last];
    } else {
      hide ReadRecord, ReadField;
      var first, others := plain[0], plain[1..];
      assert plain == [first] + others;
      JoinedLine(first, others, printed, rest);
      CleanFieldReads(first, Join(others + [printed], ",") + rest);
      RecordRoundTrip(others, last, printed, rest);
      assert plain + [last] == [first] + (others + [last]);
    }
  }

  lemma LineRoundTrip(r: AuditLog, rest: string)
    requires AllClean(PlainFields(r)) && (rest == "" || rest[0] == '\n')
    ensures ReadRecord(Line(r) + rest) == Some(Read(Fields(r), rest))
  {
    QuotedFieldRoundTrip(r.metadata.GetOr(""), rest);
    RecordRoundTrip(PlainFields(r), r.metadata.GetOr(""), Quoted(r.metadata.GetOr("")), rest);
  }

  /** What follows a line in the text: nothing, or a break and the other lines. */
  function Tail(lines: seq<string>): string {
    if lines == [] then "" else "\n" + Join(lines, "\n")
  }

  lemma JoinTail(line: string, lines: seq<string>)
    ensures Join([line] + lines, "\n") == line + Tail(lines)
  {
    if lines != [] { JoinCons(line, lines, "\n"); }
  }

  lemma HeaderRoundTrip(rest: string)
    requires rest == "" || rest[0] == '\n'
    ensures ReadRecord(HEADER + rest) == Some(Read(HEADER_FIELDS, rest))
  {
    var plain := HEADER_FIELDS[..7];
    assert plain + ["metadata"] == HEADER_FIELDS;
    PlainRoundTrip("metadata", rest);
    RecordRoundTrip(plain, "metadata", "metadata", rest);
  }

  // ---- fields that are not clean are not read back ----

  lemma {:induction false} PlainIsClean(s: string)
    ensures ReadPlain(s).Some? ==> Clean(ReadPlain(s).value.value)
    decreases |s|
  {
    if s != "" { PlainIsClean(s[1..]); }
  }

  function LeadingQuotes(s: string): nat {
    if s == "" || s[0] != '"' then 0 else 1 + LeadingQuotes(s[1..])
  }

  /** The leading quotes of a quoted field were printed twice as many. */
  lemma {:induction false} QuotesHalved(s: string)
    requires ReadQuoted(s).Some?
    ensures LeadingQuotes(ReadQuoted(s).value.value) == LeadingQuotes(s) / 2
    decreases |s|
  {
    if s[0] == '"' && |s| >= 2 && s[1] == '"' {
      QuotesHalved(s[2..]);
      var r := ReadQuoted(s[2..]).value.value;
      assert (['"'] + r)[1..] == r;
      assert s[1..][1..] == s[2..];
      assert LeadingQuotes(s) == 2 + LeadingQuotes(s[2..]);
    }
  }

  lemma {:induction false} LeadingQuotesPrefix(s: string, rest: string)
    requires rest != "" && rest[0] != '"'
    ensures LeadingQuotes(s + rest) == LeadingQuotes(s)
    decreases |s|
  {
    if s == "" {
      assert s + rest == rest;
    } else {
      LeadingQuotesPrefix(s[1..], rest);
      assert (s + rest)[1..] == s[1..] + rest;
    }
  }

  lemma UncleanIsMisread(field: string, rest: string)
    requires !Clean(field) && rest != "" && rest[0] == ','
    ensures ReadField(field + rest).Some? ==> ReadField(field + rest).value.value != field
  {
    var s := field + rest;
    if field[0] == '"' {
      if ReadQuoted(s[1..]).Some? {
        QuotesHalved(s[1..]);
        LeadingQuotesPrefix(field[1..], rest);
        assert s[1..] == field[1..] + rest;
      }
    } else {
      PlainIsClean(s);
    }
  }

  lemma FieldReadIsClean(field: string, more: string)
    requires ReadRecord(field + ("," + more)).Some?
    requires ReadRecord(field + ("," + more)).value.value[0] == field
    ensures Clean(field)
  {
    if !Clean(field) { UncleanIsMisread(field, "," + more); }
  }

  lemma {:induction false} RecordReadIsClean(plain: seq<string>, last: string, printed: string, rest: string)
    requires ReadRecord(Join(plain + [printed], ",") + rest).Some?
    requires ReadRecord(Join(plain + [printed], ",") + rest).value.value == plain + [last]
    ensures AllClean(plain)
    decreases |plain|
  {
    hide ReadRecord;
    if plain != [] {
      var first, others := plain[0], plain[1..];
      var more := Join(others + [printed], ",") + rest;
      assert plain == [first] + others;
      JoinedLine(first, others, printed, rest);
      FieldReadIsClean(first, more);
      CleanFieldReads(first, more);
      assert ReadRecord(more).value.value == (plain + [last])[1..] == others + [last];
      RecordReadIsClean(others, last, printed, rest);
    }
  }

  // ---- the export ----

  lemma {:induction false} LinesRoundTrip(rows: seq<AuditLog>)
    requires rows != []
    ensures ReadFile(Join(Lines(rows), "\n")) == Some(Records(rows)) <==> CleanRows(rows)
    decreases |rows|
  {
    var r, lines := rows[0], Lines(rows[1..]);
    var s := Join(Lines(rows), "\n");
    JoinTail(Line(r), lines);
    if ReadFile(s) == Some(Records(rows)) {
      assert ReadRecord(s).value.value == Records(rows)[0] == Fields(r);
      RecordReadIsClean(PlainFields(r), r.metadata.GetOr(""), Quoted(r.metadata.GetOr("")), Tail(lines));
    }
    if AllClean(PlainFields(r)) {
      LineRoundTrip(r, Tail(lines));
      CleanCons(rows);
      assert s == Line(r) + Tail(lines);
      if |rows| == 1 {
        assert Records(rows) == [Fields(r)] && ReadFile(s) == Some([Fields(r)]);
      } else {
        LinesRoundTrip(rows[1..]);
        LinesNotEmpty(rows[1..]);
        TailReads(s, Fields(r), lines);
        var sub := ReadFile(Join(lines, "\n"));
        if sub.Some? { assert ([Fields(r)] + sub.value)[1..] == sub.value; }
        assert Records(rows)[1..] == Records(rows[1..]);
      }
    }
  }

  lemma CleanCons(rows: seq<AuditLog>)
    requires rows != []
    ensures CleanRows(rows) <==> AllClean(PlainFields(rows[0])) && CleanRows(rows[1..])
  {
    forall i | 1 <= i < |rows| ensures rows[1..][i - 1] == rows[i] {}
  }

  lemma LinesNotEmpty(rows: seq<AuditLog>)
    requires rows != []
    ensures Lines(rows) != [] && Join(Lines(rows), "\n") != ""
  {
    var r := rows[0];
    JoinTail(Line(r), Lines(rows[1..]));
    var more := PlainFields(r)[1..] + [Quoted(r.metadata.GetOr(""))];
    assert PlainFields(r) + [Quoted(r.metadata.GetOr(""))] == [r.id] + more;
    JoinCons(r.id, more, ",");
  }

  lemma TailReads(s: string, record: seq<string>, lines: seq<string>)
    requires lines != [] && Join(lines, "\n") != ""
    requires ReadRecord(s) == Some(Read(record, Tail(lines)))
    ensures ReadFile(s) ==
      match ReadFile(Join(lines, "\n"))
      case None => None
      case Some(more) => Some([record] + more)
  {
    assert Tail(lines)[1..] == Join(lines, "\n");
  }

  /** The exported text reads back as the header and the rows exactly if the plain fields are clean. */
  lemma ExportReadsBackIffClean(rows: seq<AuditLog>)
    ensures ReadFile(ExportText(rows)) == Some([HEADER_FIELDS] + Records(rows)) <==> CleanRows(rows)
  {
    hide ReadRecord;
    var s := ExportText(rows);
    JoinTail(HEADER, Lines(rows));
    HeaderRoundTrip(Tail(Lines(rows)));
    if rows == [] {
      assert [HEADER_FIELDS] + Records(rows) == [HEADER_FIELDS];
    } else {
      LinesRoundTrip(rows);
      LinesNotEmpty(rows);
      TailReads(s, HEADER_FIELDS, Lines(rows));
      forall more: seq<seq<string>> ensures ([HEADER_FIELDS] + more)[1..] == more {}
    }
  }

  // ---- the export tells rows apart ----

  /** What a row prints, an absent field like an empty one. */
  lemma LineTellsFields(a: AuditLog, b: AuditLog)
    requires Fields(a) == Fields(b)
    ensures Line(a) == Line(b)
  {
    var x, y := Fields(a), Fields(b);
    assert PlainFields(a) == x[..7] && PlainFields(b) == y[..7];
    assert a.metadata.GetOr("") == x[7] && b.metadata.GetOr("") == y[7];
  }

  lemma {:induction false} SameRecordsSameLines(a: seq<AuditLog>, b: seq<AuditLog>)
    requires Records(a) == Records(b)
    ensures Lines(a) == Lines(b)
    decreases |a|
  {
    if a != [] && b != [] {
      assert Records(a)[0] == Records(b)[0] && Records(a)[1..] == Records(b)[1..];
      assert Records(a)[1..] == Records(a[1..]) && Records(b)[1..] == Records(b[1..]);
      LineTellsFields(a[0], b[0]);
      SameRecordsSameLines(a[1..], b[1..]);
    }
  }

  /** Two exports of clean rows are the same text exactly if the rows print the same fields. */
  lemma SameTextIffSameFields(a: seq<AuditLog>, b: seq<AuditLog>)
    requires CleanRows(a) && CleanRows(b)
    ensures ExportText(a) == ExportText(b) <==> Records(a) == Records(b)
  {
    ExportReadsBackIffClean(a);
    ExportReadsBackIffClean(b);
    assert ([HEADER_FIELDS] + Records(a))[1..] == Records(a);
    assert ([HEADER_FIELDS] + Records(b))[1..] == Records(b);
    if Records(a) == Records(b) { SameRecordsSameLines(a, b); }
  }
}
