/** Reading an export back by the names of its columns. */
module AuditDecode {
  import opened Common
  import opened AuditCsv

  /** Where the name first stands in the header that was read. */
  function Column(header: seq<string>, name: string): nat {
    if header == [] || header[0] == name then 0 else 1 + Column(header[1..], name)
  }

  function Get(header: seq<string>, record: seq<string>, name: string): string {
    var k := Column(header, name);
    if k < |record| then record[k] else ""
  }

  /** An empty field is an absent value. */
  function Optional(text: string): Option<string> {
    if text == "" then None else Some(text)
  }

  function Decode(header: seq<string>, record: seq<string>): AuditLog {
    AuditLog(
      Get(header, record, "id"),
      Get(header, record, "timestamp"),
      Optional(Get(header, record, "user_id")),
      Get(header, record, "action"),
      Some(Get(header, record, "entity_type")),
      Optional(Get(header, record, "entity_id")),
      Optional(Get(header, record, "ip_address")),
      Optional(Get(header, record, "metadata")))
  }

  function DecodeAll(header: seq<string>, records: seq<seq<string>>): seq<AuditLog> {
    seq(|records|, i requires 0 <= i < |records| => Decode(header, records[i]))
  }

  /** The rows of a text whose first record is the header. */
  function DecodeText(text: string): Option<seq<AuditLog>> {
    match ReadFile(text)
    case None => None
    case Some(records) => if records == [] then None else Some(DecodeAll(records[0], records[1..]))
  }

  /** No comma, quote or line break anywhere but in the metadata. */
  ghost predicate CleanLog(r: AuditLog) {
    && Clean(r.id) && Clean(r.createdAt) && Clean(r.action)
    && (r.userId.Some? ==> Clean(r.userId.value))
    && (r.entityType.Some? ==> Clean(r.entityType.value))
    && (r.entityId.Some? ==> Clean(r.entityId.value))
    && (r.ipAddress.Some? ==> Clean(r.ipAddress.value))
  }

  /** The entity type is always stored; no other stored value is the empty text, which prints like an absent one. */
  predicate Proper(r: AuditLog) {
    r.entityType.Some? && Some("") !in [r.userId, r.entityId, r.ipAddress, r.metadata]
  }

  lemma CleanLogIsClean(r: AuditLog)
    ensures CleanLog(r) <==> AllClean(PlainFields(r))
  {
    var x := PlainFields(r);
    assert forall k :: 0 <= k < 7 ==> x[k] in x;
    assert x[0] == r.id && x[1] == r.createdAt && x[2] == r.userId.GetOr("") && x[3] == r.action;
    assert x[4] == r.entityType.GetOr("") && x[5] == r.entityId.GetOr("") && x[6] == r.ipAddress.GetOr("");
  }

  lemma ColumnsAre(record: seq<string>)
    requires |record| == 8
    ensures Get(HEADER_FIELDS, record, "id") == record[0]
    ensures Get(HEADER_FIELDS, record, "timestamp") == record[1]
    ensures Get(HEADER_FIELDS, record, "user_id") == record[2]
    ensures Get(HEADER_FIELDS, record, "action") == record[3]
    ensures Get(HEADER_FIELDS, record, "entity_type") == record[4]
    ensures Get(HEADER_FIELDS, record, "entity_id") == record[5]
    ensures Get(HEADER_FIELDS, record, "ip_address") == record[6]
    ensures Get(HEADER_FIELDS, record, "metadata") == record[7]
  {
    hide Get;
    GetIs(record, 0);
    GetIs(record, 1);
    GetIs(record, 2);
    GetIs(record, 3);
    GetIs(record, 4);
    GetIs(record, 5);
    GetIs(record, 6);
    GetIs(record, 7);
  }

  lemma GetIs(record: seq<string>, i: nat)
    requires |record| == |HEADER_FIELDS| && i < |record|
    ensures Get(HEADER_FIELDS, record, HEADER_FIELDS[i]) == record[i]
  {
    ColumnIs(i);
  }

  lemma NamesDiffer(i: nat, j: nat)
    requires i < j < |HEADER_FIELDS|
    ensures HEADER_FIELDS[i] != HEADER_FIELDS[j]
  {
    assert "id"[0] == 'i' && "id"[1] == 'd' && "ip_address"[1] == 'p';
    assert "entity_type"[7] == 't' && "entity_id"[7] == 'i';
    assert "timestamp"[0] == 't' && "user_id"[0] == 'u' && "action"[0] == 'a' && "metadata"[0] == 'm';
    assert "entity_type"[0] == 'e' && "entity_id"[0] == 'e' && "ip_address"[0] == 'i';
  }

  lemma {:induction false} FirstIsColumn(header: seq<string>, i: nat)
    requires i < |header| && forall j :: 0 <= j < i ==> header[j] != header[i]
    ensures Column(header, header[i]) == i
    decreases i
  {
    if i > 0 {
      assert header[1..][i - 1] == header[i];
      forall j | 0 <= j < i - 1 ensures header[1..][j] != header[1..][i - 1] { assert header[1..][j] == header[j + 1]; }
      FirstIsColumn(header[1..], i - 1);
    }
  }

  lemma ColumnIs(i: nat)
    requires i < |HEADER_FIELDS|
    ensures Column(HEADER_FIELDS, HEADER_FIELDS[i]) == i
  {
    forall j | 0 <= j < i ensures HEADER_FIELDS[j] != HEADER_FIELDS[i] { NamesDiffer(j, i); }
    FirstIsColumn(HEADER_FIELDS, i);
  }

  lemma FieldsAre(r: AuditLog)
    ensures var x := Fields(r);
            && |x| == 8
            && x[0] == r.id && x[1] == r.createdAt && x[2] == r.userId.GetOr("") && x[3] == r.action
            && x[4] == r.entityType.GetOr("") && x[5] == r.entityId.GetOr("") && x[6] == r.ipAddress.GetOr("")
            && x[7] == r.metadata.GetOr("")
  {
  }

  lemma OptionalIs(value: Option<string>)
    requires value != Some("")
    ensures Optional(value.GetOr("")) == value
  {
  }

  lemma FieldsDecode(r: AuditLog)
    requires Proper(r)
    ensures Decode(HEADER_FIELDS, Fields(r)) == r
  {
    FieldsAre(r);
    assert Some("") !in [r.userId, r.entityId, r.ipAddress, r.metadata] ==>
      r.userId != Some("") && r.entityId != Some("") && r.ipAddress != Some("") && r.metadata != Some("");
    hide Fields, PlainFields, Get, Optional;
    ColumnsAre(Fields(r));
    OptionalIs(r.userId);
    OptionalIs(r.entityId);
    OptionalIs(r.ipAddress);
    OptionalIs(r.metadata);
  }

  lemma {:induction false} RecordsDecode(rows: seq<AuditLog>)
    requires forall i :: 0 <= i < |rows| ==> Proper(rows[i])
    ensures DecodeAll(HEADER_FIELDS, Records(rows)) == rows
    decreases |rows|
  {
    hide Decode, Fields, Proper;
    if rows != [] {
      FieldsDecode(rows[0]);
      RecordsDecode(rows[1..]);
      var rest := Records(rows[1..]);
      assert Records(rows) == [Fields(rows[0])] + rest;
      assert DecodeAll(HEADER_FIELDS, [Fields(rows[0])] + rest) == [Decode(HEADER_FIELDS, Fields(rows[0]))] + DecodeAll(HEADER_FIELDS, rest);
      assert rows == [rows[0]] + rows[1..];
    }
  }

  /**
   Up to ten thousand clean rows are exported, and looking up each value under the name of its
   column in the text gives them back; more are refused.
   */
  lemma ExportDecodes(rows: seq<AuditLog>)
    requires forall i :: 0 <= i < |rows| ==> CleanLog(rows[i]) && Proper(rows[i])
    ensures |rows| <= 10000 ==> ExportToCsv(rows).Csv? && DecodeText(ExportToCsv(rows).text) == Some(rows)
    ensures |rows| > 10000 ==> ExportToCsv(rows) == BadRequest
  {
    forall i | 0 <= i < |rows| ensures AllClean(PlainFields(rows[i])) { CleanLogIsClean(rows[i]); }
    ExportReadsBackIffClean(rows);
    RecordsDecode(rows);
    assert ([HEADER_FIELDS] + Records(rows))[1..] == Records(rows);
  }

  /** So two exports of such rows with the same text are of the same rows. */
  lemma ExportInjective(a: seq<AuditLog>, b: seq<AuditLog>)
    requires forall i :: 0 <= i < |a| ==> CleanLog(a[i]) && Proper(a[i])
    requires forall i :: 0 <= i < |b| ==> CleanLog(b[i]) && Proper(b[i])
    requires ExportToCsv(a).Csv? && ExportToCsv(a) == ExportToCsv(b)
    ensures a == b
  {
    ExportDecodes(a);
    ExportDecodes(b);
  }
}
