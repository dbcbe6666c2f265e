/** Evidence files, their hashes and their paths. */
module CustodyModel {
  import opened Common

  type Byte = b: int | 0 <= b < 256
  type Bytes = seq<Byte>

  /** SHA-256; nothing is assumed of it. */
  type Hash = Bytes -> Bytes

  // ---- hexadecimal text ----

  function HexDigit(v: int): char
    requires 0 <= v < 16
  {
    if v < 10 then '0' + v as char else 'a' + (v - 10) as char
  }

  function HexPair(b: Byte): string {
    [HexDigit(b / 16), HexDigit(b % 16)]
  }

  function HexEncode(data: Bytes): string {
    if data == [] then "" else HexPair(data[0]) + HexEncode(data[1..])
  }

  function HexValue(c: char): Option<int> {
    if '0' <= c <= '9' then Some(c as int - '0' as int)
    else if 'a' <= c <= 'f' then Some(c as int - 'a' as int + 10)
    else if 'A' <= c <= 'F' then Some(c as int - 'A' as int + 10)
    else None
  }

  /** `Buffer.from(text, 'hex')`: stops at the first pair that is not a byte. */
  function HexDecode(text: string): Bytes {
    if |text| < 2 || HexValue(text[0]) == None || HexValue(text[1]) == None then []
    else
      HexValueRange(text[0]); HexValueRange(text[1]);
      [HexValue(text[0]).value * 16 + HexValue(text[1]).value] + HexDecode(text[2..])
  }

  lemma HexValueRange(c: char)
    ensures HexValue(c).Some? ==> 0 <= HexValue(c).value < 16
  {
  }

  /** verifyIntegrity: decode both hashes and compare the buffers. */
  function SameHash(computed: string, expected: string): bool {
    var a, b := HexDecode(computed), HexDecode(expected);
    |a| == |b| && a == b
  }

  // ---- paths ----

  /** `evidences/<year>/<month>/<day>/<type>`, and the file name. */
  function StoragePath(directory: string, id: string, extension: string): string {
    directory + "/" + id + "." + extension
  }

  predicate Free(s: string, c: char) {
    forall i :: 0 <= i < |s| ==> s[i] != c
  }

  /** A generated id, a UUID, has neither slash nor dot; the extension has no slash. */
  predicate GoodName(id: string, extension: string) {
    Free(id, '/') && Free(id, '.') && Free(extension, '/')
  }

  // ---- the tables and the disk ----

  datatype Row = Row(storagePath: string, hashSha256: string, sizeBytes: nat, deleted: bool)

  datatype State = State(rows: map<string, Row>, disk: map<string, Bytes>, uploaded: map<string, Bytes>)

  datatype Step =
    | Create(id: string, directory: string, extension: string, buffer: Bytes)
    | Remove(id: string)
    | Verify(id: string)

  const EMPTY: State := State(map[], map[], map[])

  predicate Enabled(s: State, step: Step) {
    step.Create? ==> step.id !in s.rows && GoodName(step.id, step.extension)
  }

  function CreateEvidence(s: State, hash: Hash, id: string, directory: string, extension: string, buffer: Bytes): State {
    var path := StoragePath(directory, id, extension);
    State(s.rows[id := Row(path, HexEncode(hash(buffer)), |buffer|, false)],
          s.disk[path := buffer],
          s.uploaded[id := buffer])
  }

  /** A row that is there and not soft-deleted. */
  predicate Found(s: State, id: string) {
    id in s.rows && !s.rows[id].deleted
  }

  /** None if there is no such evidence or its file cannot be read. */
  function VerifyEvidence(s: State, hash: Hash, id: string): Option<bool> {
    if !Found(s, id) || s.rows[id].storagePath !in s.disk then None
    else Some(SameHash(HexEncode(hash(s.disk[s.rows[id].storagePath])), s.rows[id].hashSha256))
  }

  function Next(s: State, hash: Hash, step: Step): State {
    if !Enabled(s, step) then s else
    match step
    case Create(id, directory, extension, buffer) => CreateEvidence(s, hash, id, directory, extension, buffer)
    case Remove(id) => if Found(s, id) then s.(rows := s.rows[id := s.rows[id].(deleted := true)]) else s
    case Verify(_) => s
  }

  function Run(s: State, hash: Hash, steps: seq<Step>): State
    decreases |steps|
  {
    if steps == [] then s else Run(Next(s, hash, steps[0]), hash, steps[1..])
  }
}

module CustodySafety {
  import opened Common
  import opened CustodyModel

  // ---- comparing decoded hashes is comparing hashes ----

  lemma DigitValue(v: int)
    requires 0 <= v < 16
    ensures HexValue(HexDigit(v)) == Some(v)
  {
  }

  lemma PairDecodes(b: Byte, rest: string)
    ensures HexDecode(HexPair(b) + rest) == [b] + HexDecode(rest)
  {
    DigitValue(b / 16);
    DigitValue(b % 16);
    assert (HexPair(b) + rest)[2..] == rest;
  }

  lemma {:induction false} HexRoundTrip(data: Bytes)
    ensures HexDecode(HexEncode(data)) == data
    decreases |data|
  {
    if data != [] {
      PairDecodes(data[0], HexEncode(data[1..]));
      HexRoundTrip(data[1..]);
    }
  }

  /** Texts printed from hashes compare equal exactly if the hashes are. */
  lemma SameHashIsEquality(a: Bytes, b: Bytes)
    ensures SameHash(HexEncode(a), HexEncode(b)) <==> a == b
    ensures HexEncode(a) == HexEncode(b) <==> a == b
  {
    HexRoundTrip(a);
    HexRoundTrip(b);
  }

  lemma DigitIs(v: int)
    requires 0 <= v < 16
    ensures HexDigit(v) == "0123456789abcdef"[v]
  {
  }

  /** The text of a hash: for each byte its two hexadecimal digits, the higher first, in lower case. */
  lemma {:induction false} HexTextIs(data: Bytes, i: nat)
    requires i < |data|
    ensures |HexEncode(data)| == 2 * |data|
    ensures HexEncode(data)[2 * i] == "0123456789abcdef"[data[i] / 16]
    ensures HexEncode(data)[2 * i + 1] == "0123456789abcdef"[data[i] % 16]
    decreases |data|
  {
    var rest := data[1..];
    DigitIs(data[0] / 16);
    DigitIs(data[0] % 16);
    assert HexEncode(data) == [HexDigit(data[0] / 16), HexDigit(data[0] % 16)] + HexEncode(rest);
    hide HexEncode, HexDigit;
    if i > 0 {
      HexTextIs(rest, i - 1);
    } else if |data| > 1 {
      HexTextIs(rest, 0);
    } else {
      EmptyText(rest);
    }
  }

  lemma EmptyText(data: Bytes)
    requires data == []
    ensures HexEncode(data) == ""
  {
  }

  // ---- paths tell ids apart ----

  function AfterLast(s: string, c: char): string {
    if s == "" || s[|s| - 1] == c then "" else AfterLast(s[..|s| - 1], c) + [s[|s| - 1]]
  }

  function UpTo(s: string, c: char): string {
    if s == "" || s[0] == c then "" else [s[0]] + UpTo(s[1..], c)
  }

  function IdOfPath(path: string): string {
    UpTo(AfterLast(path, '/'), '.')
  }

  lemma {:induction false} AfterLastOf(front: string, name: string, c: char)
    requires Free(name, c)
    ensures AfterLast(front + [c] + name, c) == name
    decreases |name|
  {
    var s := front + [c] + name;
    if name == "" {
      assert s[|s| - 1] == c;
    } else {
      var shorter := name[..|name| - 1];
      AfterLastOf(front, shorter, c);
      assert s[..|s| - 1] == front + [c] + shorter;
      assert shorter + [name[|name| - 1]] == name;
    }
  }

  lemma {:induction false} UpToOf(name: string, rest: string, c: char)
    requires Free(name, c)
    ensures UpTo(name + [c] + rest, c) == name
    decreases |name|
  {
    var s := name + [c] + rest;
    if name != "" {
      UpToOf(name[1..], rest, c);
      assert s[1..] == name[1..] + [c] + rest;
    }
  }

  /** The id can be read off the path, whatever the date and the type. */
  lemma PathTellsId(directory: string, id: string, extension: string)
    requires GoodName(id, extension)
    ensures IdOfPath(StoragePath(directory, id, extension)) == id
  {
    var name := id + "." + extension;
    assert StoragePath(directory, id, extension) == directory + ['/'] + name;
    AfterLastOf(directory, name, '/');
    UpToOf(id, extension, '.');
    assert name == id + ['.'] + extension;
  }

  lemma PathParts(directory: string, id: string, extension: string)
    requires GoodName(id, extension)
    ensures var path, name := StoragePath(directory, id, extension), id + "." + extension;
            AfterLast(path, '/') == name && path == directory + (['/'] + name)
  {
    var name := id + "." + extension;
    AfterLastOf(directory, name, '/');
    assert StoragePath(directory, id, extension) == directory + ['/'] + name;
  }

  lemma EqualParts(a: string, b: string, c: string, d: string)
    requires a + b == c + d && |b| == |d|
    ensures a == c && b == d
  {
    assert a == (a + b)[..|a|] && c == (c + d)[..|c|];
    assert b == (a + b)[|a|..] && d == (c + d)[|c|..];
  }

  /** The same path is that of the same directory, id and extension. */
  lemma PathsDiffer(dir: string, id: string, ext: string, dir': string, id': string, ext': string)
    requires GoodName(id, ext) && GoodName(id', ext')
    requires StoragePath(dir, id, ext) == StoragePath(dir', id', ext')
    ensures dir == dir' && id == id' && ext == ext'
  {
    PathTellsId(dir, id, ext);
    PathTellsId(dir', id', ext');
    PathParts(dir, id, ext);
    PathParts(dir', id', ext');
    hide StoragePath, AfterLast, IdOfPath, GoodName;
    EqualParts(dir, ['/'] + (id + "." + ext), dir', ['/'] + (id' + "." + ext'));
    assert ext == (id + "." + ext)[|id| + 1..] && ext' == (id' + "." + ext')[|id'| + 1..];
  }

  // ---- the custody invariant ----

  ghost predicate InCustody(s: State, hash: Hash, id: string) {
    id in s.rows ==>
      && id in s.uploaded
      && IdOfPath(s.rows[id].storagePath) == id
      && s.rows[id].storagePath in s.disk
      && s.disk[s.rows[id].storagePath] == s.uploaded[id]
      && s.rows[id].hashSha256 == HexEncode(hash(s.uploaded[id]))
      && s.rows[id].sizeBytes == |s.uploaded[id]|
  }

  ghost predicate AllInCustody(s: State, hash: Hash) {
    forall id :: InCustody(s, hash, id)
  }

  lemma CustodyStep(s: State, hash: Hash, step: Step)
    requires AllInCustody(s, hash)
    ensures AllInCustody(Next(s, hash, step), hash)
  {
    if Enabled(s, step) && step.Create? {
      PathTellsId(step.directory, step.id, step.extension);
    }
    forall id ensures InCustody(Next(s, hash, step), hash, id) { assert InCustody(s, hash, id); }
  }

  lemma {:induction false} CustodyRun(s: State, hash: Hash, steps: seq<Step>)
    requires AllInCustody(s, hash)
    ensures AllInCustody(Run(s, hash, steps), hash)
    decreases |steps|
  {
    if steps != [] {
      CustodyStep(s, hash, steps[0]);
      CustodyRun(Next(s, hash, steps[0]), hash, steps[1..]);
    }
  }

  /** After any run, every evidence that is not deleted has its bytes on disk and verifies. */
  lemma EvidenceStaysValid(hash: Hash, steps: seq<Step>, id: string)
    ensures var s := Run(EMPTY, hash, steps);
            && (Found(s, id) <==> VerifyEvidence(s, hash, id) == Some(true))
            && (Found(s, id) ==> id in s.uploaded && s.disk[s.rows[id].storagePath] == s.uploaded[id])
  {
    CustodyRun(EMPTY, hash, steps);
    var s := Run(EMPTY, hash, steps);
    assert InCustody(s, hash, id);
    if Found(s, id) { SameHashIsEquality(hash(s.uploaded[id]), hash(s.uploaded[id])); }
  }

  lemma {:induction false} RunSplit(s: State, hash: Hash, steps: seq<Step>, step: Step)
    ensures Run(s, hash, steps + [step]) == Next(Run(s, hash, steps), hash, step)
    decreases |steps|
  {
    if steps == [] {
      assert [] + [step] == [step] && Run(s, hash, [step]) == Run(Next(s, hash, step), hash, []);
    } else {
      RunSplit(Next(s, hash, steps[0]), hash, steps[1..], step);
      assert (steps + [step])[1..] == steps[1..] + [step];
    }
  }

  /** The id has been used in a creation. */
  ghost predicate Created(steps: seq<Step>, id: string) {
    exists i :: 0 <= i < |steps| && steps[i].Create? && steps[i].id == id && GoodName(id, steps[i].extension)
  }

  /** The first creation with the id has not been followed by a removal. */
  ghost predicate Present(steps: seq<Step>, id: string) {
    steps != [] &&
    var front, last := steps[..|steps| - 1], steps[|steps| - 1];
    if last == Remove(id) then false
    else if last.Create? && last.id == id && GoodName(id, last.extension) && !Created(front, id) then true
    else Present(front, id)
  }

  lemma CreatedMore(steps: seq<Step>, step: Step, id: string)
    ensures Created(steps + [step], id) <==>
      Created(steps, id) || (step.Create? && step.id == id && GoodName(id, step.extension))
  {
    var more := steps + [step];
    if i :| 0 <= i < |steps| && steps[i].Create? && steps[i].id == id && GoodName(id, steps[i].extension) {
      assert more[i] == steps[i];
    }
    if step.Create? && step.id == id && GoodName(id, step.extension) { assert more[|steps|] == step; }
    if Created(more, id) && !Created(steps, id) {
      var i :| 0 <= i < |more| && more[i].Create? && more[i].id == id && GoodName(id, more[i].extension);
      assert i < |steps| ==> more[i] == steps[i];
    }
  }

  /** Which evidences there are after a run: those created and not removed since. */
  lemma {:induction false} FoundIffPresent(hash: Hash, steps: seq<Step>, id: string)
    ensures Found(Run(EMPTY, hash, steps), id) <==> Present(steps, id)
    ensures id in Run(EMPTY, hash, steps).rows <==> Created(steps, id)
    decreases |steps|
  {
    if steps != [] {
      var front, last := steps[..|steps| - 1], steps[|steps| - 1];
      assert steps == front + [last];
      FoundIffPresent(hash, front, id);
      RunSplit(EMPTY, hash, front, last);
      CreatedMore(front, last, id);
    }
  }

  /** With the disk changed by others, an evidence verifies exactly if its file still hashes the same. */
  lemma VerifiesIffSameHash(s: State, hash: Hash, id: string, disk: map<string, Bytes>)
    requires AllInCustody(s, hash) && Found(s, id) && s.rows[id].storagePath in disk
    ensures id in s.uploaded
    ensures VerifyEvidence(s.(disk := disk), hash, id) ==
              Some(hash(disk[s.rows[id].storagePath]) == hash(s.uploaded[id]))
  {
    assert InCustody(s, hash, id);
    SameHashIsEquality(hash(disk[s.rows[id].storagePath]), hash(s.uploaded[id]));
  }
}

/** The evidence service over its table and the disk. */
module EvidencesServices {
  import opened Common
  import opened CustodyModel

  class EvidencesService {
    const hash: Hash
    var rows: map<string, Row>
    var disk: map<string, Bytes>
    ghost var uploaded: map<string, Bytes>

    ghost function View(): State
      reads this
    {
      State(rows, disk, uploaded)
    }

    constructor (hash: Hash)
      ensures this.hash == hash && View() == EMPTY
    {
      this.hash := hash;
      rows, disk, uploaded := map[], map[], map[];
    }

    /** The part of create after the stream and the event, if named, were found; `id` is a fresh UUID. */
    method Create(id: string, directory: string, extension: string, buffer: Bytes)
      requires id !in rows && GoodName(id, extension)
      modifies this
      ensures View() == Next(old(View()), hash, CustodyModel.Create(id, directory, extension, buffer))
    {
      var digest := HexEncode(hash(buffer));
      var path := SaveFile(directory, id, extension, buffer);
      rows := rows[id := Row(path, digest, |buffer|, false)];
      uploaded := uploaded[id := buffer];
    }

    method SaveFile(directory: string, id: string, extension: string, buffer: Bytes) returns (path: string)
      modifies this`disk
      ensures path == StoragePath(directory, id, extension) && disk == old(disk)[path := buffer]
    {
      path := StoragePath(directory, id, extension);
      disk := disk[path := buffer];
    }

    method Remove(id: string) returns (found: bool)
      modifies this`rows
      ensures View() == Next(old(View()), hash, CustodyModel.Remove(id))
      ensures found == Found(old(View()), id)
    {
      found := id in rows && !rows[id].deleted;
      if found {
        rows := rows[id := rows[id].(deleted := true)];
      }
    }

    method VerifyIntegrity(id: string) returns (isValid: Option<bool>)
      ensures isValid == VerifyEvidence(View(), hash, id)
    {
      if id !in rows || rows[id].deleted || rows[id].storagePath !in disk {
        return None;
      }
      var computed := HexEncode(hash(disk[rows[id].storagePath]));
      var computedBuf, expectedBuf := HexDecode(computed), HexDecode(rows[id].hashSha256);
      var valid := false;
      if |computedBuf| == |expectedBuf| {
        valid := computedBuf == expectedBuf;
      }
      isValid := Some(valid);
    }
  }
}
