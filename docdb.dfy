/** The in-memory document database of `src/docdb.rs`: documents are named
    by 16-byte ids written as 32 hex digits, carry an embedding row, and are
    described by tab-separated records (parent, title, url) and id lists
    (introduction, condition and symptoms sections).

    Scores are exact reals: the database never holds NaN, so its scores are
    totally ordered, as `N32` makes them in the source. */
module DocDb {
  import opened Wrappers
  import opened Text
  import opened Hex

  type DocId = s: seq<byte> | |s| == 16 witness seq(16, _ => 0)

  /** `docdb::Error`, without the fetch failure of `get_document`, and
      without the I/O error that array reading carries. `ArrayReading` is
      the source's misspelled `ArrayRaeding`, spelled correctly here. */
  datatype Error = ArrayShape | ArrayReading | Id(HexError) | NotNan | Record(message: string)

  // ---------------------------------------------------------------------
  // Ids

  /** `decode_doc_id` as a value. */
  function DocIdFromHex(data: seq<byte>): Result<DocId, Error>
  {
    match DecodeToSlice(data, 16)
    case Failure(e) => Failure(Id(e))
    case Success(bytes) => Success(bytes)
  }

  /** `decode_doc_id`: decode into a zeroed 16-byte buffer, pair of digits
      by pair of digits. */
  method DecodeDocId(data: seq<byte>) returns (r: Result<DocId, Error>)
    ensures r == DocIdFromHex(data)
  {
    if |data| % 2 != 0 {
      return Failure(Id(OddLength));
    }
    if |data| / 2 != 16 {
      return Failure(Id(InvalidStringLength));
    }
    var id := new byte[16](_ => 0);
    for i := 0 to 16
      invariant forall k :: 0 <= k < 2 * i ==> IsHexDigit(data[k])
      invariant forall j :: 0 <= j < i ==> id[j] == 16 * DigitValue(data[2 * j]) + DigitValue(data[2 * j + 1])
    {
      if !IsHexDigit(data[2 * i]) {
        assert FirstNonHex(data, 0) == 2 * i;
        return Failure(Id(InvalidHexCharacter(data[2 * i], 2 * i)));
      }
      if !IsHexDigit(data[2 * i + 1]) {
        assert FirstNonHex(data, 0) == 2 * i + 1;
        return Failure(Id(InvalidHexCharacter(data[2 * i + 1], 2 * i + 1)));
      }
      id[i] := 16 * DigitValue(data[2 * i]) + DigitValue(data[2 * i + 1]);
    }
    assert FirstNonHex(data, 0) == 32;
    assert id[..] == DecodeToSlice(data, 16).value;
    r := Success(id[..]);
  }

  /** An id decodes exactly from 32 hex digits of either case. */
  lemma DocIdFromHexSucceeds(data: seq<byte>)
    ensures DocIdFromHex(data).Success? <==> |data| == 32 && forall k :: 0 <= k < |data| ==> IsHexDigit(data[k])
  {
    if |data| == 32 && forall k :: 0 <= k < |data| ==> IsHexDigit(data[k]) {
      assert FirstNonHex(data, 0) == 32;
    }
  }

  /** Decoding the bytes of `hex::encode(id)` gives back `id`. */
  lemma DocIdRoundTrip(id: DocId)
    ensures DocIdFromHex(Utf8Encode(Encode(id))) == Success(id)
  {
    EncodeDecode(id);
  }

  // ---------------------------------------------------------------------
  // Records

  /** The pieces that are not empty, in order. */
  function NonEmpty(pieces: seq<seq<byte>>): (r: seq<seq<byte>>)
    ensures forall k :: 0 <= k < |r| ==> r[k] != [] && r[k] in pieces
  {
    if pieces == [] then []
    else if pieces[0] == [] then NonEmpty(pieces[1..])
    else [pieces[0]] + NonEmpty(pieces[1..])
  }

  /** `split(|&x| x == 0x0a).filter(|x| !x.is_empty())`: the non-empty lines. */
  function NonEmptyLines(data: seq<byte>): (r: seq<seq<byte>>)
    ensures forall k :: 0 <= k < |r| ==> r[k] != [] && 0x0a !in r[k]
  {
    NonEmpty(Split(data, 0x0a))
  }

  lemma {:induction false} NonEmptyKeeps(pieces: seq<seq<byte>>)
    requires forall k :: 0 <= k < |pieces| ==> pieces[k] != []
    ensures NonEmpty(pieces) == pieces
  {
    if pieces != [] {
      NonEmptyKeeps(pieces[1..]);
    }
  }

  /** Non-empty newline-free lines joined with newlines read back as the
      same lines; no lines give the empty input. */
  lemma NonEmptyLinesOfJoin(lines: seq<seq<byte>>)
    requires forall k :: 0 <= k < |lines| ==> lines[k] != [] && 0x0a !in lines[k]
    ensures NonEmptyLines(Join(lines, [0x0a])) == lines
  {
    if lines == [] {
      assert Split([], 0x0a) == [[]];
    } else {
      SplitJoin(lines, 0x0a);
      NonEmptyKeeps(lines);
    }
  }

  /** The three tables of two-column records. */
  datatype Table = Parents | Titles | Urls

  function TableName(table: Table): string
  {
    match table
    case Parents => "parent"
    case Titles => "title"
    case Urls => "url"
  }

  /** `splitn(2, |&x| x == 0x09)` collected into a pair: the bytes before the
      first tab and all bytes after it. */
  function Columns(line: seq<byte>, table: Table): Result<(seq<byte>, seq<byte>), Error>
  {
    if 0x09 in line then
      var i := IndexOf(line, 0x09);
      Success((line[..i], line[i + 1..]))
    else
      Failure(Record(TableName(table) + " line lacks two columns"))
  }

  /** A line is cut at its first tab only, so later tabs stay in the value;
      a line without a tab is a record error. */
  lemma ColumnsAtFirstTab(key: seq<byte>, value: seq<byte>, table: Table)
    requires 0x09 !in key
    ensures Columns(key + [0x09] + value, table) == Success((key, value))
    ensures Columns(key, table) == Failure(Record(TableName(table) + " line lacks two columns"))
  {
    IndexOfConcat(key, 0x09, value);
    var line := key + [0x09] + value;
    assert line[..|key|] == key;
    assert line[|key| + 1..] == value;
  }

  /** One record: its columns, then its id, then its value. */
  function ParseRecord<V>(line: seq<byte>, table: Table, value: seq<byte> -> Result<V, Error>): Result<(DocId, V), Error>
  {
    var (key, rest) :- Columns(line, table);
    var id :- DocIdFromHex(key);
    var v :- value(rest);
    Success((id, v))
  }

  /** `collect::<Result<HashMap<_, _>>>()` over the records: stop at the
      first bad line; a later record for an id replaces an earlier one. */
  function Collect<V>(lines: seq<seq<byte>>, table: Table, value: seq<byte> -> Result<V, Error>, acc: map<DocId, V>): Result<map<DocId, V>, Error>
    decreases |lines|
  {
    if lines == [] then Success(acc)
    else
      var (id, v) :- ParseRecord(lines[0], table, value);
      Collect(lines[1..], table, value, acc[id := v])
  }

  /** The record for `id` at line `k` is the last one for `id`. */
  ghost predicate LastFor<V>(lines: seq<seq<byte>>, table: Table, value: seq<byte> -> Result<V, Error>, id: DocId, k: nat)
  {
    && k < |lines|
    && ParseRecord(lines[k], table, value).Success?
    && ParseRecord(lines[k], table, value).value.0 == id
    && forall j :: k < j < |lines| ==> !(ParseRecord(lines[j], table, value).Success? && ParseRecord(lines[j], table, value).value.0 == id)
  }

  /** Collecting succeeds exactly when every line parses. */
  lemma {:induction false} CollectSucceeds<V>(lines: seq<seq<byte>>, table: Table, value: seq<byte> -> Result<V, Error>, acc: map<DocId, V>)
    ensures Collect(lines, table, value, acc).Success? <==>
      forall k :: 0 <= k < |lines| ==> ParseRecord(lines[k], table, value).Success?
    decreases |lines|
  {
    if lines != [] {
      var first := ParseRecord(lines[0], table, value);
      if first.Success? {
        CollectSucceeds(lines[1..], table, value, acc[first.value.0 := first.value.1]);
        assert forall k :: 1 <= k < |lines| ==> lines[k] == lines[1..][k - 1];
      }
    }
  }

  /** Lines that do not name `id` leave its entry alone. */
  lemma {:induction false} CollectKeeps<V>(lines: seq<seq<byte>>, table: Table, value: seq<byte> -> Result<V, Error>, acc: map<DocId, V>, id: DocId)
    requires Collect(lines, table, value, acc).Success?
    requires forall j :: 0 <= j < |lines| ==> !(ParseRecord(lines[j], table, value).Success? && ParseRecord(lines[j], table, value).value.0 == id)
    ensures id in Collect(lines, table, value, acc).value <==> id in acc
    ensures id in acc ==> Collect(lines, table, value, acc).value[id] == acc[id]
    decreases |lines|
  {
    if lines != [] {
      var first := ParseRecord(lines[0], table, value).value;
      assert forall j :: 0 <= j < |lines| - 1 ==> lines[1..][j] == lines[j + 1];
      CollectKeeps(lines[1..], table, value, acc[first.0 := first.1], id);
    }
  }

  /** The last record for an id decides its entry. */
  lemma {:induction false} CollectLastWins<V>(lines: seq<seq<byte>>, table: Table, value: seq<byte> -> Result<V, Error>, acc: map<DocId, V>, id: DocId, k: nat)
    requires Collect(lines, table, value, acc).Success?
    requires LastFor(lines, table, value, id, k)
    ensures id in Collect(lines, table, value, acc).value
    ensures Collect(lines, table, value, acc).value[id] == ParseRecord(lines[k], table, value).value.1
    decreases |lines|
  {
    var first := ParseRecord(lines[0], table, value).value;
    var acc' := acc[first.0 := first.1];
    assert forall j :: 0 <= j < |lines| - 1 ==> lines[1..][j] == lines[j + 1];
    if k == 0 {
      CollectKeeps(lines[1..], table, value, acc', id);
    } else {
      CollectLastWins(lines[1..], table, value, acc', id, k - 1);
    }
  }

  /** An id list: every non-empty line decoded, failing at the first bad one. */
  function DecodeAll(lines: seq<seq<byte>>): (r: Result<seq<DocId>, Error>)
    ensures r.Success? ==> |r.value| == |lines|
  {
    if lines == [] then Success([])
    else
      var id :- DocIdFromHex(lines[0]);
      var ids :- DecodeAll(lines[1..]);
      Success([id] + ids)
  }

  /** An id list succeeds exactly when every line is an id, and then lists
      the ids line by line. */
  lemma {:induction false} DecodeAllLines(lines: seq<seq<byte>>)
    ensures DecodeAll(lines).Success? <==> forall k :: 0 <= k < |lines| ==> DocIdFromHex(lines[k]).Success?
    ensures DecodeAll(lines).Success? ==>
      forall k :: 0 <= k < |lines| ==> DecodeAll(lines).value[k] == DocIdFromHex(lines[k]).value
  {
    if lines != [] {
      DecodeAllLines(lines[1..]);
      assert forall k :: 1 <= k < |lines| ==> lines[k] == lines[1..][k - 1];
    }
  }

  function ParseIds(data: seq<byte>): Result<seq<DocId>, Error>
  {
    DecodeAll(NonEmptyLines(data))
  }

  function ParseIdSet(data: seq<byte>): Result<set<DocId>, Error>
  {
    var ids :- ParseIds(data);
    Success(set id | id in ids)
  }

  function ParseParents(data: seq<byte>): Result<map<DocId, DocId>, Error>
  {
    Collect(NonEmptyLines(data), Parents, DocIdFromHex, map[])
  }

  /** `String::from_utf8` on a title or url value, with the table's message. */
  function TextValue(table: Table, utf8: seq<byte> -> Option<string>): seq<byte> -> Result<string, Error>
  {
    (bytes: seq<byte>) =>
      match utf8(bytes)
      case Some(s) => Success(s)
      case None => Failure(Record(TableName(table) + " line isn't a valid string"))
  }

  function ParseTexts(data: seq<byte>, table: Table, utf8: seq<byte> -> Option<string>): Result<map<DocId, string>, Error>
  {
    Collect(NonEmptyLines(data), table, TextValue(table, utf8), map[])
  }

  // ---------------------------------------------------------------------
  // Arrays

  /** A two-dimensional array, row by row. */
  datatype Matrix<T> = Matrix(width: nat, rows: seq<seq<T>>)

  ghost predicate Rectangular<T>(m: Matrix<T>) {
    forall i :: 0 <= i < |m.rows| ==> |m.rows[i]| == m.width
  }

  datatype F32 = NaN | Num(value: real)

  /** An `.npy` resource after parsing: a matrix, a header that could not be
      read, or data that is not a two-dimensional array of the stated shape. */
  datatype Npy = Parsed(matrix: Matrix<F32>) | Unreadable | NotMatrix

  predicate HasNaN(m: Matrix<F32>) {
    exists i, j :: 0 <= i < |m.rows| && 0 <= j < |m.rows[i]| && m.rows[i][j].NaN?
  }

  /** The matrix read from a resource, refusing NaN. */
  function ReadMatrix(npy: Npy): (r: Result<Matrix<real>, Error>)
    requires npy.Parsed? ==> Rectangular(npy.matrix)
    ensures r.Success? ==>
      && Rectangular(r.value) && npy.Parsed?
      && r.value.width == npy.matrix.width && |r.value.rows| == |npy.matrix.rows|
      && forall i, j :: 0 <= i < |r.value.rows| && 0 <= j < r.value.width ==> npy.matrix.rows[i][j] == Num(r.value.rows[i][j])
  {
    match npy
    case Unreadable => Failure(ArrayReading)
    case NotMatrix => Failure(ArrayShape)
    case Parsed(m) =>
      if HasNaN(m) then Failure(NotNan)
      else Success(Matrix(m.width, seq(|m.rows|, i requires 0 <= i < |m.rows| => seq(|m.rows[i]|, j requires 0 <= j < |m.rows[i]| => m.rows[i][j].value))))
  }

  // ---------------------------------------------------------------------
  // The database

  datatype DocDb = DocDb(
    origin: string,
    embeddings: Matrix<real>,
    pcaMapping: Option<Matrix<real>>,
    ids: seq<DocId>,
    parents: map<DocId, DocId>,
    titles: map<DocId, string>,
    urls: map<DocId, string>,
    isIntroduction: set<DocId>,
    isCondition: set<DocId>,
    isSymptoms: set<DocId>)

  /** One id per embedding row, and rectangular arrays. */
  ghost predicate Valid(db: DocDb) {
    && Rectangular(db.embeddings)
    && |db.ids| == |db.embeddings.rows|
    && (db.pcaMapping.Some? ==> Rectangular(db.pcaMapping.value))
  }

  ghost predicate Readable(npy: Npy) {
    npy.Parsed? ==> Rectangular(npy.matrix)
  }

  /** `DocDb::new`: each resource in turn, the first failure winning; the
      title and url bytes go through `utf8`, `String::from_utf8`. */
  function New(
    origin: string, embeddings: Npy, pcaMapping: Option<Npy>, embeddingsId: seq<byte>,
    parents: seq<byte>, titles: seq<byte>, urls: seq<byte>,
    isIntroduction: seq<byte>, isCondition: seq<byte>, isSymptoms: seq<byte>,
    utf8: seq<byte> -> Option<string>): (r: Result<DocDb, Error>)
    requires Readable(embeddings) && (pcaMapping.Some? ==> Readable(pcaMapping.value))
    ensures r.Success? ==> Valid(r.value)
  {
    var e :- ReadMatrix(embeddings);
    var p :- if pcaMapping.None? then Success(None)
             else var m :- ReadMatrix(pcaMapping.value); Success(Some(m));
    var ids :- ParseIds(embeddingsId);
    if |ids| != |e.rows| then Failure(ArrayShape)
    else
      var parentMap :- ParseParents(parents);
      var titleMap :- ParseTexts(titles, Titles, utf8);
      var urlMap :- ParseTexts(urls, Urls, utf8);
      var intro :- ParseIdSet(isIntroduction);
      var condition :- ParseIdSet(isCondition);
      var symptoms :- ParseIdSet(isSymptoms);
      Success(DocDb(origin, e, p, ids, parentMap, titleMap, urlMap, intro, condition, symptoms))
  }

  /** The errors of `new` that are not record errors: an unreadable or
      misshapen array, NaN in either array, and an id count that differs
      from the embedding row count. */
  lemma NewArrayErrors(
    origin: string, embeddings: Npy, pcaMapping: Option<Npy>, embeddingsId: seq<byte>,
    parents: seq<byte>, titles: seq<byte>, urls: seq<byte>,
    isIntroduction: seq<byte>, isCondition: seq<byte>, isSymptoms: seq<byte>,
    utf8: seq<byte> -> Option<string>)
    requires Readable(embeddings) && (pcaMapping.Some? ==> Readable(pcaMapping.value))
    ensures var r := New(origin, embeddings, pcaMapping, embeddingsId, parents, titles, urls, isIntroduction, isCondition, isSymptoms, utf8);
      && (embeddings.Unreadable? ==> r == Failure(ArrayReading))
      && (embeddings.NotMatrix? ==> r == Failure(ArrayShape))
      && (embeddings.Parsed? && HasNaN(embeddings.matrix) ==> r == Failure(NotNan))
      && (embeddings.Parsed? && !HasNaN(embeddings.matrix) && pcaMapping.Some? && pcaMapping.value.Parsed? && HasNaN(pcaMapping.value.matrix) ==> r == Failure(NotNan))
      && ((&& ReadMatrix(embeddings).Success?
           && (pcaMapping.Some? ==> ReadMatrix(pcaMapping.value).Success?)
           && ParseIds(embeddingsId).Success?
           && |ParseIds(embeddingsId).value| != |embeddings.matrix.rows|)
          ==> r == Failure(ArrayShape))
  {
  }

  /** `new` succeeds exactly when every resource reads and the id count
      matches, and then holds what each resource says. */
  lemma NewSucceeds(
    origin: string, embeddings: Npy, pcaMapping: Option<Npy>, embeddingsId: seq<byte>,
    parents: seq<byte>, titles: seq<byte>, urls: seq<byte>,
    isIntroduction: seq<byte>, isCondition: seq<byte>, isSymptoms: seq<byte>,
    utf8: seq<byte> -> Option<string>)
    requires Readable(embeddings) && (pcaMapping.Some? ==> Readable(pcaMapping.value))
    ensures var r := New(origin, embeddings, pcaMapping, embeddingsId, parents, titles, urls, isIntroduction, isCondition, isSymptoms, utf8);
      r.Success? <==>
        && ReadMatrix(embeddings).Success?
        && (pcaMapping.Some? ==> ReadMatrix(pcaMapping.value).Success?)
        && ParseIds(embeddingsId).Success?
        && |ParseIds(embeddingsId).value| == |embeddings.matrix.rows|
        && ParseParents(parents).Success?
        && ParseTexts(titles, Titles, utf8).Success?
        && ParseTexts(urls, Urls, utf8).Success?
        && ParseIdSet(isIntroduction).Success?
        && ParseIdSet(isCondition).Success?
        && ParseIdSet(isSymptoms).Success?
    ensures var r := New(origin, embeddings, pcaMapping, embeddingsId, parents, titles, urls, isIntroduction, isCondition, isSymptoms, utf8);
      r.Success? ==>
        && r.value.origin == origin
        && r.value.ids == ParseIds(embeddingsId).value
        && r.value.parents == ParseParents(parents).value
        && r.value.titles == ParseTexts(titles, Titles, utf8).value
        && r.value.urls == ParseTexts(urls, Urls, utf8).value
        && r.value.isIntroduction == ParseIdSet(isIntroduction).value
        && r.value.isCondition == ParseIdSet(isCondition).value
        && r.value.isSymptoms == ParseIdSet(isSymptoms).value
  {
  }

  /** A stored title is the value of the last title record for its id. */
  lemma TitleIsLastRecord(titles: seq<byte>, utf8: seq<byte> -> Option<string>, id: DocId, k: nat)
    requires ParseTexts(titles, Titles, utf8).Success?
    requires LastFor(NonEmptyLines(titles), Titles, TextValue(Titles, utf8), id, k)
    ensures id in ParseTexts(titles, Titles, utf8).value
    ensures ParseTexts(titles, Titles, utf8).value[id] == ParseRecord(NonEmptyLines(titles)[k], Titles, TextValue(Titles, utf8)).value.1
  {
    CollectLastWins(NonEmptyLines(titles), Titles, TextValue(Titles, utf8), map[], id, k);
  }

  /** Title and url bytes that are not text fail the whole table with the
      table's message. */
  lemma TextRecordNotUtf8(key: seq<byte>, value: seq<byte>, table: Table, utf8: seq<byte> -> Option<string>)
    requires 0x09 !in key && DocIdFromHex(key).Success? && utf8(value).None?
    ensures ParseRecord(key + [0x09] + value, table, TextValue(table, utf8)) == Failure(Record(TableName(table) + " line isn't a valid string"))
  {
    ColumnsAtFirstTab(key, value, table);
  }

  // ---------------------------------------------------------------------
  // Lookups

  /** `get_title` */
  function GetTitle(db: DocDb, id: DocId): (r: Option<string>)
    ensures r.Some? <==> id in db.titles
  {
    if id in db.titles then Some(db.titles[id]) else None
  }

  /** `get_url` */
  function GetUrl(db: DocDb, id: DocId): (r: Option<string>)
    ensures r.Some? <==> id in db.urls
  {
    if id in db.urls then Some(db.urls[id]) else None
  }

  /** `get_parent` */
  function GetParent(db: DocDb, id: DocId): (r: Option<DocId>)
    ensures r.Some? <==> id in db.parents
  {
    if id in db.parents then Some(db.parents[id]) else None
  }

  /** The id, its parent, its grandparent and so on, taking at most `fuel`
      parent steps; `None` when the chain is longer. */
  function Chain(parents: map<DocId, DocId>, id: DocId, fuel: nat): (r: Option<seq<DocId>>)
    decreases fuel
    ensures r.Some? ==> |r.value| >= 1 && r.value[0] == id && r.value[|r.value| - 1] !in parents
    ensures r.Some? ==> forall k :: 0 <= k < |r.value| - 1 ==> r.value[k] in parents && parents[r.value[k]] == r.value[k + 1]
  {
    if id !in parents then Some([id])
    else if fuel == 0 then None
    else
      match Chain(parents, parents[id], fuel - 1)
      case None => None
      case Some(rest) => Some([id] + rest)
  }

  /** More fuel does not change a chain that ended. */
  lemma {:induction false} ChainMoreFuel(parents: map<DocId, DocId>, id: DocId, fuel: nat, more: nat)
    requires Chain(parents, id, fuel).Some? && fuel <= more
    ensures Chain(parents, id, more) == Chain(parents, id, fuel)
    decreases fuel
  {
    if id in parents {
      ChainMoreFuel(parents, parents[id], fuel - 1, more - 1);
    }
  }

  /** The walk from `id` up the parent links reaches an id without a
      parent. A walk that ends meets each parent key at most once, so it
      ends within `|parents|` steps or never. */
  ghost predicate ChainEnds(parents: map<DocId, DocId>, id: DocId) {
    Chain(parents, id, |parents|).Some?
  }

  // ---------------------------------------------------------------------
  // Similarity

  function Dot(u: seq<real>, v: seq<real>): real
    requires |u| == |v|
  {
    if u == [] then 0.0 else u[0] * v[0] + Dot(u[1..], v[1..])
  }

  /** A row with its score. */
  datatype Scored = Scored(score: real, row: nat)

  /** The order the stable descending sort leaves behind: higher score
      first, and among equal scores the earlier row first. */
  predicate Precedes(a: Scored, b: Scored) {
    a.score > b.score || (a.score == b.score && a.row <= b.row)
  }

  predicate SortedBy(s: seq<Scored>) {
    forall i, j :: 0 <= i < j < |s| ==> Precedes(s[i], s[j])
  }

  predicate Passes(filter: Option<set<DocId>>, id: DocId) {
    filter.None? || id in filter.value
  }

  /** The rows before `i` that pass the filter, with their scores, in row
      order. */
  function Eligible(db: DocDb, query: seq<real>, filter: Option<set<DocId>>, i: nat): seq<Scored>
    requires Valid(db) && |query| == db.embeddings.width && i <= |db.ids|
  {
    if i == 0 then []
    else
      Eligible(db, query, filter, i - 1)
      + if Passes(filter, db.ids[i - 1]) then [Scored(Dot(db.embeddings.rows[i - 1], query), i - 1)] else []
  }

  /** The eligible rows are exactly the rows that pass the filter, each with
      its score. */
  lemma {:induction false} EligibleMembers(db: DocDb, query: seq<real>, filter: Option<set<DocId>>, i: nat, e: Scored)
    requires Valid(db) && |query| == db.embeddings.width && i <= |db.ids|
    ensures e in Eligible(db, query, filter, i) <==>
      e.row < i && Passes(filter, db.ids[e.row]) && e.score == Dot(db.embeddings.rows[e.row], query)
  {
    if i > 0 {
      EligibleMembers(db, query, filter, i - 1, e);
    }
  }

  /** `x` put into the sorted `s` before the first element it precedes. */
  function Insert(x: Scored, s: seq<Scored>): (r: seq<Scored>)
    ensures multiset(r) == multiset(s) + multiset{x} && |r| == |s| + 1
  {
    if s == [] || Precedes(x, s[0]) then [x] + s
    else
      assert s == [s[0]] + s[1..];
      [s[0]] + Insert(x, s[1..])
  }

  lemma {:induction false} InsertSorted(x: Scored, s: seq<Scored>)
    requires SortedBy(s)
    ensures SortedBy(Insert(x, s))
  {
    if s != [] && !Precedes(x, s[0]) {
      InsertSorted(x, s[1..]);
      var r := Insert(x, s[1..]);
      forall k | 0 <= k < |r| ensures Precedes(s[0], r[k]) {
        assert r[k] in multiset(r);
      }
    }
  }

  /** The reference ranking: the sorted permutation by `Precedes`. */
  function Ranking(s: seq<Scored>): (r: seq<Scored>)
    ensures SortedBy(r) && multiset(r) == multiset(s) && |r| == |s|
  {
    if s == [] then []
    else
      var rest := Ranking(s[1..]);
      InsertSorted(s[0], rest);
      assert s == [s[0]] + s[1..];
      Insert(s[0], rest)
  }

  /** `Precedes` is a total order, so a sorted permutation is unique: any
      stable descending sort of the eligible rows gives `Ranking`. */
  lemma {:induction false} SortedUnique(a: seq<Scored>, b: seq<Scored>)
    requires SortedBy(a) && SortedBy(b) && multiset(a) == multiset(b)
    ensures a == b
    decreases |a|
  {
    assert |a| == |multiset(a)| == |b|;
    if a != [] {
      FirstPrecedes(a, b[0]);
      FirstPrecedes(b, a[0]);
      assert a[0] == b[0];
      TailMultiset(a);
      TailMultiset(b);
      SortedUnique(a[1..], b[1..]);
      assert a == [a[0]] + a[1..] && b == [b[0]] + b[1..];
    }
  }

  /** The head of a sorted sequence precedes each of its elements. */
  lemma FirstPrecedes(s: seq<Scored>, x: Scored)
    requires SortedBy(s) && x in multiset(s)
    ensures Precedes(s[0], x)
  {
    var j :| 0 <= j < |s| && s[j] == x;
  }

  lemma TailMultiset(s: seq<Scored>)
    requires s != []
    ensures multiset(s[1..]) == multiset(s) - multiset{s[0]}
  {
    assert s == [s[0]] + s[1..];
  }

  function Min(a: nat, b: nat): nat {
    if a < b then a else b
  }

  /** The first `n` rows of the ranking. */
  function TopRanked(db: DocDb, query: seq<real>, n: nat, filter: Option<set<DocId>>): (r: seq<Scored>)
    requires Valid(db) && |query| == db.embeddings.width
    ensures forall k :: 0 <= k < |r| ==> r[k].row < |db.ids|
  {
    var ranked := Ranking(Eligible(db, query, filter, |db.ids|));
    forall k | 0 <= k < |ranked|
      ensures ranked[k].row < |db.ids|
    {
      assert ranked[k] in multiset(ranked);
      EligibleMembers(db, query, filter, |db.ids|, ranked[k]);
    }
    ranked[..Min(n, |ranked|)]
  }

  /** What `get_similar` returns: the ids of the first `n` ranked rows. */
  function TopIds(db: DocDb, query: seq<real>, n: nat, filter: Option<set<DocId>>): seq<DocId>
    requires Valid(db) && |query| == db.embeddings.width
  {
    var top := TopRanked(db, query, n, filter);
    seq(|top|, k requires 0 <= k < |top| => db.ids[top[k].row])
  }

  /** `get_similar` returns `min(n, eligible)` ids, each that of its ranked
      row. */
  lemma TopIdsSize(db: DocDb, query: seq<real>, n: nat, filter: Option<set<DocId>>)
    requires Valid(db) && |query| == db.embeddings.width
    ensures var top := TopRanked(db, query, n, filter);
      && |top| == Min(n, |Eligible(db, query, filter, |db.ids|)|)
      && |TopIds(db, query, n, filter)| == |top|
      && forall k :: 0 <= k < |top| ==> TopIds(db, query, n, filter)[k] == db.ids[top[k].row]
  {
  }

  /** Every row returned passes the filter and carries its own score. */
  lemma TopRankedEligible(db: DocDb, query: seq<real>, n: nat, filter: Option<set<DocId>>)
    requires Valid(db) && |query| == db.embeddings.width
    ensures var top := TopRanked(db, query, n, filter);
      forall k :: 0 <= k < |top| ==>
        Passes(filter, db.ids[top[k].row]) && top[k].score == Dot(db.embeddings.rows[top[k].row], query)
  {
    var ranked := Ranking(Eligible(db, query, filter, |db.ids|));
    var top := TopRanked(db, query, n, filter);
    forall k | 0 <= k < |top|
      ensures Passes(filter, db.ids[top[k].row]) && top[k].score == Dot(db.embeddings.rows[top[k].row], query)
    {
      assert top[k] == ranked[k];
      assert ranked[k] in multiset(ranked);
      EligibleMembers(db, query, filter, |db.ids|, top[k]);
    }
  }

  /** The rows returned are in non-increasing score order, equal scores in
      row order (the sort is stable). */
  lemma TopRankedOrdered(db: DocDb, query: seq<real>, n: nat, filter: Option<set<DocId>>)
    requires Valid(db) && |query| == db.embeddings.width
    ensures var top := TopRanked(db, query, n, filter);
      forall k, l :: 0 <= k < l < |top| ==>
        top[k].score > top[l].score || (top[k].score == top[l].score && top[k].row < top[l].row)
  {
    var eligible := Eligible(db, query, filter, |db.ids|);
    var top := TopRanked(db, query, n, filter);
    EligibleDistinct(db, query, filter, |db.ids|);
    forall k, l | 0 <= k < l < |top|
      ensures top[k].score > top[l].score || (top[k].score == top[l].score && top[k].row < top[l].row)
    {
      RankingDistinct(eligible, k, l);
    }
  }

  /** No eligible row left out scores above a row returned. */
  lemma TopRankedIsTop(db: DocDb, query: seq<real>, n: nat, filter: Option<set<DocId>>)
    requires Valid(db) && |query| == db.embeddings.width
    ensures var top := TopRanked(db, query, n, filter);
      forall e, k :: e in Eligible(db, query, filter, |db.ids|) && e !in top && 0 <= k < |top| ==> top[k].score >= e.score
  {
    var eligible := Eligible(db, query, filter, |db.ids|);
    var ranked := Ranking(eligible);
    var top := TopRanked(db, query, n, filter);
    assert top == ranked[..|top|];
    forall e, k | e in eligible && e !in top && 0 <= k < |top|
      ensures top[k].score >= e.score
    {
      assert e in multiset(ranked);
      var p :| 0 <= p < |ranked| && ranked[p] == e;
      assert p >= |top|;
      assert Precedes(ranked[k], ranked[p]);
    }
  }

  /** No row is eligible twice. */
  lemma {:induction false} EligibleDistinct(db: DocDb, query: seq<real>, filter: Option<set<DocId>>, i: nat)
    requires Valid(db) && |query| == db.embeddings.width && i <= |db.ids|
    ensures Distinct(Eligible(db, query, filter, i))
  {
    if i > 0 {
      EligibleDistinct(db, query, filter, i - 1);
      var before := Eligible(db, query, filter, i - 1);
      if Passes(filter, db.ids[i - 1]) {
        EligibleRowsBelow(db, query, filter, i - 1);
        DistinctSnoc(before, Scored(Dot(db.embeddings.rows[i - 1], query), i - 1));
      } else {
        assert before + [] == before;
      }
    }
  }

  lemma {:induction false} EligibleRowsBelow(db: DocDb, query: seq<real>, filter: Option<set<DocId>>, i: nat)
    requires Valid(db) && |query| == db.embeddings.width && i <= |db.ids|
    ensures forall e :: e in Eligible(db, query, filter, i) ==> e.row < i
  {
    if i > 0 {
      EligibleRowsBelow(db, query, filter, i - 1);
    }
  }

  lemma DistinctSnoc(s: seq<Scored>, x: Scored)
    requires Distinct(s) && x !in s
    ensures Distinct(s + [x])
  {
    assert multiset(s + [x]) == multiset(s) + multiset{x};
  }

  /** Each element occurs once. */
  ghost predicate Distinct(s: seq<Scored>) {
    forall e :: e in multiset(s) ==> multiset(s)[e] == 1
  }

  lemma DistinctAt(s: seq<Scored>, k: nat, l: nat)
    requires Distinct(s) && k < l < |s|
    ensures s[k] != s[l]
  {
    assert s == s[..l] + s[l..];
    assert multiset(s) == multiset(s[..l]) + multiset(s[l..]);
    assert multiset(s)[s[l]] == multiset(s[..l])[s[l]] + multiset(s[l..])[s[l]];
    assert s[l] in multiset(s[l..]);
    assert s[l] !in multiset(s[..l]);
    assert s[k] in s[..l];
  }

  /** A ranking of distinct rows ranks strictly. */
  lemma RankingDistinct(s: seq<Scored>, k: nat, l: nat)
    requires Distinct(s)
    requires k < l < |Ranking(s)|
    ensures var r := Ranking(s); r[k].score > r[l].score || (r[k].score == r[l].score && r[k].row < r[l].row)
  {
    var r := Ranking(s);
    DistinctAt(r, k, l);
  }

  /** Nothing asked, nothing returned. */
  lemma TopIdsZero(db: DocDb, query: seq<real>, filter: Option<set<DocId>>)
    requires Valid(db) && |query| == db.embeddings.width
    ensures TopIds(db, query, 0, filter) == []
  {
  }

  /** Moving element `i` of `o` back to `j`. */
  function Moved(o: seq<Scored>, i: nat, j: nat): seq<Scored>
    requires j <= i < |o|
  {
    o[..j] + [o[i]] + o[j..i] + o[i + 1..]
  }

  /** Moving `o[i]` to just after the last element that precedes it keeps
      the prefix sorted. */
  lemma MovedSorted(o: seq<Scored>, i: nat, j: nat)
    requires j <= i < |o| && SortedBy(o[..i])
    requires j == 0 || Precedes(o[j - 1], o[i])
    requires forall q :: j <= q < i ==> Precedes(o[i], o[q])
    ensures SortedBy(Moved(o, i, j)[..i + 1])
  {
    var r := Moved(o, i, j)[..i + 1];
    assert r == o[..j] + [o[i]] + o[j..i];
    forall p, q | 0 <= p < q < |r| ensures Precedes(r[p], r[q]) {
      if p < j && q == j {
        assert Precedes(o[p], o[j - 1]) || p == j - 1;
      }
    }
  }

  /** Moving an element keeps the multiset and what follows `i`. */
  lemma MovedSame(o: seq<Scored>, i: nat, j: nat)
    requires j <= i < |o|
    ensures multiset(Moved(o, i, j)) == multiset(o)
    ensures Moved(o, i, j)[i + 1..] == o[i + 1..]
  {
    assert o == o[..j] + o[j..i] + [o[i]] + o[i + 1..];
  }

  /** The element-wise account of a move. */
  lemma Spliced(o: seq<Scored>, t: seq<Scored>, i: nat, j: nat)
    requires j <= i < |o| == |t|
    requires forall k :: 0 <= k < j ==> t[k] == o[k]
    requires t[j] == o[i]
    requires forall k :: j < k <= i ==> t[k] == o[k - 1]
    requires forall k :: i < k < |t| ==> t[k] == o[k]
    ensures t == Moved(o, i, j)
  {
  }

  /** Shift the elements before `i` that `a[i]` must pass one place up, and
      put `a[i]` in the gap. */
  method ShiftBack(a: array<Scored>, i: nat) returns (j: nat)
    requires i < a.Length
    modifies a
    ensures j <= i && a[..] == Moved(old(a[..]), i, j)
    ensures j == 0 || Precedes(old(a[j - 1]), old(a[i]))
    ensures forall q :: j <= q < i ==> Precedes(old(a[i]), old(a[q]))
  {
    ghost var o := a[..];
    var x := a[i];
    j := i;
    while j > 0 && !Precedes(a[j - 1], x)
      invariant 0 <= j <= i
      invariant forall k :: 0 <= k < j ==> a[k] == o[k]
      invariant forall k :: j < k <= i ==> a[k] == o[k - 1]
      invariant forall k :: i < k < a.Length ==> a[k] == o[k]
      invariant forall q :: j <= q < i ==> Precedes(x, o[q])
      decreases j
    {
      a[j] := a[j - 1];
      j := j - 1;
    }
    a[j] := x;
    Spliced(o, a[..], i, j);
  }

  /** One pass of insertion sort: sink `a[i]` into the sorted `a[..i]`. */
  method Sink(a: array<Scored>, i: nat)
    requires i < a.Length && SortedBy(a[..i])
    modifies a
    ensures SortedBy(a[..i + 1])
    ensures multiset(a[..]) == multiset(old(a[..]))
    ensures a[i + 1..] == old(a[i + 1..])
  {
    ghost var o := a[..];
    var j := ShiftBack(a, i);
    MovedSame(o, i, j);
    assert o[..i] == old(a[..i]);
    MovedSorted(o, i, j);
  }

  /** `sort_by(|(x, _), (y, _)| y.cmp(x))`: a stable sort, highest score first. */
  method SortByScore(a: array<Scored>)
    modifies a
    ensures SortedBy(a[..])
    ensures multiset(a[..]) == multiset(old(a[..]))
  {
    var i := 0;
    while i < a.Length
      invariant 0 <= i <= a.Length
      invariant SortedBy(a[..i])
      invariant multiset(a[..]) == multiset(old(a[..]))
    {
      Sink(a, i);
      i := i + 1;
    }
    assert a[..a.Length] == a[..];
  }

  /** The scoring half of `get_similar`: each row's score against the
      query, for the rows that pass the filter. */
  method ScoreRows(db: DocDb, query: seq<real>, filter: Option<set<DocId>>) returns (similarities: seq<Scored>)
    requires Valid(db) && |query| == db.embeddings.width
    ensures similarities == Eligible(db, query, filter, |db.ids|)
  {
    similarities := [];
    var i := 0;
    while i < |db.ids|
      invariant i <= |db.ids|
      invariant similarities == Eligible(db, query, filter, i)
    {
      if filter.None? || db.ids[i] in filter.value {
        similarities := similarities + [Scored(Dot(db.embeddings.rows[i], query), i)];
      }
      i := i + 1;
    }
  }

  /** The sorting half of `get_similar`: the scored rows copied into a
      buffer and sorted in place. */
  method SortScores(similarities: seq<Scored>) returns (sorted: seq<Scored>)
    ensures sorted == Ranking(similarities)
  {
    var a := new Scored[|similarities|](k requires 0 <= k < |similarities| => similarities[k]);
    assert a[..] == similarities;
    SortByScore(a);
    sorted := a[..];
    SortedUnique(sorted, Ranking(similarities));
  }

  /** `get_similar`: score the rows that pass the filter, sort them highest
      score first, and take the first `n` ids. */
  method GetSimilar(db: DocDb, query: seq<real>, n: nat, filter: Option<set<DocId>>) returns (r: seq<DocId>)
    requires Valid(db) && |query| == db.embeddings.width
    ensures r == TopIds(db, query, n, filter)
  {
    var similarities := ScoreRows(db, query, filter);
    var sorted := SortScores(similarities);
    var top := sorted[..Min(n, |sorted|)];
    assert top == TopRanked(db, query, n, filter);
    r := seq(|top|, k requires 0 <= k < |top| => db.ids[top[k].row]);
    TopIdsSize(db, query, n, filter);
    assert |r| == |TopIds(db, query, n, filter)|;
  }

  /** The database of the source's two ranking tests. */
  ghost predicate TestDb(db: DocDb, one: DocId, two: DocId, three: DocId) {
    && one == seq(16, _ => 1) && two == seq(16, _ => 2) && three == seq(16, _ => 3)
    && db.embeddings == Matrix(2, [[0.0, 1.0], [1.0, 0.0], [1.0, 1.0]])
    && db.ids == [one, two, three] && db.pcaMapping.None?
  }

  lemma TestDbScores(db: DocDb, one: DocId, two: DocId, three: DocId)
    requires TestDb(db, one, two, three)
    ensures Valid(db)
    ensures Dot(db.embeddings.rows[0], [1.0, 0.0]) == 0.0
    ensures Dot(db.embeddings.rows[1], [1.0, 0.0]) == 1.0
    ensures Dot(db.embeddings.rows[2], [1.0, 0.0]) == 1.0
    ensures one != two && two != three && one != three
  {
    assert one[0] == 1 && two[0] == 2 && three[0] == 3;
  }

  /** The ids `get_similar` returns, read off a known ranking. */
  lemma TopIdsOf(db: DocDb, query: seq<real>, n: nat, filter: Option<set<DocId>>, ranked: seq<Scored>)
    requires Valid(db) && |query| == db.embeddings.width
    requires Ranking(Eligible(db, query, filter, |db.ids|)) == ranked
    ensures |TopIds(db, query, n, filter)| == Min(n, |ranked|)
    ensures forall k :: 0 <= k < Min(n, |ranked|) ==> ranked[k].row < |db.ids| && TopIds(db, query, n, filter)[k] == db.ids[ranked[k].row]
  {
    TopIdsSize(db, query, n, filter);
    assert TopRanked(db, query, n, filter) == ranked[..Min(n, |ranked|)];
  }

  /** With the query (1, 0) rows 2 and 3 tie, and the stable sort keeps the
      earlier row first. */
  lemma SimilarTest(db: DocDb, one: DocId, two: DocId, three: DocId)
    requires TestDb(db, one, two, three)
    ensures Valid(db)
    ensures TopIds(db, [1.0, 0.0], 2, None) == [two, three]
  {
    var q := [1.0, 0.0];
    var all := [Scored(0.0, 0), Scored(1.0, 1), Scored(1.0, 2)];
    EligibleUnfiltered(db, one, two, three, q, all);
    RankingOfTie(all);
    TopTwoOf(db, q, None, Ranking(all), 1, 2);
  }

  /** The two ids `get_similar` returns when the ranking starts with rows
      `i` and `j`. */
  lemma TopTwoOf(db: DocDb, q: seq<real>, filter: Option<set<DocId>>, ranked: seq<Scored>, i: nat, j: nat)
    requires Valid(db) && |q| == db.embeddings.width
    requires Ranking(Eligible(db, q, filter, |db.ids|)) == ranked
    requires |ranked| >= 2 && ranked[0].row == i && ranked[1].row == j
    ensures i < |db.ids| && j < |db.ids|
    ensures TopIds(db, q, 2, filter) == [db.ids[i], db.ids[j]]
  {
    TopIdsOf(db, q, 2, filter, ranked);
    assert Min(2, |ranked|) == 2;
    var top := TopIds(db, q, 2, filter);
    assert |top| == 2 && top[0] == db.ids[i] && top[1] == db.ids[j];
  }

  lemma EligibleUnfiltered(db: DocDb, one: DocId, two: DocId, three: DocId, q: seq<real>, all: seq<Scored>)
    requires TestDb(db, one, two, three) && q == [1.0, 0.0]
    requires all == [Scored(0.0, 0), Scored(1.0, 1), Scored(1.0, 2)]
    ensures Valid(db) && |q| == db.embeddings.width
    ensures Eligible(db, q, None, |db.ids|) == all
  {
    TestDbScores(db, one, two, three);
    assert Eligible(db, q, None, 1) == [Scored(0.0, 0)];
    assert Eligible(db, q, None, 2) == [Scored(0.0, 0), Scored(1.0, 1)];
  }

  /** Two equal scores after a lower one: the equal ones keep their order. */
  lemma RankingOfTie(all: seq<Scored>)
    requires all == [Scored(0.0, 0), Scored(1.0, 1), Scored(1.0, 2)]
    ensures Ranking(all) == [Scored(1.0, 1), Scored(1.0, 2), Scored(0.0, 0)]
  {
    var ranked := [Scored(1.0, 1), Scored(1.0, 2), Scored(0.0, 0)];
    TieOrderSorted(ranked);
    TieOrderSameRows(all, ranked);
    var r := Ranking(all);
    assert SortedBy(r) && multiset(r) == multiset(all);
    SortedUnique(r, ranked);
  }

  lemma TieOrderSorted(ranked: seq<Scored>)
    requires ranked == [Scored(1.0, 1), Scored(1.0, 2), Scored(0.0, 0)]
    ensures SortedBy(ranked)
  {
  }

  lemma TieOrderSameRows(all: seq<Scored>, ranked: seq<Scored>)
    requires all == [Scored(0.0, 0), Scored(1.0, 1), Scored(1.0, 2)]
    requires ranked == [Scored(1.0, 1), Scored(1.0, 2), Scored(0.0, 0)]
    ensures multiset(all) == multiset(ranked)
  {
    var s0, s1, s2 := Scored(0.0, 0), Scored(1.0, 1), Scored(1.0, 2);
    assert multiset(all) == multiset{s0} + multiset{s1} + multiset{s2} == multiset(ranked);
  }

  /** With a filter only the rows kept are ranked, by score. */
  lemma SimilarFilteredTest(db: DocDb, one: DocId, two: DocId, three: DocId)
    requires TestDb(db, one, two, three)
    ensures Valid(db)
    ensures TopIds(db, [1.0, 0.0], 2, Some({one, two})) == [two, one]
  {
    var q, filter := [1.0, 0.0], Some({one, two});
    var some := [Scored(0.0, 0), Scored(1.0, 1)];
    EligibleFiltered(db, one, two, three, q, filter, some);
    RankingOfPair(some);
    TopTwoOf(db, q, filter, Ranking(some), 1, 0);
  }

  lemma EligibleFiltered(db: DocDb, one: DocId, two: DocId, three: DocId, q: seq<real>,
                         filter: Option<set<DocId>>, some: seq<Scored>)
    requires TestDb(db, one, two, three) && q == [1.0, 0.0] && filter == Some({one, two})
    requires some == [Scored(0.0, 0), Scored(1.0, 1)]
    ensures Valid(db) && |q| == db.embeddings.width
    ensures Eligible(db, q, filter, |db.ids|) == some
  {
    TestDbScores(db, one, two, three);
    assert !Passes(filter, three);
    assert Eligible(db, q, filter, 1) == [Scored(0.0, 0)];
    assert Eligible(db, q, filter, 2) == some;
  }

  lemma RankingOfPair(some: seq<Scored>)
    requires some == [Scored(0.0, 0), Scored(1.0, 1)]
    ensures Ranking(some) == [Scored(1.0, 1), Scored(0.0, 0)]
  {
    assert Ranking(some[1..]) == [Scored(1.0, 1)];
  }

  // ---------------------------------------------------------------------
  // PCA and document urls

  /** `get_pca_mapped`: the query times the mapping matrix, or the query
      itself when there is no mapping. */
  function PcaMapped(db: DocDb, query: seq<real>): (r: seq<real>)
    requires Valid(db)
    requires db.pcaMapping.Some? ==> |query| == |db.pcaMapping.value.rows|
    ensures |r| == if db.pcaMapping.Some? then db.pcaMapping.value.width else |query|
  {
    match db.pcaMapping
    case None => query
    case Some(m) => seq(m.width, j requires 0 <= j < m.width => Dot(query, Column(m, j)))
  }

  function Column(m: Matrix<real>, j: nat): (c: seq<real>)
    requires Rectangular(m) && j < m.width
    ensures |c| == |m.rows|
  {
    seq(|m.rows|, i requires 0 <= i < |m.rows| => m.rows[i][j])
  }

  /** Without a mapping the query comes back unchanged; the source's test
      maps (1, 0, 2) through ((0, 1), (1, 0), (0, 0)) to (0, 1). */
  lemma PcaMappedTests(db: DocDb, query: seq<real>)
    requires Valid(db)
    ensures db.pcaMapping.None? ==> PcaMapped(db, query) == query
    ensures db.pcaMapping == Some(Matrix(2, [[0.0, 1.0], [1.0, 0.0], [0.0, 0.0]])) ==>
      PcaMapped(db, [1.0, 0.0, 2.0]) == [0.0, 1.0]
  {
    if db.pcaMapping == Some(Matrix(2, [[0.0, 1.0], [1.0, 0.0], [0.0, 0.0]])) {
      var m := db.pcaMapping.value;
      var r := PcaMapped(db, [1.0, 0.0, 2.0]);
      assert Column(m, 0) == [0.0, 1.0, 0.0];
      assert Column(m, 1) == [1.0, 0.0, 0.0];
      assert Dot([1.0, 0.0, 2.0], [0.0, 1.0, 0.0]) == 0.0;
      assert Dot([1.0, 0.0, 2.0], [1.0, 0.0, 0.0]) == 1.0;
      assert r[0] == 0.0 && r[1] == 1.0;
    }
  }

  /** The url `get_document` fetches: the first three hex digits as
      directories, then the whole hex id with `.md`. */
  function DocumentUrl(origin: string, id: DocId): string
  {
    var hex := Encode(id);
    origin + "/db/documents/" + Join([[hex[0]], [hex[1]], [hex[2]]], "/") + "/" + hex + ".md"
  }

  /** The url names the document: after the origin come the directories
      `h0/h1/h2/`, and the file stem decodes back to the id. */
  lemma DocumentUrlNamesDocument(origin: string, id: DocId)
    ensures var url := DocumentUrl(origin, id);
      var hex := Encode(id);
      && |url| == |origin| + 14 + 6 + 32 + 3
      && url[..|origin|] == origin
      && url[|origin|..|origin| + 20] == "/db/documents/" + [hex[0], '/', hex[1], '/', hex[2], '/']
      && url[|url| - 3..] == ".md"
      && DocIdFromHex(Utf8Encode(url[|url| - 35..|url| - 3])) == Success(id)
  {
    var hex := Encode(id);
    var dirs := Join([[hex[0]], [hex[1]], [hex[2]]], "/");
    assert Join([[hex[2]]], "/") == [hex[2]];
    assert Join([[hex[1]], [hex[2]]], "/") == [hex[1]] + "/" + [hex[2]];
    assert dirs == [hex[0]] + "/" + ([hex[1]] + "/" + [hex[2]]);
    assert dirs == [hex[0], '/', hex[1], '/', hex[2]];
    var url := DocumentUrl(origin, id);
    assert url == origin + ("/db/documents/" + dirs + "/") + hex + ".md";
    assert url[|url| - 35..|url| - 3] == hex;
    DocIdRoundTrip(id);
  }
}
