/** The streamed business transfer equals the print of the whole document. */
module Transfer {
  import opened Wrappers
  import opened Json
  import JsonText

  // ----- the snapshot

  /** A column value as the database layer delivers it. */
  datatype Value =
    | NoValue
    | Flag(b: bool)
    | Number(n: int)
    | Text(s: string)
    | Exact(decimal: string)
    | Identifier(uuid: string)
    | Moment(iso: string)
    | Values(items: seq<Value>)
    | Mapping(entries: seq<Entry>)

  datatype Entry = Entry(key: string, value: Value)

  /** A column of a row; `toUser` marks a relation to the user table. */
  datatype Column = Column(name: string, value: Value, toUser: bool)

  type Row = seq<Column>

  datatype DataSet = DataSet(name: string, rows: seq<Row>)

  datatype User = User(id: int, username: string, email: string)

  datatype Count = Count(count: nat, sha256: string)

  datatype Error = PendingProvisioning | MissingUser

  /** The name of the format, the text encoding of the file and the digest over bytes. */
  datatype Codec = Codec(format: string, encode: string -> seq<byte>, sha: seq<byte> -> string)

  /** Encoding piece by piece is encoding the whole. */
  ghost predicate TextEncoding(encode: string -> seq<byte>) {
    encode("") == [] && forall a, b :: Splits(encode, a, b)
  }

  predicate Splits(encode: string -> seq<byte>, a: string, b: string) {
    encode(a + b) == encode(a) + encode(b)
  }

  /** UTF-8 is such an encoding. */
  lemma Utf8IsTextEncoding()
    ensures TextEncoding(Encode)
  {
    forall a, b ensures Splits(Encode, a, b) {
      EncodeConcat(a, b);
    }
  }

  // ----- rows as JSON

  function Portable(v: Value): Json
    decreases v, 0
  {
    match v
    case NoValue => Null
    case Flag(b) => Bool(b)
    case Number(n) => Num(n)
    case Text(s) => Str(s)
    case Exact(s) => Str(s)
    case Identifier(s) => Str(s)
    case Moment(s) => Str(s)
    case Values(items) => Arr(PortableItems(items))
    case Mapping(entries) => Obj(PortableEntries(entries))
  }

  function PortableItems(items: seq<Value>): seq<Json>
    decreases items, 1
  {
    if items == [] then [] else PortableItems(items[..|items| - 1]) + [Portable(items[|items| - 1])]
  }

  function PortableEntries(entries: seq<Entry>): seq<Field>
    decreases entries, 1
  {
    if entries == [] then []
    else
      var last := entries[|entries| - 1];
      PortableEntries(entries[..|entries| - 1]) + [Field(last.key, Portable(last.value))]
  }

  function RowFields(row: Row): seq<Field> {
    if row == [] then []
    else
      var last := row[|row| - 1];
      RowFields(row[..|row| - 1]) + [Field(last.name, Portable(last.value))]
  }

  function RowJson(row: Row): Json { SortKeys(Obj(RowFields(row))) }

  function RowsJson(rows: seq<Row>): (r: seq<Json>)
    ensures |r| == |rows|
  {
    if rows == [] then [] else RowsJson(rows[..|rows| - 1]) + [RowJson(rows[|rows| - 1])]
  }

  // ----- users

  /** The users a row refers to. */
  function UsersOfRow(row: Row): set<Value> {
    set c | c in row && c.toUser && !c.value.NoValue? :: c.value
  }

  function UsersOfRows(rows: seq<Row>): set<Value> {
    set r, c | r in rows && c in r && c.toUser && !c.value.NoValue? :: c.value
  }

  function UsersOf(dataSets: seq<DataSet>): set<Value> {
    if dataSets == [] then {}
    else UsersOf(dataSets[..|dataSets| - 1]) + UsersOfRows(dataSets[|dataSets| - 1].rows)
  }

  function UserRow(u: User): Row {
    [Column("id", Number(u.id), false), Column("username", Text(u.username), false),
     Column("email", Text(u.email), false)]
  }

  /** The users with one of the given identifiers, in the order of the table. */
  function Select(users: seq<User>, ids: set<Value>): seq<User> {
    if users == [] then []
    else Select(users[..|users| - 1], ids)
         + if Number(users[|users| - 1].id) in ids then [users[|users| - 1]] else []
  }

  function UserRows(users: seq<User>): (r: seq<Row>)
    ensures |r| == |users|
  {
    if users == [] then [] else UserRows(users[..|users| - 1]) + [UserRow(users[|users| - 1])]
  }

  predicate OrderedById(users: seq<User>) {
    forall i, j | 0 <= i < j < |users| :: users[i].id < users[j].id
  }

  // ----- the document

  /** Count and digest of a data set: the digest is taken over its bytes including the brackets. */
  function CountOf(rows: seq<Row>, k: Codec): Count {
    Count(|rows|, k.sha(k.encode(Print(Arr(RowsJson(rows))))))
  }

  function DataSetFields(dataSets: seq<DataSet>): seq<Field> {
    if dataSets == [] then []
    else
      var last := dataSets[|dataSets| - 1];
      DataSetFields(dataSets[..|dataSets| - 1]) + [Field(last.name, Arr(RowsJson(last.rows)))]
  }

  function CountJson(c: Count): Json { Obj([Field("count", Num(c.count)), Field("sha256", Str(c.sha256))]) }

  function ManifestFields(dataSets: seq<DataSet>, k: Codec): seq<Field> {
    if dataSets == [] then []
    else
      var last := dataSets[|dataSets| - 1];
      ManifestFields(dataSets[..|dataSets| - 1], k) + [Field(last.name, CountJson(CountOf(last.rows, k)))]
  }

  function Manifest(dataSets: seq<DataSet>, users: seq<User>, k: Codec): Json {
    SortKeys(Obj(ManifestFields(dataSets, k) + [Field("users", CountJson(CountOf(UserRows(users), k)))]))
  }

  /** The whole document over the selected users. */
  function Document(dataSets: seq<DataSet>, users: seq<User>, generatedAt: string, k: Codec): Json {
    Obj([Field("format", Str(k.format)),
         Field("format_version", Num(1)),
         Field("generated_at", Str(generatedAt)),
         Field("datasets", Obj(DataSetFields(dataSets))),
         Field("users", Arr(RowsJson(UserRows(users)))),
         Field("manifest", Manifest(dataSets, users, k))])
  }

  // ----- writing

  class Writer {
    var output: seq<byte>
    var userIds: set<Value>
    const k: Codec

    constructor (k: Codec)
      ensures output == [] && userIds == {} && this.k == k
    {
      this.k := k;
      output, userIds := [], {};
    }

    method Write(text: string)
      modifies this`output
      ensures output == old(output) + k.encode(text)
    {
      output := output + k.encode(text);
    }

    /** The next row of the generator: its fields, and the users it refers to are noted. */
    method NextRow(row: Row) returns (json: Json)
      modifies this`userIds
      ensures json == RowJson(row)
      ensures userIds == old(userIds) + UsersOfRow(row)
    {
      var fields: seq<Field> := [];
      for i := 0 to |row|
        invariant fields == RowFields(row[..i])
        invariant userIds == old(userIds) + UsersOfRow(row[..i])
      {
        var c := row[i];
        assert row[..i + 1][..i] == row[..i];
        assert row[..i + 1] == row[..i] + [c];
        fields := fields + [Field(c.name, Portable(c.value))];
        if c.toUser && !c.value.NoValue? {
          userIds := userIds + {c.value};
        }
      }
      assert row[..|row|] == row;
      json := SortKeys(Obj(fields));
    }

    /** Streams rows one by one, without keeping them, and counts and digests what is written. */
    method WriteRows(rows: seq<Row>) returns (count: Count)
      requires TextEncoding(k.encode)
      modifies this
      ensures output == old(output) + RowsBytes(rows, k)
      ensures userIds == old(userIds) + UsersOfRows(rows)
      ensures count == CountOf(rows, k)
    {
      var n: nat, body: seq<byte> := 0, [];
      for i := 0 to |rows|
        invariant n == i
        invariant body == RowsBytes(rows[..i], k)
        invariant output == old(output) + body
        invariant userIds == old(userIds) + UsersOfRows(rows[..i])
      {
        var written := WriteRow(rows[i], n > 0);
        OneMoreRow(rows, i, k);
        UsersOfOneMore(rows, i);
        Associative(old(output), body, written);
        body := body + written;
        n := n + 1;
      }
      assert rows[..|rows|] == rows;
      Bracketed(rows, k);
      count := Count(n, k.sha(k.encode("[") + body + k.encode("]")));
    }

    /**
     * Writes the whole transfer.  A workspace that awaits its owner stops it before anything is
     * written, a reference to an unknown user at the very end.
     */
    method WriteBusinessTransfer(dataSets: seq<DataSet>, users: seq<User>, pending: bool, generatedAt: string)
      returns (r: Result<(), Error>)
      requires NamesAreDistinct(dataSets) && OrderedById(users)
      requires TextEncoding(k.encode)
      modifies this
      ensures r == if pending then Failure(PendingProvisioning)
                   else if AllKnown(UsersOf(dataSets), users) then Success(())
                   else Failure(MissingUser)
      ensures pending ==> output == old(output)
      ensures old(output) <= output
      ensures r.Success? ==>
                output == old(output)
                  + k.encode(Print(Document(dataSets, Select(users, UsersOf(dataSets)), generatedAt, k)))
    {
      if pending {
        return Failure(PendingProvisioning);
      }
      var manifest, count := WriteBody(dataSets, users, generatedAt);
      ghost var text := TextBefore(dataSets, Select(users, userIds), generatedAt, k);
      SelectionIsComplete(users, UsersOf(dataSets));
      if count.count != |userIds| {
        return Failure(MissingUser);
      }
      var tail := "],\"manifest\":" + Dump(Obj(manifest + [Field("users", CountJson(count))])) + "}";
      Write(tail);
      EncodeTwo(k, old(output), text, tail);
      DocumentText(dataSets, Select(users, userIds), generatedAt, k);
      r := Success(());
    }

    /** Everything before the manifest: the header, the data sets and the users they refer to. */
    method WriteBody(dataSets: seq<DataSet>, users: seq<User>, generatedAt: string)
      returns (manifest: seq<Field>, count: Count)
      requires TextEncoding(k.encode)
      modifies this
      ensures userIds == UsersOf(dataSets)
      ensures output == old(output) + k.encode(TextBefore(dataSets, Select(users, userIds), generatedAt, k))
      ensures manifest == ManifestFields(dataSets, k)
      ensures count == CountOf(UserRows(Select(users, userIds)), k)
    {
      userIds := {};
      WriteHeader(generatedAt);
      manifest := WriteDataSets(dataSets);
      var chosen := Select(users, userIds);
      count := WriteUsers(chosen);
      EncodeThree(k, old(output), HeaderText(k.format, generatedAt), PrintFields(DataSetFields(dataSets)),
                  UsersText(chosen));
    }

    method WriteHeader(generatedAt: string)
      requires TextEncoding(k.encode)
      modifies this`output
      ensures output == old(output) + k.encode(HeaderText(k.format, generatedAt))
    {
      var format := "{\"format\":" + Dump(Str(k.format));
      var generated := ",\"format_version\":1,\"generated_at\":" + Dump(Str(generatedAt));
      Write(format);
      Write(generated);
      Write(",\"datasets\":{");
      EncodeThree(k, old(output), format, generated, ",\"datasets\":{");
    }

    /** Writes the data sets, separated by commas, and returns their manifest entries. */
    method WriteDataSets(dataSets: seq<DataSet>) returns (manifest: seq<Field>)
      requires TextEncoding(k.encode)
      modifies this
      ensures output == old(output) + k.encode(PrintFields(DataSetFields(dataSets)))
      ensures userIds == old(userIds) + UsersOf(dataSets)
      ensures manifest == ManifestFields(dataSets, k)
    {
      manifest := [];
      ghost var text := "";
      for i := 0 to |dataSets|
        invariant text == PrintFields(DataSetFields(dataSets[..i]))
        invariant output == old(output) + k.encode(text)
        invariant userIds == old(userIds) + UsersOf(dataSets[..i])
        invariant manifest == ManifestFields(dataSets[..i], k)
      {
        assert dataSets[..i + 1][..i] == dataSets[..i];
        var count := WriteDataSet(dataSets[i], i > 0);
        OneMoreDataSet(dataSets, i);
        EncodeTwo(k, old(output), text, DataSetText(dataSets[i], i > 0));
        text := text + DataSetText(dataSets[i], i > 0);
        manifest := manifest + [Field(dataSets[i].name, CountJson(count))];
      }
      assert dataSets[..|dataSets|] == dataSets;
    }

    method WriteDataSet(dataSet: DataSet, follows: bool) returns (count: Count)
      requires TextEncoding(k.encode)
      modifies this
      ensures output == old(output) + k.encode(DataSetText(dataSet, follows))
      ensures userIds == old(userIds) + UsersOfRows(dataSet.rows)
      ensures count == CountOf(dataSet.rows, k)
    {
      var comma := if follows then "," else "";
      var name := Dump(Str(dataSet.name)) + ":[";
      Write(comma);
      Write(name);
      count := WriteRows(dataSet.rows);
      Write("]");
      DataSetBytes(k, old(output), dataSet, follows);
    }

    method WriteUsers(chosen: seq<User>) returns (count: Count)
      requires TextEncoding(k.encode)
      modifies this
      ensures output == old(output) + k.encode(UsersText(chosen))
      ensures userIds == old(userIds)
      ensures count == CountOf(UserRows(chosen), k)
    {
      Write("},\"users\":[");
      count := WriteRows(UserRows(chosen));
      EncodeTwo(k, old(output), "},\"users\":[", PrintItems(RowsJson(UserRows(chosen))));
      UserRowsReferToNobody(chosen);
    }

    /** Writes one row, after a comma unless it is the first, and returns the bytes for the digest. */
    method WriteRow(row: Row, follows: bool) returns (written: seq<byte>)
      requires TextEncoding(k.encode)
      modifies this
      ensures written == Separator(follows, k) + k.encode(Print(RowJson(row)))
      ensures output == old(output) + written
      ensures userIds == old(userIds) + UsersOfRow(row)
    {
      written := [];
      if follows {
        Write(",");
        written := k.encode(",");
      }
      var json := NextRow(row);
      var encoded := k.encode(Print(json));
      output := output + encoded;
      written := written + encoded;
    }
  }

  // ----- the text behind the bytes

  lemma EncodeTwo(k: Codec, start: seq<byte>, a: string, b: string)
    requires TextEncoding(k.encode)
    ensures (start + k.encode(a)) + k.encode(b) == start + k.encode(a + b)
  {
    assert Splits(k.encode, a, b);
    Associative(start, k.encode(a), k.encode(b));
  }

  lemma EncodeThree(k: Codec, start: seq<byte>, a: string, b: string, c: string)
    requires TextEncoding(k.encode)
    ensures ((start + k.encode(a)) + k.encode(b)) + k.encode(c) == start + k.encode(a + b + c)
  {
    EncodeTwo(k, start, a, b);
    EncodeTwo(k, start, a + b, c);
  }

  function DataSetText(dataSet: DataSet, follows: bool): string {
    (if follows then "," else "") + Quote(dataSet.name) + ":" + Print(Arr(RowsJson(dataSet.rows)))
  }

  lemma DataSetBytes(k: Codec, start: seq<byte>, dataSet: DataSet, follows: bool)
    requires TextEncoding(k.encode)
    ensures var comma := if follows then "," else "";
            var name := Quote(dataSet.name) + ":[";
            (((start + k.encode(comma)) + k.encode(name)) + RowsBytes(dataSet.rows, k)) + k.encode("]")
            == start + k.encode(DataSetText(dataSet, follows))
  {
    var comma := if follows then "," else "";
    var quoted, items := Quote(dataSet.name), PrintItems(RowsJson(dataSet.rows));
    EncodeThree(k, start, comma, quoted + ":[", items);
    EncodeTwo(k, start, comma + (quoted + ":[") + items, "]");
    Regroup(comma, quoted, items);
  }

  lemma Regroup(comma: string, name: string, items: string)
    ensures comma + (name + ":[") + items + "]" == comma + name + ":" + ("[" + items + "]")
  {
    assert ":[" == ":" + "[";
  }

  lemma OneMoreDataSet(dataSets: seq<DataSet>, n: nat)
    requires n < |dataSets|
    ensures PrintFields(DataSetFields(dataSets[..n + 1]))
         == PrintFields(DataSetFields(dataSets[..n])) + DataSetText(dataSets[n], n > 0)
  {
    assert dataSets[..n + 1][..n] == dataSets[..n];
    FieldsHaveLength(dataSets[..n]);
    var last := Field(dataSets[n].name, Arr(RowsJson(dataSets[n].rows)));
    if n > 0 {
      FieldsStep(DataSetFields(dataSets[..n]), last);
      AssociativeText("", ",", Quote(last.name), ":", Print(last.value));
      assert Next(last) == DataSetText(dataSets[n], true);
    } else {
      FieldsOfAppend([], last);
      assert [] + [last] == [last];
    }
  }

  lemma AssociativeText(a: string, b: string, c: string, d: string, e: string)
    ensures a + b + c + d + e == a + (b + c + d + e)
  {
  }

  lemma {:induction false} FieldsHaveLength(dataSets: seq<DataSet>)
    ensures |DataSetFields(dataSets)| == |dataSets|
  {
    if dataSets != [] { FieldsHaveLength(dataSets[..|dataSets| - 1]); }
  }

  function HeaderText(format: string, generatedAt: string): string {
    "{\"format\":" + Quote(format) + (",\"format_version\":1,\"generated_at\":" + Quote(generatedAt))
    + ",\"datasets\":{"
  }

  function UsersText(users: seq<User>): string {
    "},\"users\":[" + PrintItems(RowsJson(UserRows(users)))
  }

  function TextBefore(dataSets: seq<DataSet>, users: seq<User>, generatedAt: string, k: Codec): string {
    HeaderText(k.format, generatedAt) + PrintFields(DataSetFields(dataSets)) + UsersText(users)
  }

  /** A field that follows another one. */
  function Next(f: Field): string { "," + Quote(f.name) + ":" + Print(f.value) }

  lemma FieldsStep(fields: seq<Field>, f: Field)
    requires fields != []
    ensures PrintFields(fields + [f]) == PrintFields(fields) + Next(f)
  {
    FieldsOfAppend(fields, f);
    AssociativeText(PrintFields(fields), ",", Quote(f.name), ":", Print(f.value));
  }

  lemma SixFields(a: Field, b: Field, c: Field, d: Field, e: Field, f: Field)
    ensures PrintFields([a, b, c, d, e, f])
         == Six(FieldText(a), Next(b), Next(c), Next(d), Next(e), Next(f))
  {
    var s1 := [a];
    var s2 := s1 + [b];
    var s3 := s2 + [c];
    var s4 := s3 + [d];
    var s5 := s4 + [e];
    OneField(a);
    FieldsStep(s1, b);
    FieldsStep(s2, c);
    FieldsStep(s3, d);
    FieldsStep(s4, e);
    FieldsStep(s5, f);
    assert [a, b, c, d, e, f] == s5 + [f];
  }

  lemma OneField(a: Field)
    ensures PrintFields([a]) == FieldText(a)
  {
    FieldsOfAppend([], a);
    assert [] + [a] == [a];
  }

  predicate Plain(s: string) {
    forall i | 0 <= i < |s| :: s[i] != '"' && s[i] != '\\' && s[i] as int >= 32
  }

  /** A plain name is quoted as it is. */
  lemma {:induction false} PlainNames(s: string)
    requires Plain(s)
    ensures EscapeAll(s) == s
  {
    if s != "" {
      PlainNames(s[1..]);
      assert s == [s[0]] + s[1..];
    }
  }

  /** A quoted name and a colon are the literal that is written for it. */
  lemma QuotedName(name: string, literal: string)
    requires Plain(name) && literal == "\"" + name + "\":"
    ensures Quote(name) + ":" == literal
  {
    PlainNames(name);
  }

  lemma NextIs(f: Field, literal: string)
    requires Plain(f.name) && literal == ",\"" + f.name + "\":"
    ensures Next(f) == Labelled(literal, Print(f.value))
  {
    QuotedName(f.name, "\"" + f.name + "\":");
    assert literal == "," + (Quote(f.name) + ":");
  }

  lemma VersionIsOne()
    ensures Print(Num(1)) == "1"
  {
  }

  lemma HeaderRegroup(format: string, generatedAt: string)
    ensures "{\"format\":" + format + (",\"format_version\":1,\"generated_at\":" + generatedAt) + ",\"datasets\":{"
         == "{" + ("\"format\":" + format + (",\"format_version\":" + "1") + (",\"generated_at\":" + generatedAt))
            + (",\"datasets\":" + "{")
  {
    assert "{\"format\":" == "{" + "\"format\":";
    assert ",\"format_version\":1,\"generated_at\":" == (",\"format_version\":" + "1") + ",\"generated_at\":";
    assert ",\"datasets\":{" == ",\"datasets\":" + "{";
    MoveBrackets("{", "\"format\":", format, ",\"format_version\":" + "1", ",\"generated_at\":", generatedAt);
  }

  lemma MoveBrackets(a: string, b: string, c: string, d: string, e: string, f: string)
    ensures (a + b) + c + ((d + e) + f) == a + (b + c + d + (e + f))
  {
  }

  /** Where the brackets of the data sets and of the users end up. */
  lemma BodyRegroup(open: string, head: string, q: string, sets: string, u: string, users: string, last: string)
    ensures open + head + (q + "{") + sets + ("}" + u + "[" + users) + ("]" + last + "}")
         == open + (head + (q + ("{" + sets + "}")) + (u + ("[" + users + "]")) + last) + "}"
  {
    var left := open + head + (q + "{") + sets;
    assert left == open + (head + (q + ("{" + sets)));
    assert left + ("}" + u + "[" + users) == open + (head + (q + ("{" + sets + "}")) + (u + ("[" + users)));
  }

  function Six(a: string, b: string, c: string, d: string, e: string, f: string): string {
    a + b + c + d + e + f
  }

  function Labelled(name: string, text: string): string { name + text }

  /** The fields of the document carry the names that are written. */
  predicate Named(a: Field, b: Field, c: Field, d: Field, e: Field, f: Field) {
    && a.name == "format" && b.name == "format_version" && c.name == "generated_at"
    && d.name == "datasets" && e.name == "users" && f.name == "manifest"
  }

  lemma NamedFields(a: Field, b: Field, c: Field, d: Field, e: Field, f: Field)
    requires Named(a, b, c, d, e, f)
    ensures PrintFields([a, b, c, d, e, f])
         == Six(Labelled("\"format\":", Print(a.value)), Labelled(",\"format_version\":", Print(b.value)),
                Labelled(",\"generated_at\":", Print(c.value)), Labelled(",\"datasets\":", Print(d.value)),
                Labelled(",\"users\":", Print(e.value)), Labelled(",\"manifest\":", Print(f.value)))
  {
    SixFields(a, b, c, d, e, f);
    FormatName(a);
    VersionName(b);
    TimeName(c);
    DataSetsName(d);
    UsersName(e);
    ManifestName(f);
  }

  lemma FormatName(f: Field)
    requires f.name == "format"
    ensures FieldText(f) == Labelled("\"format\":", Print(f.value))
  {
    QuotedName(f.name, "\"format\":");
  }

  lemma VersionName(f: Field)
    requires f.name == "format_version"
    ensures Next(f) == Labelled(",\"format_version\":", Print(f.value))
  {
    NextIs(f, ",\"format_version\":");
  }

  lemma TimeName(f: Field)
    requires f.name == "generated_at"
    ensures Next(f) == Labelled(",\"generated_at\":", Print(f.value))
  {
    NextIs(f, ",\"generated_at\":");
  }

  lemma DataSetsName(f: Field)
    requires f.name == "datasets"
    ensures Next(f) == Labelled(",\"datasets\":", Print(f.value))
  {
    NextIs(f, ",\"datasets\":");
  }

  lemma UsersName(f: Field)
    requires f.name == "users"
    ensures Next(f) == Labelled(",\"users\":", Print(f.value))
  {
    NextIs(f, ",\"users\":");
  }

  lemma ManifestName(f: Field)
    requires f.name == "manifest"
    ensures Next(f) == Labelled(",\"manifest\":", Print(f.value))
  {
    NextIs(f, ",\"manifest\":");
  }

  /** The text of the document, field by field. */
  function FieldByField(format: string, generatedAt: string, sets: string, users: string, manifest: string): string {
    var fields := Six(Labelled("\"format\":", format), Labelled(",\"format_version\":", "1"),
                      Labelled(",\"generated_at\":", generatedAt), Labelled(",\"datasets\":", "{" + sets + "}"),
                      Labelled(",\"users\":", "[" + users + "]"), Labelled(",\"manifest\":", manifest));
    "{" + fields + "}"
  }

  lemma DocumentParts(a: Field, b: Field, c: Field, d: Field, e: Field, f: Field)
    requires Named(a, b, c, d, e, f)
    requires a.value.Str? && b.value == Num(1) && c.value.Str? && d.value.Obj? && e.value.Arr?
    ensures Print(Obj([a, b, c, d, e, f]))
         == FieldByField(Quote(a.value.s), Quote(c.value.s), PrintFields(d.value.fields),
                         PrintItems(e.value.items), Print(f.value))
  {
    NamedFields(a, b, c, d, e, f);
    VersionIsOne();
  }

  /** The pieces that are written make up the print of the document. */
  lemma DocumentText(dataSets: seq<DataSet>, users: seq<User>, generatedAt: string, k: Codec)
    ensures Print(Document(dataSets, users, generatedAt, k))
         == TextBefore(dataSets, users, generatedAt, k)
            + ("],\"manifest\":" + Print(Manifest(dataSets, users, k)) + "}")
  {
    var d := Document(dataSets, users, generatedAt, k);
    DocumentParts(d.fields[0], d.fields[1], d.fields[2], d.fields[3], d.fields[4], d.fields[5]);
    TextRegroup(Quote(k.format), Quote(generatedAt), PrintFields(DataSetFields(dataSets)),
                PrintItems(RowsJson(UserRows(users))), Print(Manifest(dataSets, users, k)));
  }

  /** The text piece by piece, as it is written; the strings are quoted and printed already. */
  function PieceByPiece(format: string, generatedAt: string, sets: string, users: string, manifest: string): string {
    var head: string := "{\"format\":" + format + (",\"format_version\":1,\"generated_at\":" + generatedAt);
    var open: string := head + ",\"datasets\":{";
    var tail: string := "],\"manifest\":" + manifest + "}";
    open + sets + ("},\"users\":[" + users) + tail
  }

  lemma TextRegroup(format: string, generatedAt: string, sets: string, items: string, manifest: string)
    ensures PieceByPiece(format, generatedAt, sets, items, manifest)
         == FieldByField(format, generatedAt, sets, items, manifest)
  {
    var head := "\"format\":" + format + (",\"format_version\":" + "1") + (",\"generated_at\":" + generatedAt);
    HeaderRegroup(format, generatedAt);
    BodyRegroup("{", head, ",\"datasets\":", sets, ",\"users\":", items, ",\"manifest\":" + manifest);
    assert "},\"users\":[" == "}" + ",\"users\":" + "[";
    TailRegroup(manifest);
  }

  lemma TailRegroup(manifest: string)
    ensures "],\"manifest\":" + manifest + "}" == "]" + (",\"manifest\":" + manifest) + "}"
  {
    assert "],\"manifest\":" == "]" + ",\"manifest\":";
  }

  // ----- the file determines the document

  lemma {:induction false} DataSetField(dataSets: seq<DataSet>, i: nat)
    requires i < |dataSets|
    ensures |DataSetFields(dataSets)| == |dataSets|
    ensures DataSetFields(dataSets)[i] == Field(dataSets[i].name, Arr(RowsJson(dataSets[i].rows)))
  {
    var n := |dataSets| - 1;
    FieldsHaveLength(dataSets);
    FieldsHaveLength(dataSets[..n]);
    if i < n { DataSetField(dataSets[..n], i); }
  }

  lemma SameDocumentSameContent(a: seq<DataSet>, b: seq<DataSet>, usersA: seq<User>, usersB: seq<User>,
                                timeA: string, timeB: string, k: Codec)
    requires Document(a, usersA, timeA, k) == Document(b, usersB, timeB, k)
    ensures timeA == timeB && |a| == |b|
    ensures forall i | 0 <= i < |a| :: a[i].name == b[i].name && RowsJson(a[i].rows) == RowsJson(b[i].rows)
    ensures RowsJson(UserRows(usersA)) == RowsJson(UserRows(usersB))
    ensures Manifest(a, usersA, k) == Manifest(b, usersB, k)
  {
    var fieldsA, fieldsB := Document(a, usersA, timeA, k).fields, Document(b, usersB, timeB, k).fields;
    assert fieldsA[2] == fieldsB[2] && fieldsA[3] == fieldsB[3] && fieldsA[4] == fieldsB[4] && fieldsA[5] == fieldsB[5];
    FieldsHaveLength(a);
    FieldsHaveLength(b);
    forall i | 0 <= i < |a| ensures a[i].name == b[i].name && RowsJson(a[i].rows) == RowsJson(b[i].rows) {
      DataSetField(a, i);
      DataSetField(b, i);
    }
  }

  /**
   * Two transfers with the same bytes agree in everything that can be read back: the time, the
   * names of the data sets and all their rows, the users and the manifest.
   */
  lemma SameFileSameContent(a: seq<DataSet>, b: seq<DataSet>, usersA: seq<User>, usersB: seq<User>,
                            timeA: string, timeB: string, k: Codec)
    ensures Encode(Print(Document(a, usersA, timeA, k))) == Encode(Print(Document(b, usersB, timeB, k))) ==>
              && timeA == timeB && |a| == |b|
              && (forall i | 0 <= i < |a| :: a[i].name == b[i].name && RowsJson(a[i].rows) == RowsJson(b[i].rows))
              && RowsJson(UserRows(usersA)) == RowsJson(UserRows(usersB))
              && Manifest(a, usersA, k) == Manifest(b, usersB, k)
  {
    JsonText.BytesDetermineValue(Document(a, usersA, timeA, k), Document(b, usersB, timeB, k));
    if Encode(Print(Document(a, usersA, timeA, k))) == Encode(Print(Document(b, usersB, timeB, k))) {
      SameDocumentSameContent(a, b, usersA, usersB, timeA, timeB, k);
    }
  }

  // ----- users

  predicate NamesAreDistinct(dataSets: seq<DataSet>) {
    && (forall i, j | 0 <= i < j < |dataSets| :: dataSets[i].name != dataSets[j].name)
    && (forall i | 0 <= i < |dataSets| :: dataSets[i].name != "users")
  }

  predicate Known(v: Value, users: seq<User>) {
    exists i | 0 <= i < |users| :: Number(users[i].id) == v
  }

  predicate AllKnown(ids: set<Value>, users: seq<User>) {
    forall v | v in ids :: Known(v, users)
  }

  function Ids(users: seq<User>): set<Value> {
    if users == [] then {} else Ids(users[..|users| - 1]) + {Number(users[|users| - 1].id)}
  }

  lemma {:induction false} IdsAreKnown(users: seq<User>, v: Value)
    ensures v in Ids(users) <==> Known(v, users)
  {
    if users != [] {
      var rest := users[..|users| - 1];
      IdsAreKnown(rest, v);
      if Known(v, rest) {
        var i :| 0 <= i < |rest| && Number(rest[i].id) == v;
        assert users[i] == rest[i];
      }
      if Known(v, users) {
        var i :| 0 <= i < |users| && Number(users[i].id) == v;
        assert i < |rest| ==> rest[i] == users[i];
      }
    }
  }

  lemma {:induction false} SelectedIds(users: seq<User>, ids: set<Value>)
    requires OrderedById(users)
    ensures Ids(Select(users, ids)) == Ids(users) * ids
    ensures |Select(users, ids)| == |Ids(users) * ids|
  {
    if users != [] {
      var rest, u := users[..|users| - 1], users[|users| - 1];
      SelectedIds(rest, ids);
      LastIsNew(users);
      MeetWithOneMore(Ids(rest), Number(u.id), ids);
      if Number(u.id) in ids {
        var chosen := Select(rest, ids) + [u];
        assert chosen[..|chosen| - 1] == Select(rest, ids);
        assert Select(users, ids) == chosen;
      } else {
        assert Select(users, ids) == Select(rest, ids);
      }
    }
  }

  lemma LastIsNew(users: seq<User>)
    requires OrderedById(users) && users != []
    ensures Number(users[|users| - 1].id) !in Ids(users[..|users| - 1])
  {
    IdsAreKnown(users[..|users| - 1], Number(users[|users| - 1].id));
  }

  lemma MeetWithOneMore(a: set<Value>, v: Value, ids: set<Value>)
    requires v !in a
    ensures v in ids ==> (a + {v}) * ids == a * ids + {v} && |a * ids + {v}| == |a * ids| + 1
    ensures v !in ids ==> (a + {v}) * ids == a * ids
  {
  }

  /**
   * Comparing the count of users found with the count of identifiers tells whether every
   * reference is to a known user, and if so the users written are exactly the ones referred to.
   */
  lemma SelectionIsComplete(users: seq<User>, ids: set<Value>)
    requires OrderedById(users)
    ensures |Select(users, ids)| == |ids| <==> AllKnown(ids, users)
    ensures AllKnown(ids, users) ==> Ids(Select(users, ids)) == ids
  {
    SelectedIds(users, ids);
    var found := Ids(users) * ids;
    if AllKnown(ids, users) {
      forall v | v in ids ensures v in found { IdsAreKnown(users, v); }
      assert found == ids;
    } else {
      var v :| v in ids && !Known(v, users);
      IdsAreKnown(users, v);
      assert v !in found;
      assert found <= ids - {v};
      SubsetIsSmaller(found, ids - {v});
    }
  }

  lemma {:induction false} SubsetIsSmaller(a: set<Value>, b: set<Value>)
    requires a <= b
    ensures |a| <= |b|
  {
    if a != {} {
      var x :| x in a;
      SubsetIsSmaller(a - {x}, b - {x});
    }
  }

  lemma {:induction false} UserRowsReferToNobody(users: seq<User>)
    ensures UsersOfRows(UserRows(users)) == {}
  {
    if users != [] {
      var rest := users[..|users| - 1];
      UserRowsReferToNobody(rest);
      UsersOfOneMore(UserRows(users), |rest|);
      assert UserRows(users)[..|rest|] == UserRows(rest);
      assert UserRows(users)[..|users|] == UserRows(users);
    }
  }

  /** The bytes of the rows with commas between them. */
  function RowsBytes(rows: seq<Row>, k: Codec): seq<byte> { k.encode(PrintItems(RowsJson(rows))) }

  function Separator(follows: bool, k: Codec): seq<byte> { if follows then k.encode(",") else [] }

  lemma OneMoreRow(rows: seq<Row>, n: nat, k: Codec)
    requires n < |rows| && TextEncoding(k.encode)
    ensures RowsBytes(rows[..n + 1], k)
         == RowsBytes(rows[..n], k) + (Separator(n > 0, k) + k.encode(Print(RowJson(rows[n]))))
  {
    assert rows[..n + 1][..n] == rows[..n];
    var before, row := RowsJson(rows[..n]), RowJson(rows[n]);
    ItemsOfAppend(before, row);
    if n > 0 {
      assert Splits(k.encode, PrintItems(before), ",");
      assert Splits(k.encode, PrintItems(before) + ",", Print(row));
    } else {
      assert "" + Print(row) == Print(row);
    }
  }

  lemma UsersOfOneMore(rows: seq<Row>, n: nat)
    requires n < |rows|
    ensures UsersOfRows(rows[..n + 1]) == UsersOfRows(rows[..n]) + UsersOfRow(rows[n])
  {
    assert rows[..n + 1] == rows[..n] + [rows[n]];
  }

  lemma Bracketed(rows: seq<Row>, k: Codec)
    requires TextEncoding(k.encode)
    ensures k.encode(Print(Arr(RowsJson(rows)))) == k.encode("[") + RowsBytes(rows, k) + k.encode("]")
  {
    assert Splits(k.encode, "[", PrintItems(RowsJson(rows)));
    assert Splits(k.encode, "[" + PrintItems(RowsJson(rows)), "]");
  }
}
