/** What the written transfer holds, value by value, and that it can be read back from its bytes. */
module TransferContents {
  import opened Json
  import opened JsonText
  import opened Transfer

  // ----- values and rows

  /** The JSON of a column value: exact numbers, identifiers and times become strings. */
  ghost predicate Shows(j: Json, v: Value)
    decreases v
  {
    match v
    case NoValue => j == Null
    case Flag(b) => j == Bool(b)
    case Number(n) => j == Num(n)
    case Text(s) => j == Str(s)
    case Exact(s) => j == Str(s)
    case Identifier(s) => j == Str(s)
    case Moment(s) => j == Str(s)
    case Values(items) =>
      j.Arr? && |j.items| == |items| && forall i | 0 <= i < |items| :: Shows(j.items[i], items[i])
    case Mapping(entries) =>
      && j.Obj? && |j.fields| == |entries| && KeysAscend(j.fields)
      && forall i | 0 <= i < |entries| ::
           exists k | 0 <= k < |j.fields| ::
             j.fields[k].name == entries[i].key && Shows(j.fields[k].value, entries[i].value)
  }

  /** The JSON of a row: an object with one field per column, sorted by name. */
  ghost predicate ShowsRow(j: Json, row: Row) {
    && j.Obj? && |j.fields| == |row| && KeysAscend(j.fields)
    && forall i | 0 <= i < |row| ::
         exists k | 0 <= k < |j.fields| ::
           j.fields[k].name == row[i].name && Shows(j.fields[k].value, row[i].value)
  }

  lemma {:induction false} ItemOf(items: seq<Value>, i: nat)
    requires i < |items|
    ensures |PortableItems(items)| == |items| && PortableItems(items)[i] == Portable(items[i])
  {
    var n := |items| - 1;
    if i < n {
      ItemOf(items[..n], i);
    } else if n > 0 {
      ItemOf(items[..n], 0);
    }
  }

  lemma {:induction false} EntryOf(entries: seq<Entry>, i: nat)
    requires i < |entries|
    ensures |PortableEntries(entries)| == |entries|
    ensures PortableEntries(entries)[i] == Field(entries[i].key, Portable(entries[i].value))
  {
    var n := |entries| - 1;
    if i < n {
      EntryOf(entries[..n], i);
    } else if n > 0 {
      EntryOf(entries[..n], 0);
    }
  }

  lemma {:induction false} ColumnOf(row: Row, i: nat)
    requires i < |row|
    ensures |RowFields(row)| == |row| && RowFields(row)[i] == Field(row[i].name, Portable(row[i].value))
  {
    var n := |row| - 1;
    if i < n {
      ColumnOf(row[..n], i);
    } else if n > 0 {
      ColumnOf(row[..n], 0);
    }
  }

  lemma {:induction false} ValueIsShown(v: Value)
    ensures Shows(SortKeys(Portable(v)), v)
    decreases v
  {
    match v
    case Values(items) =>
      var j := SortKeys(Portable(v));
      forall i | 0 <= i < |items| ensures |j.items| == |items| && Shows(j.items[i], items[i]) {
        ItemOf(items, i);
        SortedItem(PortableItems(items), i);
        ValueIsShown(items[i]);
      }
      if items == [] { assert j.items == []; }
    case Mapping(entries) =>
      var fields := PortableEntries(entries);
      var j := SortKeys(Obj(fields));
      SortAscends(SortValues(fields));
      forall i | 0 <= i < |entries|
        ensures |j.fields| == |entries|
        ensures exists k | 0 <= k < |j.fields| ::
                  j.fields[k].name == entries[i].key && Shows(j.fields[k].value, entries[i].value)
      {
        EntryOf(entries, i);
        var k := FieldIsKept(fields, i);
        ValueIsShown(entries[i].value);
        assert j.fields[k].name == entries[i].key && Shows(j.fields[k].value, entries[i].value);
      }
      if entries == [] { assert j.fields == []; }
    case _ =>
  }

  lemma RowIsShown(row: Row)
    ensures ShowsRow(RowJson(row), row)
  {
    var fields := RowFields(row);
    var j := RowJson(row);
    SortAscends(SortValues(fields));
    forall i | 0 <= i < |row|
      ensures |j.fields| == |row|
      ensures exists k | 0 <= k < |j.fields| ::
                j.fields[k].name == row[i].name && Shows(j.fields[k].value, row[i].value)
    {
      ColumnOf(row, i);
      var k := FieldIsKept(fields, i);
      ValueIsShown(row[i].value);
      assert j.fields[k].name == row[i].name && Shows(j.fields[k].value, row[i].value);
    }
    if row == [] { assert j.fields == []; }
  }

  lemma {:induction false} RowOf(rows: seq<Row>, i: nat)
    requires i < |rows|
    ensures RowsJson(rows)[i] == RowJson(rows[i])
  {
    var n := |rows| - 1;
    if i < n { RowOf(rows[..n], i); }
  }

  // ----- users

  lemma {:induction false} UserRowOf(users: seq<User>, i: nat)
    requires i < |users|
    ensures UserRows(users)[i] == UserRow(users[i])
  {
    var n := |users| - 1;
    if i < n { UserRowOf(users[..n], i); }
  }

  /** A user with the fields in the order of their names. */
  ghost predicate ShowsUser(j: Json, u: User) {
    j == Obj([Field("email", Str(u.email)), Field("id", Num(u.id)), Field("username", Str(u.username))])
  }

  lemma UserFields(id: Field, username: Field, email: Field)
    requires id.name == "id" && username.name == "username" && email.name == "email"
    ensures SortFields([id, username, email]) == [email, id, username]
  {
    assert [id, username, email][..2] == [id, username] && [id, username][..1] == [id] && [id][..0] == [];
    assert SortFields([id]) == [id];
    assert SortFields([id, username]) == InsertField([id], username) == [id, username];
  }

  lemma UserIsShown(u: User)
    ensures ShowsUser(RowJson(UserRow(u)), u)
  {
    var row := UserRow(u);
    ThreeColumns(row);
    UserFields(Field("id", Num(u.id)), Field("username", Str(u.username)), Field("email", Str(u.email)));
  }

  lemma ThreeColumns(row: Row)
    requires |row| == 3
    ensures RowJson(row) == Obj(SortFields([Field(row[0].name, SortKeys(Portable(row[0].value))),
                                            Field(row[1].name, SortKeys(Portable(row[1].value))),
                                            Field(row[2].name, SortKeys(Portable(row[2].value)))]))
  {
    var fields := RowFields(row);
    forall i | 0 <= i < 3
      ensures |fields| == 3 && SortValues(fields)[i] == Field(row[i].name, SortKeys(Portable(row[i].value)))
    {
      ColumnOf(row, i);
      SortedValue(fields, i);
    }
    assert SortValues(fields) == [SortValues(fields)[0], SortValues(fields)[1], SortValues(fields)[2]];
  }

  /** The users referred to are the values other than null in the user columns of all rows. */
  lemma {:induction false} ReferencedUsers(dataSets: seq<DataSet>, v: Value)
    ensures v in UsersOf(dataSets) <==>
            && v != NoValue
            && exists d, row, c | d in dataSets && row in d.rows && c in row :: c.toUser && c.value == v
  {
    if dataSets != [] {
      var rest, last := dataSets[..|dataSets| - 1], dataSets[|dataSets| - 1];
      ReferencedUsers(rest, v);
      assert dataSets == rest + [last];
    }
  }

  /** Exactly the users referred to are selected, in the order of their identifiers. */
  lemma {:induction false} SelectedUsers(users: seq<User>, ids: set<Value>)
    requires OrderedById(users)
    ensures forall u :: u in Select(users, ids) <==> u in users && Number(u.id) in ids
    ensures OrderedById(Select(users, ids))
  {
    if users != [] {
      var rest, last := users[..|users| - 1], users[|users| - 1];
      SelectedUsers(rest, ids);
      assert users == rest + [last];
      var chosen := Select(rest, ids);
      forall i | 0 <= i < |chosen| ensures chosen[i].id < last.id {
        assert chosen[i] in rest;
      }
    }
  }

  // ----- the manifest

  /** The number of items of an array and the digest of its text. */
  ghost predicate Counts(j: Json, listed: Json, k: Codec) {
    && listed.Arr?
    && j == Obj([Field("count", Num(|listed.items|)), Field("sha256", Str(k.sha(k.encode(Print(listed)))))])
  }

  lemma CountFields(a: Field, b: Field)
    requires a.name == "count" && b.name == "sha256" && SortKeys(a.value) == a.value && SortKeys(b.value) == b.value
    ensures SortKeys(Obj([a, b])) == Obj([a, b])
  {
    assert [a, b][..1] == [a] && [a][..0] == [];
    assert SortValues([a, b]) == SortValues([a]) + [b] && SortValues([a]) == [a];
    assert SortFields([a]) == [a];
    assert SortFields([a, b]) == InsertField([a], b) == [a, b];
  }

  lemma CountIsShown(rows: seq<Row>, k: Codec)
    ensures Counts(SortKeys(CountJson(CountOf(rows, k))), Arr(RowsJson(rows)), k)
  {
    var c := CountOf(rows, k);
    CountFields(Field("count", Num(c.count)), Field("sha256", Str(c.sha256)));
  }

  lemma {:induction false} ManifestEntry(dataSets: seq<DataSet>, k: Codec, i: nat)
    requires i < |dataSets|
    ensures |ManifestFields(dataSets, k)| == |dataSets|
    ensures ManifestFields(dataSets, k)[i] == Field(dataSets[i].name, CountJson(CountOf(dataSets[i].rows, k)))
  {
    var n := |dataSets| - 1;
    if i < n {
      ManifestEntry(dataSets[..n], k, i);
    } else if n > 0 {
      ManifestEntry(dataSets[..n], k, 0);
    }
  }

  // ----- the document

  /** The list of a data set: its rows in order. */
  ghost predicate ShowsRows(j: Json, rows: seq<Row>) {
    j.Arr? && |j.items| == |rows| && forall i | 0 <= i < |rows| :: ShowsRow(j.items[i], rows[i])
  }

  ghost predicate ShowsDataSets(j: Json, dataSets: seq<DataSet>) {
    && j.Obj? && |j.fields| == |dataSets|
    && forall i | 0 <= i < |dataSets| ::
         j.fields[i].name == dataSets[i].name && ShowsRows(j.fields[i].value, dataSets[i].rows)
  }

  ghost predicate ShowsUsers(j: Json, users: seq<User>) {
    j.Arr? && |j.items| == |users| && forall i | 0 <= i < |users| :: ShowsUser(j.items[i], users[i])
  }

  ghost predicate HasCount(manifest: Json, name: string, listed: Json, k: Codec) {
    manifest.Obj? && exists i | 0 <= i < |manifest.fields| ::
                       manifest.fields[i].name == name && Counts(manifest.fields[i].value, listed, k)
  }

  /** One sorted entry for each data set and one for the users. */
  ghost predicate ShowsManifest(j: Json, lists: Json, users: Json, k: Codec) {
    && j.Obj? && lists.Obj? && |j.fields| == |lists.fields| + 1 && KeysAscend(j.fields)
    && (forall i | 0 <= i < |lists.fields| :: HasCount(j, lists.fields[i].name, lists.fields[i].value, k))
    && HasCount(j, "users", users, k)
  }

  ghost predicate ShowsTransfer(j: Json, dataSets: seq<DataSet>, users: seq<User>, generatedAt: string, k: Codec) {
    && j.Obj? && |j.fields| == 6
    && j.fields[0] == Field("format", Str(k.format)) && j.fields[1] == Field("format_version", Num(1))
    && j.fields[2] == Field("generated_at", Str(generatedAt))
    && j.fields[3].name == "datasets" && ShowsDataSets(j.fields[3].value, dataSets)
    && j.fields[4].name == "users" && ShowsUsers(j.fields[4].value, users)
    && j.fields[5].name == "manifest" && ShowsManifest(j.fields[5].value, j.fields[3].value, j.fields[4].value, k)
  }

  lemma DataSetsAreShown(dataSets: seq<DataSet>)
    ensures ShowsDataSets(Obj(DataSetFields(dataSets)), dataSets)
  {
    FieldsHaveLength(dataSets);
    forall i | 0 <= i < |dataSets|
      ensures DataSetFields(dataSets)[i].name == dataSets[i].name
      ensures ShowsRows(DataSetFields(dataSets)[i].value, dataSets[i].rows)
    {
      DataSetField(dataSets, i);
      forall n | 0 <= n < |dataSets[i].rows| ensures ShowsRow(RowsJson(dataSets[i].rows)[n], dataSets[i].rows[n]) {
        RowOf(dataSets[i].rows, n);
        RowIsShown(dataSets[i].rows[n]);
      }
    }
  }

  lemma UsersAreShown(users: seq<User>)
    ensures ShowsUsers(Arr(RowsJson(UserRows(users))), users)
  {
    forall i | 0 <= i < |users| ensures ShowsUser(RowsJson(UserRows(users))[i], users[i]) {
      RowOf(UserRows(users), i);
      UserRowOf(users, i);
      UserIsShown(users[i]);
    }
  }

  /** An entry of the unsorted manifest is found in the sorted one. */
  lemma EntryIsShown(entries: seq<Field>, i: nat, name: string, rows: seq<Row>, k: Codec)
    requires i < |entries| && entries[i] == Field(name, CountJson(CountOf(rows, k)))
    ensures HasCount(SortKeys(Obj(entries)), name, Arr(RowsJson(rows)), k)
  {
    var at := FieldIsKept(entries, i);
    CountIsShown(rows, k);
    assert SortKeys(Obj(entries)).fields[at].name == name;
  }

  lemma ManifestIsShown(dataSets: seq<DataSet>, users: seq<User>, k: Codec)
    ensures ShowsManifest(Manifest(dataSets, users, k), Obj(DataSetFields(dataSets)),
                          Arr(RowsJson(UserRows(users))), k)
  {
    var entries := ManifestFields(dataSets, k) + [Field("users", CountJson(CountOf(UserRows(users), k)))];
    if dataSets != [] { ManifestEntry(dataSets, k, 0); }
    FieldsHaveLength(dataSets);
    var last := FieldIsKept(entries, |dataSets|);
    SortAscends(SortValues(entries));
    forall i | 0 <= i < |dataSets|
      ensures HasCount(SortKeys(Obj(entries)), DataSetFields(dataSets)[i].name, DataSetFields(dataSets)[i].value, k)
    {
      ManifestEntry(dataSets, k, i);
      DataSetField(dataSets, i);
      EntryIsShown(entries, i, dataSets[i].name, dataSets[i].rows, k);
    }
    EntryIsShown(entries, |dataSets|, "users", UserRows(users), k);
  }

  /**
   * The document of a transfer shows the header, every row of every data set in order, the users
   * with their names and addresses, and the count and digest of each list.
   */
  lemma TransferIsShown(dataSets: seq<DataSet>, users: seq<User>, generatedAt: string, k: Codec)
    ensures ShowsTransfer(Document(dataSets, users, generatedAt, k), dataSets, users, generatedAt, k)
  {
    DataSetsAreShown(dataSets);
    UsersAreShown(users);
    ManifestIsShown(dataSets, users, k);
  }

  /** And what is read from its bytes shows the same. */
  lemma TransferReadsBack(dataSets: seq<DataSet>, users: seq<User>, generatedAt: string, k: Codec)
    ensures var read := ReadBytes(Encode(Print(Document(dataSets, users, generatedAt, k))));
            read.Some? && ShowsTransfer(read.value, dataSets, users, generatedAt, k)
  {
    TransferIsShown(dataSets, users, generatedAt, k);
    BytesReadBack(Document(dataSets, users, generatedAt, k));
  }
}
