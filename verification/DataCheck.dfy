/** The check that an update has kept the user's data: the database before it against the one after it. */
module DataCheck {
  import opened Options

  datatype Value = Null | Number(n: int) | Words(s: string) | Blob(b: seq<int>)

  datatype Column = Column(name: string, primary: bool)

  type Row = map<string, Value>

  datatype Table = Table(columns: seq<Column>, rows: seq<Row>) {
    function Names(): set<string> { set c | c in columns :: c.name }

    function Key(): seq<string> { KeyOf(columns) }

    /** Every row has a value in every column. */
    predicate Valid() { forall r :: r in rows ==> r.Keys == Names() }
  }

  function KeyOf(columns: seq<Column>): (names: seq<string>)
    ensures forall k :: k in names <==> exists c :: c in columns && c.primary && c.name == k
  {
    if columns == [] then []
    else
      var rest := KeyOf(columns[1..]);
      assert forall c :: c in columns <==> c == columns[0] || c in columns[1..];
      if columns[0].primary then [columns[0].name] + rest else rest
  }

  /** `intact` is the verdict of the integrity check, and `others` are the names in the schema that are not tables. */
  datatype Database = Database(intact: bool, tables: map<string, Table>, others: set<string>) {
    predicate Valid() { forall t :: t in tables ==> tables[t].Valid() }
  }

  const Listed: seq<string> :=
    ["bots", "sessions", "session_messages", "agent_memory", "bot_rooms", "bot_room_messages",
     "bot_functional_groups", "attachments", "image_assets", "artifacts", "projects", "project_roots"]

  const Content: set<string> := {"session_messages", "agent_memory", "bot_room_messages", "project_roots"}

  const Assets: seq<string> := ["attachments", "image_assets", "artifacts"]

  datatype Verdict = Fine | Failure(message: string)

  // ---- The specification ----

  /** SQL equality on every key column: NULL equals nothing. */
  predicate SameKey(key: seq<string>, was: Row, row: Row) {
    forall k :: k in key ==> k in was && k in row && was[k] == row[k] != Null
  }

  /** A query by this key can be run on the table. */
  predicate Answers(table: Table, key: seq<string>) { forall k :: k in key ==> k in table.Names() }

  /** What a query for one row by its key finds: the first row that matches. */
  predicate Finds(table: Table, key: seq<string>, was: Row, i: nat) {
    && i < |table.rows| && SameKey(key, was, table.rows[i])
    && forall j :: 0 <= j < i ==> !SameKey(key, was, table.rows[j])
  }

  predicate SameContent(was: Row, row: Row) { forall k :: k in was ==> k in row && row[k] == was[k] }

  ghost predicate RowKept(name: string, key: seq<string>, was: Row, after: Database) {
    && name in after.tables && Answers(after.tables[name], key)
    && exists i: nat ::
         && Finds(after.tables[name], key, was, i)
         && (name in Content ==> SameContent(was, after.tables[name].rows[i]))
  }

  ghost predicate TableKept(name: string, before: Database, after: Database) {
    name in before.tables ==>
      && before.tables[name].Key() != []
      && forall r :: r in before.tables[name].rows ==> RowKept(name, before.tables[name].Key(), r, after)
  }

  /** No asset named by the row has been lost. */
  predicate AssetKept(row: Row, oldFiles: set<string>, newFiles: set<string>) {
    "local_rel_path" in row && row["local_rel_path"].Words? && row["local_rel_path"].s in oldFiles ==>
      row["local_rel_path"].s in newFiles
  }

  predicate AssetsKept(name: string, after: Database, oldFiles: set<string>, newFiles: set<string>) {
    name !in after.others &&
    (name in after.tables ==>
      "local_rel_path" in after.tables[name].Names() &&
      forall r :: r in after.tables[name].rows ==> AssetKept(r, oldFiles, newFiles))
  }

  ghost predicate Preserved(before: Option<Database>, after: Option<Database>, oldFiles: set<string>,
      newFiles: set<string>) {
    after.Some? &&
    (before.Some? ==>
      && after.value.intact
      && (forall t :: t in Listed ==> TableKept(t, before.value, after.value))
      && forall t :: t in Assets ==> AssetsKept(t, after.value, oldFiles, newFiles))
  }

  // ---- The check ----

  method CheckData(before: Option<Database>, after: Option<Database>, oldFiles: set<string>, newFiles: set<string>)
    returns (v: Verdict)
    requires (before.Some? ==> before.value.Valid()) && (after.Some? ==> after.value.Valid())
    ensures v.Fine? <==> Preserved(before, after, oldFiles, newFiles)
  {
    if before.None? {
      return if after.None? then Failure("New database missing") else Fine;
    }
    if after.None? { return Failure("unable to open database file"); }
    if !after.value.intact { return Failure("Database integrity failed"); }
    for t := 0 to |Listed|
      invariant forall u :: 0 <= u < t ==> TableKept(Listed[u], before.value, after.value)
    {
      v := CheckTable(Listed[t], before.value, after.value);
      if v.Failure? { return; }
    }
    v := Fine;
    for t := 0 to |Assets|
      invariant v.Fine? && forall u :: 0 <= u < t ==> AssetsKept(Assets[u], after.value, oldFiles, newFiles)
    {
      v := CheckAssets(Assets[t], after.value, oldFiles, newFiles);
      if v.Failure? { return; }
    }
  }

  method CheckTable(name: string, before: Database, after: Database) returns (v: Verdict)
    requires before.Valid() && after.Valid()
    ensures v.Fine? <==> TableKept(name, before, after)
  {
    hide RowKept, Answers;
    if name !in before.tables { return Fine; }
    var key := before.tables[name].Key();
    if key == [] { return Failure("Cannot verify identity preservation for " + name); }
    var rows := before.tables[name].rows;
    for r := 0 to |rows|
      invariant forall q :: 0 <= q < r ==> RowKept(name, key, rows[q], after)
    {
      v := CheckRow(name, key, rows[r], after);
      if v.Failure? {
        assert rows[r] in rows;
        return;
      }
    }
    v := Fine;
  }

  method CheckRow(name: string, key: seq<string>, was: Row, after: Database) returns (v: Verdict)
    requires after.Valid() && forall k :: k in key ==> k in was
    ensures v.Fine? <==> RowKept(name, key, was, after)
  {
    if name !in after.tables || !Answers(after.tables[name], key) { return Failure("no such table or column"); }
    var found := Find(after.tables[name], key, was);
    if found.None? { return Failure("Data missing from " + name); }
    var row := after.tables[name].rows[found.value];
    FindsOne(after.tables[name], key, was, found.value);
    if name in Content {
      var same := CompareContent(was, row);
      if !same { return Failure("Preserved content changed in " + name); }
    }
    v := Fine;
  }

  lemma FindsOne(table: Table, key: seq<string>, was: Row, i: nat)
    requires Finds(table, key, was, i)
    ensures forall j: nat :: Finds(table, key, was, j) ==> j == i
  {
  }

  /** The first row with the same key, as a query would return it. */
  method Find(table: Table, key: seq<string>, was: Row) returns (found: Option<nat>)
    requires table.Valid() && Answers(table, key) && forall k :: k in key ==> k in was
    ensures found.Some? ==> Finds(table, key, was, found.value)
    ensures found.None? ==> forall i :: !Finds(table, key, was, i)
  {
    for i := 0 to |table.rows|
      invariant forall j :: 0 <= j < i ==> !SameKey(key, was, table.rows[j])
    {
      if SameKey(key, was, table.rows[i]) { return Some(i); }
    }
    found := None;
  }

  /** Every column of the old row, compared with the row found. */
  method CompareContent(was: Row, row: Row) returns (same: bool)
    ensures same <==> SameContent(was, row)
  {
    var rest := was.Keys;
    while rest != {}
      invariant rest <= was.Keys && forall k :: k in was && k !in rest ==> k in row && row[k] == was[k]
    {
      var k :| k in rest;
      rest := rest - {k};
      if k !in row || row[k] != was[k] { return false; }
    }
    same := true;
  }

  method CheckAssets(name: string, after: Database, oldFiles: set<string>, newFiles: set<string>) returns (v: Verdict)
    ensures v.Fine? <==> AssetsKept(name, after, oldFiles, newFiles)
  {
    if name in after.others { return Failure("no such column: local_rel_path"); }
    if name !in after.tables { return Fine; }
    if "local_rel_path" !in after.tables[name].Names() { return Failure("no such column: local_rel_path"); }
    var rows := after.tables[name].rows;
    for r := 0 to |rows|
      invariant forall q :: 0 <= q < r ==> AssetKept(rows[q], oldFiles, newFiles)
    {
      if !AssetKept(rows[r], oldFiles, newFiles) { return Failure("Asset file missing"); }
    }
    v := Fine;
  }

  // ---- What passing the check means ----

  /** The database's own constraint: a key without NULLs names at most one row. */
  predicate KeysUnique(table: Table) {
    forall i, j :: 0 <= i < j < |table.rows| ==> !SameKey(table.Key(), table.rows[i], table.rows[j])
  }

  /** An injection between indices bounds the length. */
  lemma {:induction false} Pigeonhole(f: seq<nat>, n: nat)
    requires forall i :: 0 <= i < |f| ==> f[i] < n
    requires forall i, j :: 0 <= i < j < |f| ==> f[i] != f[j]
    ensures |f| <= n
    decreases n
  {
    assert f != [] ==> f[0] < n;
    if k :| 0 <= k < |f| && f[k] == n - 1 {
      var g := f[..k] + f[k + 1..];
      Pigeonhole(g, n - 1);
    } else if n > 0 {
      Pigeonhole(f, n - 1);
    }
  }

  /** Where each old row is found again. */
  lemma {:induction false} Places(name: string, before: Database, after: Database, n: nat) returns (f: seq<nat>)
    requires name in before.tables && TableKept(name, before, after) && n <= |before.tables[name].rows|
    ensures |f| == n && forall i :: 0 <= i < n ==>
      name in after.tables && Finds(after.tables[name], before.tables[name].Key(), before.tables[name].rows[i], f[i])
  {
    f := [];
    if n > 0 {
      f := Places(name, before, after, n - 1);
      var was := before.tables[name].rows[n - 1];
      assert RowKept(name, before.tables[name].Key(), was, after);
      var i: nat :| Finds(after.tables[name], before.tables[name].Key(), was, i);
      f := f + [i];
    }
  }

  lemma SharedKey(key: seq<string>, a: Row, b: Row, row: Row)
    requires SameKey(key, a, row) && SameKey(key, b, row)
    ensures SameKey(key, a, b)
  {
  }

  /** No listed table has lost rows. */
  lemma NoTableShrank(before: Database, after: Option<Database>, oldFiles: set<string>, newFiles: set<string>,
      name: string)
    requires Preserved(Some(before), after, oldFiles, newFiles)
    requires name in Listed && name in before.tables && KeysUnique(before.tables[name])
    ensures before.tables[name].rows != [] ==> name in after.value.tables
    ensures name in after.value.tables ==> |before.tables[name].rows| <= |after.value.tables[name].rows|
  {
    var table := before.tables[name];
    var f := Places(name, before, after.value, |table.rows|);
    forall i, j | 0 <= i < j < |f|
      ensures f[i] != f[j]
    {
      if f[i] == f[j] {
        SharedKey(table.Key(), table.rows[i], table.rows[j], after.value.tables[name].rows[f[i]]);
      }
    }
    assert |f| > 0 ==> f[0] >= 0;
    if name in after.value.tables {
      Pigeonhole(f, |after.value.tables[name].rows|);
    }
  }

  /** In the four content tables every old row is there again, column by column, under its key. */
  lemma ContentKept(before: Database, after: Option<Database>, oldFiles: set<string>, newFiles: set<string>,
      name: string, was: Row, i: nat)
    requires Preserved(Some(before), after, oldFiles, newFiles)
    requires name in Listed && name in Content && name in before.tables && was in before.tables[name].rows
    requires name in after.value.tables && KeysUnique(after.value.tables[name]) && i < |after.value.tables[name].rows|
    requires after.value.tables[name].Key() == before.tables[name].Key()
    requires SameKey(before.tables[name].Key(), was, after.value.tables[name].rows[i])
    ensures SameContent(was, after.value.tables[name].rows[i])
  {
    var key := before.tables[name].Key();
    hide TableKept, AssetsKept, KeysUnique, SameKey, SameContent, Finds;
    assert TableKept(name, before, after.value);
    KeptRow(name, before, after.value, was);
    var k: nat :| Finds(after.value.tables[name], key, was, k) && SameContent(was, after.value.tables[name].rows[k]);
    UniqueFind(after.value.tables[name], was, i, k);
  }

  lemma KeptRow(name: string, before: Database, after: Database, was: Row)
    requires name in before.tables && was in before.tables[name].rows && TableKept(name, before, after)
    ensures RowKept(name, before.tables[name].Key(), was, after)
  {
  }

  lemma UniqueFind(table: Table, was: Row, i: nat, k: nat)
    requires KeysUnique(table) && i < |table.rows| && SameKey(table.Key(), was, table.rows[i])
    requires Finds(table, table.Key(), was, k)
    ensures i == k
  {
    if k < i {
      assert SameKey(table.Key(), table.rows[k], table.rows[i]);
    }
  }

  /** The same, column by column. */
  lemma EveryColumnKept(before: Database, after: Option<Database>, oldFiles: set<string>, newFiles: set<string>,
      name: string, was: Row, i: nat, k: string)
    requires Preserved(Some(before), after, oldFiles, newFiles)
    requires name in Listed && name in Content && name in before.tables && was in before.tables[name].rows
    requires name in after.value.tables && KeysUnique(after.value.tables[name]) && i < |after.value.tables[name].rows|
    requires after.value.tables[name].Key() == before.tables[name].Key()
    requires SameKey(before.tables[name].Key(), was, after.value.tables[name].rows[i])
    requires k in was
    ensures k in after.value.tables[name].rows[i] && after.value.tables[name].rows[i][k] == was[k]
  {
    ContentKept(before, after, oldFiles, newFiles, name, was, i);
  }

  /** Data whose key values are nowhere to be found fail the check: each row differs in some key column. */
  lemma LostRowFails(before: Database, after: Database, oldFiles: set<string>, newFiles: set<string>,
      name: string, was: Row)
    requires name in Listed && name in before.tables && was in before.tables[name].rows
    requires name in after.tables ==>
      forall i :: 0 <= i < |after.tables[name].rows| ==>
        exists k :: k in before.tables[name].Key() && DiffersAt(was, after.tables[name].rows[i], k)
    ensures !Preserved(Some(before), Some(after), oldFiles, newFiles)
  {
    var key := before.tables[name].Key();
    assert !RowKept(name, key, was, after);
  }

  /** The column is not there in both with one and the same value. */
  predicate DiffersAt(was: Row, row: Row, k: string) { k !in was || k !in row || row[k] != was[k] }

  /** And so does changed content: the only row with the key differs in some column. */
  lemma ChangedContentFails(before: Database, after: Database, oldFiles: set<string>, newFiles: set<string>,
      name: string, was: Row, k: string)
    requires name in Listed && name in Content && name in before.tables && was in before.tables[name].rows && k in was
    requires name in after.tables ==>
      forall i :: 0 <= i < |after.tables[name].rows| ==>
        DiffersAt(was, after.tables[name].rows[i], k)
    ensures !Preserved(Some(before), Some(after), oldFiles, newFiles)
  {
    assert !RowKept(name, before.tables[name].Key(), was, after);
  }

  /** A file that was there before the update, is named by an asset row after it, and is gone, fails the check. */
  lemma LostAssetFails(before: Database, after: Database, oldFiles: set<string>, newFiles: set<string>,
      name: string, row: Row, path: string)
    requires name in Assets && name in after.tables && row in after.tables[name].rows
    requires "local_rel_path" in row && row["local_rel_path"] == Words(path) && path in oldFiles && path !in newFiles
    ensures !Preserved(Some(before), Some(after), oldFiles, newFiles)
  {
    assert !AssetKept(row, oldFiles, newFiles);
  }

  /** Files that are still there, that were not there before, or that no asset row names, never fail it. */
  lemma AssetsKeptExactly(name: string, after: Database, oldFiles: set<string>, newFiles: set<string>)
    ensures AssetsKept(name, after, oldFiles, newFiles) <==>
      && name !in after.others
      && (name in after.tables ==>
            && "local_rel_path" in after.tables[name].Names()
            && forall row: Row, path: string ::
                 row in after.tables[name].rows && NamesAsset(row, path) && path in oldFiles ==> path in newFiles)
  {
    if name in after.tables {
      forall row: Row | row in after.tables[name].rows
        ensures AssetKept(row, oldFiles, newFiles) <==>
          forall path :: NamesAsset(row, path) && path in oldFiles ==> path in newFiles
      {
        if "local_rel_path" in row && row["local_rel_path"].Words? {
          assert NamesAsset(row, row["local_rel_path"].s);
        }
      }
    }
  }

  predicate NamesAsset(row: Row, path: string) { "local_rel_path" in row && row["local_rel_path"] == Words(path) }

  /** A row whose key holds a NULL is never found again, even in the same database. */
  lemma NullKeyFails(before: Database, after: Option<Database>, oldFiles: set<string>, newFiles: set<string>,
      name: string, was: Row, k: string)
    requires name in Listed && name in before.tables && was in before.tables[name].rows
    requires k in before.tables[name].Key() && k in was && was[k].Null?
    ensures !Preserved(Some(before), after, oldFiles, newFiles)
  {
    var key := before.tables[name].Key();
    forall row
      ensures !SameKey(key, was, row)
    {
    }
    assert after.Some? ==> !RowKept(name, key, was, after.value);
  }

  /** It is the new database whose integrity counts, and without an old one nothing else does. */
  lemma IntegrityCounts(before: Option<Database>, after: Option<Database>, oldFiles: set<string>, newFiles: set<string>)
    ensures before.None? ==> (Preserved(before, after, oldFiles, newFiles) <==> after.Some?)
    ensures before.Some? && Preserved(before, after, oldFiles, newFiles) ==> after.Some? && after.value.intact
    ensures before.Some? ==> forall intact ::
      Preserved(before, after, oldFiles, newFiles) ==>
        Preserved(Some(before.value.(intact := intact)), after, oldFiles, newFiles)
  {
    if before.Some? && after.Some? {
      forall intact, t
        ensures TableKept(t, before.value, after.value) ==> TableKept(t, before.value.(intact := intact), after.value)
      {
      }
    }
  }

  /** An intact database that can be checked at all. */
  predicate Checkable(d: Database) {
    && d.intact
    && (forall t :: t in Listed && t in d.tables ==>
          d.tables[t].Key() != [] && forall r :: r in d.tables[t].rows ==> SameKey(d.tables[t].Key(), r, r))
    && forall t :: t in Assets ==> t !in d.others && (t in d.tables ==> "local_rel_path" in d.tables[t].Names())
  }

  lemma SameTableKept(d: Database, t: string)
    requires d.Valid() && t in d.tables && KeysUnique(d.tables[t])
    ensures TableKept(t, d, d) <==>
      (d.tables[t].Key() != [] && forall r :: r in d.tables[t].rows ==> SameKey(d.tables[t].Key(), r, r))
  {
    var table, key := d.tables[t], d.tables[t].Key();
    forall r | r in table.rows
      ensures RowKept(t, key, r, d) <==> SameKey(key, r, r)
    {
      if SameKey(key, r, r) {
        var i :| 0 <= i < |table.rows| && table.rows[i] == r;
        assert Finds(table, key, r, i) && SameContent(r, table.rows[i]);
        assert Answers(table, key);
      } else {
        forall i
          ensures !Finds(table, key, r, i)
        {
        }
      }
    }
  }

  /** Data that was not touched passes exactly when it can be checked: keys without NULLs in every listed table. */
  lemma UntouchedPassesExactly(d: Database, files: set<string>)
    requires d.Valid() && forall t :: t in Listed && t in d.tables ==> KeysUnique(d.tables[t])
    ensures Preserved(Some(d), Some(d), files, files) <==> Checkable(d)
  {
    hide TableKept, KeysUnique;
    forall t | t in Listed && t in d.tables
      ensures TableKept(t, d, d) <==>
        (d.tables[t].Key() != [] && forall r :: r in d.tables[t].rows ==> SameKey(d.tables[t].Key(), r, r))
    {
      SameTableKept(d, t);
    }
    forall t | t !in d.tables
      ensures TableKept(t, d, d)
    {
      AbsentTableKept(d, t);
    }
  }

  lemma AbsentTableKept(d: Database, t: string)
    requires t !in d.tables
    ensures TableKept(t, d, d)
  {
  }
}
