/** `SqlCommandType`: decides whether command text names a stored procedure or is SQL
    text, from a per-connection-string table of procedure names. The table is read once
    per connection string from the database's procedure catalog and kept in a cache
    shared by the whole process (the static `cacheData`), modelled as a `SchemaCache`
    object that every `SqlCommandType` is given. */
module CommandTypeCache {
  import opened Wrappers
  import opened Strings
  import opened SqlTypes
  import opened Driver

  /** A database's object names (stored lower-cased) and their command kinds. */
  type ObjectTable = map<string, CommandType>

  /** The key a name is looked up under: every `[` and `]` removed, then lower-cased. */
  function LookupKey(commandText: string): string {
    Lower(Remove(Remove(commandText, '['), ']'))
  }

  /** `TryGetStoredProcedure`: the stored kind of the text's key, or `Text` when the key is
      not in the table. */
  function TryGetStoredProcedure(dbObjects: ObjectTable, commandText: string): CommandType {
    var key := LookupKey(commandText);
    if key in dbObjects then dbObjects[key] else CommandType.Text
  }

  /** The test `Get` applies first: the text contains `[` and its last `]` is its last
      character. */
  predicate EndsInBracketedName(commandText: string) {
    '[' in commandText && LastIndexOf(commandText, ']') == |commandText| - 1
  }

  /** `Get` (on the instance's `dbObjects`, passed explicitly): text that ends in a
      bracketed name is decided by the part from its last `[` on; other text is looked up
      when it is one word and is `Text` when it has a space or tab in it. The result is
      always `Text` or a kind stored in the table. */
  function Get(dbObjects: ObjectTable, commandText: string): (r: CommandType)
    ensures r == CommandType.Text || r in dbObjects.Values
  {
    if EndsInBracketedName(commandText) then
      TryGetStoredProcedure(dbObjects, commandText[LastIndexOf(commandText, '[')..])
    else if |Split(commandText, Blanks)| == 1 then
      TryGetStoredProcedure(dbObjects, commandText)
    else
      CommandType.Text
  }

  /** The table built from catalog rows: each name lower-cased and stored once with
      `kind`. A later row whose lower-cased name is already present is skipped, so the
      first occurrence wins. */
  function CatalogEntry(rows: seq<string>, kind: CommandType): (m: ObjectTable)
    decreases |rows|
  {
    if rows == [] then map[]
    else
      var m := CatalogEntry(rows[..|rows| - 1], kind);
      var key := Lower(rows[|rows| - 1]);
      if key in m then m else m[key := kind]
  }

  /** The table holds exactly the lower-cased catalog names, each with `kind`. */
  lemma {:induction false} CatalogEntryContents(rows: seq<string>, kind: CommandType)
    ensures CatalogEntry(rows, kind).Keys == set r | r in rows :: Lower(r)
    ensures forall k :: k in CatalogEntry(rows, kind) ==> CatalogEntry(rows, kind)[k] == kind
    decreases |rows|
  {
    if rows != [] {
      var init := rows[..|rows| - 1];
      CatalogEntryContents(init, kind);
      assert rows == init + [rows[|rows| - 1]];
      assert (set r | r in rows :: Lower(r)) == (set r | r in init :: Lower(r)) + {Lower(rows[|rows| - 1])};
    }
  }

  /** The process-wide `cacheData` dictionary: `None` until the first population creates
      it, then one table per connection string. */
  class SchemaCache {
    var cacheData: Option<map<string, ObjectTable>>

    constructor ()
      ensures cacheData == None
    {
      cacheData := None;
    }

    /** The tables held so far, none while the dictionary does not exist. */
    function Tables(): (tables: map<string, ObjectTable>)
      reads this
      ensures cacheData.None? ==> tables == map[]
      ensures cacheData.Some? ==> tables == cacheData.value
    {
      if cacheData.Some? then cacheData.value else map[]
    }

    /** `GetCachedObjectForDB`: the table cached for the connection string, `None` (null)
        when the dictionary does not exist or has no entry for it. */
    function GetCachedObjectForDB(connectionString: string): (r: Option<ObjectTable>)
      reads this
      ensures r.Some? <==> connectionString in Tables()
      ensures r.Some? ==> r.value == Tables()[connectionString]
    {
      if cacheData.Some? && connectionString in cacheData.value then Some(cacheData.value[connectionString])
      else None
    }

    /** Every cached table was filled from the procedure catalog: it holds only
        `StoredProcedure` entries. */
    ghost predicate OnlyProcedures()
      reads this
    {
      forall cs, k :: cs in Tables() && k in Tables()[cs] ==> Tables()[cs][k] == CommandType.StoredProcedure
    }
  }

  /** `SqlCommandType`: its own `dbObjects`, which is the very table the cache holds for
      the connection string it was registered under. */
  class SqlCommandType {
    const cache: SchemaCache
    var dbObjects: ObjectTable

    /** The new object before the constructor's body runs: no table yet. The body is
        `NewSqlCommandTypeAsWritten`. */
    constructor (cache: SchemaCache)
      ensures this.cache == cache && dbObjects == map[]
    {
      this.cache := cache;
      dbObjects := map[];
    }

    /** `PopulateCacheData`: creates the dictionary if it does not exist yet, then reads
        the procedure catalog through a connection opened on the caller's string, and
        registers the new table under the string that connection reports,
        `reportedConnectionString`. The registration fails when that key is already
        taken. */
    method PopulateCacheData(reportedConnectionString: string, procedureNames: seq<string>)
        returns (failure: Option<Error>)
      modifies this, cache
      ensures reportedConnectionString in old(cache.Tables()) ==>
        failure == Some(DuplicateKey(reportedConnectionString)) && dbObjects == map[] && cache.cacheData == old(cache.cacheData)
      ensures reportedConnectionString !in old(cache.Tables()) ==>
        && failure.None?
        && dbObjects == CatalogEntry(procedureNames, CommandType.StoredProcedure)
        && cache.cacheData == Some(old(cache.Tables())[reportedConnectionString := dbObjects])
    {
      if cache.cacheData.None? {
        cache.cacheData := Some(map[]);
      }
      failure := ExtractSchemaDetail(reportedConnectionString, procedureNames, CommandType.StoredProcedure);
    }

    /** `ExtractSchemaDetail`: starts a new empty table and registers it under the key (the
        dictionary's `Add`, which throws an `ArgumentException` on a key already present),
        then adds each row's lower-cased name with `kind` unless it is already there. The
        cache holds the same table object, so it sees every addition; here the cache entry
        is rewritten with each addition. */
    method ExtractSchemaDetail(key: string, rows: seq<string>, kind: CommandType) returns (failure: Option<Error>)
      requires cache.cacheData.Some?
      modifies this, cache
      ensures key in old(cache.cacheData.value) ==>
        failure == Some(DuplicateKey(key)) && dbObjects == map[] && cache.cacheData == old(cache.cacheData)
      ensures key !in old(cache.cacheData.value) ==>
        && failure.None?
        && dbObjects == CatalogEntry(rows, kind)
        && cache.cacheData == Some(old(cache.cacheData.value)[key := dbObjects])
    {
      var entries := cache.cacheData.value;
      dbObjects := map[];
      if key in entries {
        return Some(DuplicateKey(key));
      }
      failure := None;
      cache.cacheData := Some(entries[key := dbObjects]);
      var i := 0;
      while i < |rows|
        invariant 0 <= i <= |rows|
        invariant dbObjects == CatalogEntry(rows[..i], kind)
        invariant cache.cacheData == Some(entries[key := dbObjects])
      {
        assert rows[..i + 1][..i] == rows[..i];
        var name := Lower(rows[i]);
        if name !in dbObjects {
          dbObjects := dbObjects[name := kind];
          cache.cacheData := Some(entries[key := dbObjects]);
        }
        i := i + 1;
      }
      assert rows[..i] == rows;
    }
  }

  /** `new SqlCommandType(connectionString)` as written. It looks the table up under the
      caller's `connectionString` and reuses it when it is there, leaving the cache alone.
      Otherwise it populates a table from the procedure catalog and registers it under
      `reportedConnectionString`, the string the opened connection reports (the client
      drops a password from it unless Persist Security Info is set). That registration
      throws when the reported string is already a key. */
  method NewSqlCommandTypeAsWritten(cache: SchemaCache, connectionString: string, reportedConnectionString: string,
      procedureNames: seq<string>) returns (r: Result<SqlCommandType, Error>)
    modifies cache
    ensures r.Success? ==> fresh(r.value) && r.value.cache == cache
    ensures old(cache.GetCachedObjectForDB(connectionString)).Some? ==>
      && r.Success?
      && r.value.dbObjects == old(cache.GetCachedObjectForDB(connectionString)).value
      && cache.cacheData == old(cache.cacheData)
    ensures old(cache.GetCachedObjectForDB(connectionString)).None? && reportedConnectionString in old(cache.Tables()) ==>
      r == Failure(DuplicateKey(reportedConnectionString)) && cache.cacheData == old(cache.cacheData)
    ensures old(cache.GetCachedObjectForDB(connectionString)).None? && reportedConnectionString !in old(cache.Tables()) ==>
      && r.Success?
      && r.value.dbObjects == CatalogEntry(procedureNames, CommandType.StoredProcedure)
      && cache.cacheData == Some(old(cache.Tables())[reportedConnectionString := r.value.dbObjects])
    ensures old(cache.OnlyProcedures()) ==> cache.OnlyProcedures()
  {
    var instance := new SqlCommandType(cache);
    var cached := cache.GetCachedObjectForDB(connectionString);
    if cached.Some? {
      instance.dbObjects := cached.value;
      return Success(instance);
    }
    var failure := instance.PopulateCacheData(reportedConnectionString, procedureNames);
    if failure.Some? {
      return Failure(failure.value);
    }
    CatalogEntryContents(procedureNames, CommandType.StoredProcedure);
    r := Success(instance);
  }

  /** `new SqlCommandType(connectionString)` as intended: the table is registered under the
      string it is looked up by, so construction never fails. The new instance's table is
      the cached one when there is one, otherwise the procedure catalog's. Either way it is
      afterwards the cache's entry for the string. */
  method NewSqlCommandType(cache: SchemaCache, connectionString: string, procedureNames: seq<string>)
      returns (instance: SqlCommandType)
    modifies cache
    ensures fresh(instance) && instance.cache == cache
    ensures old(cache.GetCachedObjectForDB(connectionString)).Some? ==>
      instance.dbObjects == old(cache.GetCachedObjectForDB(connectionString)).value && cache.cacheData == old(cache.cacheData)
    ensures old(cache.GetCachedObjectForDB(connectionString)).None? ==>
      && instance.dbObjects == CatalogEntry(procedureNames, CommandType.StoredProcedure)
      && cache.cacheData == Some(old(cache.Tables())[connectionString := instance.dbObjects])
    ensures cache.GetCachedObjectForDB(connectionString) == Some(instance.dbObjects)
    ensures old(cache.OnlyProcedures()) ==> cache.OnlyProcedures()
  {
    var r := NewSqlCommandTypeAsWritten(cache, connectionString, connectionString, procedureNames);
    instance := r.value;
  }

  // ---------------------------------------------------------------------------------
  // What `Get` promises.

  /** Text with a `[` that ends in `]` is classified by the part from its last `[` on,
      whatever precedes it: `prefix + "[" + name + "]"` is classified as
      `"[" + name + "]"` alone is, by looking up `name` with its closing brackets removed,
      lower-cased. So `dbo.[X]` looks up `x`. */
  lemma GetDecidedByBracketedSuffix(dbObjects: ObjectTable, prefix: string, name: string)
    requires '[' !in name
    ensures Get(dbObjects, prefix + "[" + name + "]") == Get(dbObjects, "[" + name + "]")
    ensures Get(dbObjects, "[" + name + "]") == TryGetStoredProcedure(dbObjects, "[" + name + "]")
    ensures LookupKey("[" + name + "]") == Lower(Remove(name, ']'))
  {
    var suffix := "[" + name + "]";
    assert prefix + "[" + name + "]" == prefix + suffix;
    GetBracketedSuffix(dbObjects, prefix, suffix, name);
    GetBracketedSuffix(dbObjects, "", suffix, name);
    assert "" + suffix == suffix;
    BracketedKey(name);
  }

  /** The part of `prefix + suffix` from its last `[` is `suffix`. */
  lemma GetBracketedSuffix(dbObjects: ObjectTable, prefix: string, suffix: string, name: string)
    requires '[' !in name && suffix == "[" + name + "]"
    ensures Get(dbObjects, prefix + suffix) == TryGetStoredProcedure(dbObjects, suffix)
  {
    var text := prefix + suffix;
    BracketedSuffixFound(prefix, suffix, name);
    assert text[|prefix|..] == suffix;
  }

  lemma BracketedKey(name: string)
    requires '[' !in name
    ensures LookupKey("[" + name + "]") == Lower(Remove(name, ']'))
  {
    var suffix := "[" + name + "]";
    assert suffix == "[" + (name + "]");
    RemoveAppend("[", name + "]", '[');
    RemoveAppend(name, "]", '[');
    RemoveAppend(name, "]", ']');
  }

  lemma BracketedSuffixFound(prefix: string, suffix: string, name: string)
    requires '[' !in name && suffix == "[" + name + "]"
    ensures EndsInBracketedName(prefix + suffix)
    ensures LastIndexOf(prefix + suffix, '[') == |prefix|
  {
    var text := prefix + suffix;
    var n := |text|;
    assert text[n - 1] == ']';
    LastIndexOfIs(text, ']', n - 1);
    assert text[|prefix|] == '[';
    forall j | |prefix| < j < n
      ensures text[j] != '['
    {
      if j < n - 1 {
        assert text[j] == name[j - |prefix| - 1];
      }
    }
    LastIndexOfIs(text, '[', |prefix|);
  }

  /** Text that does not end in a bracketed name is looked up as a whole when it has no
      space and no tab, and is `Text` when it has one. `Get` asks whether `Split` gives one
      piece; this states the same rule per character, which rests on `Split`'s contract
      that there is one piece exactly when no character is a separator. */
  lemma GetUnbracketed(dbObjects: ObjectTable, commandText: string)
    requires !EndsInBracketedName(commandText)
    ensures (forall i :: 0 <= i < |commandText| ==> commandText[i] !in Blanks) ==>
      Get(dbObjects, commandText) == TryGetStoredProcedure(dbObjects, commandText)
    ensures (exists i :: 0 <= i < |commandText| && commandText[i] in Blanks) ==>
      Get(dbObjects, commandText) == CommandType.Text
  {
  }

  /** The part of the text `Get` looks up: from the last `[` on when the text ends in a
      bracketed name, otherwise the whole text. */
  function LookedUpPart(commandText: string): (part: string)
    ensures EndsInBracketedName(commandText) ==> part == commandText[LastIndexOf(commandText, '[')..]
    ensures !EndsInBracketedName(commandText) ==> part == commandText
  {
    if EndsInBracketedName(commandText) then commandText[LastIndexOf(commandText, '[')..] else commandText
  }

  /** Text whose looked-up part has a key the table does not hold classifies as `Text`:
      `MissingTable`, `[Foo]` and `dbo.[Foo]` alike when `foo` is not in the table. */
  lemma UnknownNameIsText(dbObjects: ObjectTable, commandText: string)
    requires LookupKey(LookedUpPart(commandText)) !in dbObjects
    ensures Get(dbObjects, commandText) == CommandType.Text
  {
  }

  /** Classification ignores case: texts that lower-case to the same string classify the
      same, so `AddToTestTable` and `addtotesttable` do. */
  lemma {:induction false} GetIgnoresCase(dbObjects: ObjectTable, a: string, b: string)
    requires Lower(a) == Lower(b)
    ensures Get(dbObjects, a) == Get(dbObjects, b)
  {
    GetSameAsLowered(dbObjects, a);
    GetSameAsLowered(dbObjects, b);
  }

  /** Brackets around a one-word name change nothing: `[AddToTestTable]` classifies as
      `AddToTestTable` does. */
  lemma {:induction false} BracketsAroundNameIgnored(dbObjects: ObjectTable, name: string)
    requires '[' !in name && ']' !in name
    requires forall i :: 0 <= i < |name| ==> name[i] !in Blanks
    ensures Get(dbObjects, "[" + name + "]") == Get(dbObjects, name)
  {
    GetBracketedWord(dbObjects, name, "[" + name + "]");
    GetPlainName(dbObjects, name);
  }

  /** On a table built from the procedure catalog, `Get` only ever answers
      `StoredProcedure` or `Text`. */
  lemma ProcedureTableAnswers(rows: seq<string>, commandText: string)
    ensures Get(CatalogEntry(rows, CommandType.StoredProcedure), commandText) in
      {CommandType.StoredProcedure, CommandType.Text}
  {
    CatalogEntryContents(rows, CommandType.StoredProcedure);
  }

  /** The catalog of the scenarios below: `AddToTestTable` and `Sproc with spaces in name`. */
  function TestProcedures(): (m: ObjectTable)
    ensures m.Keys == {"addtotesttable", "sproc with spaces in name"}
    ensures forall k :: k in m ==> m[k] == CommandType.StoredProcedure
  {
    var rows := ["AddToTestTable", "Sproc with spaces in name"];
    AddToTestTableName();
    SprocWithSpacesName();
    assert rows[..1] == ["AddToTestTable"] && rows[..1][..0] == [];
    assert CatalogEntry(rows[..1], CommandType.StoredProcedure) == map["addtotesttable" := CommandType.StoredProcedure];
    assert "sproc with spaces in name" != "addtotesttable";
    CatalogEntry(rows, CommandType.StoredProcedure)
  }

  /** The procedure is found by its name as written, lower-cased, or in brackets. */
  lemma ProcedureFoundScenario()
    ensures Get(TestProcedures(), "AddToTestTable") == CommandType.StoredProcedure
    ensures Get(TestProcedures(), "addtotesttable") == CommandType.StoredProcedure
    ensures Get(TestProcedures(), "[AddToTestTable]") == CommandType.StoredProcedure
  {
    ProcedureFoundByName();
    ProcedureFoundLowerCase();
    ProcedureFoundBracketed();
  }

  lemma ProcedureFoundLowerCase()
    ensures Get(TestProcedures(), "addtotesttable") == CommandType.StoredProcedure
  {
    ProcedureFoundByName();
    GetIgnoresCase(TestProcedures(), "AddToTestTable", "addtotesttable");
  }

  lemma ProcedureFoundBracketed()
    ensures Get(TestProcedures(), "[AddToTestTable]") == CommandType.StoredProcedure
  {
    GetBracketedWord(TestProcedures(), "AddToTestTable", "[AddToTestTable]");
    ProcedureFoundByName();
  }

  lemma ProcedureFoundByName()
    ensures Get(TestProcedures(), "AddToTestTable") == CommandType.StoredProcedure
    ensures TryGetStoredProcedure(TestProcedures(), "AddToTestTable") == CommandType.StoredProcedure
    ensures Lower("AddToTestTable") == Lower("addtotesttable")
    ensures '[' !in "AddToTestTable" && ']' !in "AddToTestTable"
    ensures forall i :: 0 <= i < |"AddToTestTable"| ==> "AddToTestTable"[i] !in Blanks
  {
    AddToTestTableName();
    PlainName("AddToTestTable", "addtotesttable");
    GetPlainName(TestProcedures(), "AddToTestTable");
  }

  /** A name the catalog lacks is `Text`. */
  lemma MissingNameScenario()
    ensures Get(TestProcedures(), "MissingTable") == CommandType.Text
  {
    MissingTableName();
    PlainName("MissingTable", "missingtable");
    UnknownNameIsText(TestProcedures(), "MissingTable");
  }

  /** SQL with spaces or with tabs between its words is `Text`. */
  lemma SqlWithBlanksScenario()
    ensures Get(TestProcedures(), "SELECT * FROM TestTable") == CommandType.Text
    ensures Get(TestProcedures(), "SELECT\t*\tFROM\tTestTable") == CommandType.Text
  {
    var spaced := "SELECT * FROM TestTable";
    var tabbed := "SELECT\t*\tFROM\tTestTable";
    assert spaced[6] in Blanks && tabbed[6] in Blanks;
    assert '[' !in spaced && '[' !in tabbed;
    GetUnbracketed(TestProcedures(), spaced);
    GetUnbracketed(TestProcedures(), tabbed);
  }

  /** A bracketed procedure name with spaces in it is found, because the bracket rule is
      applied before the split rule. */
  lemma BracketedNameWithSpacesScenario()
    ensures Get(TestProcedures(), "[Sproc with spaces in name]") == CommandType.StoredProcedure
  {
    SprocWithSpacesName();
    SprocWithSpacesText();
    PlainName("Sproc with spaces in name", "sproc with spaces in name");
    GetBracketedWord(TestProcedures(), "Sproc with spaces in name", "[Sproc with spaces in name]");
  }

  /** SQL text that ends in a bracketed name is decided by that name alone, even though it
      has spaces: `SELECT * FROM [TestTable]` is `Text` only because no procedure is called
      `TestTable`, and the same query over `[AddToTestTable]` classifies as
      `StoredProcedure`. */
  lemma BracketedQueryScenario()
    ensures Get(TestProcedures(), "SELECT * FROM [TestTable]") == CommandType.Text
    ensures Get(TestProcedures(), "SELECT * FROM [AddToTestTable]") == CommandType.StoredProcedure
  {
    BracketedTestTableQuery();
    BracketedProcedureQuery();
  }

  lemma BracketedTestTableQuery()
    ensures Get(TestProcedures(), "SELECT * FROM [TestTable]") == CommandType.Text
  {
    TestTableName();
    PlainName("TestTable", "testtable");
    GetBracketedName(TestProcedures(), "SELECT * FROM ", "TestTable", "SELECT * FROM [TestTable]");
  }

  lemma BracketedProcedureQuery()
    ensures Get(TestProcedures(), "SELECT * FROM [AddToTestTable]") == CommandType.StoredProcedure
  {
    AddToTestTableName();
    PlainName("AddToTestTable", "addtotesttable");
    GetBracketedName(TestProcedures(), "SELECT * FROM ", "AddToTestTable", "SELECT * FROM [AddToTestTable]");
  }

  /** Facts about the scenarios' literal strings. Each is computed in a lemma of its own:
      stated inside the scenarios, next to `Get` on the same literals, they cost the
      solver several times as much. */
  lemma AddToTestTableName()
    ensures '[' !in "AddToTestTable" && ']' !in "AddToTestTable"
    ensures forall i :: 0 <= i < |"AddToTestTable"| ==> "AddToTestTable"[i] !in Blanks
    ensures Lower("AddToTestTable") == "addtotesttable" == Lower("addtotesttable")
    ensures "SELECT * FROM [AddToTestTable]" == "SELECT * FROM " + "[" + "AddToTestTable" + "]"
  {
    AddToTestTableLetters();
    AddToTestTableLowered();
    AddToTestTableQueryText();
  }

  lemma AddToTestTableLetters()
    ensures '[' !in "AddToTestTable" && ']' !in "AddToTestTable"
    ensures forall i :: 0 <= i < |"AddToTestTable"| ==> "AddToTestTable"[i] !in Blanks
  {
  }

  lemma AddToTestTableLowered()
    ensures Lower("AddToTestTable") == "addtotesttable" == Lower("addtotesttable")
  {
  }

  lemma AddToTestTableQueryText()
    ensures "SELECT * FROM [AddToTestTable]" == "SELECT * FROM " + "[" + "AddToTestTable" + "]"
  {
  }

  lemma MissingTableName()
    ensures '[' !in "MissingTable" && ']' !in "MissingTable"
    ensures Lower("MissingTable") == "missingtable"
  {
  }

  lemma TestTableName()
    ensures '[' !in "TestTable" && ']' !in "TestTable"
    ensures Lower("TestTable") == "testtable"
    ensures "SELECT * FROM [TestTable]" == "SELECT * FROM " + "[" + "TestTable" + "]"
  {
  }

  lemma SprocWithSpacesName()
    ensures '[' !in "Sproc with spaces in name" && ']' !in "Sproc with spaces in name"
    ensures Lower("Sproc with spaces in name") == "sproc with spaces in name"
  {
  }

  lemma SprocWithSpacesText()
    ensures "[Sproc with spaces in name]" == "[" + "Sproc with spaces in name" + "]"
  {
  }

  /** A name without brackets has itself, lower-cased, as its key. */
  lemma PlainName(name: string, key: string)
    requires '[' !in name && ']' !in name && Lower(name) == key
    ensures Remove(name, ']') == name && LookupKey(name) == key
  {
  }

  /** A one-word name without `[` is looked up as it stands. */
  lemma GetPlainName(dbObjects: ObjectTable, name: string)
    requires '[' !in name && forall i :: 0 <= i < |name| ==> name[i] !in Blanks
    ensures Get(dbObjects, name) == TryGetStoredProcedure(dbObjects, name)
  {
    GetUnbracketed(dbObjects, name);
  }

  /** A bracketed name on its own is looked up as that name. */
  lemma GetBracketedWord(dbObjects: ObjectTable, name: string, text: string)
    requires '[' !in name && ']' !in name && text == "[" + name + "]"
    ensures Get(dbObjects, text) == TryGetStoredProcedure(dbObjects, name)
  {
    assert "" + "[" + name + "]" == text;
    GetBracketedName(dbObjects, "", name, text);
  }

  /** Text ending in a bracketed name is looked up as that name. */
  lemma GetBracketedName(dbObjects: ObjectTable, prefix: string, name: string, text: string)
    requires '[' !in name && ']' !in name && text == prefix + "[" + name + "]"
    ensures Get(dbObjects, text) == TryGetStoredProcedure(dbObjects, name)
  {
    GetDecidedByBracketedSuffix(dbObjects, prefix, name);
  }

  /** Constructing a second classifier for a connection string already cached reuses the
      first one's table, whatever the catalog now holds. */
  method ConstructTwice(cache: SchemaCache, connectionString: string, first: seq<string>, later: seq<string>)
      returns (a: SqlCommandType, b: SqlCommandType)
    requires connectionString !in cache.Tables()
    modifies cache
    ensures a.dbObjects == b.dbObjects == CatalogEntry(first, CommandType.StoredProcedure)
    ensures cache.GetCachedObjectForDB(connectionString) == Some(b.dbObjects)
  {
    a := NewSqlCommandType(cache, connectionString, first);
    b := NewSqlCommandType(cache, connectionString, later);
  }

  /** As written, when the opened connection reports a string other than the caller's
      (a password dropped from it), the first construction registers its table under the
      reported string, the second misses the cache under the caller's string, and its
      registration then fails on the key the first one took. */
  method ConstructTwiceAsWritten(cache: SchemaCache, connectionString: string, reportedConnectionString: string,
      first: seq<string>, later: seq<string>) returns (a: Result<SqlCommandType, Error>, b: Result<SqlCommandType, Error>)
    requires connectionString != reportedConnectionString
    requires connectionString !in cache.Tables() && reportedConnectionString !in cache.Tables()
    modifies cache
    ensures a.Success? && a.value.dbObjects == CatalogEntry(first, CommandType.StoredProcedure)
    ensures b == Failure(DuplicateKey(reportedConnectionString))
    ensures cache.GetCachedObjectForDB(connectionString).None?
  {
    a := NewSqlCommandTypeAsWritten(cache, connectionString, reportedConnectionString, first);
    b := NewSqlCommandTypeAsWritten(cache, connectionString, reportedConnectionString, later);
  }

  /** Helpers for the lemmas above. */

  lemma GetSameAsLowered(dbObjects: ObjectTable, s: string)
    ensures Get(dbObjects, s) == Get(dbObjects, Lower(s))
  {
    var l := Lower(s);
    BracketTestLowered(s);
    if EndsInBracketedName(s) {
      var j := LastIndexOf(s, '[');
      LastIndexOfLowered(s, '[');
      assert l[j..] == Lower(s[j..]);
      KeyOfLowered(s[j..]);
    } else {
      forall i | 0 <= i < |s|
        ensures l[i] in Blanks <==> s[i] in Blanks
      {
        LowerKeepsNonLetter(s, ' ', i);
        LowerKeepsNonLetter(s, '\t', i);
      }
      KeyOfLowered(s);
    }
  }

  lemma BracketTestLowered(s: string)
    ensures EndsInBracketedName(Lower(s)) == EndsInBracketedName(s)
  {
    var l := Lower(s);
    assert ('[' in s) == ('[' in l) by {
      if '[' in s {
        var i :| 0 <= i < |s| && s[i] == '[';
        LowerKeepsNonLetter(s, '[', i);
      }
      if '[' in l {
        var i :| 0 <= i < |l| && l[i] == '[';
        LowerKeepsNonLetter(s, '[', i);
      }
    }
    LastIndexOfLowered(s, ']');
  }

  lemma {:induction false} LastIndexOfLowered(s: string, c: char)
    requires c == '[' || c == ']'
    ensures LastIndexOf(Lower(s), c) == LastIndexOf(s, c)
    decreases |s|
  {
    if |s| > 0 {
      var init := s[..|s| - 1];
      assert Lower(s)[..|s| - 1] == Lower(init);
      LowerKeepsNonLetter(s, c, |s| - 1);
      LastIndexOfLowered(init, c);
    }
  }

  lemma KeyOfLowered(s: string)
    ensures LookupKey(Lower(s)) == LookupKey(s)
  {
    LowerRemoveCommute(s, '[');
    LowerRemoveCommute(Remove(s, '['), ']');
    LowerRemoveCommute(Lower(s), '[');
    LowerRemoveCommute(Remove(Lower(s), '['), ']');
    LowerIdempotent(s);
    LowerIdempotent(Remove(Remove(s, '['), ']'));
  }
}
