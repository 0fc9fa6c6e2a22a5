/** `SqlCommandTypeDecider`, the older classifier: one process-wide list of object names,
    filled by the first construction from the table catalog and then the procedure
    catalog, and matched exactly (case-sensitive, brackets kept) against one-word command
    text. */
module CommandTypeDecider {
  import opened Wrappers
  import opened Strings
  import opened SqlTypes
  import opened Driver

  /** Object names exactly as the catalog spells them, with their command kinds. */
  type ObjectList = map<string, CommandType>

  /** What filling the list leaves behind: the entries added so far and, when an `Add`
      met a name already present, the `ArgumentException` it threw. The entries added
      before the failure stay in the list. */
  datatype Population = Population(objects: ObjectList, error: Option<Error>)

  /** Rows `rows[i]` and `rows[j]` at different positions never repeat a name, and none is
      already in `m`. */
  predicate AllNew(m: ObjectList, rows: seq<string>) {
    && (forall i :: 0 <= i < |rows| ==> rows[i] !in m)
    && (forall i, j :: 0 <= i < j < |rows| ==> rows[i] != rows[j])
  }

  /** `SortedList.Add` for each row in order, stopping at the first name already present. */
  function AddRows(m: ObjectList, rows: seq<string>, kind: CommandType): (p: Population)
    ensures p.error.None? ==> p.objects.Keys == m.Keys + set r | r in rows
    ensures m.Keys <= p.objects.Keys
    ensures forall k :: k in m ==> p.objects[k] == m[k]
    ensures forall k :: k in p.objects && k !in m ==> p.objects[k] == kind
    ensures p.error.Some? ==> exists i :: 0 <= i < |rows| && p.error.value == DuplicateKey(rows[i])
    decreases |rows|
  {
    if rows == [] then Population(m, None)
    else if rows[0] in m then Population(m, Some(DuplicateKey(rows[0])))
    else
      var p := AddRows(m[rows[0] := kind], rows[1..], kind);
      assert (set r | r in rows) == {rows[0]} + set r | r in rows[1..];
      assert p.error.Some? ==> exists i :: 0 <= i < |rows| && p.error.value == DuplicateKey(rows[i]) by {
        if p.error.Some? {
          var i :| 0 <= i < |rows[1..]| && p.error.value == DuplicateKey(rows[1..][i]);
          assert rows[i + 1] == rows[1..][i];
        }
      }
      p
  }

  /** Filling succeeds exactly when no row repeats a name already present or an earlier
      row's name. */
  lemma {:induction false} AddRowsSucceedsIffAllNew(m: ObjectList, rows: seq<string>, kind: CommandType)
    ensures AddRows(m, rows, kind).error.None? <==> AllNew(m, rows)
    decreases |rows|
  {
    if rows != [] {
      var m' := m[rows[0] := kind];
      AddRowsSucceedsIffAllNew(m', rows[1..], kind);
      if rows[0] !in m {
        if AllNew(m', rows[1..]) {
          forall i, j | 0 <= i < j < |rows|
            ensures rows[i] != rows[j]
          {
            if i == 0 {
              assert rows[j] == rows[1..][j - 1];
            } else {
              assert rows[i] == rows[1..][i - 1] && rows[j] == rows[1..][j - 1];
            }
          }
          forall i | 0 <= i < |rows|
            ensures rows[i] !in m
          {
            if i > 0 {
              assert rows[i] == rows[1..][i - 1];
            }
          }
        } else if AllNew(m, rows) {
          forall i | 0 <= i < |rows[1..]|
            ensures rows[1..][i] !in m'
          {
            assert rows[1..][i] == rows[i + 1];
            assert rows[0] != rows[i + 1];
          }
          forall i, j | 0 <= i < j < |rows[1..]|
            ensures rows[1..][i] != rows[1..][j]
          {
            assert rows[1..][i] == rows[i + 1] && rows[1..][j] == rows[j + 1];
          }
          assert false;
        }
      }
    }
  }

  /** Construction's filling: tables as `TableDirect`, then, only when that succeeded,
      procedures as `StoredProcedure`. */
  function Populate(tables: seq<string>, procedures: seq<string>): (p: Population)
    ensures forall k :: k in p.objects ==> p.objects[k] in {CommandType.TableDirect, CommandType.StoredProcedure}
  {
    var afterTables := AddRows(map[], tables, CommandType.TableDirect);
    if afterTables.error.Some? then afterTables
    else AddRows(afterTables.objects, procedures, CommandType.StoredProcedure)
  }

  /** Filling succeeds exactly when all table and procedure names are distinct; then every
      table is `TableDirect` and every procedure `StoredProcedure`, and nothing else is
      listed. */
  lemma PopulateContents(tables: seq<string>, procedures: seq<string>)
    ensures Populate(tables, procedures).error.None? <==> AllNew(map[], tables + procedures)
    ensures var p := Populate(tables, procedures);
      p.error.None? ==>
        && p.objects.Keys == (set r | r in tables) + (set r | r in procedures)
        && (forall t :: t in tables ==> p.objects[t] == CommandType.TableDirect)
        && (forall s :: s in procedures ==> p.objects[s] == CommandType.StoredProcedure)
  {
    var afterTables := AddRows(map[], tables, CommandType.TableDirect);
    AddRowsSucceedsIffAllNew(map[], tables, CommandType.TableDirect);
    AllNewAppend(tables, procedures);
    if afterTables.error.None? {
      AddRowsSucceedsIffAllNew(afterTables.objects, procedures, CommandType.StoredProcedure);
      var p := Populate(tables, procedures);
      if p.error.None? {
        forall s | s in procedures
          ensures p.objects[s] == CommandType.StoredProcedure
        {
          var i :| 0 <= i < |procedures| && procedures[i] == s;
          assert procedures[i] !in afterTables.objects;
        }
      }
    }
  }

  /** The names of `a + b` are all distinct exactly when those of `a` are, those of `b`
      are, and no name of `b` is one of `a`'s. */
  lemma AllNewAppend(a: seq<string>, b: seq<string>)
    ensures AllNew(map[], a + b) <==>
      AllNew(map[], a) && AllNew(map k | k in a :: CommandType.TableDirect, b)
  {
    var ab := a + b;
    var m := map k | k in a :: CommandType.TableDirect;
    if AllNew(map[], a) && AllNew(m, b) {
      forall i, j | 0 <= i < j < |ab|
        ensures ab[i] != ab[j]
      {
        if j < |a| {
        } else if i < |a| {
          assert ab[j] == b[j - |a|] && ab[j] !in m;
        } else {
          assert ab[i] == b[i - |a|] && ab[j] == b[j - |a|];
        }
      }
    }
    if AllNew(map[], ab) {
      forall i, j | 0 <= i < j < |a|
        ensures a[i] != a[j]
      {
        assert a[i] == ab[i] && a[j] == ab[j];
      }
      forall i, k | 0 <= i < |b| && 0 <= k < |a|
        ensures a[k] != b[i]
      {
        assert a[k] == ab[k] && b[i] == ab[|a| + i];
      }
      forall i, j | 0 <= i < j < |b|
        ensures b[i] != b[j]
      {
        assert b[i] == ab[|a| + i] && b[j] == ab[|a| + j];
      }
    }
  }

  /** `GetCommandType`: one-word text (no space, no tab) that is a listed name, exactly as
      spelled, gets that name's kind; everything else is `Text`. */
  function GetCommandType(dbObjects: ObjectList, commandText: string): (r: CommandType)
    ensures r != CommandType.Text ==> commandText in dbObjects && r == dbObjects[commandText]
    ensures (commandText in dbObjects && forall i :: 0 <= i < |commandText| ==> commandText[i] !in Blanks) ==>
      r == dbObjects[commandText]
    ensures (exists i :: 0 <= i < |commandText| && commandText[i] in Blanks) ==> r == CommandType.Text
  {
    if |Split(commandText, Blanks)| == 1 && commandText in dbObjects then dbObjects[commandText]
    else CommandType.Text
  }

  /** On any list the constructor leaves, the answer is `TableDirect`, `StoredProcedure` or
      `Text`. */
  lemma GetCommandTypeRange(tables: seq<string>, procedures: seq<string>, commandText: string)
    ensures GetCommandType(Populate(tables, procedures).objects, commandText) in
      {CommandType.TableDirect, CommandType.StoredProcedure, CommandType.Text}
  {
  }

  /** The list of the scenario below: table `TestTable` and procedure `AddToTestTable`. */
  function TestObjects(): (m: ObjectList)
    ensures m == map["TestTable" := CommandType.TableDirect, "AddToTestTable" := CommandType.StoredProcedure]
  {
    var tables, procedures := ["TestTable"], ["AddToTestTable"];
    PopulateContents(tables, procedures);
    assert AllNew(map[], tables + procedures);
    Populate(tables, procedures).objects
  }

  /** The match is exact: a procedure listed as `AddToTestTable` is not found as
      `addtotesttable` or `[AddToTestTable]`, and a table is found as `TableDirect`. */
  lemma ExactMatchScenario()
    ensures GetCommandType(TestObjects(), "AddToTestTable") == CommandType.StoredProcedure
    ensures GetCommandType(TestObjects(), "TestTable") == CommandType.TableDirect
    ensures GetCommandType(TestObjects(), "addtotesttable") == CommandType.Text
    ensures GetCommandType(TestObjects(), "[AddToTestTable]") == CommandType.Text
  {
    ListedProcedureFound();
    ListedTableFound();
    UnlistedSpellingsAreText();
  }

  lemma ListedProcedureFound()
    ensures GetCommandType(TestObjects(), "AddToTestTable") == CommandType.StoredProcedure
  {
    OneWord("AddToTestTable");
  }

  lemma ListedTableFound()
    ensures GetCommandType(TestObjects(), "TestTable") == CommandType.TableDirect
  {
    OneWord("TestTable");
  }

  lemma UnlistedSpellingsAreText()
    ensures GetCommandType(TestObjects(), "addtotesttable") == CommandType.Text
    ensures GetCommandType(TestObjects(), "[AddToTestTable]") == CommandType.Text
  {
    var m := TestObjects();
    assert "addtotesttable" !in m;
    assert "[AddToTestTable]" !in m;
  }

  lemma OneWord(s: string)
    requires forall i :: 0 <= i < |s| ==> 'A' <= s[i] <= 'Z' || 'a' <= s[i] <= 'z'
    ensures forall i :: 0 <= i < |s| ==> s[i] !in Blanks
  {
  }

  /** The static `dbObjects` list: `None` (null) until the first construction. */
  class DeciderCache {
    var dbObjects: Option<ObjectList>

    constructor ()
      ensures dbObjects == None
    {
      dbObjects := None;
    }

    /** The constructor `SqlCommandTypeDecider(connectionString)`: only when the list does
        not exist yet, creates it and fills it from the catalogs of that connection's
        database (`tables`, then `procedures`); a later construction, for whatever
        connection string, leaves it alone. A repeated name makes the construction throw,
        and the list keeps what was added before. */
    method Construct(connectionString: string, tables: seq<string>, procedures: seq<string>)
        returns (outcome: Outcome<Error>)
      modifies this
      ensures old(dbObjects).Some? ==> dbObjects == old(dbObjects) && outcome == Pass
      ensures old(dbObjects).None? ==>
        && dbObjects == Some(Populate(tables, procedures).objects)
        && (outcome.Pass? <==> Populate(tables, procedures).error.None?)
        && (outcome.Fail? ==> Populate(tables, procedures).error == Some(outcome.error))
    {
      outcome := Pass;
      if dbObjects.None? {
        dbObjects := Some(map[]);
        var failure := ExtractSchemaDetail(tables, CommandType.TableDirect);
        if failure.None? {
          failure := ExtractSchemaDetail(procedures, CommandType.StoredProcedure);
        }
        if failure.Some? {
          outcome := Fail(failure.value);
        }
      }
    }

    /** `ExtractSchemaDetail`: `Add`s each row with `kind`, stopping with the exception at
        the first name already listed. */
    method ExtractSchemaDetail(rows: seq<string>, kind: CommandType) returns (failure: Option<Error>)
      requires dbObjects.Some?
      modifies this
      ensures dbObjects == Some(AddRows(old(dbObjects.value), rows, kind).objects)
      ensures failure == AddRows(old(dbObjects.value), rows, kind).error
    {
      ghost var goal := AddRows(dbObjects.value, rows, kind);
      var list := dbObjects.value;
      var i := 0;
      failure := None;
      while i < |rows|
        invariant 0 <= i <= |rows|
        invariant AddRows(list, rows[i..], kind) == goal
        invariant dbObjects == Some(list)
      {
        AddRowsStep(list, rows, i, kind);
        if rows[i] in list {
          failure := Some(DuplicateKey(rows[i]));
          return;
        }
        list := list[rows[i] := kind];
        dbObjects := Some(list);
        i := i + 1;
      }
      assert rows[i..] == [];
    }
  }

  /** One step of `AddRows` from position `i` of the rows. */
  lemma AddRowsStep(m: ObjectList, rows: seq<string>, i: nat, kind: CommandType)
    requires i < |rows|
    ensures AddRows(m, rows[i..], kind) ==
      if rows[i] in m then Population(m, Some(DuplicateKey(rows[i])))
      else AddRows(m[rows[i] := kind], rows[i + 1..], kind)
  {
    assert rows[i..][0] == rows[i] && rows[i..][1..] == rows[i + 1..];
  }
}
