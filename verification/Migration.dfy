/** Upgrading a database that an older version created. */
module Migration {
  import opened Domain

  /** A table of samples by primary key; its definition may carry the old foreign key to tenants. */
  datatype Samples = Samples(rows: map<Id, Sample>, refsTenants: bool)

  /** What the migration looks at: columns by table, the two sample tables, the index, and the tokens. */
  datatype Legacy = Legacy(
    columns: map<string, set<string>>,
    usage: Option<Samples>,          // usage_records
    spare: Option<Samples>,          // usage_records_new
    indexed: bool,                   // idx_usage_tenant
    tokens: map<Id, Option<string>>) // sub_token by subscription; None is NULL

  datatype Statement =
    | AddColumn(table: string, column: string)
    | CreateSpare
    | CopySamples
    | DropUsage
    | RenameSpare
    | CreateIndex
    | SetToken(id: Id, token: string)

  datatype Verdict = Fine | DuplicateColumn | Refused

  datatype Result = Result(db: Legacy, verdict: Verdict)

  /** SQLite's answer to one statement, and the database after it. */
  function Exec(db: Legacy, s: Statement): Result {
    match s
    case AddColumn(t, c) =>
      if t !in db.columns then Result(db, Refused)
      else if c in db.columns[t] then Result(db, DuplicateColumn)
      else Result(db.(columns := db.columns[t := db.columns[t] + {c}]), Fine)
    case CreateSpare =>
      if db.spare.Some? then Result(db, Refused) else Result(db.(spare := Some(Samples(map[], false))), Fine)
    case CopySamples =>
      if db.spare.None? || db.usage.None? || db.spare.value.rows.Keys * db.usage.value.rows.Keys != {}
      then Result(db, Refused)
      else Result(db.(spare := Some(db.spare.value.(rows := db.spare.value.rows + db.usage.value.rows))), Fine)
    case DropUsage =>
      // An index goes with its table.
      if db.usage.None? then Result(db, Refused) else Result(db.(usage := None, indexed := false), Fine)
    case RenameSpare =>
      if db.spare.None? || db.usage.Some? then Result(db, Refused)
      else Result(db.(usage := db.spare, spare := None), Fine)
    case CreateIndex =>
      if db.usage.None? then Result(db, Refused) else Result(db.(indexed := true), Fine)
    case SetToken(id, token) =>
      Result(if id in db.tokens then db.(tokens := db.tokens[id := Some(token)]) else db, Fine)
  }

  /** Executes statements until one is refused; a duplicate column is no refusal. */
  function ExecAll(db: Legacy, list: seq<Statement>): Result {
    if list == [] then Result(db, Fine)
    else
      var before := ExecAll(db, list[..|list| - 1]);
      if before.verdict == Refused then before
      else
        var r := Exec(before.db, list[|list| - 1]);
        if r.verdict == DuplicateColumn then Result(r.db, Fine) else r
  }

  const ADDED_COLUMNS: seq<Statement> := [
    AddColumn("nodes", "grpc_port"), AddColumn("nodes", "core_key"), AddColumn("nodes", "host_info"),
    AddColumn("subscriptions", "sub_token"), AddColumn("subscriptions", "api_key")]

  const REBUILD: seq<Statement> := [CreateSpare, CopySamples, DropUsage, RenameSpare, CreateIndex]

  function NeedsRebuild(db: Legacy): bool { db.usage.Some? && db.usage.value.refsTenants }

  predicate Missing(token: Option<string>) { token == None || token == Some("") }

  /** Every missing token replaced by a minted one. */
  function Backfilled(tokens: map<Id, Option<string>>, mint: Id -> string): map<Id, Option<string>> {
    map id | id in tokens :: if Missing(tokens[id]) then Some(mint(id)) else tokens[id]
  }

  function Rebuilt(db: Legacy): Result {
    if NeedsRebuild(db) then ExecAll(db, REBUILD) else Result(db, Fine)
  }

  function Migrated(db: Legacy, mint: Id -> string): Result {
    var columns := ExecAll(db, ADDED_COLUMNS);
    if columns.verdict != Fine then columns
    else
      var usage := Rebuilt(columns.db);
      if usage.verdict != Fine then usage
      else Result(usage.db.(tokens := Backfilled(usage.db.tokens, mint)), Fine)
  }

  // ---------- the code ----------

  class Installation {
    var columns: map<string, set<string>>
    var usage: Option<Samples>
    var spare: Option<Samples>
    var indexed: bool
    var tokens: map<Id, Option<string>>

    function View(): Legacy
      reads this
    {
      Legacy(columns, usage, spare, indexed, tokens)
    }

    constructor (db: Legacy)
      ensures View() == db
    {
      columns, usage, spare, indexed, tokens := db.columns, db.usage, db.spare, db.indexed, db.tokens;
    }

    method Execute(s: Statement) returns (verdict: Verdict)
      modifies this
      ensures Exec(old(View()), s) == Result(View(), verdict)
    {
      var r := Exec(View(), s);
      columns, usage, spare, indexed, tokens := r.db.columns, r.db.usage, r.db.spare, r.db.indexed, r.db.tokens;
      verdict := r.verdict;
    }

    method MigrateUsageRecords() returns (ok: bool)
      modifies this
      ensures Rebuilt(old(View())) == Result(View(), if ok then Fine else Refused)
    {
      if usage.None? { return true; }
      if !usage.value.refsTenants { return true; }
      for i := 0 to |REBUILD|
        invariant ExecAll(old(View()), REBUILD[..i]) == Result(View(), Fine)
      {
        assert REBUILD[..i + 1][..i] == REBUILD[..i];
        var verdict := Execute(REBUILD[i]);
        if verdict != Fine {
          assert ExecAll(old(View()), REBUILD[..i + 1]) == Result(View(), Refused);
          StaysRefused(old(View()), REBUILD, i + 1);
          return false;
        }
      }
      assert REBUILD[..|REBUILD|] == REBUILD;
      ok := true;
    }

    /** The rows whose token is NULL or empty, in some order. */
    method ListMissing() returns (ids: seq<Id>)
      ensures forall id :: id in ids <==> id in tokens && Missing(tokens[id])
    {
      ids := [];
      var rest := tokens.Keys;
      while rest != {}
        invariant rest <= tokens.Keys
        invariant forall id :: id in ids <==> id in tokens && id !in rest && Missing(tokens[id])
        decreases |rest|
      {
        var id :| id in rest;
        rest := rest - {id};
        if Missing(tokens[id]) { ids := ids + [id]; }
      }
    }

    method Backfill(mint: Id -> string)
      modifies this
      ensures View() == old(View()).(tokens := Backfilled(old(tokens), mint))
    {
      var ids := ListMissing();
      for i := 0 to |ids|
        invariant View() == old(View()).(tokens := tokens) && tokens.Keys == old(tokens).Keys
        invariant forall id | id in tokens :: tokens[id] == if id in ids[..i] then Some(mint(id)) else old(tokens)[id]
      {
        var _ := Execute(SetToken(ids[i], mint(ids[i])));
      }
      assert ids[..|ids|] == ids;
    }

    method Migrate(mint: Id -> string) returns (ok: bool)
      modifies this
      ensures Migrated(old(View()), mint) == Result(View(), if ok then Fine else Refused)
      ensures Upgraded(old(View()), View(), mint, ok)
    {
      MigrationUpgrades(View(), mint);
      hide Upgraded, Exec, Rebuilt;
      for i := 0 to |ADDED_COLUMNS|
        invariant ExecAll(old(View()), ADDED_COLUMNS[..i]) == Result(View(), Fine)
      {
        assert ADDED_COLUMNS[..i + 1][..i] == ADDED_COLUMNS[..i];
        var verdict := Execute(ADDED_COLUMNS[i]);
        if verdict != Fine && verdict != DuplicateColumn {
          StaysRefused(old(View()), ADDED_COLUMNS, i + 1);
          return false;
        }
      }
      assert ADDED_COLUMNS[..|ADDED_COLUMNS|] == ADDED_COLUMNS;
      ok := MigrateUsageRecords();
      if !ok { return; }
      Backfill(mint);
    }
  }

  /** After a refusal nothing more is executed. */
  lemma {:induction false} StaysRefused(db: Legacy, list: seq<Statement>, i: nat)
    requires i <= |list| && ExecAll(db, list[..i]).verdict == Refused
    ensures ExecAll(db, list) == ExecAll(db, list[..i])
    decreases |list|
  {
    if i == |list| {
      assert list[..i] == list;
    } else {
      var n := |list| - 1;
      assert list[..n][..i] == list[..i];
      StaysRefused(db, list[..n], i);
    }
  }

  // ---------- what an upgrade keeps ----------

  /** The tables that the schema has created by the time the migration runs. */
  predicate HasTables(db: Legacy) {
    forall s | s in ADDED_COLUMNS :: s.AddColumn? && s.table in db.columns
  }

  predicate HasColumns(db: Legacy) {
    forall s | s in ADDED_COLUMNS :: s.AddColumn? && s.table in db.columns && s.column in db.columns[s.table]
  }

  predicate HasTokens(db: Legacy) { forall id | id in db.tokens :: !Missing(db.tokens[id]) }

  function Rows(db: Legacy): map<Id, Sample> { if db.usage.Some? then db.usage.value.rows else map[] }

  predicate AddsColumns(list: seq<Statement>) { forall s | s in list :: s.AddColumn? }

  /** The columns that a list of statements adds to a table. */
  function Additions(list: seq<Statement>, table: string): set<string> {
    set s | s in list && s.AddColumn? && s.table == table :: s.column
  }

  /** It goes through exactly when the tables exist, and then adds just those columns. */
  ghost predicate Adds(db: Legacy, list: seq<Statement>, r: Result)
    requires AddsColumns(list)
  {
    && (r.verdict == Fine <==> forall s | s in list :: s.table in db.columns)
    && r.verdict != DuplicateColumn
    && r.db == db.(columns := r.db.columns)
    && r.db.columns.Keys == db.columns.Keys
    && (r.verdict == Fine ==> forall t | t in db.columns :: r.db.columns[t] == db.columns[t] + Additions(list, t))
  }

  lemma {:induction false} AddingColumns(db: Legacy, list: seq<Statement>)
    requires AddsColumns(list)
    ensures Adds(db, list, ExecAll(db, list))
  {
    hide Exec;
    if list != [] {
      var n := |list| - 1;
      hide Adds;
      AddingColumns(db, list[..n]);
      AddsOneMore(db, list, ExecAll(db, list[..n]));
    }
  }

  lemma AddsOneMore(db: Legacy, list: seq<Statement>, before: Result)
    requires list != [] && AddsColumns(list) && Adds(db, list[..|list| - 1], before)
    ensures var r := Exec(before.db, list[|list| - 1]);
      Adds(db, list, if before.verdict == Refused then before
                     else if r.verdict == DuplicateColumn then Result(r.db, Fine) else r)
  {
    var n := |list| - 1;
    assert list == list[..n] + [list[n]];
    AddsOne(before.db, list[n]);
    forall t | t in db.columns
      ensures Additions(list, t) == Additions(list[..n], t) + if t == list[n].table then {list[n].column} else {}
    {
      AdditionsGrow(list, t);
    }
    hide Additions, Exec;
  }

  /** One added column. */
  lemma AddsOne(db: Legacy, s: Statement)
    requires s.AddColumn?
    ensures var r := Exec(db, s);
      && (r.verdict == Refused <==> s.table !in db.columns)
      && r.db == db.(columns := r.db.columns) && r.db.columns.Keys == db.columns.Keys
      && (r.verdict != Refused ==>
            forall t | t in db.columns :: r.db.columns[t] == db.columns[t] + if t == s.table then {s.column} else {})
  {}

  lemma AdditionsGrow(list: seq<Statement>, table: string)
    requires list != [] && AddsColumns(list)
    ensures var n := |list| - 1;
      Additions(list, table) == Additions(list[..n], table) + if table == list[n].table then {list[n].column} else {}
  {
    assert list == list[..|list| - 1] + [list[|list| - 1]];
  }

  lemma ExecNext(db: Legacy, list: seq<Statement>, i: nat)
    requires i < |list| && ExecAll(db, list[..i]).verdict == Fine
    requires Exec(ExecAll(db, list[..i]).db, list[i]).verdict == Fine
    ensures ExecAll(db, list[..i + 1]) == Exec(ExecAll(db, list[..i]).db, list[i])
  {
    assert list[..i + 1][..i] == list[..i];
  }

  /** Where the samples are after k statements of an unblocked rebuild. */
  lemma {:induction false} RebuildStage(db: Legacy, k: nat)
    requires NeedsRebuild(db) && db.spare.None? && k <= |REBUILD|
    ensures var whole := Some(Samples(db.usage.value.rows, false));
      ExecAll(db, REBUILD[..k]) == Result(db.(
        usage := if k < 3 then db.usage else if k == 3 then None else whole,
        spare := if k == 0 || k >= 4 then None else if k == 1 then Some(Samples(map[], false)) else whole,
        indexed := if k < 3 then db.indexed else k == 5), Fine)
  {
    if k == 0 {
      assert REBUILD[..0] == [];
    } else {
      RebuildStage(db, k - 1);
      assert map[] + db.usage.value.rows == db.usage.value.rows;
      ExecNext(db, REBUILD, k - 1);
      hide ExecAll;
    }
  }

  /** The rebuild goes through exactly when no half-done rebuild is in the way; it moves every sample. */
  lemma RebuildIsExact(db: Legacy)
    requires NeedsRebuild(db)
    ensures Rebuilt(db) == if db.spare.Some? then Result(db, Refused)
                           else Result(db.(usage := Some(Samples(db.usage.value.rows, false)),
                                           spare := None, indexed := true), Fine)
  {
    if db.spare.Some? {
      assert REBUILD[..1][..0] == [];
      assert ExecAll(db, REBUILD[..1]).verdict == Refused;
      StaysRefused(db, REBUILD, 1);
    } else {
      RebuildStage(db, |REBUILD|);
      assert REBUILD[..|REBUILD|] == REBUILD;
    }
  }

  /** What adding the columns and rebuilding leaves, whatever the tokens. */
  lemma StagesAreExact(db: Legacy)
    ensures var r := ExecAll(db, ADDED_COLUMNS);
      && (r.verdict == Fine <==> HasTables(db)) && r.verdict != DuplicateColumn
      && r.db == db.(columns := r.db.columns)
      && (r.verdict == Fine ==> HasColumns(r.db))
      && (HasColumns(db) ==> r.db == db)
  {
    AddingColumns(db, ADDED_COLUMNS);
    var r := ExecAll(db, ADDED_COLUMNS);
    forall s | s in ADDED_COLUMNS && r.verdict == Fine
      ensures s.table in r.db.columns && s.column in r.db.columns[s.table]
    {
      assert s.column in Additions(ADDED_COLUMNS, s.table);
    }
    if HasColumns(db) {
      forall t | t in db.columns ensures r.db.columns[t] == db.columns[t] {
        assert Additions(ADDED_COLUMNS, t) <= db.columns[t];
      }
      assert r.db.columns == db.columns;
    }
  }

  /**
   * From any legacy database: the migration goes through exactly when the tables exist and no
   * half-done rebuild blocks a needed one; either way no sample and no token is lost.
   */
  lemma MigrationIsLossless(db: Legacy, mint: Id -> string)
    requires forall id :: mint(id) != ""
    ensures var r := Migrated(db, mint);
      && (r.verdict == Fine <==> HasTables(db) && !(NeedsRebuild(db) && db.spare.Some?))
      && Rows(r.db) == Rows(db)
      && r.db.tokens.Keys == db.tokens.Keys
      && (forall id | id in db.tokens && !Missing(db.tokens[id]) :: r.db.tokens[id] == db.tokens[id])
      && (r.verdict == Fine ==> HasColumns(r.db) && !NeedsRebuild(r.db) && HasTokens(r.db))
  {
    StagesAreExact(db);
    hide ExecAll;
    if NeedsRebuild(db) { RebuildIsExact(ExecAll(db, ADDED_COLUMNS).db); }
  }

  /** The upgrade column by column: what it adds, moves and fills in, and when it is refused. */
  ghost predicate Upgraded(db: Legacy, db': Legacy, mint: Id -> string, ok: bool) {
    var rebuilds := db.usage.Some? && db.usage.value.refsTenants;
    && ok == ("nodes" in db.columns && "subscriptions" in db.columns && !(rebuilds && db.spare.Some?))
    && (if ok
        then
          && db'.columns.Keys == db.columns.Keys
          && (forall t | t in db.columns :: db'.columns[t] == db.columns[t] + (
                if t == "nodes" then {"grpc_port", "core_key", "host_info"}
                else if t == "subscriptions" then {"sub_token", "api_key"} else {}))
          && db'.usage == (if rebuilds then Some(Samples(db.usage.value.rows, false)) else db.usage)
          && db'.spare == db.spare && db'.indexed == (db.indexed || rebuilds)
          && db'.tokens.Keys == db.tokens.Keys
          && (forall id | id in db.tokens ::
                db'.tokens[id] == if db.tokens[id] == None || db.tokens[id] == Some("")
                               then Some(mint(id)) else db.tokens[id])
        else db'.tokens == db.tokens && db'.usage == db.usage && db'.spare == db.spare && db'.indexed == db.indexed)
  }

  lemma MigrationUpgrades(db: Legacy, mint: Id -> string)
    ensures var r := Migrated(db, mint); Upgraded(db, r.db, mint, r.verdict == Fine) && r.verdict != DuplicateColumn
  {
    hide ExecAll, HasColumns, HasTables, Additions, Adds;
    StagesAreExact(db);
    TablesNamed(db);
    ColumnsNamed(db);
    var r := ExecAll(db, ADDED_COLUMNS);
    if NeedsRebuild(db) { RebuildIsExact(r.db); }
    hide Rebuilt, Exec;
  }

  lemma TablesNamed(db: Legacy)
    ensures HasTables(db) <==> "nodes" in db.columns && "subscriptions" in db.columns
  {
    assert AddColumn("nodes", "core_key") in ADDED_COLUMNS && AddColumn("subscriptions", "api_key") in ADDED_COLUMNS;
  }

  lemma ColumnsNamed(db: Legacy)
    ensures var r := ExecAll(db, ADDED_COLUMNS); r.verdict == Fine ==>
      && r.db.columns.Keys == db.columns.Keys
      && forall t | t in db.columns :: r.db.columns[t] == db.columns[t] + (
           if t == "nodes" then {"grpc_port", "core_key", "host_info"}
           else if t == "subscriptions" then {"sub_token", "api_key"} else {})
  {
    hide ExecAll, Additions;
    AddingColumns(db, ADDED_COLUMNS);
    var r := ExecAll(db, ADDED_COLUMNS);
    forall t | r.verdict == Fine && t in db.columns
      ensures r.db.columns[t] == db.columns[t] + (
        if t == "nodes" then {"grpc_port", "core_key", "host_info"}
        else if t == "subscriptions" then {"sub_token", "api_key"} else {})
    {
      AddedTo(t);
    }
  }

  lemma AddedTo(t: string)
    ensures Additions(ADDED_COLUMNS, t) == (
      if t == "nodes" then {"grpc_port", "core_key", "host_info"}
      else if t == "subscriptions" then {"sub_token", "api_key"} else {})
  {
    var all := ADDED_COLUMNS;
    assert all[0] in all && all[1] in all && all[2] in all && all[3] in all && all[4] in all;
    assert forall s | s in all :: s == all[0] || s == all[1] || s == all[2] || s == all[3] || s == all[4];
  }

  /** Tokens that differ before, with minted ones that differ from them and from one another, differ after. */
  lemma TokensDiffer(db: Legacy, db': Legacy, mint: Id -> string)
    requires Upgraded(db, db', mint, true)
    requires forall i, j | i in db.tokens && j in db.tokens && i != j ::
               mint(i) != mint(j) && db.tokens[i] != Some(mint(j))
               && (db.tokens[i] == db.tokens[j] ==> db.tokens[i] == None || db.tokens[i] == Some(""))
    ensures forall i, j | i in db'.tokens && j in db'.tokens && i != j :: db'.tokens[i] != db'.tokens[j]
  {}

  /** A second migration changes nothing, whatever tokens it would mint. */
  lemma MigrationIsIdempotent(db: Legacy, mint: Id -> string, again: Id -> string)
    requires (forall id :: mint(id) != "") && Migrated(db, mint).verdict == Fine
    ensures Migrated(Migrated(db, mint).db, again) == Migrated(db, mint)
  {
    MigrationIsLossless(db, mint);
    var r := Migrated(db, mint);
    StagesAreExact(r.db);
    hide ExecAll;
    assert Backfilled(r.db.tokens, again) == r.db.tokens;
  }

  // ---------- an interrupted rebuild ----------

  /** Opening again applies the schema first, which creates the sample table if it is gone. */
  function Reopened(db: Legacy): Legacy {
    if db.usage.None? then db.(usage := Some(Samples(map[], false)), indexed := true) else db.(indexed := true)
  }

  /**
   * The rebuild is not atomic: when it stops after k of its statements, opening the database again
   * brings every sample back exactly when none of them or all the renaming had been done.
   */
  lemma InterruptedRebuild(db: Legacy, k: nat, mint: Id -> string)
    requires HasTables(db) && NeedsRebuild(db) && db.spare.None? && Rows(db) != map[] && k <= |REBUILD|
    ensures var r := Migrated(Reopened(ExecAll(db, REBUILD[..k]).db), mint);
      (r.verdict == Fine && Rows(r.db) == Rows(db)) <==> k == 0 || k >= 4
  {
    RebuildStage(db, k);
    var at := Reopened(ExecAll(db, REBUILD[..k]).db);
    StagesAreExact(at);
    hide ExecAll;
    if NeedsRebuild(at) { RebuildIsExact(ExecAll(at, ADDED_COLUMNS).db); }
  }
}
