/**
 * The data-access layer (server/db.ts): a lazily created database handle and the
 * `users` and `stories` tables, with every operation's safe result when there is no
 * database.
 */
module Db {
  import opened Wrappers
  import opened Schema

  /** The drizzle instance built from a database URL. */
  datatype Conn = Conn(url: string)

  /**
   * What getDb sees of the process: the DATABASE_URL variable, and whether building
   * the driver instance from it succeeds (the driver is not part of this model).
   */
  datatype DbEnv = DbEnv(databaseUrl: Option<string>, driverAccepts: bool)

  /** DATABASE_URL is truthy: set and not empty. */
  predicate UrlSet(env: DbEnv)
  {
    env.databaseUrl.Some? && env.databaseUrl.value != ""
  }

  /** The handle after one call of getDb on `handle`. */
  function ConnectStep(handle: Option<Conn>, env: DbEnv): (h: Option<Conn>)
    ensures handle.Some? ==> h == handle
    ensures handle.None? ==> (h.Some? <==> UrlSet(env) && env.driverAccepts)
    ensures handle.None? && h.Some? ==> h == Some(Conn(env.databaseUrl.value))
  {
    if handle.None? && UrlSet(env) then
      if env.driverAccepts then Some(Conn(env.databaseUrl.value)) else None
    else handle
  }

  /** A second getDb in the same environment finds the state the first one left. */
  lemma ConnectStepSettles(handle: Option<Conn>, env: DbEnv)
    ensures ConnectStep(ConnectStep(handle, env), env) == ConnectStep(handle, env)
  {
  }

  // ---------------------------------------------------------------------------
  // Reads of `stories`

  /** The row with this id, or None; no owner filter. */
  function FindStory(rows: seq<StoryRow>, id: string): (r: Option<StoryRow>)
    ensures r.Some? ==> r.value in rows && r.value.id == id
    ensures r.None? <==> forall i :: 0 <= i < |rows| ==> rows[i].id != id
  {
    if rows == [] then None
    else if rows[0].id == id then Some(rows[0])
    else FindStory(rows[1..], id)
  }

  lemma DistinctTail(rows: seq<StoryRow>)
    requires |rows| > 0 && DistinctIds(rows)
    ensures DistinctIds(rows[1..])
  {
    forall a, b | 0 <= a < b < |rows| - 1
      ensures rows[1..][a].id != rows[1..][b].id
    {
      assert rows[1..][a] == rows[a + 1] && rows[1..][b] == rows[b + 1];
    }
  }

  /** With distinct ids, FindStory returns exactly the row stored under the id. */
  lemma {:induction false} FindStoryFindsRow(rows: seq<StoryRow>, i: nat)
    requires DistinctIds(rows) && i < |rows|
    ensures FindStory(rows, rows[i].id) == Some(rows[i])
  {
    if i > 0 {
      assert rows[0].id != rows[i].id;
      DistinctTail(rows);
      assert rows[1..][i - 1] == rows[i];
      FindStoryFindsRow(rows[1..], i - 1);
    }
  }

  /** The sort key of `ORDER BY createdAt DESC`: MySQL puts NULL last in descending order. */
  function CreatedKey(r: StoryRow): int
  {
    if r.createdAt.Some? then r.createdAt.value else -1
  }

  predicate NewestFirst(s: seq<StoryRow>)
  {
    forall i, j :: 0 <= i < j < |s| ==> CreatedKey(s[i]) >= CreatedKey(s[j])
  }

  /** `WHERE userId = u`: the rows of that user, and no others, with their multiplicities. */
  function Owned(rows: seq<StoryRow>, userId: string): (r: seq<StoryRow>)
    ensures forall x :: multiset(r)[x] == if x.userId == userId then multiset(rows)[x] else 0
  {
    if rows == [] then []
    else
      assert rows == [rows[0]] + rows[1..];
      (if rows[0].userId == userId then [rows[0]] else []) + Owned(rows[1..], userId)
  }

  /** Putting a row in front keeps the order when its key is at least that of the old front. */
  lemma ConsNewest(a: StoryRow, rest: seq<StoryRow>)
    requires NewestFirst(rest)
    requires rest != [] ==> CreatedKey(a) >= CreatedKey(rest[0])
    ensures NewestFirst([a] + rest)
  {
    var r := [a] + rest;
    forall i, j | 0 <= i < j < |r| ensures CreatedKey(r[i]) >= CreatedKey(r[j]) {
      if i == 0 {
        assert r[j] == rest[j - 1];
        assert CreatedKey(rest[0]) >= CreatedKey(rest[j - 1]) || j - 1 == 0;
      } else {
        assert r[i] == rest[i - 1] && r[j] == rest[j - 1];
      }
    }
  }

  /** Insert one row into a newest-first sequence, before the rows with an equal key. */
  function InsertNewest(x: StoryRow, s: seq<StoryRow>): (r: seq<StoryRow>)
    requires NewestFirst(s)
    ensures NewestFirst(r)
    ensures multiset(r) == multiset(s) + multiset{x}
    ensures |r| == |s| + 1 && (r[0] == x || (s != [] && r[0] == s[0]))
  {
    if s == [] || CreatedKey(x) >= CreatedKey(s[0]) then
      ConsNewest(x, s);
      [x] + s
    else
      assert s == [s[0]] + s[1..];
      var rest := InsertNewest(x, s[1..]);
      assert rest[0] == x || rest[0] == s[1];
      ConsNewest(s[0], rest);
      [s[0]] + rest
  }

  /** Insertion sort on `createdAt`, newest first, keeping the table order among equal keys. */
  function SortNewest(s: seq<StoryRow>): (r: seq<StoryRow>)
    ensures NewestFirst(r)
    ensures multiset(r) == multiset(s)
  {
    if s == [] then []
    else
      assert s == [s[0]] + s[1..];
      InsertNewest(s[0], SortNewest(s[1..]))
  }

  /**
   * getUserStories on the table: exactly the caller's rows (as a multiset, so with no
   * row lost or repeated), and newest first.
   */
  function UserStories(rows: seq<StoryRow>, userId: string): (r: seq<StoryRow>)
    ensures NewestFirst(r)
    ensures forall x :: multiset(r)[x] == if x.userId == userId then multiset(rows)[x] else 0
    ensures forall x :: x in r <==> x in rows && x.userId == userId
  {
    var r := SortNewest(Owned(rows, userId));
    assert forall x :: x in r <==> x in multiset(r);
    r
  }

  // ---------------------------------------------------------------------------
  // Writes of `stories`

  /** `DELETE ... WHERE id = ?`: every row except the one with this id, in table order. */
  function DeleteRows(rows: seq<StoryRow>, id: string): (r: seq<StoryRow>)
    ensures forall x :: multiset(r)[x] == if x.id == id then 0 else multiset(rows)[x]
    ensures forall x :: x in r <==> x in rows && x.id != id
  {
    if rows == [] then []
    else
      assert rows == [rows[0]] + rows[1..];
      var rest := DeleteRows(rows[1..], id);
      var r := (if rows[0].id == id then [] else [rows[0]]) + rest;
      assert forall x :: x in r <==> x in multiset(r);
      r
  }

  lemma TailTable(rows: seq<StoryRow>)
    requires |rows| > 0 && StoriesTable(rows)
    ensures StoriesTable(rows[1..])
  {
    DistinctTail(rows);
    forall i | 0 <= i < |rows| - 1 ensures StoryRowFits(rows[1..][i]) {
      assert rows[1..][i] == rows[i + 1];
    }
  }

  /** A row in front of a table whose ids all differ from its own gives a table. */
  lemma ConsTable(a: StoryRow, rest: seq<StoryRow>)
    requires StoriesTable(rest) && StoryRowFits(a)
    requires forall y :: y in rest ==> y.id != a.id
    ensures StoriesTable([a] + rest)
  {
    var r := [a] + rest;
    forall i, j | 0 <= i < j < |r| ensures r[i].id != r[j].id {
      assert r[j] == rest[j - 1];
      if i > 0 { assert r[i] == rest[i - 1]; }
    }
    forall i | 0 <= i < |r| ensures StoryRowFits(r[i]) {
      if i > 0 { assert r[i] == rest[i - 1]; }
    }
  }

  /** In a table with distinct ids, the head's id occurs nowhere in the tail. */
  lemma HeadIdUnique(rows: seq<StoryRow>)
    requires |rows| > 0 && DistinctIds(rows)
    ensures forall y :: y in rows[1..] ==> y.id != rows[0].id
  {
    forall y | y in rows[1..] ensures y.id != rows[0].id {
      var k :| 0 <= k < |rows[1..]| && rows[1..][k] == y;
      assert rows[k + 1] == y;
    }
  }

  /** Deleting keeps `stories` a table, and the id is no longer found. */
  lemma {:induction false} DeleteKeepsTable(rows: seq<StoryRow>, id: string)
    requires StoriesTable(rows)
    ensures StoriesTable(DeleteRows(rows, id))
    ensures FindStory(DeleteRows(rows, id), id).None?
  {
    if rows != [] {
      TailTable(rows);
      DeleteKeepsTable(rows[1..], id);
      var rest := DeleteRows(rows[1..], id);
      if rows[0].id != id {
        HeadIdUnique(rows);
        assert forall y :: y in rest ==> y in rows[1..];
        ConsTable(rows[0], rest);
      }
    }
  }

  /** After a delete the id is gone, and every other id finds what it found before. */
  lemma {:induction false} DeleteKeepsOthers(rows: seq<StoryRow>, id: string, other: string)
    requires other != id
    ensures FindStory(DeleteRows(rows, id), other) == FindStory(rows, other)
  {
    if rows != [] {
      DeleteKeepsOthers(rows[1..], id, other);
      var rest := DeleteRows(rows[1..], id);
      var r := DeleteRows(rows, id);
      if rows[0].id == id {
        assert r == rest;
      } else {
        assert r == [rows[0]] + rest;
        assert r[0] == rows[0] && r[1..] == rest;
      }
    }
  }

  /** The table accepts an insert: the primary key is new and every column fits. */
  predicate Insertable(rows: seq<StoryRow>, s: InsertStory)
  {
    FindStory(rows, s.id).None? && StoryFits(s)
  }

  /** An accepted insert keeps the table a table, and the new row is found under its id. */
  lemma InsertKeepsTable(rows: seq<StoryRow>, s: InsertStory, now: Time)
    requires StoriesTable(rows) && Insertable(rows, s)
    ensures StoriesTable(rows + [NewStoryRow(s, now)])
    ensures FindStory(rows + [NewStoryRow(s, now)], s.id) == Some(NewStoryRow(s, now))
  {
    var r := rows + [NewStoryRow(s, now)];
    assert forall i :: 0 <= i < |rows| ==> r[i] == rows[i];
    assert DistinctIds(r);
    FindStoryFindsRow(r, |rows|);
  }

  // ---------------------------------------------------------------------------
  // The record upsertUser builds

  datatype UserColumn =
    IdColumn | NameColumn | EmailColumn | LoginMethodColumn | RoleColumn | LastSignedInColumn

  /** A value assigned to a column of `users`. */
  datatype Cell = NullCell | TextCell(text: string) | TimeCell(time: Time) | RoleCell(role: Role)

  /** The nullable text fields copied one by one, in this order. */
  const TextColumns: seq<UserColumn> := [NameColumn, EmailColumn, LoginMethodColumn]

  /** The position of a text column in TextColumns (3 for the other columns). */
  function TextRank(c: UserColumn): nat
  {
    match c
    case NameColumn => 0
    case EmailColumn => 1
    case LoginMethodColumn => 2
    case _ => 3
  }

  const UserColumns: set<UserColumn> :=
    {IdColumn, NameColumn, EmailColumn, LoginMethodColumn, RoleColumn, LastSignedInColumn}

  function TextField(user: InsertUser, c: UserColumn): Field<string>
  {
    match c
    case NameColumn => user.name
    case EmailColumn => user.email
    case LoginMethodColumn => user.loginMethod
    case _ => Undefined
  }

  /** A supplied field becomes a cell (undefined is skipped, null is kept as null). */
  function TextFieldCell(f: Field<string>): Option<Cell>
  {
    match f
    case Undefined => None
    case Null => Some(NullCell)
    case Value(s) => Some(TextCell(s))
  }

  function TimeFieldCell(f: Field<Time>): Option<Cell>
  {
    match f
    case Undefined => None
    case Null => Some(NullCell)
    case Value(t) => Some(TimeCell(t))
  }

  /** No role was supplied and the id is the owner's: the user becomes an admin. */
  predicate Promoted(user: InsertUser, ownerId: string)
  {
    user.role.None? && user.id == ownerId
  }

  /** The cell each column gets in the insert's `values`. */
  function ValueCell(user: InsertUser, ownerId: string, c: UserColumn): Option<Cell>
  {
    match c
    case IdColumn => Some(TextCell(user.id))
    case NameColumn => TextFieldCell(user.name)
    case EmailColumn => TextFieldCell(user.email)
    case LoginMethodColumn => TextFieldCell(user.loginMethod)
    case LastSignedInColumn => TimeFieldCell(user.lastSignedIn)
    case RoleColumn => if Promoted(user, ownerId) then Some(RoleCell(AdminRole)) else None
  }

  /** Some column other than the id is assigned before the `lastSignedIn` fallback. */
  predicate AnySupplied(user: InsertUser, ownerId: string)
  {
    || !user.name.Undefined?
    || !user.email.Undefined?
    || !user.loginMethod.Undefined?
    || !user.lastSignedIn.Undefined?
    || Promoted(user, ownerId)
  }

  /** A column that is assigned when AnySupplied holds. */
  function SuppliedColumn(user: InsertUser, ownerId: string): (c: UserColumn)
    requires AnySupplied(user, ownerId)
    ensures c != IdColumn && c != LastSignedInColumn ==> ValueCell(user, ownerId, c).Some?
    ensures c == LastSignedInColumn ==> !user.lastSignedIn.Undefined?
  {
    if !user.name.Undefined? then NameColumn
    else if !user.email.Undefined? then EmailColumn
    else if !user.loginMethod.Undefined? then LoginMethodColumn
    else if !user.lastSignedIn.Undefined? then LastSignedInColumn
    else RoleColumn
  }

  /** The cell each column gets in the `ON DUPLICATE KEY UPDATE` set. */
  function UpdateCell(user: InsertUser, ownerId: string, now: Time, c: UserColumn): Option<Cell>
  {
    match c
    case IdColumn => None
    case LastSignedInColumn =>
      if AnySupplied(user, ownerId) then TimeFieldCell(user.lastSignedIn) else Some(TimeCell(now))
    case _ => ValueCell(user, ownerId, c)
  }

  /** The insert's `values`: the id always, and the role only on promotion. */
  function ValuesOf(user: InsertUser, ownerId: string): (m: map<UserColumn, Cell>)
    ensures IdColumn in m && m[IdColumn] == TextCell(user.id)
    ensures RoleColumn in m <==> Promoted(user, ownerId)
    ensures RoleColumn in m ==> m[RoleColumn] == RoleCell(AdminRole)
  {
    map c | c in UserColumns && ValueCell(user, ownerId, c).Some? :: ValueCell(user, ownerId, c).value
  }

  /** The update set: never the id, the role only on promotion, `lastSignedIn` now when nothing else is set. */
  function UpdateSetOf(user: InsertUser, ownerId: string, now: Time): (m: map<UserColumn, Cell>)
    ensures IdColumn !in m
    ensures RoleColumn in m <==> Promoted(user, ownerId)
    ensures !AnySupplied(user, ownerId) ==> LastSignedInColumn in m && m[LastSignedInColumn] == TimeCell(now)
  {
    map c | c in UserColumns && UpdateCell(user, ownerId, now, c).Some? :: UpdateCell(user, ownerId, now, c).value
  }

  lemma AllColumns(c: UserColumn)
    ensures c in UserColumns
  {
  }

  /** `values` holds at column `c` exactly what ValueCell prescribes. */
  predicate ValueAt(values: map<UserColumn, Cell>, user: InsertUser, ownerId: string, c: UserColumn)
  {
    (c in values <==> ValueCell(user, ownerId, c).Some?) &&
    (c in values ==> values[c] == ValueCell(user, ownerId, c).value)
  }

  /** `updateSet` holds at column `c` exactly what UpdateCell prescribes. */
  predicate UpdateAt(updateSet: map<UserColumn, Cell>, user: InsertUser, ownerId: string, now: Time, c: UserColumn)
  {
    (c in updateSet <==> UpdateCell(user, ownerId, now, c).Some?) &&
    (c in updateSet ==> updateSet[c] == UpdateCell(user, ownerId, now, c).value)
  }

  /** A map agreeing with ValueCell on every column is ValuesOf. */
  lemma ValuesOfColumns(values: map<UserColumn, Cell>, user: InsertUser, ownerId: string)
    requires ValueAt(values, user, ownerId, IdColumn) && ValueAt(values, user, ownerId, NameColumn)
    requires ValueAt(values, user, ownerId, EmailColumn) && ValueAt(values, user, ownerId, LoginMethodColumn)
    requires ValueAt(values, user, ownerId, RoleColumn) && ValueAt(values, user, ownerId, LastSignedInColumn)
    ensures values == ValuesOf(user, ownerId)
  {
    forall c ensures c in UserColumns && ValueAt(values, user, ownerId, c) { AllColumns(c); }
  }

  /** A map agreeing with UpdateCell on every column is UpdateSetOf. */
  lemma UpdateSetOfColumns(updateSet: map<UserColumn, Cell>, user: InsertUser, ownerId: string, now: Time)
    requires UpdateAt(updateSet, user, ownerId, now, IdColumn) && UpdateAt(updateSet, user, ownerId, now, NameColumn)
    requires UpdateAt(updateSet, user, ownerId, now, EmailColumn) && UpdateAt(updateSet, user, ownerId, now, LoginMethodColumn)
    requires UpdateAt(updateSet, user, ownerId, now, RoleColumn) && UpdateAt(updateSet, user, ownerId, now, LastSignedInColumn)
    ensures updateSet == UpdateSetOf(user, ownerId, now)
  {
    forall c ensures c in UserColumns && UpdateAt(updateSet, user, ownerId, now, c) { AllColumns(c); }
  }

  /** The caller's record after upsertUser: `role` is set to admin on promotion. */
  function PromotedUser(user: InsertUser, ownerId: string): InsertUser
  {
    if Promoted(user, ownerId) then user.(role := Some(AdminRole)) else user
  }

  /**
   * The body of upsertUser before the statement runs: `values` starts with the id, the
   * text fields are copied one at a time, then `lastSignedIn`, then the owner's promotion,
   * and an empty update set falls back to `lastSignedIn = now`.
   */
  method BuildUpsert(user: InsertUser, ownerId: string, now: Time)
    returns (values: map<UserColumn, Cell>, updateSet: map<UserColumn, Cell>, user': InsertUser)
    ensures values == ValuesOf(user, ownerId)
    ensures updateSet == UpdateSetOf(user, ownerId, now)
    ensures user' == PromotedUser(user, ownerId)
  {
    values := map[IdColumn := TextCell(user.id)];
    updateSet := map[];
    for i := 0 to |TextColumns|
      invariant forall c :: c in values <==>
        c == IdColumn || (TextRank(c) < i && ValueCell(user, ownerId, c).Some?)
      invariant forall c :: c in values ==> values[c] == ValueCell(user, ownerId, c).value
      invariant forall c :: c in updateSet <==> TextRank(c) < i && ValueCell(user, ownerId, c).Some?
      invariant forall c :: c in updateSet ==> updateSet[c] == values[c]
    {
      var field := TextColumns[i];
      assert TextRank(field) == i && ValueCell(user, ownerId, field) == TextFieldCell(TextField(user, field));
      var value := TextField(user, field);
      if !value.Undefined? {
        var normalized := if value.Null? then NullCell else TextCell(value.value);
        values := values[field := normalized];
        updateSet := updateSet[field := normalized];
      }
    }
    if !user.lastSignedIn.Undefined? {
      var stamp := if user.lastSignedIn.Null? then NullCell else TimeCell(user.lastSignedIn.value);
      values := values[LastSignedInColumn := stamp];
      updateSet := updateSet[LastSignedInColumn := stamp];
    }
    user' := user;
    if user.role.None? {
      if user.id == ownerId {
        user' := user.(role := Some(AdminRole));
        values := values[RoleColumn := RoleCell(AdminRole)];
        updateSet := updateSet[RoleColumn := RoleCell(AdminRole)];
      }
    }
    if AnySupplied(user, ownerId) {
      var c := SuppliedColumn(user, ownerId);
      assert c in updateSet;
      assert |updateSet| > 0 by { assert c in updateSet.Keys; }
    }
    if |updateSet| == 0 {
      updateSet := updateSet[LastSignedInColumn := TimeCell(now)];
    }
    ValuesOfColumns(values, user, ownerId);
    UpdateSetOfColumns(updateSet, user, ownerId, now);
  }

  // ---------------------------------------------------------------------------
  // What the insert-or-update statement stores

  function TextOf(c: Cell): Option<string>
  {
    if c.TextCell? then Some(c.text) else None
  }

  function TimeOf(c: Cell): Option<Time>
  {
    if c.TimeCell? then Some(c.time) else None
  }

  function TextColumn(m: map<UserColumn, Cell>, c: UserColumn): Option<string>
  {
    if c in m then TextOf(m[c]) else None
  }

  /** The row `INSERT ... VALUES` stores: columns left out take their defaults. */
  function InsertedUser(values: map<UserColumn, Cell>, now: Time): (r: UserRow)
    ensures r.createdAt == Some(now)
    ensures RoleColumn !in values ==> r.role == DefaultRole
    ensures LastSignedInColumn !in values ==> r.lastSignedIn == Some(now)
    ensures NameColumn !in values ==> r.name == None
    ensures EmailColumn !in values ==> r.email == None
    ensures LoginMethodColumn !in values ==> r.loginMethod == None
  {
    UserRow(
      id := if IdColumn in values && values[IdColumn].TextCell? then values[IdColumn].text else "",
      name := TextColumn(values, NameColumn),
      email := TextColumn(values, EmailColumn),
      loginMethod := TextColumn(values, LoginMethodColumn),
      role := if RoleColumn in values && values[RoleColumn].RoleCell? then values[RoleColumn].role else DefaultRole,
      createdAt := Some(now),
      lastSignedIn := if LastSignedInColumn in values then TimeOf(values[LastSignedInColumn]) else Some(now))
  }

  /** The row `ON DUPLICATE KEY UPDATE set` leaves: only the columns in the set change. */
  function ApplyUpdate(row: UserRow, changes: map<UserColumn, Cell>): (r: UserRow)
    ensures r.id == row.id && r.createdAt == row.createdAt
    ensures NameColumn !in changes ==> r.name == row.name
    ensures EmailColumn !in changes ==> r.email == row.email
    ensures LoginMethodColumn !in changes ==> r.loginMethod == row.loginMethod
    ensures RoleColumn !in changes ==> r.role == row.role
    ensures LastSignedInColumn !in changes ==> r.lastSignedIn == row.lastSignedIn
  {
    row.(
      name := if NameColumn in changes then TextOf(changes[NameColumn]) else row.name,
      email := if EmailColumn in changes then TextOf(changes[EmailColumn]) else row.email,
      loginMethod := if LoginMethodColumn in changes then TextOf(changes[LoginMethodColumn]) else row.loginMethod,
      role := if RoleColumn in changes && changes[RoleColumn].RoleCell? then changes[RoleColumn].role else row.role,
      lastSignedIn := if LastSignedInColumn in changes then TimeOf(changes[LastSignedInColumn]) else row.lastSignedIn)
  }

  /** The value a supplied nullable field stores (undefined leaves the column alone). */
  function Supplied<T>(f: Field<T>, otherwise: Option<T>): Option<T>
  {
    match f
    case Undefined => otherwise
    case Null => None
    case Value(v) => Some(v)
  }

  /** The row stored under `user.id` once the statement has run. */
  function UpsertedRow(users: map<string, UserRow>, user: InsertUser, ownerId: string, now: Time): (r: UserRow)
    ensures user.id in users ==> r.id == users[user.id].id && r.createdAt == users[user.id].createdAt
    ensures user.id !in users ==> r.id == user.id && r.createdAt == Some(now)
  {
    if user.id in users then ApplyUpdate(users[user.id], UpdateSetOf(user, ownerId, now))
    else InsertedUser(ValuesOf(user, ownerId), now)
  }

  /** The merge rules for an existing user, column by column. */
  lemma UpsertExistingUser(row: UserRow, user: InsertUser, ownerId: string, now: Time)
    ensures var r := ApplyUpdate(row, UpdateSetOf(user, ownerId, now));
      && r.id == row.id
      && r.createdAt == row.createdAt
      && r.name == Supplied(user.name, row.name)
      && r.email == Supplied(user.email, row.email)
      && r.loginMethod == Supplied(user.loginMethod, row.loginMethod)
      && r.role == (if Promoted(user, ownerId) then AdminRole else row.role)
      && r.lastSignedIn ==
           (if AnySupplied(user, ownerId) then Supplied(user.lastSignedIn, row.lastSignedIn) else Some(now))
  {
    var changes := UpdateSetOf(user, ownerId, now);
    assert NameColumn in changes <==> !user.name.Undefined?;
    assert EmailColumn in changes <==> !user.email.Undefined?;
    assert LoginMethodColumn in changes <==> !user.loginMethod.Undefined?;
    assert RoleColumn in changes <==> Promoted(user, ownerId);
    assert LastSignedInColumn in changes <==> !AnySupplied(user, ownerId) || !user.lastSignedIn.Undefined?;
  }

  /** The row inserted for a new id: left-out fields are NULL, the role is user unless promoted. */
  lemma UpsertNewUser(user: InsertUser, ownerId: string, now: Time)
    ensures var r := InsertedUser(ValuesOf(user, ownerId), now);
      && r.id == user.id
      && r.name == Supplied(user.name, None)
      && r.email == Supplied(user.email, None)
      && r.loginMethod == Supplied(user.loginMethod, None)
      && r.role == (if Promoted(user, ownerId) then AdminRole else DefaultRole)
      && r.createdAt == Some(now)
      && r.lastSignedIn == Supplied(user.lastSignedIn, Some(now))
  {
    var values := ValuesOf(user, ownerId);
    assert IdColumn in values;
    assert NameColumn in values <==> !user.name.Undefined?;
    assert EmailColumn in values <==> !user.email.Undefined?;
    assert LoginMethodColumn in values <==> !user.loginMethod.Undefined?;
    assert RoleColumn in values <==> Promoted(user, ownerId);
    assert LastSignedInColumn in values <==> !user.lastSignedIn.Undefined?;
  }

  /** A role the caller supplies is written neither on insert nor on update. */
  lemma SuppliedRoleNeverWritten(user: InsertUser, ownerId: string, now: Time)
    requires user.role.Some?
    ensures RoleColumn !in ValuesOf(user, ownerId)
    ensures RoleColumn !in UpdateSetOf(user, ownerId, now)
    ensures PromotedUser(user, ownerId) == user
  {
  }

  /** The update set is never empty and never touches the primary key. */
  lemma UpdateSetShape(user: InsertUser, ownerId: string, now: Time)
    ensures |UpdateSetOf(user, ownerId, now)| > 0
    ensures IdColumn !in UpdateSetOf(user, ownerId, now)
  {
    var changes := UpdateSetOf(user, ownerId, now);
    var c := if AnySupplied(user, ownerId) then SuppliedColumn(user, ownerId) else LastSignedInColumn;
    AllColumns(c);
    assert c in changes;
  }

  /** Whether the statement is accepted: the inserted values fit their columns. */
  predicate UpsertFits(user: InsertUser, ownerId: string, now: Time)
  {
    UserRowFits(InsertedUser(ValuesOf(user, ownerId), now))
  }

  /** An accepted statement keeps `users` a table. */
  lemma UpsertKeepsTable(users: map<string, UserRow>, user: InsertUser, ownerId: string, now: Time)
    requires UsersTable(users) && UpsertFits(user, ownerId, now)
    ensures UsersTable(users[user.id := UpsertedRow(users, user, ownerId, now)])
  {
    UpsertNewUser(user, ownerId, now);
    if user.id in users {
      UpsertExistingUser(users[user.id], user, ownerId, now);
    }
  }

  // ---------------------------------------------------------------------------
  // The store

  /** Failures upsertUser raises to its caller. */
  datatype UpsertError =
    | MissingUserId   // "User ID is required for upsert"
    | WriteRejected   // the statement failed, and the error is rethrown

  class Database {
    /** The module-level `_db`. */
    var handle: Option<Conn>
    var users: map<string, UserRow>
    var stories: seq<StoryRow>

    ghost predicate Valid()
      reads this
    {
      UsersTable(users) && StoriesTable(stories)
    }

    constructor ()
      ensures Valid()
      ensures handle == None && users == map[] && stories == []
    {
      handle := None;
      users := map[];
      stories := [];
    }

    /**
     * getDb: builds the handle only when there is none and DATABASE_URL is set; a
     * failed build leaves it absent, so the next call tries again.
     */
    method GetDb(env: DbEnv) returns (db: Option<Conn>)
      modifies this`handle
      ensures handle == ConnectStep(old(handle), env)
      ensures db == handle
      ensures old(handle).Some? ==> handle == old(handle)
    {
      if handle.None? && UrlSet(env) {
        if env.driverAccepts {
          handle := Some(Conn(env.databaseUrl.value));
        } else {
          handle := None;
        }
      }
      db := handle;
    }

    /**
     * upsertUser: `user'` is the caller's record afterwards, whose role the owner's
     * promotion sets in place.
     */
    method UpsertUser(env: DbEnv, ownerId: string, user: InsertUser, now: Time)
      returns (r: Result<(), UpsertError>, user': InsertUser)
      requires Valid()
      modifies this
      ensures Valid()
      ensures stories == old(stories)
      ensures user.id == "" ==>
        r == Err(MissingUserId) && user' == user && handle == old(handle) && users == old(users)
      ensures user.id != "" ==> handle == ConnectStep(old(handle), env)
      ensures user.id != "" && handle.None? ==> r == Ok(()) && user' == user && users == old(users)
      ensures user.id != "" && handle.Some? ==>
        && user' == PromotedUser(user, ownerId)
        && (if UpsertFits(user, ownerId, now)
            then r == Ok(()) && users == old(users)[user.id := UpsertedRow(old(users), user, ownerId, now)]
            else r == Err(WriteRejected) && users == old(users))
    {
      if user.id == "" {
        return Err(MissingUserId), user;
      }
      var db := GetDb(env);
      if db.None? {
        return Ok(()), user;
      }
      var values, updateSet;
      values, updateSet, user' := BuildUpsert(user, ownerId, now);
      var inserted := InsertedUser(values, now);
      if !UserRowFits(inserted) {
        return Err(WriteRejected), user';
      }
      UpsertKeepsTable(users, user, ownerId, now);
      if user.id in users {
        users := users[user.id := ApplyUpdate(users[user.id], updateSet)];
      } else {
        users := users[user.id := inserted];
      }
      r := Ok(());
    }

    /** getUser: the row with this id, or undefined (None) also when there is no database. */
    method GetUser(env: DbEnv, id: string) returns (u: Option<UserRow>)
      modifies this`handle
      ensures handle == ConnectStep(old(handle), env)
      ensures u == if handle.Some? && id in users then Some(users[id]) else None
    {
      var db := GetDb(env);
      if db.None? {
        return None;
      }
      u := if id in users then Some(users[id]) else None;
    }

    /**
     * createStory: inserts, then reads the row back by id; a rejected insert (a
     * duplicate id, a value too wide for its column) or a missing database gives null.
     */
    method CreateStory(env: DbEnv, story: InsertStory, now: Time) returns (r: Option<StoryRow>)
      requires Valid()
      modifies this
      ensures Valid()
      ensures users == old(users)
      ensures handle == ConnectStep(old(handle), env)
      ensures if handle.Some? && Insertable(old(stories), story)
        then stories == old(stories) + [NewStoryRow(story, now)] && r == Some(NewStoryRow(story, now))
        else stories == old(stories) && r == None
    {
      var db := GetDb(env);
      if db.None? {
        return None;
      }
      if !Insertable(stories, story) {
        return None;
      }
      InsertKeepsTable(stories, story, now);
      stories := stories + [NewStoryRow(story, now)];
      r := FindStory(stories, story.id);
    }

    /** getUserStories: the caller's rows newest first, or [] when there is no database. */
    method GetUserStories(env: DbEnv, userId: string) returns (r: seq<StoryRow>)
      modifies this`handle
      ensures handle == ConnectStep(old(handle), env)
      ensures r == if handle.Some? then UserStories(stories, userId) else []
    {
      var db := GetDb(env);
      if db.None? {
        return [];
      }
      r := UserStories(stories, userId);
    }

    /** getStory: the row with this id whoever owns it, or null. */
    method GetStory(env: DbEnv, id: string) returns (r: Option<StoryRow>)
      modifies this`handle
      ensures handle == ConnectStep(old(handle), env)
      ensures r == if handle.Some? then FindStory(stories, id) else None
    {
      var db := GetDb(env);
      if db.None? {
        return None;
      }
      r := FindStory(stories, id);
    }

    /** deleteStory: removes the row with this id, if any, and reports true; false without a database. */
    method DeleteStory(env: DbEnv, id: string) returns (ok: bool)
      requires Valid()
      modifies this
      ensures Valid()
      ensures users == old(users)
      ensures handle == ConnectStep(old(handle), env)
      ensures ok == handle.Some?
      ensures stories == if handle.Some? then DeleteRows(old(stories), id) else old(stories)
    {
      var db := GetDb(env);
      if db.None? {
        return false;
      }
      DeleteKeepsTable(stories, id);
      stories := DeleteRows(stories, id);
      ok := true;
    }
  }
}
