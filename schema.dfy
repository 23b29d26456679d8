/**
 * The two tables of the persisted schema (drizzle/schema.ts): the record a row holds,
 * the record an insert supplies, and the column constraints every stored row meets.
 */
module Schema {
  import opened Wrappers

  /** Timestamps are milliseconds since the epoch. */
  type Time = nat

  // Column widths of the varchar columns.
  const IdLength := 64
  const EmailLength := 320
  const LoginMethodLength := 64
  const TitleLength := 255
  const GenreLength := 100
  const MoodLength := 100

  /** The `role` enum column: only these two values exist, and it is never null. */
  datatype Role = UserRole | AdminRole

  function RoleName(r: Role): string
  {
    match r
    case UserRole => "user"
    case AdminRole => "admin"
  }

  /** The column default of `role`. */
  const DefaultRole: Role := UserRole

  /**
   * One field of an insert record as JavaScript passes it: left out (`undefined`),
   * explicitly `null`, or a value.
   */
  datatype Field<T> = Undefined | Null | Value(value: T)

  /** A row of `users`. Nullable columns are options; `id` and `role` are not null. */
  datatype UserRow = UserRow(
    id: string,
    name: Option<string>,
    email: Option<string>,
    loginMethod: Option<string>,
    role: Role,
    createdAt: Option<Time>,
    lastSignedIn: Option<Time>)

  /** What a caller may supply for `users`: only `id` is required. */
  datatype InsertUser = InsertUser(
    id: string,
    name: Field<string>,
    email: Field<string>,
    loginMethod: Field<string>,
    role: Option<Role>,
    createdAt: Field<Time>,
    lastSignedIn: Field<Time>)

  /**
   * A row of `stories`. `userId`, `imageUrl` and `story` are not null; `characters`
   * holds the JSON array text of the character list.
   */
  datatype StoryRow = StoryRow(
    id: string,
    userId: string,
    imageUrl: string,
    imageDescription: Option<string>,
    story: string,
    title: Option<string>,
    genre: Option<string>,
    mood: Option<string>,
    characters: Option<string>,
    setting: Option<string>,
    createdAt: Option<Time>,
    updatedAt: Option<Time>)

  /** What an insert into `stories` supplies; both timestamps are left to their defaults. */
  datatype InsertStory = InsertStory(
    id: string,
    userId: string,
    imageUrl: string,
    imageDescription: Option<string>,
    story: string,
    title: Option<string>,
    genre: Option<string>,
    mood: Option<string>,
    characters: Option<string>,
    setting: Option<string>)

  /** A nullable varchar value fits its column. */
  predicate FitsColumn(v: Option<string>, width: nat)
  {
    v.None? || |v.value| <= width
  }

  predicate UserRowFits(u: UserRow)
  {
    && |u.id| <= IdLength
    && FitsColumn(u.email, EmailLength)
    && FitsColumn(u.loginMethod, LoginMethodLength)
  }

  /** The varchar columns of `stories` hold their values. */
  predicate StoryColumnsFit(id: string, userId: string, title: Option<string>, genre: Option<string>,
                            mood: Option<string>)
  {
    && |id| <= IdLength
    && |userId| <= IdLength
    && FitsColumn(title, TitleLength)
    && FitsColumn(genre, GenreLength)
    && FitsColumn(mood, MoodLength)
  }

  predicate StoryFits(s: InsertStory)
  {
    StoryColumnsFit(s.id, s.userId, s.title, s.genre, s.mood)
  }

  predicate StoryRowFits(s: StoryRow)
  {
    StoryColumnsFit(s.id, s.userId, s.title, s.genre, s.mood)
  }

  /** The row an insert stores: `createdAt` and `updatedAt` take the insertion time. */
  function NewStoryRow(s: InsertStory, now: Time): (r: StoryRow)
    ensures r.id == s.id && r.userId == s.userId && r.imageUrl == s.imageUrl && r.story == s.story
    ensures r.imageDescription == s.imageDescription && r.title == s.title && r.genre == s.genre
    ensures r.mood == s.mood && r.characters == s.characters && r.setting == s.setting
    ensures r.createdAt == Some(now) && r.updatedAt == Some(now)
    ensures StoryFits(s) <==> StoryRowFits(r)
  {
    StoryRow(s.id, s.userId, s.imageUrl, s.imageDescription, s.story, s.title, s.genre,
             s.mood, s.characters, s.setting, Some(now), Some(now))
  }

  /** `users` is keyed by its primary key, and every row fits its columns. */
  ghost predicate UsersTable(users: map<string, UserRow>)
  {
    forall id :: id in users ==> users[id].id == id && UserRowFits(users[id])
  }

  /** No two rows of `stories` share a primary key. */
  predicate DistinctIds(rows: seq<StoryRow>)
  {
    forall i, j :: 0 <= i < j < |rows| ==> rows[i].id != rows[j].id
  }

  /** `stories` holds one row per id, every row fitting its columns. */
  ghost predicate StoriesTable(rows: seq<StoryRow>)
  {
    DistinctIds(rows) && forall i :: 0 <= i < |rows| ==> StoryRowFits(rows[i])
  }
}
