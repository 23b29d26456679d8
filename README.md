# Vision-tale story pipeline, modelled in Dafny

This project models the server side of the vision-tale story generator. A signed-in
user uploads an image and the server runs two language-model stages over it:

- **Extraction** is a call that forces the `extract_story_elements` tool. It yields a
  title, genre, mood, characters, setting and image description.
- **Synthesis** writes a story from a prompt built out of those elements.

The result is stored in MySQL as a row of `stories`. The user can list, fetch and
delete stories, and deletion is guarded by ownership. A separate endpoint puts raw
image bytes into the blob store.

There are five files, one per module:

- `wrappers.dfy` (`Wrappers`): `Option` and `Result`.
- `schema.dfy` (`Schema`): the `users` and `stories` tables. It defines:
  - the row and insert records;
  - the `role` enum and its default;
  - the varchar widths;
  - the predicates `UsersTable` and `StoriesTable`, which every stored table meets: one row per primary key, every value fitting its column.
- `js_values.dfy` (`JsValues`): the JavaScript values that `JSON.parse` can produce. It gives
  property access (which throws on `null`/`undefined`), `String(v)` as template literals
  apply it (which throws on an object with its own `toString` property, since a JSON value is never
  callable), and `Array.prototype.join`.
- `db.dfy` (`Db`): the data-access layer as `class Database`. The class holds:
  - the lazily created handle `_db` (`handle`);
  - the `users` table, a map keyed by id;
  - the `stories` table, a sequence in insertion order of rows with distinct ids.

  Every operation returns its safe value when there is no database. `upsertUser` builds its
  `values` and `updateSet` records field by field (`BuildUpsert`). That method is proved
  against declarative maps (`ValuesOf`, `UpdateSetOf`), and the merge rules are proved
  about those maps.
- `routers.dfy` (`Routers`): the `story` router.
  - `Pipeline` is the specification of everything `generateStory` does before it persists.
  - `GenerateStory` performs the same steps one by one and is proved against `Pipeline`, including the reassigned `storyElements`.
  - The router also covers the ownership guard of `deleteStory`, `getMyStories`, `getStory`, and the storage key of `uploadImage`.

Some inputs stay abstract and are passed in as parameters:

- the language model (`invokeLLM`), as a function from request to outcome;
- `JSON.parse` and `JSON.stringify`;
- `uuidv4`, as the fresh id;
- `Date.now`, as a time;
- `storagePut`, as a function from a put request to an optional URL;
- the process environment (`DATABASE_URL`, plus whether the driver accepts it).

A throw is modelled as an error value: `None` from the reading functions, `Err` from the pipeline.

The specification of the pipeline says that a stored story always has its six metadata
fields non-empty. The code does not promise this. The parsed tool arguments are used as
they are, without validation. A missing `title` is stored as NULL, and an empty string is
stored as it is. The model follows the code. `Routers.PipelineOutcome` states exactly when a run succeeds.
`Routers.MissingCharactersFail` shows one run where the model replies but the pipeline fails anyway.

## Model

| member | source | states |
|---|---|---|
| Schema.NewStoryRow | drizzle/schema.ts:24-37 | the stored row copies the insert and takes the insertion time for `createdAt` and `updatedAt`; it fits the column widths exactly when the insert does |
| JsValues.Read | server/routers.ts:137-142 | reading a property throws exactly when the value is null or undefined; on an object it gives the property or undefined |
| JsValues.ToText | server/routers.ts:137-142 | interpolating a value returns exactly when it is convertible: no object with its own `toString`, also inside arrays |
| JsValues.JoinItems | server/routers.ts:141 | `join` returns exactly when every element is convertible |
| JsValues.CallJoin | server/routers.ts:141 | `characters.join(", ")` returns exactly when `characters` is an array whose elements are all convertible, and then it is the array's join |
| JsValues.JoinOfStrings | server/routers.ts:141 | joining an array of strings gives the strings with the separator between neighbours |
| Db.ConnectStep | server/db.ts:9-19 | an existing handle is kept; with no handle, one is created exactly when DATABASE_URL is non-empty and the driver accepts it, and it is built from that URL |
| Db.ConnectStepSettles | server/db.ts:9-19 | a second getDb in the same environment leaves the handle as the first one left it |
| Db.FindStory | server/db.ts:134-135 | the lookup gives a stored row with that id, or none exactly when no row has that id |
| Db.FindStoryFindsRow | server/db.ts:134-135 | with distinct ids, the lookup of a stored row's id gives that row |
| Db.Owned | server/db.ts:117 | `WHERE userId = u` keeps every row of u with its multiplicity and no other row |
| Db.InsertNewest | server/db.ts:118 | inserting a row into a newest-first sequence keeps it newest first and adds exactly that row |
| Db.SortNewest | server/db.ts:118 | `ORDER BY createdAt DESC` gives a permutation in non-increasing `createdAt` order, NULL last |
| Db.UserStories | server/db.ts:114-119 | the listing holds exactly the rows of that user (as a multiset, and by membership), never another user's row, newest first |
| Db.DeleteRows | server/db.ts:150 | the delete removes every row with that id and keeps every other row with its multiplicity |
| Db.DeleteKeepsTable | server/db.ts:150 | after the delete the table still has distinct ids and fitting rows, and the id is no longer found |
| Db.DeleteKeepsOthers | server/db.ts:150 | after deleting one id, every other id finds the same row it found before |
| Db.InsertKeepsTable | server/db.ts:97-98 | an accepted insert keeps the table valid, and the read-back by id finds the new row |
| Db.ValuesOf | server/db.ts:33-61 | the insert's `values` always hold the id, and hold the role (admin) exactly on promotion |
| Db.UpdateSetOf | server/db.ts:36-65 | the update set never holds the id, holds the role exactly on promotion, and sets `lastSignedIn` to now when nothing was supplied |
| Db.BuildUpsert | server/db.ts:33-65 | the field-by-field loop builds exactly the declarative `values` and `updateSet`, and the caller's record has its role set to admin exactly on promotion |
| Db.InsertedUser | server/db.ts:67 | the inserted row takes the column defaults for what `values` leaves out: `createdAt` and `lastSignedIn` now, role user, the text columns NULL |
| Db.ApplyUpdate | server/db.ts:67-69 | the updated row keeps its id and `createdAt`, and every column not in the update set |
| Db.UpsertedRow | server/db.ts:67-69 | an existing id keeps its row's id and `createdAt`; a new id gets a row with that id created now |
| Db.UpsertExistingUser | server/db.ts:41-69 | for an existing id, a supplied field overwrites its column (null stores NULL) and an undefined one is skipped; `id` and `createdAt` are kept; the role becomes admin only on promotion; `lastSignedIn` becomes now when nothing was supplied |
| Db.UpsertNewUser | server/db.ts:33-69 | for a new id, the inserted row has the id, the supplied fields or NULL, role admin on promotion and user otherwise, and both timestamps defaulting to now unless `lastSignedIn` was supplied |
| Db.SuppliedRoleNeverWritten | server/db.ts:55-61 | a role the caller supplies is written neither on insert nor on update, and the caller's record is left as it was |
| Db.UpdateSetShape | server/db.ts:63-65 | the update set is never empty and never touches the primary key |
| Db.UpsertKeepsTable | server/db.ts:67-69 | an accepted upsert keeps `users` keyed by id with fitting rows |
| Db.Database.constructor | server/db.ts:6 | the store starts with no handle and empty tables |
| Db.Database.GetDb | server/db.ts:9-19 | the handle afterwards is ConnectStep of the old one, and its value is returned |
| Db.Database.UpsertUser | server/db.ts:21-74 | an empty id throws before any access; with no database nothing changes; otherwise the row under the id becomes the upserted row, a value too wide for its column is rethrown and changes nothing, and `stories` never changes |
| Db.Database.GetUser | server/db.ts:76-86 | gives the row with that id, or undefined when the id is absent or there is no database |
| Db.Database.CreateStory | server/db.ts:89-104 | an accepted insert appends exactly the new row and returns it; a duplicate id, a value too wide for its column or a missing database returns null and leaves the table unchanged |
| Db.Database.GetUserStories | server/db.ts:106-124 | gives the owner's listing, or [] with no database; nothing but the handle changes |
| Db.Database.GetStory | server/db.ts:126-140 | gives the row with that id whoever owns it, or null |
| Db.Database.DeleteStory | server/db.ts:142-156 | removes the rows with that id and returns true, even when none matched; with no database returns false and changes nothing |
| Routers.ImageContent | server/routers.ts:35-49 | the image part is at detail "high"; with an inline image it is the JPEG data URL carrying exactly that base64 text, otherwise the uploaded URL |
| Routers.ToolElements | server/routers.ts:115-131 | elements other than the default always come from parsing the arguments of a first tool call named `extract_story_elements` |
| Routers.SynthesisPrompt | server/routers.ts:134-145 | a prompt is built only from an object whose `characters` is a convertible array |
| Routers.StoryRecord | server/routers.ts:163-175 | the record carries the id, the caller, the uploaded URL, the story text and the stringified characters; a string field is stored as it is, a null or missing one as NULL |
| Routers.Pipeline | server/routers.ts:33-184 | every failure is "Failed to generate story"; a success carries the fresh id, the caller and the uploaded URL |
| Routers.AnalysisRequestForcesTool | server/routers.ts:35-112 | the analysis request forces the one declared tool, all six parameters are required, and the image part comes first; it is the data URL when an inline image is given and the uploaded URL otherwise, always at detail "high" |
| Routers.FallbackToDefault | server/routers.ts:115-131 | no tool call, a differently named call, or arguments that JSON.parse rejects give the documented default elements |
| Routers.ParsedArgumentsUsed | server/routers.ts:124-128 | otherwise the parsed arguments are used as they are |
| Routers.PromptDefinedIff | server/routers.ts:134-145 | building the prompt returns exactly when the elements are an object whose `characters` is an array of convertible elements and whose five other shown fields are convertible |
| Routers.OwnToStringFails | server/routers.ts:137-142 | a shown field that is an object with its own `toString` makes building the prompt throw |
| Routers.DefaultPrompt | server/routers.ts:134-145 | the default elements give the prompt with the default fields and "The Protagonist" |
| Routers.PipelineOutcome | server/routers.ts:33-184 | a run succeeds exactly when the analysis reply exists, the elements are buildable (an object with a convertible array `characters` and convertible shown fields), and the synthesis reply exists; every failure is "Failed to generate story"; the record carries the fresh id, the caller, the uploaded URL (never the data URL) and the stringified characters |
| Routers.MissingCharactersFail | server/routers.ts:141 | parsed arguments without `characters` make the run fail although the model replied |
| Routers.DefaultRecord | server/routers.ts:115-175 | after the fallback, the record holds the default metadata and the story text of the synthesis reply |
| Routers.PipelineSucceeds | server/routers.ts:93-175 | when the three steps return, the run gives the record built from the elements and the synthesis reply |
| Routers.RecordOfElements | server/routers.ts:164-175 | arguments that follow the tool's schema are stored field for field, with `characters` as its JSON text |
| Routers.SchemaConformingPrompt | server/routers.ts:134-145 | arguments that follow the schema give the prompt embedding the six fields, with the characters joined by ", " |
| Routers.SchemaConformingRun | server/routers.ts:115-175 | for arguments that follow the schema, a run whose synthesis replies stores exactly those fields and the reply's text |
| Routers.AlleyCatRun | server/routers.ts:33-175 | one complete run with an inline image: the stored title and characters come from the tool call, the story comes from the reply, and the stored URL is the uploaded one, not the data URL |
| Routers.GenerateStory | server/routers.ts:32-185 | a failing pipeline returns "Failed to generate story" and stores nothing; a succeeding one passes exactly its record to createStory and returns what that gives, null included |
| Routers.GetMyStories | server/routers.ts:188-191 | the caller's listing from getUserStories |
| Routers.GetStory | server/routers.ts:194-199 | the row with that id, whoever the caller is |
| Routers.DeleteStory | server/routers.ts:202-211 | an absent story or another user's story gives "Unauthorized" and deletes nothing; otherwise the id is deleted and the store's result is returned |
| Routers.Decimal | server/routers.ts:222 | the decimal text of a time is a non-empty run of digits |
| Routers.DecimalRoundTrip | server/routers.ts:222 | the decimal text denotes the time it was written from |
| Routers.UploadKey | server/routers.ts:222 | the key is `stories/`, the decimal time, `-`, then the file name |
| Routers.UploadKeyRoundTrip | server/routers.ts:222 | the key `stories/<millis>-<filename>` determines both the time and the file name, whatever the file name holds |
| Routers.UploadImage | server/routers.ts:214-229 | the image is put under its key with content type image/jpeg; the URL the store gives is returned exactly when the put succeeds, and any failure is "Failed to upload image" |

## Left out

- Transient query failures: the `catch` branches of createStory, getUserStories, getStory and deleteStory, which yield null, [], null and false, are not modelled. The only failures modelled are the deterministic insert rejections: a duplicate primary key, or a value wider than its column.
- Routers.ColumnText: a non-string, non-null metadata value is stored as its `String()` form. How the MySQL driver really coerces such values is not modelled.
- Schema.StoryFits: only the varchar widths are checked. The 65,535-byte limit of the `text` columns (`imageUrl`, `imageDescription`, `story`, `characters`, `setting`) is not, because a byte length depends on the character encoding, which the model does not represent.
- Schema.UserRowFits: likewise, the byte limit of `users.name` is not checked.
- Rejecting an over-long value assumes MySQL's strict SQL mode. Outside strict mode MySQL truncates the value and stores the row; that mode is not modelled.
- Column widths are counted in `char`s. MySQL's character sets and collations are not modelled, and neither are case-insensitive key comparisons.
- Db.SortNewest: among stories with equal `createdAt`, the order is kept as in the table. SQL leaves that order unspecified.
- `JSON.parse` and `JSON.stringify` are abstract functions. That `characters` holds the JSON array text is therefore a statement about `stringify`; Routers.AlleyCatRun assumes what `parse` and `stringify` give on its one input.
- zod input validation (the URL check), the `auth` and `system` routers, cookies, and console logging.
- The client page and its display fallbacks.
- uploadImage decodes base64 into a buffer. The model hands the base64 text to the store as the payload, and decoding is not modelled.
- async/await scheduling: handlers run one after another with no interleaving.
- Explicit timestamps in a story insert: the router never supplies them, so the insert record omits them.
- `invokeLLM` transport, the blob store, `uuidv4` and the clock: each is an input.
- The driver's connection attempt: whether it succeeds is an input of the environment.
- JavaScript numbers are kept as their text. The router never computes with them.
