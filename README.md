# Sign-language learning API: the single-table data layer

This project models the core of the FastAPI service behind a sign-language learning app. All of the service's data lives in one DynamoDB table, addressed by a composite key `(PK, SK)`. The model covers the following, with the properties the code promises proved about each:

- users, with registration, login, the role change and the bearer-token dependencies;
- the content tree: topics, their levels and the levels' exercises, each with per-language translation rows;
- each user's progress records, and the summaries built from them;
- the leaderboards computed from the progress records.

The modules:

- `Values`: Python values as stored in items (`Value`, `Item = map<string, Value>`), the endpoints' `Result` (a response or an HTTP status), and the Python built-ins the code leans on (`dict.get`, truthiness, `int()`, `float()`, `startswith`, `replace`).
- `Keys`: the key scheme (`USER#`, `TOPIC#`, `LEVEL#`, `EXERCISE#`, `LANG#`, `PROGRESS#`, `METADATA`) as a bijection between rows and keys.
- `Store`: the table, as a class whose `items` map and scan `order` are updated in place by `put_item` and `delete_item`. Scans and queries are filters over `Rows()`, the items in scan order.
- `Seqs` and `Sorting`: filtering, mapping, and Python's stable `list.sort`, modelled as a stable insertion sort with its ordering, permutation and stability proved.
- `Decimals`: `convert_floats_to_decimal`.
- `Access`: the password hashing and token layer of `core/auth.py`. SHA-256, bcrypt and the JWT codec are parameters.
- `Accounts`: the auth router (email normalisation, the email check, register, login, me, the user list, the role change).
- `Catalog`: what the topic, level and exercise routers share (the translation lookup, sorting by position, get with a translation, partial update).
- `Topics`, `Levels`, `Exercises`: their routers.
- `Progress`: the progress router (submit with best-score merging, level and user summaries).
- `Leaderboards`: the leaderboard router (aggregation by user, name resolution, ranking, limits, scopes, a user's rank).

Effects are modelled as follows:

- Endpoints that write take the `Table` and state its whole new contents.
- Endpoints that only read are specified by a function of `Rows()` or `items`. Properties are proved about those functions.
- Generated ids (`uuid4`), the clock and the salt are parameters.

## Model

| member | source | states |
|---|---|---|
| Keys.ParseKeyOf | services/api/app/api/v1/progress.py:51-53 | every row kind's key parses back to that row, so the key scheme is injective |
| Keys.KeyOfInjective | services/api/app/api/v1/topics.py:115-147 | two different rows never share a `(PK, SK)` key, so no writer overwrites another kind's row |
| Keys.TopicPartitionDisjoint | services/api/app/api/v1/topics.py:115-147 | in a topic's partition, the `METADATA` row, the `LANG#` rows and the `LEVEL#` rows have pairwise distinct sort keys |
| Keys.LevelPartitionDisjoint | services/api/app/api/v1/levels.py:150-165 | in a level's partition, translation rows and exercise rows never collide |
| Keys.LevelIdOfLevelKey | services/api/app/api/v1/leaderboards.py:105-108 | `SK.replace('LEVEL#', '')` gives back the level id whenever the id does not itself contain `LEVEL#` |
| Keys.LevelIdOfAnyLevelKey | services/api/app/api/v1/leaderboards.py:105-108 | for every level id, `SK.replace('LEVEL#', '')` gives the id with every `LEVEL#` removed: the key's prefix and any occurrence inside the id |
| Keys.ReplaceRemovesInnerOccurrences | services/api/app/api/v1/leaderboards.py:105-108 | `replace` also strips an inner `LEVEL#`: a level with id `LEVEL#x` is read as level `x` |
| Values.RemoveAllAbsent | services/api/app/api/v1/leaderboards.py:107 | `replace` leaves a string that does not contain the pattern unchanged |
| Values.Without | services/api/app/api/v1/auth.py:148-154 | the response copy drops exactly the one attribute and keeps every other attribute |
| Store.KeyAttrs | services/api/app/api/v1/topics.py:131 | an item's key is read from its `PK` and `SK` text attributes, and the key is unique when it exists |
| Store.RowsOf | services/api/app/api/v1/leaderboards.py:31-43 | the scan gives one row per key in scan order, each the stored item |
| Store.Erase | services/api/app/api/v1/topics.py:201 | after a delete, the scan order holds every other key and never the deleted one |
| Store.EraseDistinct | services/api/app/api/v1/topics.py:201 | deleting keeps the scan order free of duplicates |
| Store.PutStep | services/api/app/api/v1/topics.py:134-147 | putting rows one after another: the next put overwrites exactly that row's key |
| Store.PutAllElsewhere | services/api/app/api/v1/topics.py:134-147 | puts of rows under other keys leave a key's item (or its absence) untouched |
| Store.PutAllStored | services/api/app/api/v1/topics.py:134-147 | after a batch of puts, a row that no later row overwrites is the item stored under its key |
| Store.Table.constructor | services/api/app/api/v1/progress.py:30-38 | a fresh table is empty and valid |
| Store.Table.Rows | services/api/app/api/v1/leaderboards.py:31-43 | a scan lists each stored item once, in scan order |
| Store.Table.Put | services/api/app/api/v1/progress.py:90 | `put_item` stores the item under its own key (replacing any old one) and adds a new key at the end of the scan order |
| Store.Table.PutEach | services/api/app/api/v1/topics.py:134-147 | a loop of `put_item` calls leaves the same table as the puts done in sequence |
| Store.Table.Delete | services/api/app/api/v1/topics.py:201 | `delete_item` removes exactly that key and touches nothing else |
| Store.InRows | services/api/app/api/v1/leaderboards.py:31-43 | an item appears in the scan exactly when some key holds it |
| Seqs.Filter | services/api/app/api/v1/leaderboards.py:31-43 | the filtered scan holds exactly the rows that satisfy the filter |
| Sorting.Insert | services/api/app/api/v1/leaderboards.py:75 | insertion adds exactly one element |
| Sorting.InsertSorted | services/api/app/api/v1/leaderboards.py:75 | inserting into a sorted list keeps it sorted |
| Sorting.SortIsSorted | services/api/app/api/v1/topics.py:71 | `list.sort(key=...)` orders the list by the key |
| Sorting.SortIsPermutation | services/api/app/api/v1/topics.py:71 | sorting neither adds nor drops elements: the result is a permutation |
| Sorting.InsertStable | services/api/app/api/v1/leaderboards.py:75 | insertion puts an element after the equal keys already placed |
| Sorting.SortIsStable | services/api/app/api/v1/leaderboards.py:75 | the sort is stable: elements with equal keys keep their relative order |
| Sorting.WithKeyHead | services/api/app/api/v1/leaderboards.py:75 | the first element leads the run of its own key |
| Sorting.WithKeyMember | services/api/app/api/v1/leaderboards.py:75 | an element with key `v` makes the run for `v` non-empty |
| Sorting.WithKeyBound | services/api/app/api/v1/leaderboards.py:75 | a non-empty run for `v` means some element has key `v` |
| Sorting.StableSortUnique | services/api/app/api/v1/leaderboards.py:75 | two sorted lists with the same runs for every key are equal, so the stable sort's result is unique |
| Sorting.InsertKeepsDistinct | services/api/app/api/v1/leaderboards.py:75 | inserting an element with a new id keeps the ids distinct |
| Sorting.SortKeepsDistinct | services/api/app/api/v1/leaderboards.py:75 | sorting keeps distinct ids distinct |
| Decimals.ToDecimal | services/api/app/api/v1/exercises.py:17-25 | a float becomes a Decimal of the same value; lists and dicts keep their shape; other values are unchanged |
| Decimals.ToDecimalFloatFree | services/api/app/api/v1/exercises.py:17-25 | no float is left at any depth after conversion |
| Decimals.ToDecimalKeeps | services/api/app/api/v1/exercises.py:17-25 | a value with no floats comes back unchanged |
| Decimals.ToDecimalIdempotent | services/api/app/api/v1/exercises.py:17-25 | converting twice is the same as converting once |
| Decimals.ToDecimalSameNumber | services/api/app/api/v1/exercises.py:17-25 | conversion keeps the number `float()` reads and keeps truthiness |
| Access.HashPassword | services/api/app/core/auth.py:37-59 | hashing succeeds exactly when the length is between 8 and 128; otherwise it is the `ValueError` |
| Access.HashThenVerify | services/api/app/core/auth.py:61-67 | a password verifies against its own hash, and so does any password with the same SHA-256 pre-hash |
| Access.Claims | services/api/app/core/auth.py:69-79 | the signed claims are the data plus `exp` = now + delta, or now + 30 minutes when no delta is given |
| Access.DecodeToken | services/api/app/core/auth.py:81-91 | 401 exactly when the token does not decode |
| Access.PrincipalItem | services/api/app/core/auth.py:107-112 | the current user dict carries `user_id` from `sub` and the role |
| Access.GetCurrentUser | services/api/app/core/auth.py:93-112 | 401 unless the token decodes and carries a string `sub`; the role defaults to `user` |
| Access.GetCurrentAdmin | services/api/app/core/auth.py:114-124 | passes the user through exactly when the role is `admin`, gives 403 for any other role, and passes an authentication failure through |
| Access.GetOptionalUser | services/api/app/core/auth.py:127-136 | anonymous without credentials or with failing ones; otherwise the user `get_current_user` gives |
| Access.TokenAuthenticates | services/api/app/core/auth.py:69-124 | a token issued for `sub` authenticates that user with its role (default `user`), and passes the admin check exactly when that role is `admin` |
| Accounts.LowerChar | services/api/app/api/v1/auth.py:61-66 | lower-casing maps upper-case letters to lower case, leaves other characters alone and keeps whitespace |
| Accounts.Lower | services/api/app/api/v1/auth.py:61-66 | `lower()` keeps the length |
| Accounts.LowerFacts | services/api/app/api/v1/auth.py:61-66 | `lower()` works character by character |
| Accounts.LowerKeeps | services/api/app/api/v1/auth.py:61-66 | a string with no upper-case letter is left unchanged |
| Accounts.StripTrimmed | services/api/app/api/v1/auth.py:61-66 | `strip()` leaves no whitespace at either end |
| Accounts.StripBounds | services/api/app/api/v1/auth.py:61-66 | `strip()` cuts only whitespace, from the ends |
| Accounts.NormalizeEmailShape | services/api/app/api/v1/auth.py:61-66 | a normalised email has no upper-case letter and no surrounding whitespace |
| Accounts.NormalizeEmailCutsSpace | services/api/app/api/v1/auth.py:61-66 | normalising is lower-casing then cutting only surrounding whitespace |
| Accounts.NormalizeEmailIdempotent | services/api/app/api/v1/auth.py:61-66 | normalising twice is the same as normalising once |
| Accounts.CheckEmailExists | services/api/app/api/v1/auth.py:68-95 | the scan loop answers whether some user item has the normalised email, and fails open on an unreadable email |
| Accounts.EmailSearchFinds | services/api/app/api/v1/auth.py:86-88 | `True` only when a matching user exists, and exactly then when every email is text |
| Accounts.EmailExistsMeaning | services/api/app/api/v1/auth.py:68-95 | the check agrees with the stored users: a `True` means a user holds that email |
| Accounts.NewUserItem | services/api/app/api/v1/auth.py:122-135 | the new user item sits under `USER#id / METADATA` with the normalised email, the hash, role `user` and `is_active` |
| Accounts.Register | services/api/app/api/v1/auth.py:97-159 | 422 for a bad password length, 400 for a taken email, otherwise exactly one new user item (its key appended to the scan order when new) and a bearer token without the hash |
| Accounts.FirstMatch | services/api/app/api/v1/auth.py:184-193 | the first user with that email is returned (no earlier user has it), or none exists |
| Accounts.Login | services/api/app/api/v1/auth.py:161-229 | success only for the first stored user with that email, with a verifying password and `is_active`, returned without the hash |
| Accounts.LoginOrder | services/api/app/api/v1/auth.py:187-207 | no such user gives 401; the first match alone decides the rest: a password that does not verify against its hash gives 401, a verified password on an inactive account gives 403, and 403 never comes before the password was accepted |
| Accounts.OnlyMatch | services/api/app/api/v1/auth.py:184-193 | after registering into a table where no user had the email, the new user is the only match |
| Accounts.RegisterThenLogin | services/api/app/api/v1/auth.py:97-229 | right after registering, logging in with the same email (any casing or spacing) and password returns that user and a fresh token |
| Accounts.NewUserSignsIn | services/api/app/api/v1/auth.py:193-215 | a new user item passes login's checks and yields the same claims registration signs |
| Accounts.Me | services/api/app/api/v1/auth.py:231-254 | 404 when the user item is missing, otherwise the item without its hash |
| Accounts.RegisterThenMe | services/api/app/api/v1/auth.py:140-145 | the registration token authenticates the new user as a non-admin, and `/me` returns its item |
| Accounts.CleanUsers | services/api/app/api/v1/auth.py:270-276 | every listed user is its stored item without the hash |
| Accounts.ListAllUsers | services/api/app/api/v1/auth.py:256-285 | the listing holds every user item of the scan, cleaned, with its count |
| Accounts.WithRole | services/api/app/api/v1/auth.py:326-329 | a role change sets `role` and `updated_at` and keeps every other attribute |
| Accounts.RoleUpdate | services/api/app/api/v1/auth.py:287-342 | returns the authentication failure, 400 for an unknown role, 404 for a missing user and 400 for self-demotion; otherwise the updated user without its hash |
| Accounts.UpdateUserRole | services/api/app/api/v1/auth.py:287-342 | the stored user changes only on success, and only by the role update; the scan order is unchanged |
| Accounts.RoleUpdateFacts | services/api/app/api/v1/auth.py:297-329 | success implies an admin caller who does not demote themself, and repeating the change is idempotent |
| Catalog.WithTranslation | services/api/app/api/v1/topics.py:88-93 | the item gains a `translation` exactly when a translation row exists for the language, and is otherwise unchanged |
| Catalog.AttachAll | services/api/app/api/v1/topics.py:61-69 | the translation loop handles each listed item independently |
| Catalog.AttachTranslations | services/api/app/api/v1/topics.py:61-69 | the loop yields the attached list |
| Catalog.AttachAllWithoutLanguage | services/api/app/api/v1/topics.py:61 | without a language the list is unchanged |
| Catalog.SortByPosition | services/api/app/api/v1/topics.py:71 | sorting by `int(order)` fails with 500 exactly when some position is not numeric |
| Catalog.SortByPositionFacts | services/api/app/api/v1/levels.py:81-82 | the sorted list is a permutation in non-decreasing position, with equal positions kept in scan order |
| Catalog.Listed | services/api/app/api/v1/topics.py:61-72 | a listing counts its entries and has as many as the candidates |
| Catalog.ListedPositions | services/api/app/api/v1/topics.py:61-72 | attaching translations keeps positions, so the listing is the attached candidates, sorted |
| Catalog.Fetched | services/api/app/api/v1/topics.py:76-99 | 404 exactly when no truthy item exists under the key; otherwise the item, plus its translation when one exists |
| Catalog.FetchItem | services/api/app/api/v1/levels.py:86-113 | the get endpoint's body gives the fetched result |
| Catalog.FetchedAfterPuts | services/api/app/api/v1/topics.py:131-147 | after writing an item and its translations, a get returns the item, and with a language the translation written for it |
| Catalog.Patched | services/api/app/api/v1/topics.py:172-179 | the supplied fields are set and every other attribute is kept |
| Catalog.PatchedTwice | services/api/app/api/v1/topics.py:172-179 | applying the same fields again changes nothing |
| Catalog.PatchedAssign | services/api/app/api/v1/topics.py:172-179 | each assignment extends the patch by one field |
| Catalog.PatchedThenStamped | services/api/app/api/v1/topics.py:181-182 | stamping after the fields is one combined patch |
| Catalog.PatchedKeepsKey | services/api/app/api/v1/topics.py:184 | an update never moves the item to another key |
| Catalog.PutStamped | services/api/app/api/v1/topics.py:181-184 | the stamped, patched item replaces the stored one under its key and nothing else changes |
| Catalog.Stamped | services/api/app/api/v1/topics.py:181-182 | `updated_at` and `updated_by` are set and every other attribute is kept |
| Topics.TopicListFacts | services/api/app/api/v1/topics.py:43-74 | the list holds exactly the indexed topics (published ones when asked), translated, sorted by `order` and counted; a non-numeric `order` gives 500 |
| Topics.ListTopics | services/api/app/api/v1/topics.py:43-74 | the endpoint returns that list for the current table |
| Topics.GetTopic | services/api/app/api/v1/topics.py:76-99 | the endpoint returns the topic's `METADATA` row with its translation, or 404 |
| Topics.TopicItem | services/api/app/api/v1/topics.py:115-129 | the topic item is keyed `TOPIC#id / METADATA` |
| Topics.TopicItemFields | services/api/app/api/v1/topics.py:115-129 | a new topic is indexed, published as asked, and has its creator; `order` is set only when given |
| Topics.TopicTranslationItem | services/api/app/api/v1/topics.py:136-145 | a translation row is keyed `TOPIC#id / LANG#code` |
| Topics.TopicTranslationItemFields | services/api/app/api/v1/topics.py:136-145 | a translation row stores its language and title, and a description only when one is given and non-empty |
| Topics.TranslationItems | services/api/app/api/v1/topics.py:134-147 | one keyed row per translation, in order |
| Topics.CreateTopic | services/api/app/api/v1/topics.py:102-151 | 500 with nothing written when the admin has no `user_id`; otherwise the topic and its translations are written and the topic returned |
| Topics.CreateThenGet | services/api/app/api/v1/topics.py:102-151 | reading a created topic back returns the created item |
| Topics.CreateThenGetTranslated | services/api/app/api/v1/topics.py:134-147 | reading it back in one of its languages attaches the translation row created for that language |
| Topics.TopicFields | services/api/app/api/v1/topics.py:172-179 | exactly the supplied fields are updated, and never the key |
| Topics.TopicFieldsValues | services/api/app/api/v1/topics.py:172-179 | each supplied field is stored with its value |
| Topics.ApplyTopicFields | services/api/app/api/v1/topics.py:172-179 | the assignment sequence is the patch of the supplied fields |
| Topics.UpdatedTopic | services/api/app/api/v1/topics.py:153-189 | 404 for a missing topic and 500 without the admin's `user_id`; otherwise the patched and stamped item |
| Topics.UpdateTopicFacts | services/api/app/api/v1/topics.py:172-184 | an update sets the supplied fields and the stamps and keeps every other attribute |
| Topics.UpdateTopicIdempotent | services/api/app/api/v1/topics.py:153-189 | repeating the same update stores the same item |
| Topics.UpdateTopic | services/api/app/api/v1/topics.py:153-189 | the stored topic is replaced on success and nothing changes on failure |
| Topics.DeleteTopic | services/api/app/api/v1/topics.py:191-208 | only the topic's `METADATA` row is deleted |
| Topics.DeleteLeavesTranslations | services/api/app/api/v1/topics.py:201-204 | after a delete, the topic is 404 but its translation rows remain |
| Levels.LevelListFacts | services/api/app/api/v1/levels.py:52-84 | the list holds exactly the topic's indexed levels (published ones when asked), translated, sorted by `position` and counted |
| Levels.ListLevels | services/api/app/api/v1/levels.py:52-84 | the endpoint returns that list for the current table |
| Levels.GetLevel | services/api/app/api/v1/levels.py:86-113 | the level's row with its translation, or 404 |
| Levels.LevelItem | services/api/app/api/v1/levels.py:129-145 | the level item is keyed `TOPIC#t / LEVEL#id` |
| Levels.LevelItemFields | services/api/app/api/v1/levels.py:129-145 | a new level is indexed under its topic, with its position, difficulty, publication and creator; `metadata` is set only when given |
| Levels.LevelTranslationItem | services/api/app/api/v1/levels.py:152-163 | a translation row is keyed `LEVEL#id / LANG#code` |
| Levels.LevelTranslationItemFields | services/api/app/api/v1/levels.py:152-163 | a description and a hint are stored only when given and non-empty |
| Levels.TranslationItems | services/api/app/api/v1/levels.py:150-165 | one keyed row per translation, in order |
| Levels.CreateLevel | services/api/app/api/v1/levels.py:116-169 | 500 with nothing written when the admin has no `user_id`; otherwise the level and its translations are written |
| Levels.CreateThenGet | services/api/app/api/v1/levels.py:116-169 | a created level reads back as written, and with a language, with that language's translation |
| Levels.TranslationKeysApart | services/api/app/api/v1/levels.py:150-165 | translation rows never land on the level's own key |
| Levels.LaterTranslationKeys | services/api/app/api/v1/levels.py:150-165 | with distinct language codes, no later translation row overwrites an earlier one |
| Levels.LevelFields | services/api/app/api/v1/levels.py:190-199 | exactly the supplied fields are updated, and never the key |
| Levels.LevelFieldsValues | services/api/app/api/v1/levels.py:190-199 | each supplied field is stored with its value |
| Levels.ApplyLevelFields | services/api/app/api/v1/levels.py:190-199 | the assignment sequence is the patch of the supplied fields |
| Levels.UpdatedLevel | services/api/app/api/v1/levels.py:171-209 | 404 for a missing level and 500 without the admin's `user_id`; otherwise the patched and stamped item |
| Levels.UpdateLevelFacts | services/api/app/api/v1/levels.py:190-203 | an update sets the supplied fields and the stamps and keeps every other attribute |
| Levels.UpdateLevelIdempotent | services/api/app/api/v1/levels.py:171-209 | repeating the same update stores the same item |
| Levels.UpdateLevel | services/api/app/api/v1/levels.py:171-209 | the stored level is replaced on success and nothing changes on failure |
| Levels.DeleteLevel | services/api/app/api/v1/levels.py:211-223 | only the level's row is deleted |
| Levels.DeleteLeavesTranslations | services/api/app/api/v1/levels.py:211-223 | after a delete, the level is 404 but its translation rows remain |
| Exercises.ConfigDict | services/api/app/api/v1/exercises.py:155-156 | `dict(exclude_none=True)` holds exactly the config fields that are set |
| Exercises.StoredDocumentsFloatFree | services/api/app/api/v1/exercises.py:155-158 | stored configs and schemas hold no float, and a confidence becomes a Decimal |
| Exercises.LevelExercisesStored | services/api/app/api/v1/exercises.py:78-80 | the query returns exactly the stored items under `LEVEL#l` whose sort key begins `EXERCISE#` |
| Exercises.ExerciseListFacts | services/api/app/api/v1/exercises.py:70-97 | the list is the level's exercises, translated, sorted by `position` and counted; a non-numeric position gives 500 |
| Exercises.ListExercises | services/api/app/api/v1/exercises.py:70-97 | the endpoint returns that list for the current table |
| Exercises.GetExercise | services/api/app/api/v1/exercises.py:99-126 | the exercise's row with its translation, or 404 |
| Exercises.ExerciseBase | services/api/app/api/v1/exercises.py:142-153 | the exercise item is keyed `LEVEL#l / EXERCISE#id` with its type and position |
| Exercises.WithDocuments | services/api/app/api/v1/exercises.py:155-158 | adding the documents keeps every other attribute |
| Exercises.WithDocumentsFacts | services/api/app/api/v1/exercises.py:155-158 | a config is stored when given; a schema only when given and non-empty; neither holds floats |
| Exercises.ExerciseItem | services/api/app/api/v1/exercises.py:142-158 | the created item sits under its key |
| Exercises.ExerciseItemFields | services/api/app/api/v1/exercises.py:142-158 | a new exercise belongs to its level with its position and type, and its documents are float-free |
| Exercises.ExerciseTranslationItem | services/api/app/api/v1/exercises.py:165-176 | a translation row is keyed `EXERCISE#id / LANG#code` |
| Exercises.ExerciseTranslationItemFields | services/api/app/api/v1/exercises.py:165-176 | choice texts and feedback are stored only when given and non-empty |
| Exercises.TranslationItems | services/api/app/api/v1/exercises.py:163-178 | one keyed row per translation, in order |
| Exercises.CreateExercise | services/api/app/api/v1/exercises.py:129-182 | 500 with nothing written when the admin has no `user_id`; otherwise the exercise and its translations are written |
| Exercises.TranslationKeysApart | services/api/app/api/v1/exercises.py:163-178 | translation rows never land on the exercise's own key |
| Exercises.LaterTranslationKeys | services/api/app/api/v1/exercises.py:163-178 | with distinct language codes, no later translation row overwrites an earlier one |
| Exercises.CreateThenGet | services/api/app/api/v1/exercises.py:129-182 | a created exercise reads back as written, and with a language, with that language's translation |
| Exercises.ExerciseFields | services/api/app/api/v1/exercises.py:203-208 | exactly the supplied fields are updated, and never the key |
| Exercises.ExerciseFieldsValues | services/api/app/api/v1/exercises.py:203-208 | supplied fields are stored with their values, and documents are float-free |
| Exercises.ApplyExerciseFields | services/api/app/api/v1/exercises.py:203-208 | the assignment sequence is the patch of the supplied fields |
| Exercises.UpdatedExercise | services/api/app/api/v1/exercises.py:184-218 | 404 for a missing exercise and 500 without the admin's `user_id`; otherwise the patched and stamped item |
| Exercises.UpdateExerciseFacts | services/api/app/api/v1/exercises.py:203-212 | an update sets the supplied fields and the stamps and keeps every other attribute |
| Exercises.UpdateExerciseIdempotent | services/api/app/api/v1/exercises.py:184-218 | repeating the same update stores the same item |
| Exercises.UpdateExercise | services/api/app/api/v1/exercises.py:184-218 | the stored exercise is replaced on success and nothing changes on failure |
| Exercises.DeleteExercise | services/api/app/api/v1/exercises.py:220-232 | only the exercise's row is deleted |
| Exercises.DeleteLeavesTranslations | services/api/app/api/v1/exercises.py:220-232 | after a delete, the exercise is 404 but its translation rows remain |
| Progress.ProgressBase | services/api/app/api/v1/progress.py:60-70 | the record is keyed `USER#u / PROGRESS#e` with the attempt count, status, level and time |
| Progress.BestScore | services/api/app/api/v1/progress.py:72-78 | the best score is the maximum of the stored best and the new score, and a score that is not higher keeps the stored value |
| Progress.Merge | services/api/app/api/v1/progress.py:51-90 | 500 exactly when the stored `attempts` or `best_score` does not convert; otherwise a record under the user's progress key |
| Progress.MergeCounts | services/api/app/api/v1/progress.py:60-70 | attempts grow by one; status, level and time are the submitted ones |
| Progress.MergeScores | services/api/app/api/v1/progress.py:72-78 | a scored submission stores its score and the running maximum; an unscored one stores neither |
| Progress.MergeStamps | services/api/app/api/v1/progress.py:80-88 | `created_at` is kept from the old record or set now; `updated_at` is now; `data` only when given |
| Progress.MergeFields | services/api/app/api/v1/progress.py:60-88 | the record holds every base attribute and nothing outside the record's fields |
| Progress.BuildRecord | services/api/app/api/v1/progress.py:51-88 | the step-by-step construction is the merge |
| Progress.SubmitProgress | services/api/app/api/v1/progress.py:40-94 | on success the record replaces the stored one under its key (a new key goes at the end of the scan order); on failure nothing changes |
| Progress.ReplayFromNothing | services/api/app/api/v1/progress.py:40-94 | after n submissions, attempts is n, `created_at` is the first time, and with every submission scored, best is the maximum and score is the last |
| Progress.BestScoreAcrossOneSubmission | services/api/app/api/v1/progress.py:72-78 | a scored submission never lowers the best score; an unscored one drops it |
| Progress.CreatedAtStable | services/api/app/api/v1/progress.py:83-86 | `created_at` never changes once set |
| Progress.CountCompleted | services/api/app/api/v1/progress.py:115-117 | the completed count is at most the number of items, and zero when none is completed |
| Progress.SumBest | services/api/app/api/v1/progress.py:115-117 | the sum exists exactly when every best score converts |
| Progress.SumAttempts | services/api/app/api/v1/progress.py:171-174 | the sum exists exactly when every attempt count converts |
| Progress.Percentage | services/api/app/api/v1/progress.py:124 | 0 with no items, and between 0 and 100 when the completed count is at most the total |
| Progress.GetLevelProgress | services/api/app/api/v1/progress.py:96-128 | the report is built from exactly the user's progress items for that level |
| Progress.GetUserSummary | services/api/app/api/v1/progress.py:156-185 | the summary is built from exactly the user's progress items |
| Progress.GetExerciseProgress | services/api/app/api/v1/progress.py:130-154 | the stored record, or a `not_started` record with zero attempts |
| Progress.LevelItemsExactly | services/api/app/api/v1/progress.py:106-110 | the level query selects exactly the user's `PROGRESS#` items with that `level_id` |
| Progress.CountersBounded | services/api/app/api/v1/progress.py:115-182 | completed is at most the total, percentages stay within 0 to 100, and empty input gives zeros |
| Progress.SumBestBounds | services/api/app/api/v1/progress.py:115-117 | the sum of best scores lies between n times the lowest and n times the highest |
| Leaderboards.Users | services/api/app/api/v1/leaderboards.py:48-56 | each user appears once, in first-seen order, exactly when some record is theirs |
| Leaderboards.UserTotalAbsent | services/api/app/api/v1/leaderboards.py:48-56 | a user without records totals 0 |
| Leaderboards.Ranked | services/api/app/api/v1/leaderboards.py:78-79 | ranks are the positions 1, 2, ... of the sorted list |
| Leaderboards.Top | services/api/app/api/v1/leaderboards.py:91 | the slice is the first `limit` entries |
| Leaderboards.ProgressOfLevels | services/api/app/api/v1/leaderboards.py:114-123 | the topic scope holds exactly the progress records of its levels |
| Leaderboards.FindUser | services/api/app/api/v1/leaderboards.py:290 | the first board entry of the user, or none |
| Leaderboards.TotalsStep | services/api/app/api/v1/leaderboards.py:48-56 | one loop step adds the record's score to its user and adds the user when first seen |
| Leaderboards.AggregateScores | services/api/app/api/v1/leaderboards.py:48-56 | the loop sums every user's scores; a score that does not convert fails |
| Leaderboards.ResolveNames | services/api/app/api/v1/leaderboards.py:59-72 | every user gets the name stored in its user item, or the placeholder |
| Leaderboards.AssignRanks | services/api/app/api/v1/leaderboards.py:78-79 | the rank loop gives the ranked board |
| Leaderboards.BuildLeaderboard | services/api/app/api/v1/leaderboards.py:48-81 | aggregation, names, sort and ranks give the board |
| Leaderboards.CalculateUserScoresForScope | services/api/app/api/v1/leaderboards.py:28-81 | the board of the progress records in scope |
| Leaderboards.GetGlobalLeaderboard | services/api/app/api/v1/leaderboards.py:83-93 | the global board cut to `limit` |
| Leaderboards.GetTopicLeaderboard | services/api/app/api/v1/leaderboards.py:95-158 | the board of the topic's levels' records, cut to `limit` |
| Leaderboards.GetLevelLeaderboard | services/api/app/api/v1/leaderboards.py:160-213 | the board of the level's records, cut to `limit` |
| Leaderboards.GetUserRank | services/api/app/api/v1/leaderboards.py:215-308 | the user's rank in the requested scope |
| Leaderboards.BoardOrdered | services/api/app/api/v1/leaderboards.py:75-79 | the board is in non-increasing score order with ranks 1, 2, ... |
| Leaderboards.UserIds | services/api/app/api/v1/leaderboards.py:290 | the board's user ids, in order |
| Leaderboards.BoardFromStandings | services/api/app/api/v1/leaderboards.py:59-79 | every board entry is some user's standing |
| Leaderboards.BoardDistinct | services/api/app/api/v1/leaderboards.py:48-79 | no user appears twice on the board |
| Leaderboards.BoardUsers | services/api/app/api/v1/leaderboards.py:48-79 | the board holds exactly the users with records in scope |
| Leaderboards.BoardScores | services/api/app/api/v1/leaderboards.py:48-79 | each entry's score is the user's total and its name is the resolved name |
| Leaderboards.BoardUnique | services/api/app/api/v1/leaderboards.py:75 | any stable descending sort of the standings gives this same board |
| Leaderboards.LimitedIsPrefix | services/api/app/api/v1/leaderboards.py:91 | a limited board is a prefix of the full board |
| Leaderboards.TopicScope | services/api/app/api/v1/leaderboards.py:105-123 | the topic scope is the progress records whose level is one of the topic's levels |
| Leaderboards.ReportFacts | services/api/app/api/v1/leaderboards.py:290-306 | total users is the number of ranked users; the user has a rank exactly when they have records, and then the rank is in range and the score is their total; otherwise 0 |
| Leaderboards.UnknownScopeIsServerError | services/api/app/api/v1/leaderboards.py:286-308 | an unknown scope gives 500, because the 400 is caught by the catch-all |

## Left out

- I/O: network calls, the store's own errors and the app wiring around the table are not modelled. The store's errors would surface as 500 through the catch-alls.
- Generated ids and the clock are parameters:
  - `uuid4` ids are caller-chosen;
  - `datetime.utcnow()` is a `now` string, and seconds for token expiry.
- The cryptography is a parameter:
  - SHA-256, bcrypt with its random salt, and JWT signing and decoding are the `Hasher` and `TokenCodec`;
  - `Access.Consistent` and `Access.RoundTrips` are the only assumptions made about them;
  - token expiry is part of the codec's `decode`.
- Pydantic validation is not modelled beyond its outcome:
  - `EmailStr` syntax is not checked;
  - the registration password validator's 422 is modelled; it runs before the email check;
  - the leaderboards' `limit` bounds (1 to 100) are preconditions, because FastAPI answers 422 before the endpoint runs.
- Accounts.Lower: only `A` to `Z` are lower-cased. Python's lower-casing of other upper-case letters, and the cases where `lower()` changes the length (such as `İ`), are not modelled. `IsSpace` is Python's full `str.isspace()` set, which is what `strip()` removes.
- Numbers:
  - Python floats are exact reals, so rounding is not modelled;
  - text written with `str(n)` and read with `int()` or `float()` is held as the number itself, and `Str` stands for text that does not convert.
- Scan order: the order of scans and of index or key queries is the table's scan order. DynamoDB's pagination and index ordering are not modelled; one scan or query returns every matching item.
- Endpoints that take the acting admin:
  - the update and create endpoints, and Progress, take `current_user` as an item or a user id;
  - the admin dependency itself is modelled by `Access.GetCurrentAdmin` and `Accounts.UpdateUserRole`;
  - the delete endpoints' admin dependency is not repeated in their methods.
- `list_all_users` has no admin dependency in the code. The model follows the code.
- `get_optional_user`'s branch for missing credentials cannot run while `HTTPBearer` has `auto_error=True`. It is modelled as a `None` token.
- Progress.Merge:
  - with no stored best score, a negative score is stored as the best;
  - a submission without a score removes `best_score`, because the record is rebuilt each time.

  Both follow the code.
- Leaderboards.GetUserRank:
  - the invalid-scope 400 becomes 500 through the catch-all;
  - the topic path has no early return on an empty level list, which gives the same empty board;
  - an unnamed user is `Unknown` in the topic and level scopes and `Unknown User` elsewhere.

  All follow the code.
- Create endpoints do not check that the parent topic or level exists. Delete endpoints leave translations and children behind (`Topics.DeleteLeavesTranslations` states it). Both follow the code.
- Exercises: an empty `answer_schema` is dropped on create but stored on update. This follows the code.
- Accounts.CheckEmailExists: the check fails open (answers "not taken") when any stored email is not text. Login gives 500 in that case. A missing `password_hash` defaults to `''`. All follow the code.
- Accounts.Login: checking a stored `password_hash` that is `None`, or the `''` default, is the password library's behaviour and is not modelled. For `None` the library answers "no match", so the code gives 401; the model gives 500 for any non-text hash. For `''` the library raises, so the code gives 500; the model leaves that verification to the `Hasher` parameter. Both need a malformed stored user.
