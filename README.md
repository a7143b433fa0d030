# A Dafny model of the `api/v1` core of taka_the_discord_bot_api

The service is an HTTP API for a Discord bot. Once its I/O is separated out, a number of sequential decisions remain. This project models them and proves what they promise.

- **TETR.IO leaderboard** (`get_full_leaderboard`, `full_leaderboard`). The handler first looks in the cache. On a miss it walks the upstream league leaderboard with keyset paging: one unbounded request, then `After {p}` requests until a page is not full. It then writes the aggregate back to the cache.
- **Profile card** (`teto`). A cached card, rendered by a headless browser.
- **Tetra League screenshots** (`tetra`, `tetra_replay`, `league_recent_test`). These cover the inputs, the viewport height and the response envelopes.
- **Silly commands.** The command model (`RawSillyCommandData::into_silly_command_data`, `SillyCommandType`). The service that filters commands and writes images and texts. The multipart handlers `add_image` and `add_image_author` and the lookup by name.
- **Authentication middleware** (`auth`, `is_admin`). Token extraction from the cookie or the `Authorization` header, then the ordered cascade of 401/500/403 answers.
- **Users.** The role predicates, and the user service over the user table: registration, creation, login, password check, updates and deletion. The user handlers: the filtered record, where each update takes its fields from, the JWT claims, the session cookies, and the error mapping.

Each source file has a Dafny module:

| file | module | form |
|---|---|---|
| prelude.dfy | `Prelude` | `Option`, `Result`, machine integers, status codes, the error envelope |
| tetrio_cache.dfy | `TetrioCache` | the TETR.IO client as a class: the cache map, the upstream script, the log of requests |
| leaderboard.dfy | `Leaderboard` | the walk as functions, the loop as a method proved against them |
| teto.dfy, tetra.dfy | `Teto`, `Tetra` | straight-line handlers as functions |
| silly_command_model.dfy | `SillyCommandModel` | pure conversions |
| silly_command_service.dfy | `SillyCommandService` | filters as functions, writing operations as methods of a backend class |
| silly_command_controller.dfy | `SillyCommandController` | the `while let` accumulator as a method with a loop invariant |
| auth.dfy | `AuthMiddleware` | the combinator chain as functions |
| user_model.dfy | `UserModel` | records and role predicates |
| user_service.dfy | `UserService` | the user table as a class whose methods replace it |
| user_controller.dfy | `UserController` | handlers over the user store |

Calls into code outside these files are parameters or class constants, each standing for what that call answers:

- the TETR.IO API and its cache
- the headless browser
- JWT signing and the signature check of a token
- UUID parsing
- Argon2 hashing
- serde serialisation
- URL encoding
- the database queries
- the file system

## Model

| member | source | states |
|---|---|---|
| Leaderboard.GetFullLeaderboard | src/api/v1/mod.rs:287-345 | The live call does exactly what the reference `FullLeaderboard` says: the same result, the same cache afterwards, the same requests sent, and the upstream replies consumed in order. |
| Leaderboard.FetchPages | src/api/v1/mod.rs:296-331 | The first request and the `loop` collect exactly the pages the reference walk `FullWalk` collects. The requests `FullWalk` lists are sent, in order, and one reply is consumed per request. |
| Leaderboard.CacheLookupComesFirst | src/api/v1/mod.rs:289-294 | A packet found under `/BEAN_BLASTER_SERVER?country={country:?}` with session `X_TEST_BEAN_BLASTER` is the answer. No page is requested and nothing is written. A failed cache read is the error. |
| Leaderboard.CacheMissWalksAndWritesBack | src/api/v1/mod.rs:296-343 | On a miss the walk runs. A failed walk or a failed encoding writes nothing. Otherwise the packet (success, no error, cache of 3600 s, the pages concatenated) goes to `cache_tetrio_api_result_if_not_present`. A failed write fails the call. |
| Leaderboard.FullWalkShape | src/api/v1/mod.rs:296-331 | The first request is `NotBound {100, country}` with session `X_TEST_BEAN_BLASTER`. Each later one is `After {p of the previous page's last entry, 100, country}` with session `X_BEANBLASTER`. Every page but the last is full. A success fetched at least two pages and ends with the first loop page whose length is not 100. |
| Leaderboard.LoopWalkShape | src/api/v1/mod.rs:310-331 | The same request, cursor and page-length pattern, for the loop started at any request. |
| Leaderboard.LoopWalkLength | src/api/v1/mod.rs:310-331 | The loop sends at least one request, and at most one more than the replies left. Its first request is `After {cursor, 100, country}` with session `X_BEANBLASTER`. |
| Leaderboard.LoopWalkRequestAt | src/api/v1/mod.rs:310-327 | Loop request `i > 0` follows a reply that held a page, and it carries the cursor of that page's last entry. |
| Leaderboard.LoopWalkFullAt | src/api/v1/mod.rs:325-330 | Any loop page that another request follows holds exactly 100 entries. |
| Leaderboard.LoopWalkEnd | src/api/v1/mod.rs:318-330 | A failed loop ends on the reply whose read failed, with that reply's error. A successful loop ends on a page that is not full and holds one page per request. |
| Leaderboard.LoopWalkPageAt | src/api/v1/mod.rs:314-325 | Page `i` of a successful loop is the page the `i`-th reply of the loop held. |
| Leaderboard.LoopWalkStep | src/api/v1/mod.rs:312-330 | One pass of the `loop`: a failed read ends the walk with its error, a short page ends it with that page added, and a full page goes on with that page's cursor. |
| Leaderboard.FullWalkStart | src/api/v1/mod.rs:296-309 | A failed first read ends the walk with its error after one request. Otherwise the loop starts from the first page's cursor. |
| Leaderboard.FullWalkRequestAt | src/api/v1/mod.rs:296-327 | Request `i > 0` of the whole walk carries the cursor of page `i - 1`. |
| Leaderboard.FullWalkPageAt | src/api/v1/mod.rs:296-326 | Page `i` of a successful walk is the page that reply `i` held. |
| Leaderboard.FullWalkEnds | src/api/v1/mod.rs:296-331 | The walk starts with the unbounded request and sends at most one request more than the replies. A failure carries the last read's error. A success has at least two pages, one per request, and ends on a page that is not full. |
| Leaderboard.EmptyPageFailsWalk | src/api/v1/mod.rs:299-304 | An empty page where the walk would go on fails it with "Couldn't fetch leaderboard!" after exactly that page's request. |
| Leaderboard.ThreePageWalk | src/api/v1/mod.rs:296-339 | Pages of 100, 100 and fewer than 100 non-empty entries give three requests with the cursors of pages one and two, and the entries of all three in order. |
| Leaderboard.FlattenAppend | src/api/v1/mod.rs:334-339 | Concatenating the pages keeps fetch order: the flattening of `a + b` is the flattening of `a` followed by that of `b`. |
| Leaderboard.ReadKeyIsNotWriteKey | src/api/v1/mod.rs:289-297 | The lookup key never equals the write-back key `users/by/league`, for any country. |
| Leaderboard.WriteBackDoesNotServeNextCall | src/api/v1/mod.rs:289-341 | After a successful call that missed, the lookup key is still empty, so the next call with the same country walks the upstream again. |
| Leaderboard.ReadPage | src/api/v1/mod.rs:299-304 | A page is read exactly when its entries are present and non-empty and the last entry's cursor parses. The cursor is that entry's `p`, or (0,0,0) when `p` is missing. An empty or missing entries array is "Couldn't fetch leaderboard!". |
| Leaderboard.PageEntries | src/api/v1/mod.rs:299-303 | An upstream error propagates. A missing `data` reads as no entries. A missing or non-array `entries` is "Couldn't fetch leaderboard!". |
| Leaderboard.CursorOf | src/api/v1/mod.rs:304 | A missing `p` gives the default cursor (0,0,0). A present one gives its value. An unparsable one gives its error. |
| Leaderboard.DebugOption | src/api/v1/mod.rs:289 | `{:?}` of an `Option<String>` is `None`, or `Some("…")` around text that reads back as the country. |
| Leaderboard.UnescapeEscape | src/api/v1/mod.rs:289 | Reading the escaped text back gives the original text, so escaping loses nothing. |
| Leaderboard.EscapeDebugInjective | src/api/v1/mod.rs:289 | Two texts escape to the same text exactly when they are equal. |
| Leaderboard.DebugOptionInjective | src/api/v1/mod.rs:289 | Two countries give the same `{:?}` text, and the same cache lookup key, exactly when they are equal. |
| Leaderboard.LeaderboardResponse | src/api/v1/mod.rs:347-365 | An error becomes a packet with `success: false` and the error's message, with no data and no cache. A success is passed through. |
| TetrioCache.TetrioClient.MakeRequest | src/api/v1/mod.rs:296-323 | Each request is logged and receives the next scripted reply. A used-up script answers with an error. |
| TetrioCache.TetrioClient.GetLeaderboardFromCache | src/api/v1/mod.rs:291 | A cache read: an unreadable key is an error, a missing key is `None`, a present one is its value. |
| TetrioCache.TetrioClient.CacheIfNotPresent | src/api/v1/mod.rs:341 | An unwritable key fails and changes nothing. A key already present keeps its value, which is returned. A free key stores the value and returns it. |
| TetrioCache.WriteIfAbsent | src/api/v1/mod.rs:341 | The same write-if-absent rule, on values. |
| TetrioCache.ReadLeaderboard | src/api/v1/mod.rs:291 | A missing key is `None`. A packet returned is the leaderboard stored under the key. |
| TetrioCache.ReadImage | src/api/v1/mod.rs:570 | A missing key is `None`. A packet returned is the image stored under the key. |
| Teto.TetoCacheHit | src/api/v1/mod.rs:569-573 | A cached card under `teto_image_cache/{user}` is the answer. No call is made and the cache is unchanged. |
| Teto.TetoReadErrorFallsThrough | src/api/v1/mod.rs:570-575 | A failed cache read is treated as a miss: the user is fetched first. |
| Teto.TetoFailures | src/api/v1/mod.rs:575-634 | In `Teto`, the model of `teto`, each failure answers `success: false` with its own message and writes nothing. The failures, in order: user fetch error, no user `data`, screenshot error, no user `cache`, JSON error. The browser runs only for a user the API returned. |
| Teto.TetoWritesRenderedImage | src/api/v1/mod.rs:618-645 | With every step successful, the entry carries the screenshot and the user packet's cache metadata and goes through the write-if-absent. A failed write answers "Couldn't cache value!". |
| Teto.TetoTouchesOnlyItsKey | src/api/v1/mod.rs:567-645 | No cache key but the user's own can change. |
| Tetra.BrowserHeight | src/api/v1/mod.rs:372-374 | The height is `350 + 60 * (rounds - 1)`, with the subtraction on `u64`, the cast to `u32` and the `u32` product and sum. It is defined exactly when rounds ≥ 1 and the cast value is at most 71582782. Every other count panics. |
| Tetra.BrowserHeightOfSmallCounts | src/api/v1/mod.rs:372-374 | Up to 71582783 rounds the height is `350 + 60 * (rounds - 1)`. |
| Tetra.ZeroRoundsPanics | src/api/v1/mod.rs:374 | A record with no rounds makes the height computation panic. |
| Tetra.ScreenshotOfUrl | src/api/v1/mod.rs:369-391 | The browser is 1185 wide and `BrowserHeight` high. Its bytes or its error are the result. A height that panics panics. |
| Tetra.GameNumber | src/api/v1/mod.rs:445 | Game number 0 reads as 1. Any other number is kept. |
| Tetra.TetraSelectsGame | src/api/v1/mod.rs:435-465 | Of `TetraScreenshot`, the model of `take_tetra_screenshot`: a fetch error, missing records, or a game number past the end give their messages. Otherwise the screenshot is of entry `g - 1`'s replay, sized by its rounds. |
| Tetra.GameZeroIsGameOne | src/api/v1/mod.rs:445 | Game numbers 0 and 1 give the same screenshot. |
| Tetra.ReplayScreenshot | src/api/v1/mod.rs:412-433 | More than 14 rounds is refused before anything else. A failed serialisation is "Couldn't serialize data". Otherwise the encoded record's page is rendered. |
| Tetra.ReplayHeightIsBounded | src/api/v1/mod.rs:412-427 | An accepted replay reaches the browser at a height between 350 and 350 + 60·13. An empty replay panics. |
| Tetra.TestScreenshotDefaults | src/api/v1/mod.rs:393-402 | Absent scores are 5 and the rounds are the larger score. Scores 0 and 0 panic. |
| Tetra.Envelope | src/api/v1/mod.rs:468-524 | A success carries its data. An error carries its message and no data. A panic answers nothing. |
| Tetra.ErrorEnvelopes | src/api/v1/mod.rs:468-522 | An answer of `tetra` or `tetra_replay` is successful exactly when it carries data, and an error answers `success: false` with the step's message. Every answer of `league_recent_test` is successful: an error answers `success: true` with its message and no data. No answer carries cache metadata. |
| SillyCommandModel.TryFromI32 | src/api/v1/models/silly_command.rs:94-103 | 1 decodes to `AuthorOnly`, 2 to `SingleUser`, and every other value is an error. |
| SillyCommandModel.Discriminant | src/api/v1/models/silly_command.rs:87-92 | The discriminants are 1 and 2. |
| SillyCommandModel.DiscriminantRoundTrip | src/api/v1/models/silly_command.rs:87-103 | `try_from(t as i32) == Ok(t)` for each variant, and only `t`'s own discriminant decodes to `t`. |
| SillyCommandModel.IntoSillyCommandDataSpec | src/api/v1/models/silly_command.rs:38-84 | The conversion succeeds exactly when id, name, a valid command type, description and footer text are present. The five scalars are then copied and each list defaults to empty. |
| SillyCommandService.FetchSillyCommands | src/api/v1/services/silly_command.rs:22-33 | A failed query gives no commands. Otherwise the result is the filtering of the rows. |
| SillyCommandService.FilterCommands | src/api/v1/services/silly_command.rs:29-32 | The filter never yields more commands than rows. |
| SillyCommandService.FilterCommandsAppend | src/api/v1/services/silly_command.rs:29-32 | Filtering distributes over concatenation, so row order is kept. |
| SillyCommandService.FilterCommandsSingle | src/api/v1/services/silly_command.rs:31 | A row is kept, converted, exactly when it is well formed. |
| SillyCommandService.FilterCommandsMembers | src/api/v1/services/silly_command.rs:29-32 | Every command returned is the conversion of some row, and every well-formed row's conversion is returned. |
| SillyCommandService.FilterCommandsKeepsWellFormed | src/api/v1/services/silly_command.rs:29-32 | When all rows are well formed, the i-th command is the i-th row's conversion. |
| SillyCommandService.FetchSillyCommandByName | src/api/v1/services/silly_command.rs:115-129 | A command is returned exactly when the query succeeded, found a row, and the row converts. |
| SillyCommandService.SillyCommandBackend.UnknownCommandWritesNothing | src/api/v1/services/silly_command.rs:154-228 | `add_text`, `add_text_author`, `add_image` and `add_image_author` fail on an unknown command with "Couldn't find command!" and write nothing. |
| SillyCommandService.SillyCommandBackend.AuthorOnlyImageIgnoresPreference | src/api/v1/services/silly_command.rs:196-198 | On an author-only command, `add_image` is `add_image_author`, whatever the preference. |
| SillyCommandService.SillyCommandBackend.SingleUserImageRow | src/api/v1/services/silly_command.rs:200-214 | On a single-user command the file `./assets/{name}.{ext}` is created, then written, then a row is inserted, with preference "ALL" when none is given. |
| SillyCommandService.SillyCommandBackend.CreateCommandBindsDiscriminant | src/api/v1/services/silly_command.rs:81-97 | `create_command` binds the type as its discriminant. |
| SillyCommandService.SillyCommandBackend.AddText | src/api/v1/services/silly_command.rs:149-165 | The service call returns `AddTextOutcome`'s result and makes exactly its writes. |
| SillyCommandService.SillyCommandBackend.AddTextAuthor | src/api/v1/services/silly_command.rs:167-183 | The same, against `AddTextAuthorOutcome`. |
| SillyCommandService.SillyCommandBackend.StoreImageFile | src/api/v1/services/silly_command.rs:201-212 | Create, write and insert happen in order, and the first failure stops the rest. |
| SillyCommandService.SillyCommandBackend.AddImageAuthor | src/api/v1/services/silly_command.rs:220-243 | The same, against `AddImageAuthorOutcome`. |
| SillyCommandService.SillyCommandBackend.AddImage | src/api/v1/services/silly_command.rs:185-215 | The same, against `AddImageOutcome`. |
| SillyCommandService.SillyCommandBackend.CreateCommand | src/api/v1/services/silly_command.rs:81-97 | The same, against `CreateCommandOutcome`. |
| SillyCommandController.CollectForm | src/api/v1/controllers/silly_command_controller.rs:126-219 | The `while let` loop over the parts computes exactly the recursive reading `Collect` of the body. |
| SillyCommandController.AddImage | src/api/v1/controllers/silly_command_controller.rs:113-254 | `add_image` answers and writes exactly as `AddImageAnswer` says: the loop, the completeness check, then the service. |
| SillyCommandController.AddImageAuthor | src/api/v1/controllers/silly_command_controller.rs:262-390 | The same, for `add_image_author`. |
| SillyCommandController.UnknownFieldRejected | src/api/v1/controllers/silly_command_controller.rs:133-140 | A part with no name, or with a name outside the accepted fields, aborts with 400 "Invalid field name". |
| SillyCommandController.UnknownCommandRejected | src/api/v1/controllers/silly_command_controller.rs:162-185 | A command name the lookup does not find aborts at once with 400 "Invalid command name". |
| SillyCommandController.AuthorFormRejectsPreference | src/api/v1/controllers/silly_command_controller.rs:196-215 | A `preference` part is recorded by `add_image` and rejected as an unknown field by `add_image_author`. |
| SillyCommandController.RepeatedFieldLastWins | src/api/v1/controllers/silly_command_controller.rs:152-207 | A field sent twice keeps its last value, and its first occurrence leaves no trace. |
| SillyCommandController.CollectedNameIsKnown | src/api/v1/controllers/silly_command_controller.rs:126-219 | A collected command name is always known to the lookup. Filled fields stay filled. `add_image_author` never sets a preference. |
| SillyCommandController.IncompleteFormWritesNothing | src/api/v1/controllers/silly_command_controller.rs:221-233 | A body missing the command name, the image or the extension gives 400 "Invalid request" and writes nothing. |
| SillyCommandController.CompleteFormReachesService | src/api/v1/controllers/silly_command_controller.rs:221-252 | A complete form goes to the service. A service error becomes 500 "Internal server error: …". A success returns the image id. |
| SillyCommandController.FetchSillyCommandByNameAnswer | src/api/v1/controllers/silly_command_controller.rs:536-562 | An unknown command gives 404 "Couldn't find command". A known one is returned. |
| AuthMiddleware.ExtractToken | src/api/v1/middlewares/auth.rs:33-43 | The `token` cookie, even empty, takes priority. Otherwise the `Authorization` header, if it is visible ASCII, with `trim_start_matches("Bearer").trim()` applied. |
| AuthMiddleware.TrimStartMatches | src/api/v1/middlewares/auth.rs:41 | The result no longer starts with the pattern. |
| AuthMiddleware.TrimStartMatchesRepeat | src/api/v1/middlewares/auth.rs:41 | Every leading repetition of the pattern is removed, and nothing else. |
| AuthMiddleware.BearerTokenOfRepeats | src/api/v1/middlewares/auth.rs:41 | Any number of leading "Bearer " prefixes is stripped, and what follows is trimmed. |
| AuthMiddleware.TrimLeadingSpace | src/api/v1/middlewares/auth.rs:41 | Trimming drops a leading space in front of text that has no whitespace at either end. |
| AuthMiddleware.BearerAfterSpaceStays | src/api/v1/middlewares/auth.rs:41 | The prefix is stripped before trimming, so a second "Bearer" after a space stays. |
| AuthMiddleware.Trim | src/api/v1/middlewares/auth.rs:41 | The result is a slice of the input with no whitespace at either end. All that was removed is whitespace. |
| AuthMiddleware.HeaderToStr | src/api/v1/middlewares/auth.rs:38-40 | A header value is readable exactly when it is tab or visible ASCII, and it is then unchanged. |
| AuthMiddleware.AuthAdmitsExactly | src/api/v1/middlewares/auth.rs:27-112 | `Auth`, the model of `auth`, attaches the user exactly when a token is present, decodes, both UUIDs parse, the lookup finds that user, and its `password_rev` equals the claim's. |
| AuthMiddleware.AuthUnfold | src/api/v1/middlewares/auth.rs:53-109 | Once a token decodes, the answers come in order: an unparsable id or revision is 401 "Invalid token", a DB error 500, no user 401 "Invalid Token", a revision mismatch 401 "Invalid token". |
| AuthMiddleware.Decode | src/api/v1/middlewares/auth.rs:53-64 | A token decodes exactly when its signature checks and its body passes the default validation: an `exp` must be present and no more than 60 s in the past. The claims are then the body's. A body without `exp` never decodes. |
| AuthMiddleware.ExpiryIsRequired | src/api/v1/middlewares/auth.rs:53-64 | A signed token with no `exp`, or with an `exp` more than 60 s past, is 401 "Invalid token". |
| AuthMiddleware.AuthRejectsUnreadableToken | src/api/v1/middlewares/auth.rs:45-64 | No token is 401 "You are not logged in, please provide token". An undecodable one is 401 "Invalid token". |
| AuthMiddleware.IsAdminGate | src/api/v1/middlewares/auth.rs:116-137 | No attached user is 401. A role other than exactly "admin" is 403. Otherwise the request passes. |
| UserModel.HasRole | src/api/v1/models/user.rs:25-27 | True exactly when some listed role equals the user's role string. |
| UserModel.IsAdmin | src/api/v1/models/user.rs:29-31 | True exactly when the role is "admin". |
| UserModel.IsUser | src/api/v1/models/user.rs:33-35 | True exactly when the role is "user". |
| UserModel.IsModerator | src/api/v1/models/user.rs:37-39 | True exactly when the role is "moderator". |
| UserModel.RolesAreExclusive | src/api/v1/models/user.rs:29-39 | At most one of the three role predicates holds. |
| UserModel.RoleCheckIsCaseSensitive | src/api/v1/models/user.rs:29-31 | "Admin" is not the admin role. |
| UserService.FirstWithEmail | src/api/v1/services/users.rs:55-61 | The lookup finds nothing exactly when no row has the email. A row found has that email. |
| UserService.FirstWithEmailIsFirst | src/api/v1/services/users.rs:55-61 | The row found is the first with that email. |
| UserService.FirstWithId | src/api/v1/services/users.rs:33-39 | The lookup finds nothing exactly when no row has the id. A row found has it. |
| UserService.AppendedRowIsFoundByEmail | src/api/v1/services/users.rs:93-106 | A row appended to a table that lacks its email is the one an email lookup then finds. |
| UserService.SetPassword | src/api/v1/services/users.rs:127-135 | The rows with the id receive the hash. All other rows are unchanged. |
| UserService.ApplyUpdate | src/api/v1/services/users.rs:137-147 | The rows with the id receive name, email, role, verified and a new `updated_at`. All other rows are unchanged. |
| UserService.Without | src/api/v1/services/users.rs:119-125 | Exactly the rows without the id remain. |
| UserService.SetPasswordTouchesOnlyPassword | src/api/v1/services/users.rs:127-135 | A password change alters no column but the password. |
| UserService.DeleteRemovesOnlyThatUser | src/api/v1/services/users.rs:119-125 | After a delete, no row has the id, and every other row remains. |
| UserService.UpdateKeepsIds | src/api/v1/services/users.rs:137-147 | An update keeps every row's id, password revision and password hash. |
| UserService.RegistrationCreatesPlainUser | src/api/v1/services/users.rs:75-107 | A registration without a role creates an unverified "user" whose password is the hash, and a lookup by that email finds it. |
| UserService.UserStore.VerifyUserPassword | src/api/v1/services/users.rs:42-52 | True exactly when the stored hash parses and Argon2 accepts the password. An unparsable hash never verifies. |
| UserService.UserStore.LoginOutcome | src/api/v1/services/users.rs:64-71 | A DB error propagates. An unknown email is "Invald email or password". A password that does not verify is "Invalid password". Otherwise the first user with the email is returned. |
| UserService.UserStore.LoginUser | src/api/v1/services/users.rs:64-71 | The login does what `LoginOutcome` says and changes nothing. |
| UserService.UserStore.HashPassword | src/api/v1/services/users.rs:17-22 | The Argon2 hash for the salt drawn. A failure is prefixed "Failed to hash password\n". |
| UserService.UserStore.CreateUserChange | src/api/v1/services/users.rs:91-107 | A DB error, then an existing email ("User already exists", whatever hashing would give), then a hash failure, each leave the table unchanged. Otherwise a row holding the hash, not the password, is appended and returned. |
| UserService.UserStore.CreateUser | src/api/v1/services/users.rs:91-107 | The call makes exactly the change `CreateUserChange` describes. |
| UserService.UserStore.RegisterUser | src/api/v1/services/users.rs:75-88 | `create_user` with role "user" unless one is given, and verified false. |
| UserService.UserStore.DeleteUserChange | src/api/v1/services/users.rs:119-125 | A DB error changes nothing. Otherwise no row with the id remains and every other row does. |
| UserService.UserStore.DeleteUser | src/api/v1/services/users.rs:119-125 | The call makes exactly that change. |
| UserService.UserStore.UpdateUserPasswordChange | src/api/v1/services/users.rs:127-135 | The password is hashed before the database is reached. The hash, not the password, replaces the stored one on the rows with the id. |
| UserService.UserStore.UpdateUserPassword | src/api/v1/services/users.rs:127-135 | The call makes exactly that change. |
| UserService.UserStore.UpdateUserChange | src/api/v1/services/users.rs:137-147 | The matching rows are revised and the first of them is returned. With none, the answer is the `fetch_one` error and nothing changes. |
| UserService.UserStore.UpdateUser | src/api/v1/services/users.rs:137-147 | The call makes exactly that change. |
| UserService.UserStore.FetchUsers | src/api/v1/services/users.rs:25-30 | The table, or the DB error. |
| UserService.UserStore.FetchUserById | src/api/v1/services/users.rs:33-39 | The first row with the id, or the DB error. |
| UserService.UserStore.FetchUserByEmail | src/api/v1/services/users.rs:55-61 | The first row with the email, or the DB error. |
| UserService.UserStore.UserExists | src/api/v1/services/users.rs:110-116 | Whether some row has the email, or the DB error. |
| UserController.FilterHidesSecrets | src/api/v1/controllers/user_controller.rs:15-23 | Two users have the same filtered record exactly when id text, name, email, role and verified agree. Password, password revision and timestamps are never revealed. This is everything `get_me_handler` (`GetMe`, user_controller.rs:118-129) reveals of the attached user. |
| UserController.Claims | src/api/v1/controllers/user_controller.rs:50-54 | The claims are the user's id and password revision as text. |
| UserController.EncodeTokenAsWritten | src/api/v1/controllers/user_controller.rs:50-63 | As written, the signed body holds the claims and no `exp`. |
| UserController.AsWrittenTokenIsRejected | src/api/v1/controllers/user_controller.rs:50-63 | When signing and checking share the secret, the token signed over the as-written body is 401 "Invalid token" in `auth`, for every user. |
| UserController.EncodeToken | src/api/v1/controllers/user_controller.rs:50-63 | The corrected body holds the claims and an `exp` 43200 s after issue, the login cookie's age. |
| UserController.ExpiringTokenAdmits | src/api/v1/controllers/user_controller.rs:50-63 | Take a token signed over the corrected body for a user whose row is unchanged. `auth` admits exactly that user until 43200 s plus the 60 s leeway after issue, and answers 401 "Invalid token" after that. |
| UserController.ClaimsIdentifyRevision | src/api/v1/controllers/user_controller.rs:50-54 | Claims agree exactly when id and password revision do. |
| UserController.LoginCookie | src/api/v1/controllers/user_controller.rs:89-94 | `token` set to the token, path "/", max-age 43200 s, SameSite=Lax, HttpOnly. |
| UserController.LogoutCookie | src/api/v1/controllers/user_controller.rs:104-109 | `token` set to "", path "/", max-age −3600 s, SameSite=Lax, HttpOnly. |
| UserController.LogoutOverwritesLogin | src/api/v1/controllers/user_controller.rs:89-109 | The logout cookie matches the login cookie, attributes included, except in value and age. Its age is already past. |
| UserController.SelfUpdateKeepsPrivileges | src/api/v1/controllers/user_controller.rs:169-175 | `update_user` changes only the caller's rows, and only their name and email. It keeps every role and verified flag the caller already has in the table. |
| UserController.ForceUpdateSetsPrivileges | src/api/v1/controllers/user_controller.rs:195-201 | `force_update_user` sets name, email, role and verified from the body on the user the body names. |
| UserController.RegisterUserHandler | src/api/v1/controllers/user_controller.rs:25-48 | The body is registered with no role. A service error is 500 with its own message. A success answers the filtered user. |
| UserController.LoginUserHandler | src/api/v1/controllers/user_controller.rs:65-101 | The answer is `LoginAnswerOf` the login outcome. A login error is 500 with its message and nothing is signed. A signing error is 500 with its message. Otherwise the token signed over `encode_token`'s body (`EncodeTokenAsWritten`, no `exp`) is sent in the body and in the login cookie, whose age is 12 h. |
| UserController.LoginTokenIsRejected | src/api/v1/controllers/user_controller.rs:65-101 | When signing and checking share the secret, the cookie set by every successful `LoginAnswerOf` carries the returned token, and `auth` answers 401 "Invalid token" to it, whatever header comes with it (see Findings). |
| UserController.UpdatePasswordHandler | src/api/v1/controllers/user_controller.rs:143-160 | The caller's own rows get the new hash. Errors are 500. |
| UserController.UpdateUserHandler | src/api/v1/controllers/user_controller.rs:163-186 | The self-update's change. Errors are 500. |
| UserController.ForceUpdateUserHandler | src/api/v1/controllers/user_controller.rs:189-212 | The body's update. Errors are 500. |
| UserController.CreateUserHandler | src/api/v1/controllers/user_controller.rs:216-241 | The body's fields go to `create_user` unchanged. Errors are 500. A success answers the filtered user. |
| UserController.DeleteUserHandler | src/api/v1/controllers/user_controller.rs:244-261 | The user with the path's id is deleted. Errors are 500. |

## Findings

| source | as written | input that shows it | evidently intended | confidence | as-written member | corrected member |
|---|---|---|---|---|---|---|
| src/api/v1/controllers/user_controller.rs:50-63 with src/api/v1/middlewares/auth.rs:53-57 | `encode_token` signs `{id, password_rev}` only, but `auth` decodes with `Validation::default()`, which requires an `exp` claim. | Any user who logs in: the `token` cookie `login_user_handler` sets is answered 401 "Invalid token" on the next request (UserController.LoginTokenIsRejected). | The token carries an `exp`, e.g. 12 h after issue like the cookie, and `auth` admits its user until then. | not executed; rests on `jsonwebtoken`'s `Validation::default()` requiring `exp`, and that library is not part of these files | UserController.AsWrittenTokenIsRejected (over UserController.EncodeTokenAsWritten) and UserController.LoginTokenIsRejected (over UserController.LoginAnswerOf) | UserController.ExpiringTokenAdmits (over UserController.EncodeToken) |

## Left out

- Router construction, environment variables, connection pools and server bootstrap (src/api/v1/mod.rs:97-280, src/main.rs): configuration and I/O. The routes of the user, auth and most silly-command handlers are commented out there; their code is modelled as written.
- The headless browser (`create_browser`, navigation, waiting, the 750 ms sleep, `capture_screenshot`, the floating-point viewport of `take_teto_screenshot`): an oracle returning bytes or the error message its steps produced.
- The TETR.IO client library (`make_tetrio_api_request`, `get_from_cache`, `cache_tetrio_api_result_if_not_present`, `fetch_user_info`): that library is not part of this model. Its cache is a map from (key, session) with keys that cannot be read or written. "If not present" is read as: store only if absent and return what is stored. TTL expiry is not modelled.
- The upstream API is a finite script of replies consumed in order. A used-up script answers with an error, which bounds the otherwise unbounded `loop`.
- `Prisecter`'s `f64` fields are opaque reals that are only copied and never compared.
- `str`'s `Debug` escaping is modelled for `"`, `\`, newline, carriage return, tab and NUL only, not for other control or non-printable characters.
- Overflow follows builds with overflow checks: `rounds - 1` at zero rounds and a `u32` product or sum that overflows panic (`Panicked`). Release-build wrap-around is not modelled.
- JWT signing and the signature check are oracles. `verify` gives the body of a correctly signed token, after the JSON is read. `SameSecret` states that a token the server signed reads back as the body it signed. Of `Validation::default()`, only the `exp` check and its 60 s leeway are modelled. The other registered claims (`nbf`, `aud`, `iss`, `sub`) appear in no token body here.
- UUID parsing and generation, Argon2 hashing and verification, the random salt, serde (de)serialisation and URL encoding: oracles or parameters.
- The text of the SQL files is not part of this model: each query is a lookup, append, update or delete on the table by the column it binds. Rows are returned in table order, and `fetch_one` on no row gives its error. What `update_user_password.sql` does to `password_rev` is not known, so only the password is changed. An unreachable database fails every query with one message.
- Members of the silly-command service not named for modelling (`fetch_command_usage`, `increment_command_usage`, `create_command_usage`, `add_preference`, `fetch_random_silly_image_by_name_and_preference`) and the controller handlers `get_commands`, `create_command`, `add_text`, `add_text_author`, `add_preference` and `fetch_random_silly_image_by_name_and_preference`: only the handlers and service calls listed above are modelled.
- `get_users_handler` answers a constant `"users": ""`; there is nothing to model.
- Filesystem writes only record the path, the bytes and their order; the files' contents on disk are not modelled.
- Cookie rendering into a `Set-Cookie` header and the JSON bodies beyond status, message and data are not modelled.
- async/await and concurrency: every handler is modelled as one sequential run.
