# Springboard backend — a Dafny model

Springboard is the server of a portfolio-building app. Users pick a template,
group their works (uploaded images) and texts into projects, and save the result
as a portfolio. The server is written in Go with gin, gorm (MySQL) and Redis.
This project models the server's core in Dafny and proves properties about it.
The core covers:

- **Portfolio store** (`PortfolioStore`). Reads of templates and portfolios.
  The flattening of a portfolio graph into project, work and text rows, with
  insert defaults. The four-statement save transaction, whose upserts match on a
  unique column. The Redis side: cached JSON lists, the `zTemplates` popularity
  ranking, and the hot-template query.
- **Portfolio endpoints** (`PortfolioUsecase`). Cache-aside reads, lookups by
  uid, the hot list, the save handler (uid minting in `Minting`, ranking
  bump), and the "templates I have used" history (`History`).
- **Token middleware** (`Tokens`). Issuing access and refresh tokens, the
  `Authorization: Bearer` gate, and access-token renewal.
- **Login and token endpoints** (`AuthUsecase`, `UserHandlers`), with the
  app's own accounts (`AppUsers`).
- **Feedback** table and endpoints (`FeedbackStore`, `FeedbackUsecase`).
- **Reply envelopes and error-code tables** (`Response`).

Supporting modules:

- `Tables`: a table is a sequence of rows in insertion order, with keyed
  lookup and upsert on a unique column.
- `Ranking`: a Redis sorted set, kept in score order, ties broken by member
  (`Strings.LexLess`).
- `Cache`: Redis strings plus the generic cache-aside read.
- `Strings`: `strings.Split` on a space, `strings.TrimPrefix`, `strconv.Atoi`
  with its 64-bit range and error value.
- `Seqs`: order-preserving filter.
- `Entities`: the records.
- `Wrappers`: `Option` and `Result`.

Things the program gets from outside are parameters of the model:

- The database and Redis are values. Each has an `up` flag; a request made while
  it is down fails.
- A save can fail at a named statement of the transaction (`failAt`).
- Fresh uids come from a function `uuid: nat -> string`, numbered per request.
- The clock is an integer `now`.
- Signing and verifying JWTs are the functions `sign` and `verify`.
- The WeChat code exchange is an `Upstream` outcome.
- A request body that fails to bind is `None`.

Each handler returns the state it leaves behind together with what it wrote.

Behaviours of the code worth knowing:

- Works are upserted on their `oss_key`, and texts keep the uid the client sent.
  Only portfolio and project uids are minted on the server.
- Saving a portfolio gives every project of the request the portfolio's uid as
  its owner, and every work and text its project's uid, in the rows and in the
  reply alike: gorm saves the `Projects`, `Works` and `Texts` associations with the
  portfolio and sets their foreign keys in place (`SaveListsEveryProject`). The
  same insert writes the column defaults into zero fields, so a work sent without
  a scale comes back with scale 1, and a text without a colour with "000000".
- Re-saving a portfolio overwrites its `openid` with the caller's. No owner
  check exists, here or in `GetPortfolioByUID`.
- A missing `zTemplates` key gives an empty hot list. It does not trigger the
  database fallback. That fallback is reached only when Redis fails, and it
  answers an empty list.
- The hot-template query lists up to six templates from the bottom of the
  ranking, least used first (`HotTemplatesAreColdest`). The endpoints are
  modelled as written; the query its comment intends is a separate member
  (`GetHotTemplatesCorrected`). See "## Findings".
- A save request without projects always fails, because the projects statement
  is issued for an empty list too (`EmptyRequestRejected`). The guarded save is a
  separate member (`SavePortfolioToDBGuarded`). See "## Findings".
- `GetTemplatesFromDB` returns templates in table order, not in ranking order.
- Portfolio reads preload the projects' works and the template row. They do not
  preload the texts or the template's pages.
- Saving never touches the cached lists, so a cached portfolio list goes stale
  after a save (`SaveLeavesCachedListStale`).
- Access-token renewal accepts a non-validation parse error as well as a bare
  expiry. The "token expired" branch of the gate cannot be reached
  (`AuthNeverReportsExpiry`).
- `GetFeedbacksByStatus` carries on after a status that does not parse. It can
  write an error reply followed by a success reply (`GarbledStatusRepliesTwice`).

## Model

| member | source | states |
|---|---|---|
| Strings.SplitSpace | server/internal/middleware/auth.go:114 | always at least one piece, even for an empty string, as `strings.Split` with a non-empty separator |
| Strings.JoinSplit | server/internal/middleware/auth.go:114 | splitting on spaces loses nothing: the pieces joined with single spaces are the original header |
| Strings.SplitPiecesHaveNoSpace | server/internal/middleware/auth.go:114 | no piece of a split contains a space |
| Strings.SplitWithoutSpace | server/internal/middleware/auth.go:114 | a string without spaces splits into itself alone |
| Strings.SplitAfterWord | server/internal/middleware/auth.go:114 | a space-free word, a space and a rest split into the word followed by the rest's pieces |
| Strings.TrimPrefix | server/internal/middleware/auth.go:86 | removes the prefix once when present, and otherwise returns the input unchanged |
| Strings.ScanUintSpec | server/internal/controller/feedback.go:66 | the digit loop yields a value exactly when the rest is all digits and the number fits in 64 unsigned bits, and that value is the decimal number |
| Strings.Atoi | server/internal/controller/feedback.go:66 | succeeds exactly on an optional sign followed by digits whose value fits in 64 bits, giving that value; on failure the value is 0 or one of the two 64-bit bounds |
| Seqs.Filter | server/internal/data/feedback.go:50-56 | keeps exactly the elements that satisfy the predicate, in their original order |
| Tables.IndexOfKey | server/internal/data/portfolio.go:232-237 | the position of the first row with the key, or the length when no row has it |
| Tables.LookupFindsKeys | server/internal/data/portfolio.go:127-133 | a lookup finds a row exactly for the keys present, and the row it finds is in the table and carries the key |
| Tables.Upsert | server/internal/data/portfolio.go:232-237 | after an upsert on a unique column, the key maps to the new row and every other key to what it mapped to before; the row count grows only for a new key; key uniqueness is preserved |
| Tables.LastWith | server/internal/data/portfolio.go:239-243 | the last row of a batch with a given key, present exactly for the batch's keys |
| Tables.UpsertAll | server/internal/data/portfolio.go:239-243 | a batch upsert adds exactly the batch's keys and keeps keys unique |
| Tables.LookupAfterUpsertAll | server/internal/data/portfolio.go:239-243 | after a batch upsert, each key of the batch holds the batch's last row for it, and every other key holds what it held |
| Tables.UpsertExistingKeepsCount | server/internal/data/portfolio.go:232-237 | upserting a row whose key is present leaves the row count unchanged |
| Tables.UpsertAllInPlace | server/internal/data/portfolio.go:239-243 | a batch whose keys are all present replaces rows in place: same length, and each position holds the batch's last row for its key or is unchanged |
| Tables.UpsertAllIdempotent | server/internal/data/portfolio.go:239-243 | applying the same batch twice leaves the table as applying it once |
| Tables.UpsertIsSingleBatch | server/internal/data/portfolio.go:232-237 | a single-row upsert and a batch of that one row give the same table |
| Ranking.ScoreOf | server/internal/data/portfolio.go:168-174 | a member's score is present exactly for members of the set, and is the score of its entry |
| Ranking.ZIncrBy | server/internal/data/portfolio.go:168-174 | the member's score becomes its old score (0 when absent) plus the increment, every other member keeps its score, and score order is preserved |
| Ranking.Range | server/internal/data/portfolio.go:152 | ranks start..stop inclusive of an ascending set, clipped to its size: the members at those ranks, lowest first |
| Ranking.Top | server/internal/data/portfolio.go:151 | the n members of highest rank, highest first; every member at a rank from the cut upward is listed |
| Ranking.RangeFromZeroIsColdest | server/internal/data/portfolio.go:152 | a range from rank 0 is ascending by score and no member it leaves out scores less than a member it lists |
| Ranking.RangeMemberUnderscores | server/internal/data/portfolio.go:152 | a member a range from rank 0 lists scores no more than a ranked member it leaves out |
| Ranking.TopIsHottest | server/internal/data/portfolio.go:151 | the top n are descending by score and no member left out scores more than a member listed |
| Ranking.TopMemberOutscores | server/internal/data/portfolio.go:151 | a member outside the top n scores no more than a member inside it |
| Cache.PortfoliosKeysAreSeparate | server/internal/data/portfolio.go:185 | each user's list lives under its own key, and no user's key is the templates key |
| Cache.ReadThrough | server/internal/controller/portfolio.go:50-75 | a cache hit answers from the cache and writes nothing; a miss answers with the database's result, stores it under the key when Redis is up, and fails only when the database fails |
| Cache.RepopulatedCacheAnswers | server/internal/controller/portfolio.go:63-65 | after a miss that the database answered, the next read is a hit with the same value, whatever the database says then |
| PortfolioStore.AllTemplates | server/internal/data/portfolio.go:99-105 | the whole template table, failing exactly when the database is down |
| PortfolioStore.TemplatesIn | server/internal/data/portfolio.go:107-113 | exactly the stored templates whose uids are in the list |
| PortfolioStore.TemplateByUid | server/internal/data/portfolio.go:127-133 | a stored template with the uid when one exists, not-found when none does, unavailable when the database is down |
| PortfolioStore.LoadProject | server/internal/data/portfolio.go:178 | a stored project with exactly its works attached and no texts |
| PortfolioStore.LoadTemplate | server/internal/data/portfolio.go:178 | the portfolio's template row without its pages, or the zero template when no row matches |
| PortfolioStore.LoadPortfolio | server/internal/data/portfolio.go:178 | a stored portfolio row with every project whose portfolio uid is its uid, and its template |
| PortfolioStore.RowsOf | server/internal/data/portfolio.go:176-182 | the stored row of each loaded portfolio, position by position |
| PortfolioStore.PortfoliosOf | server/internal/data/portfolio.go:176-182 | the rows of exactly the caller's portfolios in table order, each loaded with its projects and template |
| PortfolioStore.PortfolioByUid | server/internal/data/portfolio.go:196-202 | the portfolio stored under the uid, whoever owns it, or not-found |
| PortfolioStore.Stamp | server/internal/data/portfolio.go:220 | each child is stamped with its project's uid and nothing else changes position |
| PortfolioStore.Flatten | server/internal/data/portfolio.go:216-230 | every child of every project appears stamped with its project's uid, nothing else appears, and the result is empty exactly when no project has children |
| PortfolioStore.Collect | server/internal/data/portfolio.go:216-230 | the nested loops build exactly the flattened list |
| PortfolioStore.WorkWithDefaults | server/internal/data/portfolio.go:32 | a zero scale is stored as the column default 1.0, and nothing else of the work changes; a work with a scale is stored as sent |
| PortfolioStore.TextWithDefaults | server/internal/data/portfolio.go:43 | an empty font colour is stored as the column default 000000, and nothing else of the text changes; a text with a colour is stored as sent |
| PortfolioStore.WorkRows | server/internal/data/portfolio.go:216-223 | the work rows to insert all carry a non-zero scale, and there are none exactly when no project has works |
| PortfolioStore.TextRows | server/internal/data/portfolio.go:224-230 | the text rows to insert all carry a font colour, and there are none exactly when no project has texts |
| PortfolioStore.Attached | server/internal/data/portfolio.go:232-235 | the projects as the portfolio's insert leaves them, through the has-many tags of lines 18 and 81-82: every project owned by the portfolio's uid with its uid, name and order kept; every work and text stamped with its project's uid and given its column default (scale 1.0, font colour 000000) in place of a zero field, in the same number and order |
| PortfolioStore.ProjectRows | server/internal/data/portfolio.go:238-243 | one project row per project, in order |
| PortfolioStore.RunSave | server/internal/data/portfolio.go:231-262 | the transaction commits every statement or none: on error the database is unchanged; it succeeds exactly when the database is up and no issued statement fails |
| PortfolioStore.Rejection | server/internal/data/portfolio.go:231-262 | the error of the first failing statement; without the guard, an empty project list fails with gorm's empty-slice error |
| PortfolioStore.SavePortfolioToDB | server/internal/data/portfolio.go:215-267 | all or nothing; it commits exactly when the database is up, the portfolio has projects and no issued statement fails, and an empty project list fails with the empty-slice error; on success the portfolio row is stored under its uid, its key is added, the portfolio count grows only for a new uid, templates are untouched and table consistency is preserved |
| PortfolioStore.SavePortfolioToDBGuarded | server/internal/data/portfolio.go:238-243 | the corrected save of the finding: with the projects statement guarded, it commits exactly when the database is up and no issued statement fails |
| PortfolioStore.GuardedAgreesWithProjects | server/internal/data/portfolio.go:238-243 | for a portfolio with projects the guarded save and the save as written are the same |
| PortfolioStore.SaveStoresGraph | server/internal/data/portfolio.go:232-260 | after a save, each project, work and text key of the request holds the request's last row for it (a project row owned by the portfolio's uid, whatever owner the request gave), and every other key holds what it held |
| PortfolioStore.SaveListsEveryProject | server/internal/data/portfolio.go:232-243 | after a committed save, loading the portfolio by its uid lists every project of the request, as the request's last project with that uid and owned by the portfolio |
| PortfolioStore.SavedWorksHaveScale | server/internal/data/portfolio.go:32 | a saved work is stored with a non-zero scale |
| PortfolioStore.SaveIsIdempotent | server/internal/data/portfolio.go:231-262 | saving the same portfolio a second time gives the outcome of the first: a committed save commits again with nothing more changed, a failed one fails again the same way |
| PortfolioStore.EmptyPortfolioRejected | server/internal/data/portfolio.go:238-243 | as written, saving a portfolio without projects fails with the empty-slice error |
| PortfolioStore.EmptyPortfolioSaved | server/internal/data/portfolio.go:238-243 | with the guard, a portfolio without projects is saved and no child table changes |
| PortfolioStore.PortfoliosRoundTrip | server/internal/data/portfolio.go:184-213 | a stored list is what its owner reads back; other users' lists and the template list are untouched; the write fails only when Redis is down |
| PortfolioStore.TemplatesRoundTrip | server/internal/data/portfolio.go:115-144 | a stored template list is what is read back, and no user's list is touched |
| PortfolioStore.IncreTemplateScore | server/internal/data/portfolio.go:168-174 | the template's score goes up by one (from 0 when absent), all other scores and the cached lists are unchanged, and the ranking stays well ordered |
| PortfolioStore.HotFromRedis | server/internal/data/portfolio.go:150-166 | `ZRANGE zTemplates 0 5`: up to six members, those at ranks 0 to 5, lowest score first; an error exactly when Redis is down |
| PortfolioStore.HotFromRedisIsColdest | server/internal/data/portfolio.go:150-152 | the members listed are ascending by score and no member left out scores less than one listed |
| PortfolioStore.HotFromRedisCorrected | server/internal/data/portfolio.go:151 | the corrected query of the finding: up to five members, from the top of the ranking, highest first |
| PortfolioStore.HotCorrectedIsHottest | server/internal/data/portfolio.go:151 | no template the corrected query leaves out scores more than one it lists |
| PortfolioStore.HotAsWrittenMissesHottest | server/internal/data/portfolio.go:152 | with seven ranked templates, the query as written returns the six least used and misses the most used |
| PortfolioStore.HotCorrectedFindsHottest | server/internal/data/portfolio.go:151 | on the same ranking, the corrected query returns the five most used, most used first |
| PortfolioStore.HotFromDB | server/internal/data/portfolio.go:146-149 | the fallback is not implemented: it answers an empty list and no error |
| History.FirstUses | server/internal/controller/portfolio.go:186-192 | the positions of exactly the portfolios that are the first with their template uid, ascending |
| History.Historical | server/internal/controller/portfolio.go:186-192 | the template of each first use, in portfolio order, never more entries than portfolios |
| History.HistoricalDistinct | server/internal/controller/portfolio.go:188 | no template uid is listed twice |
| History.HistoricalCovers | server/internal/controller/portfolio.go:186-192 | every template uid the user has used is listed, at the position of its first use |
| History.CollectHistorical | server/internal/controller/portfolio.go:205-211 | the loop with a seen set builds exactly the historical list |
| History.HistoricalExample | server/internal/controller/portfolio.go:186-192 | portfolios on templates A, B, A, C give the templates A, B, C |
| Response.SuccessResponse | server/internal/controller/response.go:32-38 | status 200 and the success envelope around the data, unchanged |
| Response.ErrorResponse | server/internal/controller/response.go:40-55 | the code's status and message from the tables, 403 and the unknown-error message otherwise; the body holds only the code and the message |
| Response.TablesAgree | server/internal/controller/response.go:16-30 | the status table and the message table cover the same five codes |
| Response.ErrorStatusClasses | server/internal/controller/response.go:8-22 | an error reply is never 200; 502 means a server error, 401 an authentication code, 403 anything else |
| Response.ErrorResponseInjective | server/internal/controller/response.go:40-55 | distinct codes give distinct error replies |
| Tokens.AccessClaims | server/internal/middleware/auth.go:25-33 | an access token names the openid and the issuer and is live for exactly two hours from issue |
| Tokens.RefreshClaims | server/internal/middleware/auth.go:43-48 | a refresh token names no user and is live for exactly fourteen days from issue |
| Tokens.RefreshOutlivesAccess | server/internal/middleware/auth.go:31-47 | the refresh token of a pair is live whenever its access token is, and alone from two hours to fourteen days after issue |
| Tokens.GenAccessToken | server/internal/middleware/auth.go:24-40 | the result of signing, with the access secret, claims that name the openid and the issuer, carry the issue time as token id, and are live for exactly two hours from issue |
| Tokens.GenRefreshToken | server/internal/middleware/auth.go:42-55 | the result of signing, with the refresh secret, claims without an openid that name the issuer, carry the issue time as token id, and are live for exactly fourteen days from issue |
| Tokens.GenToken | server/internal/middleware/auth.go:57-67 | both tokens when both sign, otherwise two empty strings and an error |
| Tokens.ParseToken | server/internal/middleware/auth.go:69-81 | claims exactly for a token that parses without error and is valid; "expired" is reported only together with an error |
| Tokens.BearerTokenExactly | server/internal/middleware/auth.go:114-121 | a token is extracted exactly from `Bearer`, one space and a space-free token |
| Tokens.Auth | server/internal/middleware/auth.go:104-140 | a request passes exactly with a bearer access token that parses valid, carrying its openid; otherwise 401 with the message of the first failing check |
| Tokens.AuthNeverReportsExpiry | server/internal/middleware/auth.go:130-136 | the "token expired" reply is never produced |
| Tokens.RefreshToken | server/internal/middleware/auth.go:83-102 | a new access token for the old token's openid exactly when the refresh token verifies and the access token is fine, expired only, or failed with a non-validation error |
| Tokens.RenewalKeepsIdentity | server/internal/middleware/auth.go:97-99 | a renewed token names the old token's user and is live for two hours from the renewal |
| Tokens.ForgedExpiredNotRenewed | server/internal/middleware/auth.go:98 | an expired token that also fails another check is not renewed |
| Tokens.BearerPrefixOptional | server/internal/middleware/auth.go:86 | a refresh token is accepted the same with or without one `Bearer ` prefix |
| AppUsers.RegisterAppUser | server/internal/data/auth.go:20-25 | a new username is appended with its password and no openid; a taken one is rejected by the unique index; usernames stay unique |
| AppUsers.VerifyLogin | server/internal/data/auth.go:26-28 | succeeds exactly when some account holds both the username and the password |
| AppUsers.RegisterThenLogin | server/internal/data/auth.go:20-28 | an account just registered logs in with its password |
| AppUsers.OnlyStoredPasswordLogsIn | server/internal/data/auth.go:26-28 | with unique usernames, only the stored password of a user logs in |
| AppUsers.DuplicateRegistrationRejected | server/internal/data/auth.go:5-10 | registering a taken username is rejected |
| AuthUsecase.Login | server/internal/controller/auth.go:36-66 | tokens exactly for a string openid from the code exchange; a non-string openid is a bare 500; every other failure is LoginError |
| AuthUsecase.AppRegister | server/internal/controller/auth.go:68-87 | on success the account is stored and the tokens name the username; a signing failure stores nothing; any failure leaves the accounts unchanged |
| AuthUsecase.AppLogin | server/internal/controller/auth.go:89-108 | tokens exactly when the credentials match a stored account and signing works; LoginError otherwise |
| AuthUsecase.RegisteredUserLogsIn | server/internal/controller/auth.go:68-108 | someone who has registered can log in with the same credentials |
| AuthUsecase.RegistrationTokenNamesUser | server/internal/controller/auth.go:74 | the access token a registration returns carries the username as its openid |
| AuthUsecase.RefreshAccessToken | server/internal/controller/auth.go:110-130 | a new access token exactly for a bearer header whose token the renewal accepts; RefreshTokenError otherwise |
| UserHandlers.RefreshAccessToken | server/internal/controller/user.go:56-86 | the same renewal decision, with 401 replies naming the failed check and a bare access-token body |
| UserHandlers.RefreshEndpointsAgree | server/internal/controller/user.go:56-86 | the two refresh endpoints succeed on the same requests with the same token and differ only in reply shape |
| FeedbackStore.AddFeedbackToDB | server/internal/data/feedback.go:35-40 | appends the feedback as the last row |
| FeedbackStore.AllFeedbacks | server/internal/data/feedback.go:42-48 | the whole table |
| FeedbackStore.FeedbacksByStatus | server/internal/data/feedback.go:50-56 | exactly the rows with the status |
| FeedbackStore.UpdateFeedbacksStatus | server/internal/data/feedback.go:58-64 | every row with the uid gets the status, no other column changes, rows with other uids are untouched |
| FeedbackStore.AddedFeedbackIsListed | server/internal/data/feedback.go:35-48 | an added feedback is listed afterwards, last in insertion order |
| FeedbackStore.AddedFeedbackFiltersByStatus | server/internal/data/feedback.go:35-56 | an added feedback is listed under its own status |
| FeedbackStore.UpdateThenFilter | server/internal/data/feedback.go:50-64 | after an update every row with the uid is listed under the new status, and repeating the update changes nothing |
| FeedbackUsecase.AddFeedback | server/internal/controller/feedback.go:40-54 | a bound request stores a pending feedback with the fresh uid, the time and the content, and replies success even if the insert failed |
| FeedbackUsecase.GetAllFeedbacks | server/internal/controller/feedback.go:56-63 | the whole table, or no reply at all when the query fails |
| FeedbackUsecase.GetFeedbacksByStatus | server/internal/controller/feedback.go:65-77 | an error reply exactly when the status does not parse, then the rows with the parsed status exactly when the database answers |
| FeedbackUsecase.NumericStatusLists | server/internal/controller/feedback.go:66-73 | a well-formed in-range status gives one reply listing the rows with that status |
| FeedbackUsecase.DefaultStatusIsPending | server/internal/controller/feedback.go:66 | without a status the pending rows are listed |
| FeedbackUsecase.GarbledStatusRepliesTwice | server/internal/controller/feedback.go:66-74 | a non-numeric status writes the error reply and then the pending rows |
| FeedbackUsecase.UpdateFeedbacksStatusHandler | server/internal/controller/feedback.go:79-91 | a bound request updates the rows with the uid and replies success; otherwise a server error and no change |
| FeedbackUsecase.UncheckedStatusStored | server/internal/controller/feedback.go:85 | a status outside the three named states is stored as given |
| PortfolioUsecase.GetAllTemplates | server/internal/controller/portfolio.go:50-75 | a cached list is answered as is; otherwise the table is answered and cached; only a failed query fails; user lists are untouched |
| PortfolioUsecase.TemplatesServedFromCacheAfterMiss | server/internal/controller/portfolio.go:50-75 | after a miss, the next request gets the same list from the cache even if the database has gone down |
| PortfolioUsecase.GetMyPortfolios | server/internal/controller/portfolio.go:152-169 | the caller's cached list, or the caller's portfolios from the database written back under the caller's key; other users' lists, the template list and the ranking are untouched |
| PortfolioUsecase.GetHistoricalUsageTemplates | server/internal/controller/portfolio.go:181-213 | the same cache-aside read as the list endpoint, answered with the first-use templates |
| PortfolioUsecase.HistoryAgreesWithMyPortfolios | server/internal/controller/portfolio.go:152-213 | the history endpoint leaves the same state as the list endpoint, fails exactly when it does, and lists one template per used uid of that list |
| PortfolioUsecase.GetTemplateByUID | server/internal/controller/portfolio.go:77-85 | the stored template with the queried uid, or a server error when there is none or the database is down |
| PortfolioUsecase.GetPortfolioByUID | server/internal/controller/portfolio.go:171-179 | the stored portfolio with the queried uid, whoever owns it, or a server error |
| PortfolioUsecase.AnswerHot | server/internal/controller/portfolio.go:87-109 | after the ranking query: exactly the stored templates whose uids it returned, a server error when the database fails, the empty fallback list when Redis failed |
| PortfolioUsecase.GetHotTemplates | server/internal/controller/portfolio.go:87-109 | exactly the stored templates among those `ZRANGE zTemplates 0 5` lists; a server error when the database fails; an empty list when Redis is down |
| PortfolioUsecase.HotTemplatesAreColdest | server/internal/controller/portfolio.go:87-101 | a template the hot list names has been used no more often than any ranked template it leaves out |
| PortfolioUsecase.GetHotTemplatesCorrected | server/internal/controller/portfolio.go:87-109 | the endpoint on the corrected query of the finding: exactly the stored templates among the five most used |
| PortfolioUsecase.HotTemplatesAreHottest | server/internal/controller/portfolio.go:87-101 | on the corrected query, a ranked template the list leaves out has been used no more often than one it lists |
| Minting.MintAt | server/internal/controller/portfolio.go:122-127 | in the minted list, a project sent with a uid is kept as sent; one sent without gets the fresh uid that follows the blanks before it, and the portfolio's uid |
| Minting.MintLoop | server/internal/controller/portfolio.go:122-127 | the handler's loop builds exactly the minted list and draws one uid per project sent without one |
| Minting.MintSnoc | server/internal/controller/portfolio.go:122-127 | one more project extends the minted list by that project alone, and adds a draw exactly when it has no uid |
| Minting.BlanksBefore | server/internal/controller/portfolio.go:122-127 | an earlier project without a uid draws strictly before any later one |
| Minting.MintedUidsAreFresh | server/internal/controller/portfolio.go:117-127 | with a collision-free uuid source, minted project uids differ from each other and from the portfolio uid drawn before them |
| PortfolioUsecase.Prepare | server/internal/controller/portfolio.go:117-130 | the stored portfolio keeps a sent uid or draws the first fresh one, belongs to the caller, and carries the minted projects |
| PortfolioUsecase.SavePortfolio | server/internal/controller/portfolio.go:111-116 | a body that does not bind is a server error and changes nothing; a bound body goes on to be stored |
| PortfolioUsecase.Store | server/internal/controller/portfolio.go:117-150 | a failed save, which includes every request without projects, changes nothing; a committed save keeps its effect even if the template lookup then fails; success exactly when the save commits and the template exists, answered with the uid, the minted projects (each now owned by the portfolio, its works and texts stamped with its uid and carrying the column defaults the insert wrote back) and the template; only a new portfolio bumps its template's score, once; cached lists are never touched |
| PortfolioUsecase.EmptyRequestRejected | server/internal/controller/portfolio.go:128-133 | a request without projects is answered with a server error and leaves the database and Redis as they were |
| PortfolioUsecase.SaveLeavesCachedListStale | server/internal/controller/portfolio.go:128-169 | a list served from the cache before a save is served unchanged after it |
| PortfolioUsecase.ResaveUpdatesInPlace | server/internal/controller/portfolio.go:117-138 | a committed re-save of an existing portfolio (which needs projects) keeps the count and the ranking, and hands the row to the caller |
| PortfolioUsecase.SavedProjectsAreListed | server/internal/controller/portfolio.go:128-149 | after a committed save, every project the reply echoes is listed under its uid when the portfolio is loaded again, owned by the portfolio |
| PortfolioUsecase.CreateAddsOnePortfolio | server/internal/controller/portfolio.go:117-138 | a committed creation (which needs projects) adds one row owned by the caller and bumps its template once when Redis is up |

## Left out

- The database and Redis are in-memory values. SQL text, the `CreatedAt`/`UpdatedAt`
  columns and the numeric row ids are not modelled. Row order stands for
  insertion order, the order a read without `ORDER BY` is taken to return.
- gorm's association save on the portfolio's `Create` is modelled by its effect:
  the foreign keys it sets (`Attached`) and the rows it leaves, which the later
  project, work and text statements overwrite anyway. Its own insert with
  `ON CONFLICT DO NOTHING` is not a separate statement.
- Which statement of a transaction fails, and whether a store is reachable, are
  inputs. Failure causes such as lock timeouts or constraint violations on other
  columns are not modelled.
- MySQL's default collation compares strings case-insensitively. Keys, usernames
  and passwords here compare exactly.
- FeedbackStore.FeedbacksByStatus: statuses compare exactly. The `status` column
  is `varchar(255)` and the query binds an integer, so MySQL compares the two as
  doubles; statuses beyond 2^53 in size, such as the `MaxInt64` that `Atoi` gives
  for an out-of-range status, can match rows with a different status.
- JSON encoding is modelled as a tagged payload that decodes to what was
  encoded, plus an undecodable case. Field names, `null` versus `[]`, and
  marshalling errors are left out.
- `Entities.Scale` holds the bits of the `float64` scale. Only zero versus
  non-zero matters to the model. Redis scores are integers because every
  increment is 1.
- JWT signing and verification are the functions `sign` and `verify`. HS256 and
  the claim encoding are not modelled. The token id is the clock reading, not its
  text form.
- The WeChat `jscode2session` call is left out. Only its outcome is an input.
- `Login` in server/internal/controller/user.go is not modelled. No route
  reaches it, and it is a variant of the WeChat exchange above.
- `MD5` in server/internal/controller/auth.go is not modelled. It is a hashing
  helper that no endpoint calls.
- Logging, the gin router, CORS, OSS uploads, configuration and concurrent
  requests are not modelled.
- PortfolioStore.HotFromDB: the source answers Go `nil`, which serialises as
  JSON `null`. The model answers an empty list.
- PortfolioStore.LoadPortfolio: the order of a portfolio's projects is the
  table's order, which the source does not fix either. The contract states
  membership, not order.

## Findings

| source | as written | input that shows it | evidently intended | confidence | as-written member | corrected member |
|---|---|---|---|---|---|---|
| server/internal/data/portfolio.go:150-152 | `ZRangeWithScores(zTemplates, 0, 5)` lists ranks 0 to 5 in ascending order: six members, least used first | seven templates with scores 1 to 7: the answer is a, b, c, d, e, f and misses g, the most used | the five most used, most used first (the comment says "the hottest 5"), i.e. ranks 0 to 4 of the descending order | not executed | PortfolioStore.HotAsWrittenMissesHottest | PortfolioStore.HotCorrectedFindsHottest |
| server/internal/data/portfolio.go:238-243 | the projects statement is issued even when the list is empty, and gorm's `Create` rejects an empty slice | any save whose request has no projects: it always fails, so a portfolio without projects can never be saved | guard the projects statement with a length check, as the works and texts statements are | not executed | PortfolioStore.EmptyPortfolioRejected | PortfolioStore.EmptyPortfolioSaved |
