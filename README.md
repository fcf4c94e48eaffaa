# Corpulate API core in Dafny

Corpulate is a business-registration service. Its API routes sit over a relational
database of packages, add-ons ("AdOnes"), users and registration requests. This project
models the route handlers that hold the service's logic, and proves what they promise:

- **URL configuration** (`UrlConfig`): `getFullUrl` and `getApiUrl` join a base with a
  path.
- **Add-ons**:
  - the filtered, sorted and paged list and the validated create (`AdOnesRoute`);
  - the condition-list search (`AdOnesSearch`);
  - the all-or-nothing bulk delete, update, activate and export (`AdOnesBulk`, with its
    laws in `AdOnesBulkLaws`);
  - the statistics (`AdOnesStats`).
- **Packages**:
  - the id-ordered list and the validated create (`PackagesRoute`);
  - the case-insensitive search (`PackagesSearch`);
  - the bulk update and delete (`PackagesBulk`, `PackagesBulkLaws`);
  - the per-package statistics with the most popular package (`PackagesStats`).
- **Auth**:
  - signup, with its validation ladder, email format and normalisation, and the insert
    (`AuthSignup`);
  - login, with lookup by lower-cased email, a uniform 401 and the password-free answer
    (`AuthLogin`).

The database is an in-memory `Storage.Store` class. Its fields are:

- the add-on table, a `seq<AdOne>`;
- the package table, a `seq<Package>`, where each package carries the statuses of its
  linked requests;
- the user table, a `map` keyed by lower-cased email;
- three auto-increment counters.

`Store.Valid()` keeps the table invariants:

- ids strictly increase;
- ids stay below their counter;
- prices are not negative;
- each user sits under its own lower-case email.

Handlers that write are methods with `modifies db`. Each one names its new state through a
specification function (`Bulk`, `Register`, ...) and keeps `Valid()`. Handlers that only
read are functions of the tables. Every handler returns a `Common.Response` (status and
body). The first failing check of a validation ladder decides the status, and a refusal
never changes the store.

Outside dependencies come in as parameters:

- the clock is a parameter `now` (milliseconds);
- the calendar month and year starts are parameters;
- the environment's base URLs are parameters;
- the password hash, the password compare and the token signer are functions in a
  `Credentials.Crypto` value;
- the ORM's reading of an ISO 8601 string as a `DateTime` column is a function
  `AdOnesBulk.DateParser`, which answers None for a string that is not a date.

The one fact the signup/login round trip needs is a hypothesis, `Credentials.Sound(c)`
(a password matches its own hash), not an axiom.

Four modules hold shared building blocks:

- `Seqs`: filter, count, sum and stable sort with their laws;
- `Text`: substring, lower-casing, JavaScript white space and `trim`;
- `Paging`: `parseInt(x) || d`, windows and page counts;
- `Common`: `Option`, JSON scalar values and truthiness, and `Response`.

Where the description of the service and the code disagree, the model follows the code:

- The add-on create's duplicate-title check is case-sensitive (`equals` without
  `mode: 'insensitive'`). See `AdOnesRoute.CaseVariantTitleIsNoConflict`.
- The add-on bulk update's conflict check is case-insensitive and skips the targets, so an
  update can leave two add-ons with the same title. See
  `AdOnesBulkLaws.TitleUpdateCanDuplicate`.

## Model

| member | source | states |
|---|---|---|
| UrlConfig.Configured | lib/config.js:8-11 | an unset or empty variable gives the fallback, otherwise the variable's value |
| UrlConfig.StripTrailingSlash | lib/config.js:42-44 | exactly one trailing `/` is removed when present; otherwise the base is unchanged |
| UrlConfig.CleanPath | lib/config.js:45 | the result starts with `/`; a path starting with `/` is kept, any other gets `/` in front |
| UrlConfig.JoinObeysLaws | lib/config.js:41-60 | the joined URL starts with the stripped base, the rest starts with `/`, and the lengths add up |
| UrlConfig.GetFullUrl | lib/config.js:41-47 | the full URL obeys the join laws and ends with the cleaned path |
| UrlConfig.GetApiUrl | lib/config.js:54-60 | the API URL obeys the join laws and ends with the cleaned endpoint |
| UrlConfig.JoinKeepsSlashedPath | lib/config.js:41-47 | a base without a trailing `/` and a path with a leading `/` are simply concatenated |
| UrlConfig.OnlyOneSlashStripped | lib/config.js:42-44 | `a//` joined with `x` is `a//x`: only one trailing slash is removed |
| UrlConfig.EmptyPathGivesSlash | lib/config.js:41-47 | the default empty path yields the stripped base followed by `/` |
| UrlConfig.DefaultApiUrlExample | lib/config.js:54-60 | with no API base configured, `getApiUrl("packages")` is `/api/packages` |
| Paging.OrDefault | app/api/adones/route.js:10-11 | `parseInt(x) \|\| d`: a missing, non-numeric or zero parameter gives the default, any other number is kept |
| Paging.Window | app/api/adones/route.js:45-46 | skip/take: at most `take` rows, exactly `min(take, n - skip)` of them, each the row at `skip + i` |
| Paging.PageInfo | app/api/adones/route.js:62-69 | `totalPages` is the least page count covering `total`; hasNext iff page < totalPages; hasPrev iff page > 1 |
| Paging.CeilDiv | app/api/adones/route.js:66 | `Math.ceil(total / limit)`: enough pages to hold `total`, one fewer would not, and zero pages exactly for zero rows |
| Paging.CeilDivIsLeast | app/api/adones/route.js:66 | any page count that holds `total` is at least the computed one |
| Paging.HasNextMeansMoreRows | app/api/adones/route.js:67 | for page ≥ 1, hasNext holds exactly when rows exist beyond this page (`page * limit < total`) |
| Storage.OrderAdOnes | app/api/adones/route.js:47-49 | the ordered rows are a permutation of the input, ascending or descending by the key |
| Storage.OrderById | app/api/packages/route.js:9-13 | the packages are a permutation of the table in ascending id order |
| Storage.OrderByIdOfValidTable | app/api/packages/route.js:9-13 | on a table kept by the store, ordering by id returns the table itself |
| Storage.ParseIds | app/api/adones/bulk/route.js:22 | an id is kept iff it parsed; the list is empty iff none parsed |
| Storage.ParseIdsCount | app/api/adones/bulk/route.js:22 | one id is kept per entry that parsed |
| Storage.ParseIdsInOrder | app/api/adones/bulk/route.js:22 | the id parsed at position `i` is kept at position "number of ids parsed before `i`": the order and repeats of the input survive |
| Storage.MinPrice | app/api/adones/search/route.js:123-130 | the `_min` aggregate: a lower bound of every price that is itself some row's price |
| Storage.MaxPrice | app/api/adones/search/route.js:123-130 | the `_max` aggregate: an upper bound of every price that is itself some row's price |
| Storage.FilterAdTableOk | app/api/adones/bulk/route.js:71-77 | removing rows keeps the add-on table invariant |
| Storage.Store.constructor | app/api/adones/route.js:4 | an empty database whose counters start at 1, satisfying the invariant |
| Text.ToLower | app/api/auth/signup/route.js:44 | `toLowerCase`: same length, no upper-case letter, each letter lowered |
| Text.ToLowerIdempotent | app/api/auth/login/route.js:20 | lower-casing an already lower-cased email changes nothing |
| Text.Trim | app/api/auth/signup/route.js:62-64 | `trim`: a slice of the input with only white space around it, not starting or ending in white space |
| Text.TrimIdempotent | app/api/auth/signup/route.js:62-64 | trimming twice equals trimming once |
| Text.DecimalString | app/api/adones/bulk/route.js:79 | the printed count is a non-empty string of digits ending in the last decimal digit |
| AdOnesRoute.UpperBound | app/api/adones/route.js:16-33 | a missing or zero maximum means no upper bound; otherwise the maximum is the bound |
| AdOnesRoute.Matching | app/api/adones/route.js:21-37 | a row is selected iff it is in the table and satisfies the text and price conditions |
| AdOnesRoute.Get | app/api/adones/route.js:7-70 | 500 iff the query cannot run; otherwise at most `limit` matching rows, the window of the ordered matches, and pagination over the match count |
| AdOnesRoute.NoFilterMatchesAll | app/api/adones/route.js:12-37 | without search text or price bounds every row with a non-negative price matches |
| AdOnesRoute.CreateError | app/api/adones/route.js:91-128 | refused iff a field is missing (price 0 counts as missing), the price is negative, or the title is taken; 409 exactly for the taken title, 400 otherwise |
| AdOnesRoute.NewAdOne | app/api/adones/route.js:131-139 | the new row has the given fields, information defaulting to "", no requests, both timestamps at now |
| AdOnesRoute.Post | app/api/adones/route.js:85-148 | a refusal leaves the store unchanged; acceptance appends exactly the new row with the next id and answers 201 with it |
| AdOnesRoute.ZeroPriceIsMissing | app/api/adones/route.js:91-99 | a price of 0 is answered as a missing field |
| AdOnesRoute.CaseVariantTitleIsNoConflict | app/api/adones/route.js:112-118 | a title differing from an existing one only in case passes the duplicate check |
| AdOnesSearch.MaxPriceOf | app/api/adones/search/route.js:14 | a missing or zero maximum is no upper bound |
| AdOnesSearch.ConditionsAreConjunction | app/api/adones/search/route.js:23-75 | a row satisfies the combined `where` iff it satisfies each optional condition that was pushed |
| AdOnesSearch.PriceIgnoredWhenInactive | app/api/adones/search/route.js:37-44 | without a positive minimum or a maximum the price never affects matching |
| AdOnesSearch.HasRequestsSelects | app/api/adones/search/route.js:57-72 | `hasRequests=true` selects the rows with requests; any other present value selects the rows without |
| AdOnesSearch.Matching | app/api/adones/search/route.js:75-78 | a row is selected iff it is in the table and satisfies all pushed conditions |
| AdOnesSearch.Distinct | app/api/adones/search/route.js:118 | `distinct`: no duplicates, the same set of values |
| AdOnesSearch.Suggestions | app/api/adones/search/route.js:114-120 | `min(10, number of distinct titles)` distinct titles, each the title of some row; fewer than 10 only when every title of the table is among them |
| AdOnesSearch.PriceRangeOf | app/api/adones/search/route.js:123-146 | (0, 0) for an empty table, otherwise the minimum and maximum price |
| AdOnesSearch.Search | app/api/adones/search/route.js:7-159 | 500 iff the window cannot run; otherwise matching rows only, the ordered window, total equal to the match count, hasMore iff offset + limit < total |
| AdOnesSearch.TotalIgnoresWindow | app/api/adones/search/route.js:78 | the total does not depend on limit or offset |
| AdOnesBulk.UsedRows | app/api/adones/bulk/route.js:40-58 | one refusal entry per used row, holding its id, title and request count |
| AdOnesBulk.ConflictRows | app/api/adones/bulk/route.js:106-120 | one conflict entry per conflicting row, holding its id and title |
| AdOnesBulk.PatchRows | app/api/adones/bulk/route.js:134-144 | targets get the supplied columns (a `createdAt` string as the date it reads as) and `updatedAt = now`; the other rows are unchanged |
| AdOnesBulk.TouchRows | app/api/adones/bulk/route.js:150-159 | targets get `updatedAt = now`; the other rows are unchanged |
| AdOnesBulk.PatchKeepsTable | app/api/adones/bulk/route.js:134-144 | an accepted patch keeps the table invariant |
| AdOnesBulk.TouchKeepsTable | app/api/adones/bulk/route.js:150-159 | touching `updatedAt` keeps the table invariant |
| AdOnesBulk.Post | app/api/adones/bulk/route.js:7-210 | the answer and the new add-on table are those of `Bulk`; no other table or counter changes |
| AdOnesBulk.DeleteTargets | app/api/adones/bulk/route.js:38-80 | the answer and the new table are those of the delete operation |
| AdOnesBulk.UpdateTargets | app/api/adones/bulk/route.js:82-147 | the answer and the new table are those of the update operation |
| AdOnesBulk.ActivateTargets | app/api/adones/bulk/route.js:149-162 | the answer and the new table are those of the activate operation |
| AdOnesBulkLaws.DispatchDelete | app/api/adones/bulk/route.js:37-80 | a request that passes the field and id checks with operation "delete" gets the delete outcome for its parsed ids |
| AdOnesBulkLaws.DispatchUpdate | app/api/adones/bulk/route.js:82-147 | such a request with "update" gets the update outcome |
| AdOnesBulkLaws.DispatchActivate | app/api/adones/bulk/route.js:149-162 | such a request with "activate" gets the activate outcome |
| AdOnesBulkLaws.DispatchExport | app/api/adones/bulk/route.js:164-190 | such a request with "export" gets the export outcome |
| AdOnesBulkLaws.RefusalLeavesTable | app/api/adones/bulk/route.js:12-199 | every non-200 answer leaves the table unchanged |
| AdOnesBulkLaws.IdsCheckedBeforeOperation | app/api/adones/bulk/route.js:22-32 | when no id parses, the answer is 400 "No valid add-on IDs provided" whatever the operation |
| AdOnesBulkLaws.UnknownOperationRejected | app/api/adones/bulk/route.js:192-199 | an operation other than the four is answered 400 and changes nothing |
| AdOnesBulkLaws.DeleteRefusedWhenUsed | app/api/adones/bulk/route.js:40-69 | if a target has requests: 409, no row deleted, and the list holds every such target and nothing else |
| AdOnesBulkLaws.DeleteRemovesExactlyTargets | app/api/adones/bulk/route.js:71-79 | otherwise: 200, a row survives iff it is not a target, and the count plus the survivors make the table |
| AdOnesBulkLaws.UpdateNegativePriceRejected | app/api/adones/bulk/route.js:94-102 | a negative price is answered 400 before any other update check, and changes nothing |
| AdOnesBulkLaws.UpdateTitleConflict | app/api/adones/bulk/route.js:105-131 | an acceptable new title gets 409 iff some non-target row has that title up to case |
| AdOnesBulkLaws.UpdateChangesOnlyTargets | app/api/adones/bulk/route.js:134-144 | a successful update had writable data and kept the row count; every non-target is unchanged; each target keeps its id and requests, takes each supplied column (createdAt as the parsed date, the old one when absent) and `updatedAt = now` |
| AdOnesBulkLaws.UpdateSucceeded | app/api/adones/bulk/route.js:82-147 | a 200 update had data the ORM accepts, and its outcome is the patch of the targets with the count of targets present |
| AdOnesBulkLaws.CreatedAtWritten | app/api/adones/bulk/route.js:134-144 | a `createdAt` string that reads as a date is accepted and becomes every target's creation time |
| AdOnesBulkLaws.UnreadableCreatedAtRejected | app/api/adones/bulk/route.js:134-147 | a `createdAt` string that is not a date makes the ORM fail: 500 "Failed to perform bulk operation", table unchanged |
| AdOnesBulkLaws.ActivateTouchesOnlyUpdatedAt | app/api/adones/bulk/route.js:150-159 | activate answers 200 and changes only `updatedAt`, only on the targets |
| AdOnesBulkLaws.ExportLeavesTable | app/api/adones/bulk/route.js:166-190 | export changes nothing; it returns exactly the targeted rows, and totalRecords is their number |
| AdOnesBulkLaws.DeleteAffectedCount | app/api/adones/bulk/route.js:202-210 | a successful delete reports the number of targets present in the table, and echoes the ids |
| AdOnesBulkLaws.UpdateAffectedCount | app/api/adones/bulk/route.js:202-210 | a successful update reports the number of targets present, and echoes the ids |
| AdOnesBulkLaws.ActivateAffectedCount | app/api/adones/bulk/route.js:202-210 | activate reports the number of targets present, and echoes the ids |
| AdOnesBulkLaws.SharedTitleUpdate | app/api/adones/bulk/route.js:105-144 | when every row is a target, a new title meets no conflict: 200, and every row ends with that title |
| AdOnesBulkLaws.TitleUpdateCanDuplicate | app/api/adones/bulk/route.js:105-144 | giving two add-ons the same new title in one update is accepted and leaves them with equal titles |
| AdOnesStats.PeriodName | app/api/adones/stats/route.js:10 | `period \|\| 'all'` |
| AdOnesStats.Cutoff | app/api/adones/stats/route.js:16-40 | a cutoff exists iff the period is week, month or year |
| AdOnesStats.PeriodCount | app/api/adones/stats/route.js:46-48 | the period count never exceeds the table, and is the table size for any period the switch does not know |
| AdOnesStats.PeriodCutoffs | app/api/adones/stats/route.js:16-37 | week counts rows created in the last 604800000 ms; month and year count from the month and year starts |
| AdOnesStats.RevenueOf | app/api/adones/stats/route.js:51-64 | zeros for an empty table; otherwise the total is the price sum, min and max are the `_min` and `_max` aggregates (bounds that are row prices), and the average is total / n, between them |
| Seqs.TopBy | app/api/adones/stats/route.js:67-98 | `orderBy` desc with `take n`: `min(n, length)` elements, in non-increasing key order, drawn from the input, and none left out has a larger key than one taken |
| AdOnesStats.MostUsed | app/api/adones/stats/route.js:67-84 | the usage entries of the top 10 rows by request count: `min(10, n)` of them, non-increasing by request count |
| AdOnesStats.MostUsedAreTop | app/api/adones/stats/route.js:67-84 | the rows listed are drawn from the table, and no row left out has more requests than a listed one |
| AdOnesStats.Recent | app/api/adones/stats/route.js:87-98 | the entries of the 5 newest rows: `min(5, n)` of them, non-increasing by creation time |
| AdOnesStats.RecentAreNewest | app/api/adones/stats/route.js:87-98 | the rows listed are drawn from the table, and no row left out is newer than a listed one |
| AdOnesStats.BucketsPartition | app/api/adones/stats/route.js:101-132 | the four price buckets add up to the number of add-ons |
| AdOnesStats.Stats | app/api/adones/stats/route.js:7-183 | 200, with the total, the period count of the requested period with its cutoff, the period echoed, the revenue aggregates, the usage lists and a partitioning histogram |
| PackagesRoute.Get | app/api/packages/route.js:7-19 | 200 with every package once, in ascending id order, and count equal to their number |
| PackagesRoute.GetReturnsTable | app/api/packages/route.js:9-13 | on the store's table the list is the table itself |
| PackagesRoute.CreateError | app/api/packages/route.js:40-60 | refused with 400 iff a field is missing or the price is not a non-negative number |
| PackagesRoute.NewPackage | app/api/packages/route.js:62-68 | the new package has the given title, description and price, and no requests |
| PackagesRoute.Post | app/api/packages/route.js:34-77 | a refusal leaves the store unchanged; acceptance appends exactly the new package and answers 201 |
| PackagesRoute.ZeroPriceAccepted | app/api/packages/route.js:52-60 | a price of 0 is accepted |
| PackagesRoute.StringPriceRejected | app/api/packages/route.js:52-60 | a numeric string price is refused |
| PackagesSearch.HitOf | app/api/packages/search/route.js:69-74 | the request count is the number of linked requests; the pending and completed counts are the numbers of requests with that status, and never exceed it |
| PackagesSearch.Search | app/api/packages/search/route.js:7-90 | 500 iff the window cannot run; otherwise at most limit matches in id order, total equal to the match count, hasMore iff offset + limit < total, the query echoed |
| PackagesSearch.WindowOfOrdered | app/api/packages/search/route.js:48-63 | a window of the id-ordered matches holds matches only, in id order |
| PackagesSearch.TotalIgnoresWindow | app/api/packages/search/route.js:66 | the total does not depend on limit or offset |
| PackagesSearch.NoFilterMatchesAll | app/api/packages/search/route.js:17-46 | with no query and no bounds every package matches |
| PackagesSearch.ZeroMinimumIsABound | app/api/packages/search/route.js:38-42 | a minimum of "0" alone keeps a package iff its price is not negative |
| PackagesBulk.Allowed | app/api/packages/bulk/route.js:59-75 | the update data is the request data restricted to the three allow-listed keys |
| PackagesBulk.BuildUpdateData | app/api/packages/bulk/route.js:59-75 | the loop refuses iff the price is present and not a non-negative number, and otherwise builds exactly the allow-listed restriction |
| PackagesBulk.ApplyRows | app/api/packages/bulk/route.js:87-94 | targets get the update; the other packages are unchanged |
| PackagesBulk.ApplyKeepsTable | app/api/packages/bulk/route.js:87-94 | an accepted update keeps the package table invariant |
| PackagesBulk.WithRequestsRows | app/api/packages/bulk/route.js:125-129 | one refusal entry per blocked package, holding its id, title and request count |
| PackagesBulk.Post | app/api/packages/bulk/route.js:7-149 | the answer and the new package table are those of `Bulk`; no other table or counter changes |
| PackagesBulk.UpdateTargets | app/api/packages/bulk/route.js:47-101 | the answer and the new table are those of the update operation |
| PackagesBulk.DeleteTargets | app/api/packages/bulk/route.js:103-148 | the answer and the new table are those of the delete operation |
| PackagesBulkLaws.RefusalLeavesTable | app/api/packages/bulk/route.js:12-133 | every non-200 answer leaves the table unchanged |
| PackagesBulkLaws.OperationCheckedBeforeIds | app/api/packages/bulk/route.js:22-31 | an operation other than update or delete is answered 400 before the ids are looked at |
| PackagesBulkLaws.NoValidIdsRejected | app/api/packages/bulk/route.js:34-43 | with a known operation and no id that parses, the answer is 400 and nothing changes |
| PackagesBulkLaws.OtherKeysIgnored | app/api/packages/bulk/route.js:59-75 | adding a key outside the allow-list never changes an update's outcome |
| PackagesBulkLaws.UpdateRefusals | app/api/packages/bulk/route.js:62-85 | a bad price, or no allow-listed key, is answered 400 and changes nothing |
| PackagesBulkLaws.UpdateWritesOnlyAllowed | app/api/packages/bulk/route.js:87-101 | a successful update keeps every non-target; each target keeps id and requests and takes the allow-listed values present; the count is the number of targets present |
| PackagesBulkLaws.DeleteRefusedWithRequests | app/api/packages/bulk/route.js:105-133 | if a target has requests: 400, nothing deleted, and the list holds every such target with its count and nothing else |
| PackagesBulkLaws.DeleteRemovesExactlyTargets | app/api/packages/bulk/route.js:135-148 | otherwise: 200, a package survives iff it is not a target, and the count plus the survivors make the table |
| PackagesStats.StatOf | app/api/packages/stats/route.js:28-37 | one entry per package: its fields, the request count, the number of requests with each of the three statuses (together at most the total) and revenue = requests × price |
| PackagesStats.StatusCountsBounded | app/api/packages/stats/route.js:33-35 | the three status counts together never exceed the number of requests |
| PackagesStats.StatsInIdOrder | app/api/packages/stats/route.js:13-25 | the entries of id-ordered packages are in id order |
| PackagesStats.MeanPriceOfPermutation | app/api/packages/stats/route.js:42-44 | the average price does not depend on the order of the packages |
| PackagesStats.ReduceSelects | app/api/packages/stats/route.js:47-50 | the `reduce` keeps its seed unless some entry is strictly larger, and then ends at the first entry with the largest count |
| PackagesStats.MostPopular | app/api/packages/stats/route.js:47-60 | null iff no package has a request; otherwise the first entry with the largest positive count |
| PackagesStats.MostPopularUnique | app/api/packages/stats/route.js:47-50 | at most one position is the most popular one: ties go to the earliest |
| PackagesStats.MostPopularDominates | app/api/packages/stats/route.js:47-60 | the most popular package has a positive count at least that of every package |
| PackagesStats.NoMostPopularIffNoRequests | app/api/packages/stats/route.js:60 | there is no most popular package exactly when no package has a request |
| PackagesStats.Stats | app/api/packages/stats/route.js:7-64 | 200, every package's entry in id order, the revenue sum, the mean price (0 without packages) and the most popular package |
| AuthSignup.IndexOf | app/api/auth/signup/route.js:26 | the first position of a character, or none when it does not occur |
| AuthSignup.EmailFormatIsRegex | app/api/auth/signup/route.js:26-27 | the regex accepts an email iff it has no white space, exactly one `@` with a non-empty part before it, and a domain whose `.` is neither first nor last |
| AuthSignup.SignupError | app/api/auth/signup/route.js:11-52 | refused iff a check on the request fails or the lower-cased email is taken; each rung's message when every earlier rung passed (credentials, names, email format, password length, then 409 for the taken email), 400 otherwise |
| AuthSignup.StoredPhone | app/api/auth/signup/route.js:64 | the phone is stored trimmed, or null when absent or empty |
| AuthSignup.NewUser | app/api/auth/signup/route.js:58-65 | the new row holds the lower-cased email, the hash of the password, trimmed names and the stored phone |
| AuthSignup.ProfileOf | app/api/auth/signup/route.js:66-73 | the answer holds every selected column and no password |
| AuthSignup.Register | app/api/auth/signup/route.js:43-183 | a refusal changes nothing; acceptance adds exactly one user under its lower-cased email, answers 201 with the token and profile, and hands over the welcome mail |
| AuthSignup.RegisterKeepsTable | app/api/auth/signup/route.js:43-65 | the insert keeps the user-table invariant |
| AuthSignup.Signup | app/api/auth/signup/route.js:6-183 | the answer, the welcome mail, the user table and the counter are those of `Register`; no other table changes |
| AuthSignup.SixCharacterPasswordAccepted | app/api/auth/signup/route.js:35-40 | a password of exactly six characters passes |
| AuthSignup.ShortPasswordBeforeDuplicate | app/api/auth/signup/route.js:35-52 | a short password gets 400 even for a taken email |
| AuthSignup.CaseVariantIsDuplicate | app/api/auth/signup/route.js:43-60 | after a signup, a second one whose email differs only in case gets 409 and changes nothing |
| AuthSignup.StoredPasswordIsHash | app/api/auth/signup/route.js:55-65 | the stored password is the hash of the submitted one |
| AuthLogin.WithoutPassword | app/api/auth/login/route.js:51 | every column except the password, unchanged |
| AuthLogin.Lookup | app/api/auth/login/route.js:19-21 | a user is found iff the lower-cased email is a key, and it is that key's user |
| AuthLogin.Login | app/api/auth/login/route.js:6-61 | 400 iff a credential is missing; 200 iff the user exists and the password matches, then with the token and the password-free record; every 401 is the same 401 |
| AuthLogin.UnknownEmailLooksLikeWrongPassword | app/api/auth/login/route.js:23-38 | an unknown email and a wrong password get identical answers |
| AuthLogin.LetterCaseOfEmailIgnored | app/api/auth/login/route.js:19-21 | emails equal after lower-casing log in identically |
| AuthLogin.SignupThenLogin | app/api/auth/login/route.js:19-38 | when hash and compare agree, after a successful signup any case variant of the email with the password logs in as the new user |

## Left out

- Database mechanics:
  - the ORM, its SQL and connection handling;
  - concurrency, such as the race between the duplicate lookup and the insert;
  - failures the database raises on its own are not modelled.
- ORM type errors are modelled as the handler's 500 answer, with the store unchanged. Examples are an update value of the wrong type, a `createdAt` string that is not a date, or a key that is not a writable column, `ad_id` included. A `createdAt` that reads as a date is written.
- Numbers are integers. Prices are stored as whole numbers, so `parseFloat` and fractional prices are not modelled. Averages are `real`.
- Prices are numbers in the add-on routes. A numeric string compared with `< 0`, which JavaScript coerces, is not modelled. Nor is a non-numeric add-on price.
- AdOnesRoute.Get: a sort column the table lacks is the only invalid sort modelled, as the 500 answer. An order other than asc or desc is not modelled. A negative `limit` is also modelled as a 500, where the ORM would take rows from the end.
- AdOnesSearch.Search: a negative limit is modelled as the 500 answer, as in the list handler. The `searchParams` echo is not modelled.
- PackagesSearch.Search: the bounds are already parsed integers. A non-empty bound that does not parse gives `NaN` in the handler, and that is not modelled.
- Case-insensitive matching folds ASCII letters only. The ORM's insensitive mode and `toLowerCase` fold all of Unicode.
- JavaScript string length counts UTF-16 code units, while the password length here counts characters.
- AdOnesStats.Stats: two overview fields read the request table, which is not part of this model: `totalRequestsWithAdOnes` and `avgAdOnesPerRequest`.
- PackagesStats.Stats: `totalRequests` is `prisma.request.count()`, the size of the request table, and enters as a parameter.
- The calendar month and year starts are parameters, as is the clock. Time zones are not modelled.
- A unique constraint on the add-on title that the schema might add is not part of this model.
- Library calls:
  - bcrypt's salt and cost are not modelled, and neither is the token's secret, expiry or payload encoding. The hash, the compare and the signer are caller-supplied functions.
  - The hard-coded fallback secret is not modelled.
- The welcome mail:
  - AuthSignup.Signup returns the profile the welcome mail is about and does not model its delivery.
  - The answer is fixed before the mail is handed over. That is how a mail failure never changes the 201.
  - The transport, the HTML and text templates, and the logging are I/O.
- Request bodies carry strings where the handlers expect strings. A non-string email, a failing hash, or a failing signup or login lookup gives the handlers' 500 answer, and that is not modelled.
- Timestamps in ISO form and the `success` flag of each JSON envelope are not modelled. Status codes, error messages and success messages (for example `AdOnesBulk.CountMessage` and `AuthLogin.LoginMessage`) are modelled.
- The read-only handlers (the lists, the searches, both statistics and login) are functions of the tables, so they cannot change the store.
- Not modelled because they are outside these routes: the UI pages, the single-item routes, the test-mail route and the scripts.
