# Financial News App backend: a verified model

This project models the core of the finance backend, a NestJS server with three parts:

- **Market data.** Read-through, TTL-cached access to Polygon (previous close, ticker details, aggregate bars) and Alpha Vantage (exchange rates). CoinGecko market data is passed through uncached.
- **News.** Each request ingests one page of the upstream news feed into the News table, de-duplicated by URL, then serves a date-descending page back from the table. There is also a store-only page read and an administrative bulk load.
- **Users.** Local and Google sign-up, password sign-in, look-ups, updates, deletion and password change over the User table. The users controller adds body checks and the avatar upload.

Module layout:

- `Common`: shared vocabulary (optional values, thrown errors, statuses, ASCII case mapping).
- `CacheStore`: the cache manager, as a class over a key → (value, expiry) map plus a clock.
- `MarketService` and `MarketController`: the market service and its endpoints.
- `NewsService`: the news service, a class over the News table.
- `UsersService` and `UsersController`: the users service, a class over the User table, and its endpoints.

How the model stands in for the outside world:

- **Upstream HTTP answers, today's date, generated uuids and bcrypt digests** are arguments.
  - An upstream answer has type `Http<Body>`: a 2xx body, or a failure.
  - `compare` is a fixed function of the users service.
  - A digest is passed in together with the law `Hashes`, which says `compare` accepts the password against it.
- **A ghost log `calls`** in the market service records every upstream request actually sent. "A cache hit makes no upstream call" is then a statement about state.
- **Endpoints are functions that take the service call as an argument.** "Rejected before the service is called" then means the reply does not depend on that argument.
- **News pages.** A page is a window of *some* date-descending ordering of the table (`IsPageOf`). The order of rows with equal dates is left open, as it is in the database.

Behaviour of the code that the model keeps as written:

- **A cached null exchange rate is not a hit.** The cache check is `cachedRate !== null` (finance_backend/src/market/market.service.ts line 328). So a failing rate is fetched upstream again on every request, and `source: 'cache'` is never returned with a null rate (`MarketService.FailedRateIsRefetched`).
- **A failed previous-close request throws** (lines 208-211), and the controller turns that into 500. The ticker-details and aggregates requests answer null or [] instead.
- **The News `url` column has no unique constraint** (finance_backend/src/news/new.entity.ts lines 20-21). De-duplication rests on the existence check of the ingestion loop alone, and the bulk path stores duplicates (`NewsService.BulkInsertCanDuplicate`).
- **A failing bulk batch stores nothing.** TypeORM runs `save` of an array in one transaction, so the batch is modelled as all or nothing.
- **Local sign-up writes the default avatar path into `googleId`** (finance_backend/src/users/users.service.ts line 29), and `avatar_url` takes its column default.
- **The aggregates cache key joins its five parameters with `_`**, so two different requests can share an entry (`MarketService.AggsKeyCollision`).

## Model

| member | source | states |
|---|---|---|
| Common.StatusOf | finance_backend/src/market/market.controller.ts:47-51 | an HttpException reaches the client with its own status; any other error becomes 500 |
| Common.UpperIdempotent | finance_backend/src/market/market.service.ts:180 | an upper-cased ticker is its own normal form |
| Common.LowerOfUpper | finance_backend/src/users/users.controller.ts:24 | lower-casing gives the same result whatever case the input was written in |
| Common.FirstIndex | finance_backend/src/users/users.service.ts:93 | the first position satisfying the condition, or none exactly when no position does |
| Common.NatToStringInjective | finance_backend/src/users/users.controller.ts:16 | distinct numbers have distinct decimal renderings |
| Common.IntToString | finance_backend/src/market/market.service.ts:277 | a number in a template literal renders as a minus sign exactly when it is negative, and otherwise starts with a digit; every later character is a decimal digit |
| CacheStore.LookupIn | finance_backend/src/market/market.service.ts:183-184 | a get sees a value exactly when the key is present and not yet expired, and it sees the stored value |
| CacheStore.SetVisibleUntilExpiry | finance_backend/src/market/market.service.ts:216 | an entry set with a TTL reads back until the TTL has passed, and not after |
| CacheStore.SetOtherKeyUnchanged | finance_backend/src/market/market.service.ts:216 | in the model a set leaves every other key's reads unchanged; an eviction the 100-entry limit would trigger is the separate action `Cache.Evict` |
| CacheStore.AbsentStaysAbsent | finance_backend/src/market/market.module.ts:9-13 | a key that is not visible stays invisible as time passes, unless it is written |
| CacheStore.Cache.constructor | finance_backend/src/market/market.module.ts:9-13 | the store starts empty at the given instant |
| CacheStore.Cache.Get | finance_backend/src/market/market.service.ts:183 | reads what LookupIn sees and changes nothing |
| CacheStore.Cache.Set | finance_backend/src/market/market.service.ts:216 | the key now holds the value until ttl has passed, other keys and the clock are unchanged, and a read sees the value at once |
| CacheStore.Cache.Tick | finance_backend/src/market/market.module.ts:10 | time advances, and the stored entries are unchanged |
| CacheStore.Cache.Evict | finance_backend/src/market/market.module.ts:11 | the store drops exactly one key, and that key then reads as absent |
| MarketService.Configure | finance_backend/src/market/market.service.ts:142-154 | construction succeeds exactly when both API keys are truthy; a missing Polygon key is reported before a missing Alpha Vantage key |
| MarketService.PrevCloseKeySharedIffSameTicker | finance_backend/src/market/market.service.ts:180-181 | two previous-close requests share a cache key (`PrevCloseKey`: `stock_prev_close_` and the upper-cased ticker) if and only if their tickers agree up to case |
| MarketService.DetailsKeySharedIffSameTicker | finance_backend/src/market/market.service.ts:226-227 | two details requests share a cache key (`DetailsKey`: `stock_details_` and the upper-cased ticker) if and only if their tickers agree up to case |
| MarketService.AggsKeyIgnoresTickerCase | finance_backend/src/market/market.service.ts:276-277 | aggregate requests differing only in the ticker's case share a key (`AggsKey`: `stock_aggs_` and the five parameters joined with '_') |
| MarketService.RateKeyIgnoresCase | finance_backend/src/market/market.service.ts:323-325 | rate requests differing only in the case of the currency codes share a key (`RateKey`: `forex_av_` and the two upper-cased codes joined with '_') |
| MarketService.AggsKeyCollision | finance_backend/src/market/market.service.ts:277 | two different parameter tuples yield the same aggregates key, because the parts are joined with '_' |
| MarketService.PrevCloseKeyKind | finance_backend/src/market/market.service.ts:181 | a previous-close key is recognised as belonging to the previous-close resource |
| MarketService.DetailsKeyKind | finance_backend/src/market/market.service.ts:227 | a details key belongs to the details resource and to no other |
| MarketService.AggsPrefixKind | finance_backend/src/market/market.service.ts:277 | any key starting with the aggregates prefix belongs to the aggregates resource |
| MarketService.AggsKeyKind | finance_backend/src/market/market.service.ts:277 | an aggregates key belongs to the aggregates resource and to no other |
| MarketService.RateKeyKind | finance_backend/src/market/market.service.ts:325 | a rate key belongs to the rate resource and to no other |
| MarketService.KeyFamiliesDisjoint | finance_backend/src/market/market.service.ts:181-325 | keys of different resources are never equal, so no resource reads or overwrites another's entries |
| MarketService.LookupHasKeyKind | finance_backend/src/market/market.service.ts:183-186 | in a well-typed cache, a live entry under a resource's key holds a value of that resource |
| MarketService.PrevCloseOf | finance_backend/src/market/market.service.ts:199-213 | throws exactly on upstream failure; null exactly for a missing or empty result list; otherwise the first result |
| MarketService.DetailsOf | finance_backend/src/market/market.service.ts:242-257 | the details object when the body has one; null on failure or a missing `results` |
| MarketService.AggsOf | finance_backend/src/market/market.service.ts:298-306 | the result list, or empty on failure or a missing `results` |
| MarketService.RateOf | finance_backend/src/market/market.service.ts:346-373 | null on failure, on an Error Message and on a missing rate text; otherwise the parse of the rate text |
| MarketService.RateComesFromText | finance_backend/src/market/market.service.ts:358-365 | a non-null rate is always the parse of a rate text the body carried |
| MarketService.CryptoOf | finance_backend/src/market/market.service.ts:167-174 | the upstream list on success; a thrown error exactly on failure |
| MarketService.Service.constructor | finance_backend/src/market/market.service.ts:139-155 | the service starts with both keys present, a well-typed cache and no upstream calls |
| MarketService.Service.FetchCoinGeckoMarketData | finance_backend/src/market/market.service.ts:157-175 | one upstream call every time, the cache untouched, failures rethrown |
| MarketService.Service.FetchStockPreviousClose | finance_backend/src/market/market.service.ts:177-221 | a live entry is returned with no call and no write; a miss makes exactly one call and caches only a found bar, for 15 minutes |
| MarketService.Service.FetchTickerDetails | finance_backend/src/market/market.service.ts:223-265 | a live entry is returned with no call and no write; a miss never throws and caches only found details, for 24 hours |
| MarketService.Service.FetchStockAggregates | finance_backend/src/market/market.service.ts:267-316 | a live entry is returned with no call and no write; a miss never throws and caches only a non-empty list, for one hour |
| MarketService.Service.FetchAlphaVantageExchangeRate | finance_backend/src/market/market.service.ts:318-385 | only a live non-null rate is a hit (source cache); otherwise one call, source api, and the cache always written: the rate for an hour, null for 15 minutes |
| MarketService.TickerCaseSharesOneCall | finance_backend/src/market/market.service.ts:180-187 | `aapl` then `AAPL`: once a bar is cached, the second request returns it with no second upstream call |
| MarketService.FailedRateIsRefetched | finance_backend/src/market/market.service.ts:327-381 | a failing rate asked twice: both answers are null from the API, and both requests go upstream |
| MarketService.AggregatesServedWithinTheHour | finance_backend/src/market/market.service.ts:279-313 | bars fetched once are served again, unchanged and without an upstream call, within the hour |
| MarketService.EmptyAggregatesRefetched | finance_backend/src/market/market.service.ts:279-313 | an empty bar list is not cached, so the next request goes upstream again |
| MarketController.CryptoQueryOf | finance_backend/src/market/market.controller.ts:20-27 | each falsy query parameter takes its default: 'usd', 50, 1, 'market_cap_desc' |
| MarketController.GetCryptoMarketData | finance_backend/src/market/market.controller.ts:11-33 | the service's list on success; 503 for any failure |
| MarketController.CryptoUnavailableIffUpstreamFailed | finance_backend/src/market/market.controller.ts:29-32 | against the service, the crypto endpoint answers 503 exactly when CoinGecko failed |
| MarketController.GetStockPreviousClose | finance_backend/src/market/market.controller.ts:35-52 | an empty ticker is 400 whatever the service would do; null is 404; errors keep an HttpException's status or become 500 |
| MarketController.PrevCloseStatusOnMiss | finance_backend/src/market/market.controller.ts:42-50 | against the service on a miss: 500 exactly on upstream failure, 404 exactly on no results, else the first bar |
| MarketController.GetTickerDetails | finance_backend/src/market/market.controller.ts:54-73 | an empty ticker is 400; a null result is passed through as the body |
| MarketController.DetailsAlwaysAnswered | finance_backend/src/market/market.controller.ts:63-67 | against the service, a ticker always gets a body, null when Polygon failed |
| MarketController.AggsQueryOf | finance_backend/src/market/market.controller.ts:90-95 | multiplier defaults to 1, timespan to 'day', `to` to today, `from` to `to` minus limitDays (default 7) |
| MarketController.AggsDefaults | finance_backend/src/market/market.controller.ts:90-95 | with no query parameters: multiplier 1, 'day', and the seven days up to today |
| MarketController.GetStockAggregates | finance_backend/src/market/market.controller.ts:75-105 | an empty ticker is 400 before the service; otherwise the service's bars or its error status |
| MarketController.GetAlphaVantageExchangeRate | finance_backend/src/market/market.controller.ts:107-123 | a missing currency code is 400 before the service; otherwise the service's reply or its error status |
| MarketController.UnavailableRateIsNotAnError | finance_backend/src/market/market.controller.ts:107-123 | against the service on a miss: an unavailable rate is a 200 answer with rate null and source 'api' |
| NewsService.ConfigureNews | finance_backend/src/news/news.service.ts:34-39 | construction succeeds exactly when the news API key is truthy |
| NewsService.UrlIndex | finance_backend/src/news/news.service.ts:65 | finds a stored row with the URL, or reports that none has it |
| NewsService.ConsNewestFirst | finance_backend/src/news/news.service.ts:96-99 | a row no older than the head of a newest-first list can go in front of it |
| NewsService.InsertByDate | finance_backend/src/news/news.service.ts:96-99 | inserting a row into a newest-first list keeps it newest-first, adds exactly that row, and puts it first or keeps the old head |
| NewsService.Window | finance_backend/src/news/news.service.ts:96-102 | skip then take: the exact length, and each element sits at its offset in the ordering |
| NewsService.SortByDate | finance_backend/src/news/news.service.ts:96-99 | a date-descending permutation of the table exists and is computed |
| NewsService.PageShape | finance_backend/src/news/news.service.ts:93-102 | a page holds min(take, rows left after skip) rows, at most pageSize, all stored and newest first |
| NewsService.FirstPageStartsWithNewest | finance_backend/src/news/news.service.ts:96-99 | the first page of a non-empty table starts with a row no other row is newer than |
| NewsService.DraftOf | finance_backend/src/news/news.service.ts:67-76 | a new entity takes the given newsid; the article's title, description, content, URL, image URL and source; and the publication date, or else the current time |
| NewsService.IngestUpTo | finance_backend/src/news/news.service.ts:59-85 | the fold of `Step` (one loop pass: skip an article without a URL or with a stored URL, otherwise a save that may fail) over the first i articles; ingestion only appends, and the saved count equals the rows added and the keys used |
| NewsService.IngestedRowsHaveUrls | finance_backend/src/news/news.service.ts:61-64 | every ingested row has a non-empty URL carried by some article of the page |
| NewsService.IngestAddsNoRepeatedUrl | finance_backend/src/news/news.service.ts:60-85 | on any store, including one the bulk path left with duplicates, no row ingestion adds repeats the URL of a row stored before it |
| NewsService.IngestKeepsUrlsDistinct | finance_backend/src/news/news.service.ts:65-66 | corollary: a store free of duplicate URLs stays free of them |
| NewsService.IngestStoresEveryUrl | finance_backend/src/news/news.service.ts:60-85 | with no failed saves, every URL of the page is stored afterwards |
| NewsService.IngestOfStoredUrlsIsIdle | finance_backend/src/news/news.service.ts:65-66 | when every URL of the page is stored, ingestion changes nothing |
| NewsService.IngestTwiceAddsNothing | finance_backend/src/news/news.service.ts:60-85 | ingesting the same page twice with no failures adds nothing the second time |
| NewsService.BulkEntities | finance_backend/src/news/news.service.ts:144-161 | keeps only entries with a URL, at most as many as given; empty exactly when no entry has a URL |
| NewsService.UrlPositions | finance_backend/src/news/news.service.ts:144-161 | the positions of the entries with a URL: all of them, only them, in increasing order |
| NewsService.UrlPositionsCount | finance_backend/src/news/news.service.ts:144-161 | there are as many such positions as entries with a URL |
| NewsService.BulkEntitiesStep | finance_backend/src/news/news.service.ts:144-161 | the entry at each position contributes its draft when it has a URL and nothing otherwise |
| NewsService.BulkEntitiesFrom | finance_backend/src/news/news.service.ts:144-161 | from any position on, the entities line up one-to-one with the positions of the entries with a URL |
| NewsService.BulkEntitiesAreTheEntriesWithUrls | finance_backend/src/news/news.service.ts:144-161 | the entities are exactly the drafts (`DraftOfBulk`: the entry's fields with its URL) of the entries with a URL, in input order; their number is the number of such entries, and every such entry's draft is among them |
| NewsService.BulkEntitiesCount | finance_backend/src/news/news.service.ts:144-161 | each entry with a URL contributes one entity, and each entry without one contributes none |
| NewsService.FourOfFiveLoaded | finance_backend/src/news/news.service.ts:144-161 | five entries, one without a URL, give four entities |
| NewsService.WithKeys | finance_backend/src/news/news.service.ts:168-171 | one saved row per entity (`Saved`: the entity's fields under its key), with consecutive generated keys |
| NewsService.BulkRows | finance_backend/src/news/news.service.ts:163-171 | the rows a successful batch saves are the drafts of the entries with a URL, in input order, under consecutive keys, as many as such entries |
| NewsService.BulkInsertCanDuplicate | finance_backend/src/news/news.service.ts:144-171 | loading an article whose URL is stored leaves two rows with that URL |
| NewsService.Service.constructor | finance_backend/src/news/news.service.ts:31-40 | the News table starts empty, with the first generated key 1 |
| NewsService.Service.Save | finance_backend/src/news/news.service.ts:78-84 | a save either appends one row with the next key, or fails and changes nothing |
| NewsService.Service.IngestArticle | finance_backend/src/news/news.service.ts:61-84 | one article of the loop: no URL or a stored URL leaves the store alone; otherwise one save, counted only when it succeeds |
| NewsService.Service.Find | finance_backend/src/news/news.service.ts:96-102 | returns a page of the table under a date-descending order |
| NewsService.Service.GetNews | finance_backend/src/news/news.service.ts:42-117 | upstream failure, or a body without articles, throws with the table untouched; otherwise the table is what the ingestion fold gives, and the answer is a page of it with the upstream total |
| NewsService.Service.GetNewsFromDb | finance_backend/src/news/news.service.ts:119-139 | a page of the table and the number of stored rows |
| NewsService.Service.BulkInsertNews | finance_backend/src/news/news.service.ts:141-176 | no valid entries returns [] with no write; a failed batch throws 500 with no change; otherwise the rows appended and returned are, in input order, exactly the drafts of the entries with a URL under consecutive new keys, as many as there are such entries |
| UsersService.IndexOfId | finance_backend/src/users/users.service.ts:93 | finds the first row with the id, or reports that none has it |
| UsersService.IndexOfEmail | finance_backend/src/users/users.service.ts:66 | finds the first row with the email, or reports that none has it |
| UsersService.IndexOfKeys | finance_backend/src/users/user.entity.ts:5-12 | under the primary-key and unique-email constraints, a row is the one its id and its email find |
| UsersService.FindOneById | finance_backend/src/users/users.service.ts:92-98 | the stored row with that id, or NotFound exactly when there is none |
| UsersService.FindOneByEmail | finance_backend/src/users/users.service.ts:100-102 | the stored row with that email, or null exactly when there is none |
| UsersService.EmailExists | finance_backend/src/users/users.service.ts:132-135 | true exactly when some row has the email |
| UsersService.UsernameExists | finance_backend/src/users/users.service.ts:127-130 | true exactly when some row has the name |
| UsersService.EmailLinkedToGoogle | finance_backend/src/users/users.service.ts:137-142 | true exactly when some row with the email is a Google account |
| UsersService.Validate | finance_backend/src/users/users.service.ts:65-86 | NotFound exactly for an unknown email; a Google account is always refused; only NotFound or Unauthorized are thrown; a returned user is the stored local row whose digest accepts the password |
| UsersService.ValidateAcceptsStoredCredentials | finance_backend/src/users/users.service.ts:65-86 | conversely, a local row whose digest accepts the password signs in as that row |
| UsersService.CreateThenValidate | finance_backend/src/users/users.service.ts:15-33 | a new local user (`NewLocalUser`: the digest as password, not Google, the default avatar path in googleId and avatar) keeps the key constraints and can sign in with the password at once |
| UsersService.GoogleUserCannotValidate | finance_backend/src/users/users.service.ts:35-62 | a Google-created account keeps the key constraints and never signs in with a password |
| UsersService.GoogleUpsertIdempotent | finance_backend/src/users/users.service.ts:35-62 | repeating Google sign-up with the same profile leaves the table as the first call (`GoogleUpserted`) left it |
| UsersService.Apply | finance_backend/src/users/users.service.ts:104-118 | an update never changes the primary key |
| UsersService.ApplyIdempotent | finance_backend/src/users/users.service.ts:104-118 | applying the same update twice equals applying it once |
| UsersService.AvatarPatchOnlyAvatar | finance_backend/src/users/users.controller.ts:141 | the avatar update changes the avatar column and nothing else |
| UsersService.EmailTakenByOther | finance_backend/src/users/user.entity.ts:11-12 | true exactly when the patch's email belongs to another row |
| UsersService.UpdateReadsBack | finance_backend/src/users/users.service.ts:104-118 | an accepted update keeps the key constraints, and the row read back by id is the patched row |
| UsersService.RemoveThenNotFound | finance_backend/src/users/users.service.ts:120-125 | after a delete the id is not found, the constraints still hold, and every other row is still found |
| UsersService.ChangePasswordError | finance_backend/src/users/users.service.ts:144-168 | NotFound exactly for an unknown id; BadRequest for a Google row, for a row without a password, and for a new password equal to the current one; Unauthorized exactly for a local row with a password that refuses the current one; the change goes ahead if and only if the row is local, has a password that accepts the current one, and the new password differs |
| UsersService.ChangePasswordThenValidate | finance_backend/src/users/users.service.ts:161-174 | after a change the user signs in with the new password, and not with the old one unless the new digest accepts it |
| UsersService.Service.constructor | finance_backend/src/users/users.service.ts:10-13 | the User table starts empty and satisfies the key constraints, with the given bcrypt comparison |
| UsersService.Service.CreateUser | finance_backend/src/users/users.service.ts:15-33 | Conflict and no change for a known email; otherwise exactly one new local row, and the user can sign in |
| UsersService.Service.CreateGoogleUser | finance_backend/src/users/users.service.ts:35-62 | an unknown email adds a Google row (`NewGoogleUser`) with an empty password and `picture ?? default` as avatar; a known email changes only that row's googleId |
| UsersService.Service.UpdateUser | finance_backend/src/users/users.service.ts:104-118 | NotFound and no change for an unknown id; a storage error and no change for another row's email; otherwise only that row is patched and it is returned |
| UsersService.Service.RemoveUser | finance_backend/src/users/users.service.ts:120-125 | NotFound and no change for an unknown id; otherwise exactly that row is removed |
| UsersService.Service.ChangePassword | finance_backend/src/users/users.service.ts:144-177 | any failed check throws its error and leaves the table unchanged; on success only that row's password becomes the new digest |
| UsersController.ValidateEndpoint | finance_backend/src/users/users.controller.ts:44-53 | a null user is 401; a user is returned; a thrown error keeps its status |
| UsersController.SignInAnswers | finance_backend/src/users/users.controller.ts:44-53 | against the service, its answer read as `User \| null` (`Nullable`): 404 exactly for an unknown email, only 404 or 401 as failures, the null branch never reached |
| UsersController.PasswordBodyError | finance_backend/src/users/users.controller.ts:102-111 | over body fields that are missing, a string or another JSON value (`BodyField`): accepted exactly when both fields are non-empty strings and the new one has at least 6 characters; the current password is checked first |
| UsersController.ShortPasswordRefused | finance_backend/src/users/users.controller.ts:108-110 | a five-character new password is refused with the length message; six characters pass |
| UsersController.ImageFileAccepted | finance_backend/src/users/users.controller.ts:23-28 | accepted exactly when the lower-cased name ends in .jpg, .jpeg, .png or .gif |
| UsersController.ImageFilterIgnoresCase | finance_backend/src/users/users.controller.ts:24 | the filter gives the same verdict for a name and its upper-cased form |
| UsersController.UpperCaseExtensionAccepted | finance_backend/src/users/users.controller.ts:24 | `photo.JPG` is accepted |
| UsersController.TrailingSuffixRefused | finance_backend/src/users/users.controller.ts:24 | `a.jpg.exe` is refused: the extension must end the name |
| UsersController.AvatarFilename | finance_backend/src/users/users.controller.ts:11-19 | an error (500) exactly when the user id is missing; otherwise the name starts with `userId-` and ends with the suffix and the extension |
| UsersController.AvatarFilenamesDistinct | finance_backend/src/users/users.controller.ts:16-18 | different suffixes give different file names for one user and extension |
| UsersController.UniqueSuffixInjective | finance_backend/src/users/users.controller.ts:16 | the suffix `Date.now()-random` (`UniqueSuffix`) determines both numbers |
| UsersController.AvatarNamesFromDistinctDraws | finance_backend/src/users/users.controller.ts:16-18 | two uploads for one user get different file names unless both the millisecond and the random draw coincide |
| UsersController.AvatarUrl | finance_backend/src/users/users.controller.ts:132-136 | starts with BACKEND_URL (default 'http://localhost:3000') and ends with '/public/avatars/' followed by the file name |
| UsersController.AvatarUrlInjective | finance_backend/src/users/users.controller.ts:132-136 | one base URL never maps two file names to the same URL |
| UsersController.ChangeUserPassword | finance_backend/src/users/users.controller.ts:96-119 | a rejected body is 400 and leaves the table unchanged; otherwise the service's error status or the success message, with only that row's password changed |
| UsersController.UploadAvatar | finance_backend/src/users/users.controller.ts:121-148 | no file is 400 with no update; an unknown id is 404; otherwise exactly the returned URL is written to that user's avatar and nothing else changes |

## Left out

- HTTP transport (axios, HttpService, rxjs): upstream answers are arguments, not requests.
- Float parsing: `parseFloat` and `isNaN` are one argument, `parse`. `Number(...)` and `parseInt(..., 10)` in the controllers are arguments too, so NaN is not modelled.
- The cache manager's LRU limit of 100 entries and its default TTL: eviction is the environment action `Evict`, so any entry may vanish early.
- Concurrency: the model is sequential. Two overlapping misses for one key, and racing ingestion runs, are not modelled.
- bcrypt's salt and cost: the digest is an argument constrained by `Hashes`.
- uuid collisions: a new user's id is required to be unused; news uuids are taken as given, and nothing requires them to be distinct.
- `Date.now()`, `Math.random()` and dayjs: these become arguments (`UniqueSuffix`'s inputs, `today`, `minusDays`, the current time of ingestion).
- `NewsService.Service.GetNews` takes one `now` for the whole page. The code reads the clock again for each article without a publication date (finance_backend/src/news/news.service.ts line 75), so such articles on one page may get slightly different times there.
- Number rendering: `Common.IntToString` writes every integer in plain decimal. JavaScript writes numbers of magnitude 1e21 or more in exponent form, so an aggregates key with such a multiplier is not modelled.
- `path.extname`: it is taken as the `extension` argument of `UsersController.AvatarFilename`.
- Multer itself: the disk write, the 5 MB size limit, and running the filter and the file-name callback before the handler. `UsersController.UploadAvatar` receives the stored file name.
- `ParseUUIDPipe` on the avatar route: a non-uuid id would be refused with 400 before the handler; the model takes any id.
- Case mapping is ASCII-only. This is exact for the filter's extensions. For tickers and currency codes, non-ASCII letters that `toUpperCase` would map are not modelled.
- Password length is counted in characters of the model's strings. JavaScript counts UTF-16 code units, so the two differ for characters outside the Basic Multilingual Plane.
- MySQL specifics: case-insensitive collation of emails and URLs, the SQL `date` type truncating the news date to a day, and the 100-character name column.
- MySQL's count of affected rows: the model counts matched rows, so an update that changes no column still succeeds.
- A patch that sets the primary key `id`: it is not representable in `UserPatch`.
- TypeORM's refusal of an update with no columns: it is not modelled.
- Database read failures in `findOneBy`, `find`, `findAndCount` and `findOne`, including the 500 that `getNewsFromDb` raises on one: reads always succeed in the model.
- Log calls, and the text of most exception messages: statuses and the decisive messages are kept.
- `findAll` and the users controller's pass-through endpoints (create, google, check-*, find, update, delete): each only forwards to a service member that is modelled.
- The `createdAt` column: it is set by the database.
- The dead `if (!this.polygonApiKey)` and `if (!this.alphaVantageApiKey)` checks in each fetch: `MarketService.Service.Valid` requires both keys, as the constructor ensures.
- The news controller: its defaults (page 1, pageSize 12) become the requirement that page and pageSize are at least 1. Negative skip and take are not modelled.
- The News table's generated key is modelled as a counter starting at 1.
- The news article count: `NewsService.Service.GetNews` requires one given newsid per upstream article.
