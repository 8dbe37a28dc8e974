# valutatrade_hub in Dafny

This project models the core of ValutaTrade Hub, a currency-trading console
application, and proves properties of the model. Its centre is the
rate-cache pipeline of `parser_service`:

- **Sources.** Two API clients fetch rates, with a bounded retry loop.
- **Coordinator.** One update cycle collects the rates of every source. It
  tolerates a source that fails, appends one history record per fetched pair
  to `exchange_rates.json`, splits the pairs into crypto and fiat, and merges
  them into the `rates.json` cache. The merge follows a no-regression rule on
  timestamps.
- **Display.** The `show-rates` command filters, ranks, re-bases and sorts the
  cached pairs.

Around the pipeline the model covers:

- the currency-code validators and the currency registry;
- amount validation and conversion through USD;
- the parser configuration;
- user registration and login, and the `User` credential object;
- the `DatabaseManager`, a singleton with a read-through cache.

Modules follow the source files:

| module | file | models |
|---|---|---|
| `PairKeys` | `pair_keys.dfy` | the code pattern, `parse_pair`, `generate_record_id` of storage.py |
| `Storage` | `storage.dfy` | the history log, the rates cache, the `DataDir` object |
| `ParserConfig` | `config.dfy` | `ParserConfig` defaults, URLs, `validate_config` |
| `ApiClients` | `api_clients.dfy` | `_make_request` and both `fetch_rates` |
| `Updater` | `updater.dfy` | `RatesUpdater.run_update`, `update_crypto_rates`, `update_fiat_rates` |
| `Interface` | `interface.dfy` | `cmd_show_rates`, `cmd_update_rates` |
| `Currencies` | `currencies.dfy` | `Currency` classes and the registry |
| `Utils` | `utils.dfy` | validators, rate table, `convert_currency` |
| `Models` | `models.dfy` | the `User` class |
| `Usecases` | `usecases.dfy` | registration, login, exchange-rate queries |
| `Database` | `database.dfy` | `DatabaseManager` |

The shared modules `Results` (Option, Result), `Text` (Python `str` methods:
`split`, `join`, `strip`, `upper`, `lower`, `in`, string ordering) and `PyDict`
(an insertion-ordered dict) stand for the Python built-ins the code relies on.

Representation:

- **Files.** JSON files are values that a write replaces whole.
- **Side effects.** HTTP responses are a function from attempt number to
  outcome. Sleeps are returned as the list of delays. Clock readings,
  environment variables, salts and the password hash are parameters.
- **Rates** are `real`.
- **Objects whose fields the source updates in place** are classes:
  `Storage.DataDir`, `Currencies.Registry`, `Models.User`,
  `Usecases.UserStore` and `Database.DatabaseManager`. Each method is tied to
  a specification function of the old state, and the properties are proved
  about those functions.

## Model

| member | source | states |
|---|---|---|
| PairKeys.ValidateCurrencyCode | valutatrade_hub/parser_service/storage.py:28-45 | a code is valid exactly when it has two to five characters, each a capital A-Z (the pattern as intended; see Findings) |
| PairKeys.ValidCodeHasNoSeparator | valutatrade_hub/parser_service/storage.py:28 | a valid code never contains "_", so it survives the split of a pair key |
| PairKeys.CodePatternMatchesIff | valutatrade_hub/parser_service/storage.py:28-45 | the pattern as written accepts exactly the valid codes and the valid codes followed by one trailing newline |
| PairKeys.TrailingNewlineAccepted | valutatrade_hub/parser_service/storage.py:28-45 | "USD\n" passes the pattern as written but is not a valid code |
| PairKeys.PairKeyInjective | valutatrade_hub/parser_service/api_clients.py:177 | `"{FROM}_{TO}"` keys with the same TO differ exactly when their FROM codes differ |
| PairKeys.ParsePair | valutatrade_hub/parser_service/storage.py:74-100 | success exactly when the split on "_" gives two pieces and both are valid codes under the corrected pattern (see Findings); the error names the first failing check (format, FROM, TO) |
| PairKeys.ParsePairRoundTrip | valutatrade_hub/parser_service/storage.py:90-100 | `parse_pair(a + "_" + b) == (a, b)` for valid codes `a`, `b` |
| PairKeys.ParsePairAcceptsExactlyPairKeys | valutatrade_hub/parser_service/storage.py:90-100 | a key parses exactly when it is two valid codes joined by "_" |
| PairKeys.GenerateRecordId | valutatrade_hub/parser_service/storage.py:48-71 | an invalid FROM is reported before an invalid TO, validity under the corrected pattern (see Findings); otherwise the id is FROM + "_" + TO + "_" + timestamp |
| PairKeys.RecordIdDecodes | valutatrade_hub/parser_service/storage.py:71 | a record id splits back into FROM, TO and a "_"-free timestamp, and its first two pieces parse as the record's pair |
| Storage.NewRecord | valutatrade_hub/parser_service/storage.py:255-276 | the id is the generated record id; id, from, to, rate, updated_at and source are always keys; each meta key is a key exactly when its argument is not None |
| Storage.ReadHistory | valutatrade_hub/parser_service/storage.py:108-169 | a missing file reads as an empty log; a missing "history" is repaired to []; unreadable, undecodable or non-object content is a StorageError with the source's text; a file that is not UTF-8 raises the uncaught UnicodeDecodeError |
| Storage.ReadHistoryAfterWrite | valutatrade_hub/parser_service/storage.py:141-164 | reading back a written log gives the written document |
| Storage.AddHistory | valutatrade_hub/parser_service/storage.py:218-289 | a bad pair fails before the log is read or written; a read or write failure leaves the file unchanged; success writes the log with the new record |
| Storage.AddHistoryAppendsOne | valutatrade_hub/parser_service/storage.py:249-286 | success appends exactly one record at the end, keeps the earlier records and sets last_updated to the record's timestamp |
| Storage.LegacyPairs | valutatrade_hub/parser_service/storage.py:345-352 | the migrated pairs are exactly `"{CODE}_{BASE}"` for each legacy code other than the base, dated and marked "migrated" |
| Storage.NotObjectOnRead | valutatrade_hub/parser_service/storage.py:333-362 | a non-object document fails before the type check unless it passes the migration test: a scalar raises TypeError, a list or string holding "rates" but not "pairs" raises AttributeError, and only the rest gets the StorageError naming `<class '...'>` |
| Storage.ScalarCacheIsTypeError | valutatrade_hub/parser_service/storage.py:334 | `5` as the document raises TypeError "argument of type 'int' is not iterable" |
| Storage.RatesTextIsAttributeError | valutatrade_hub/parser_service/storage.py:334-339 | the string "rates" and the list ["rates"] pass the migration test and raise AttributeError at `data.get` |
| Storage.EmptyListIsStorageError | valutatrade_hub/parser_service/storage.py:358-361 | an empty list as the document is the StorageError |
| Storage.RatesOnRead | valutatrade_hub/parser_service/storage.py:297-375 | a missing cache reads as empty pairs with null last_refresh; the legacy shape is migrated; a missing "pairs" is repaired; unreadable and undecodable files are StorageErrors; a file that is not UTF-8 raises the uncaught UnicodeDecodeError; a non-object document fails as `NotObjectOnRead` says |
| Storage.LegacyMigration | valutatrade_hub/parser_service/storage.py:333-355 | reading a legacy file gives one pair per non-base code (base "USD" when absent) with source "migrated", nothing else, and last_refresh = the old updated_at or the clock |
| Storage.RatesOnReadAfterWrite | valutatrade_hub/parser_service/storage.py:324-370 | reading back a written cache gives the written document |
| Storage.MigrateLegacy | valutatrade_hub/parser_service/storage.py:345-352 | the migration loop builds exactly `LegacyPairs` |
| Storage.ReadRatesCache | valutatrade_hub/parser_service/storage.py:297-375 | the step-by-step read returns exactly what `RatesOnRead` specifies |
| Storage.MergedShape | valutatrade_hub/parser_service/storage.py:450-467 | the merge keeps every cached key and adds the incoming ones; an applying pair gets the new rate, timestamp and source; other entries are untouched |
| Storage.MergeNoRegression | valutatrade_hub/parser_service/storage.py:455-459 | an entry whose cached updated_at is >= the incoming timestamp (missing counts as "") is kept, equal timestamps included |
| Storage.MergeMonotone | valutatrade_hub/parser_service/storage.py:455-467 | an entry's timestamp never goes backwards under a merge |
| Storage.MergeIdempotent | valutatrade_hub/parser_service/storage.py:455-459 | repeating a merge with the same timestamp changes nothing |
| Storage.MergeLaterWins | valutatrade_hub/parser_service/storage.py:455-467 | a later batch overwrites what an earlier batch wrote |
| Storage.MergeStaleBatchIgnored | valutatrade_hub/parser_service/storage.py:455-459 | an earlier batch arriving after a later one does not undo it |
| Storage.FirstInvalid | valutatrade_hub/parser_service/storage.py:450-452 | the position of the first key, in insertion order, that `parse_pair` rejects; none exactly when every key is valid |
| Storage.MergeStep | valutatrade_hub/parser_service/storage.py:450-467 | merging one more incoming entry is writing it onto the merge so far when it applies; a repeated key changes nothing |
| Storage.MergedUpToIsMerged | valutatrade_hub/parser_service/storage.py:450-467 | after i turns the loop's pairs are the merge of the first i incoming entries, whatever their order and repetitions |
| Storage.MergeRates | valutatrade_hub/parser_service/storage.py:450-467 | the loop over `rates.items()` in insertion order raises the ValueError of the first invalid key exactly when there is one, otherwise returns exactly the merged pairs |
| Storage.CacheAfterUpdate | valutatrade_hub/parser_service/storage.py:422-475 | the cache is unchanged unless read, key validation and write all succeed; then it holds the merged pairs and last_refresh = timestamp, other keys kept |
| Storage.CacheUpdateOutcome | valutatrade_hub/parser_service/storage.py:422-475 | succeeds exactly when `CacheUpdateSucceeds`; the read error as raised, then the first invalid key's ValueError, then the write's StorageError; only a non-object or non-UTF-8 document or an invalid key raises something other than a StorageError |
| Storage.CacheUpdateRefreshes | valutatrade_hub/parser_service/storage.py:469-473 | a successful update sets last_refresh even when no pair applied, and keeps every cached pair absent from the input |
| Storage.CacheUpdateIdempotent | valutatrade_hub/parser_service/storage.py:450-473 | repeating the same update leaves the cache as the first call left it |
| Storage.DataDir.AddHistoryRecord | valutatrade_hub/parser_service/storage.py:218-289 | the returned record and the new history file are those of `AddHistory`; the cache file is untouched |
| Storage.DataDir.UpdateRatesCache | valutatrade_hub/parser_service/storage.py:422-475 | the new cache file is `CacheAfterUpdate`; success exactly when `CacheUpdateSucceeds`; read errors are passed on as raised; otherwise an invalid key gives the ValueError of the first invalid key in insertion order; the raised error is `CacheUpdateOutcome` |
| ParserConfig.DefaultConfig | valutatrade_hub/parser_service/config.py:40-100 | the keys come from the environment or the built-in fallbacks; both data files sit in `data/` three levels above config.py |
| ParserConfig.DefaultIdMapMatchesCrypto | valutatrade_hub/parser_service/config.py:72-85 | the default CRYPTO_ID_MAP has exactly the crypto codes as keys, in order, without repetition |
| ParserConfig.DefaultListsDisjoint | valutatrade_hub/parser_service/config.py:66-73 | no default code is both fiat and crypto, and the base is in neither list |
| ParserConfig.DefaultCodesValid | valutatrade_hub/parser_service/config.py:66-73 | every default code and the base is a valid currency code |
| ParserConfig.ExchangeRateUrlSegments | valutatrade_hub/parser_service/config.py:114-128 | the URL is the endpoint followed by the segments key, "latest", base |
| ParserConfig.CoinGeckoUrlQuery | valutatrade_hub/parser_service/config.py:130-147 | the query carries the lower-cased base, the map's ids joined by "," in map order (recoverable by splitting), and the key |
| ParserConfig.DefaultVsCurrency | valutatrade_hub/parser_service/config.py:141-144 | with the defaults the query asks for "usd" |
| ParserConfig.DefaultCryptoIds | valutatrade_hub/parser_service/config.py:79-85 | with the defaults the ids are bitcoin, ethereum, solana in that order |
| ParserConfig.ValidateConfig | valutatrade_hub/parser_service/config.py:149-195 | valid exactly when both keys are non-empty, some currency list is non-empty and both parent directories exist; the first failing guard names the error |
| ParserConfig.DefaultsValidate | valutatrade_hub/parser_service/config.py:149-195 | the defaults validate exactly when neither key is set to "" and the data directory exists |
| ApiClients.EffectiveRetries | valutatrade_hub/parser_service/api_clients.py:73 | an absent or zero `max_retries` falls back to the configured count |
| ApiClients.Retry | valutatrade_hub/parser_service/api_clients.py:76-133 | the loop makes at most `retries` attempts |
| ApiClients.RetryAfterError | valutatrade_hub/parser_service/api_clients.py:108-127 | after a timeout or connection error the loop sleeps unless it was the last attempt and goes on, remembering the error |
| ApiClients.MakeRequest | valutatrade_hub/parser_service/api_clients.py:58-133 | the loop's outcome, sleeps and attempt count are those of `Retry` |
| ApiClients.TryOnce | valutatrade_hub/parser_service/api_clients.py:77-127 | a 200, another status or a request error ends the loop with the outcome the loop specification gives at this attempt; a 429, timeout or connection error goes on after the sleep the source makes |
| ApiClients.SleepAfterError | valutatrade_hub/parser_service/api_clients.py:125-127 | RETRY_DELAY is slept after a transient error except after the final attempt |
| ApiClients.FirstOkReturned | valutatrade_hub/parser_service/api_clients.py:87-91 | the first 200 among retryable attempts is returned after exactly that many requests |
| ApiClients.FatalStopsAtOnce | valutatrade_hub/parser_service/api_clients.py:102-106 | another status, or a request error that is neither timeout nor connection error, raises ApiRequestError at once with no later attempt |
| ApiClients.AllRateLimited | valutatrade_hub/parser_service/api_clients.py:130-133 | when every attempt is a 429, all attempts are used and the error names the count and `None` |
| ApiClients.RateLimitWaits | valutatrade_hub/parser_service/api_clients.py:93-100 | when every attempt is a 429 the waits are RETRY_DELAY * (n + 2), the last one included |
| ApiClients.AllTransientFailures | valutatrade_hub/parser_service/api_clients.py:108-133 | when every attempt fails transiently, all are used, RETRY_DELAY separates them but does not follow the last, and the error carries the last failure |
| ApiClients.In | valutatrade_hub/parser_service/api_clients.py:174-176 | `key in v`: object keys, list membership, substring of a string; a TypeError on numbers, booleans and null |
| ApiClients.ToFloat | valutatrade_hub/parser_service/api_clients.py:178 | `float(v)`: a number gives its value, a boolean 1.0 or 0.0, a string what `float()` parses it to or a ValueError; null, lists and objects are TypeErrors |
| ApiClients.CoinGeckoNormalise | valutatrade_hub/parser_service/api_clients.py:169-199 | an undecodable body raises the parse error; a result is never empty |
| ApiClients.CoinGeckoStepShape | valutatrade_hub/parser_service/api_clients.py:173-181 | a turn that does not raise writes the pair exactly when the id's entry has a price, with `float()` of it, and otherwise changes nothing |
| ApiClients.NonObjectBodyYieldsNothing | valutatrade_hub/parser_service/api_clients.py:172-191 | a body that is not an object (a list, a string) never yields rates: it raises "empty result" or a TypeError |
| ApiClients.EmptyListBody | valutatrade_hub/parser_service/api_clients.py:172-191 | the body `[]` gives no rates and raises "empty result" |
| ApiClients.CoinGeckoParse | valutatrade_hub/parser_service/api_clients.py:172-186 | the filling loop returns exactly `CoinGeckoLoop` over the whole id map |
| ApiClients.CoinGeckoLoopKeys | valutatrade_hub/parser_service/api_clients.py:173-181 | on success the keys are exactly `"{CODE}_{BASE}"` for the entries whose id has a price |
| ApiClients.CoinGeckoLoopValues | valutatrade_hub/parser_service/api_clients.py:175-181 | each priced entry gets `float(data[id][lower(BASE)])` |
| ApiClients.CoinGeckoEmptyIff | valutatrade_hub/parser_service/api_clients.py:172-194 | for any decoded body, "empty result" is raised exactly when the loop does not raise and no entry of the id map has a price; otherwise the loop's outcome is returned |
| ApiClients.FetchCoinGecko | valutatrade_hub/parser_service/api_clients.py:156-199 | a request failure is passed on; otherwise the result is the normalisation of the body |
| ApiClients.Invert | valutatrade_hub/parser_service/api_clients.py:259 | the inverse rate for a non-zero rate, and 0.0 for a zero rate |
| ApiClients.ExchangeRateNormalise | valutatrade_hub/parser_service/api_clients.py:235-283 | a result is only returned for an object body whose "result" is "success", and it is never empty |
| ApiClients.ExchangeRateParse | valutatrade_hub/parser_service/api_clients.py:254-268 | the filling loop returns exactly `ExchangeRateLoop` over the whole fiat list |
| ApiClients.ExchangeRateStepShape | valutatrade_hub/parser_service/api_clients.py:255-268 | a turn that does not raise writes a code listed in an object `conversion_rates` with its inverted rate, and changes nothing for any other code |
| ApiClients.ExchangeRateLoopKeys | valutatrade_hub/parser_service/api_clients.py:255-268 | on success the keys are exactly `"{FIAT}_{BASE}"` for the configured codes listed in `conversion_rates` |
| ApiClients.ExchangeRateLoopValues | valutatrade_hub/parser_service/api_clients.py:255-268 | on success each listed configured code has the inverted rate (0.0 for a zero rate) |
| ApiClients.ExchangeRateLoopEmits | valutatrade_hub/parser_service/api_clients.py:255-268 | on success the keys are exactly `"{FIAT}_{BASE}"` for configured codes listed in the response, each with the inverted rate |
| ApiClients.FetchExchangeRate | valutatrade_hub/parser_service/api_clients.py:222-283 | a request failure is passed on; otherwise the result is the normalisation of the body |
| ApiClients.ExchangeRateNoneFoundIff | valutatrade_hub/parser_service/api_clients.py:248-277 | past the status and truthiness checks, "none found" is raised exactly when the loop does not raise and no configured code is listed; otherwise the loop's outcome |
| ApiClients.UnlistedCodesFindNothing | valutatrade_hub/parser_service/api_clients.py:255-268 | a list as `conversion_rates` that holds none of the configured codes lists nothing, so the loop returns no rates |
| Updater.Unpack | valutatrade_hub/parser_service/updater.py:133 | the two-name unpacking succeeds exactly when the split gives two pieces |
| Updater.FromPart | valutatrade_hub/parser_service/updater.py:133 | the FROM part is the first piece of the split |
| Updater.UnpackPairKey | valutatrade_hub/parser_service/updater.py:133 | a key built from two "_"-free pieces unpacks into them |
| Updater.HistoryStepShape | valutatrade_hub/parser_service/updater.py:132-145 | one pair appends exactly one record for that pair, stamped with the cycle's timestamp and status 200; a failure appends nothing |
| Updater.HistoryAppendsShape | valutatrade_hub/parser_service/updater.py:132-145 | the history loop only appends, at most one record per pair, with the cycle's timestamp; on success exactly one per pair |
| Updater.HistoryAppendsRecords | valutatrade_hub/parser_service/updater.py:132-145 | the added records are the rates' pairs in order, with their rates and the client's source |
| Updater.AppendHistory | valutatrade_hub/parser_service/updater.py:132-145 | the loop's result and the history file are those of `HistoryAppends` |
| Updater.PollStepCounts | valutatrade_hub/parser_service/updater.py:107-169 | one turn counts its client once, as success or as failure with its message |
| Updater.PollCounts | valutatrade_hub/parser_service/updater.py:94-169 | success + failed = number of clients, errors = failed, one message per failed client |
| Updater.PollRates | valutatrade_hub/parser_service/updater.py:129 | all_rates does not depend on how the history writes went |
| Updater.FetchedRatesKeys | valutatrade_hub/parser_service/updater.py:129 | all_rates holds exactly the keys fetched by successful clients, once each, so total_count counts distinct keys |
| Updater.LaterClientWins | valutatrade_hub/parser_service/updater.py:129 | on a key fetched by several clients the last successful one's value wins |
| Updater.NothingFetchedIff | valutatrade_hub/parser_service/updater.py:172-175 | nothing was fetched exactly when every successful client returned an empty dict |
| Updater.PollStepHistory | valutatrade_hub/parser_service/updater.py:132-145 | one turn of the client loop only appends records of the cycle |
| Updater.PollHistoryAppendsOnly | valutatrade_hub/parser_service/updater.py:107-169 | the client loop only appends, every added record with the cycle's timestamp and status 200 |
| Updater.PartitionOkIff | valutatrade_hub/parser_service/updater.py:184-190 | the partition fails exactly when some key does not split into two pieces |
| Updater.PartitionKeys | valutatrade_hub/parser_service/updater.py:184-190 | the crypto part holds exactly the keys whose FROM is a crypto code, the fiat part the others, keys distinct |
| Updater.PartitionPlacement | valutatrade_hub/parser_service/updater.py:184-190 | every pair lands in the part its FROM code selects, with its rate |
| Updater.PartitionRates | valutatrade_hub/parser_service/updater.py:184-190 | the partition loop returns exactly `Partition` |
| Updater.CycleOutcome | valutatrade_hub/parser_service/updater.py:191-207 | the two merges succeed exactly when the crypto merge (if any) and then the fiat merge on the cache it left (if any) succeed; a failing crypto merge's error is the one raised |
| Updater.RunUpdate | valutatrade_hub/parser_service/updater.py:62-231 | history = the client loop's; nothing fetched raises the joined errors without touching the cache; otherwise the cache gets the crypto merge ("CoinGecko") and then the fiat merge ("ExchangeRate-API"), each only if non-empty; a failing merge raises the error `CycleOutcome` names; a malformed key raises the partition's ValueError with the cache untouched; stats with total_count = number of keys |
| Updater.UpdateSingleSource | valutatrade_hub/parser_service/updater.py:258-344 | the fetch, every history record and the cache merge must all succeed; the first failure propagates and later steps do not happen; a cache failure carries `CacheUpdateOutcome`'s error |
| Interface.SelectedMembers | valutatrade_hub/cli/interface.py:376-383 | an entry is selected exactly when it is a pair whose FROM code passes the filter |
| Interface.KeepIsSelected | valutatrade_hub/cli/interface.py:378-381 | the selection loop raises exactly when some key does not unpack, otherwise it keeps exactly the selected pairs in cache order |
| Interface.KeepPairs | valutatrade_hub/cli/interface.py:376-383 | the selection loop returns exactly `Keep` |
| Interface.SortByRateShape | valutatrade_hub/cli/interface.py:395-397 | the rate sort orders by rate, highest first, and is a permutation |
| Interface.SortByRateStable | valutatrade_hub/cli/interface.py:395-397 | entries of equal rate keep their order |
| Interface.Head | valutatrade_hub/cli/interface.py:398 | `s[:n]` for any integer n, including negative n |
| Interface.TopValue | valutatrade_hub/cli/interface.py:386-398 | without malformed keys --top N cuts the rate-sorted crypto pairs at N |
| Interface.TopIsHighest | valutatrade_hub/cli/interface.py:386-398 | --top N shows at most N crypto pairs, and no crypto pair left out has a higher rate than one shown |
| Interface.SortByKeyShape | valutatrade_hub/cli/interface.py:440 | the final sort orders by pair key and is a permutation |
| Interface.UnpackIsBaseUsd | valutatrade_hub/cli/interface.py:407-408 | a key unpacks into B, "USD" exactly when it is `B_USD` and B has no "_" |
| Interface.BaseLookupFinds | valutatrade_hub/cli/interface.py:405-410 | without malformed keys the lookup finds a rate exactly when `B_USD` is cached, and it is that entry's rate |
| Interface.FindBaseRate | valutatrade_hub/cli/interface.py:405-410 | the lookup loop returns exactly `BaseLookup` |
| Interface.LookupStops | valutatrade_hub/cli/interface.py:410 | once the lookup has an answer or has raised, later pairs do not change it |
| Interface.RebaseOkIff | valutatrade_hub/cli/interface.py:420-433 | rebasing raises exactly when some pair cannot be rebased |
| Interface.RebaseDistinct | valutatrade_hub/cli/interface.py:427-428 | the rebased pairs have distinct keys |
| Interface.RebaseCovers | valutatrade_hub/cli/interface.py:420-433 | every FROM code X other than B among the filtered pairs gets a key `X_B` |
| Interface.RebaseKeysFrom | valutatrade_hub/cli/interface.py:420-433 | every rebased key is `X_B` for some filtered FROM code X other than B |
| Interface.RebaseValue | valutatrade_hub/cli/interface.py:425-431 | the value of `X_B` is the last filtered X pair's rate divided by the rate of `B_USD`, with its date and its source or "unknown" |
| Interface.RebasePairs | valutatrade_hub/cli/interface.py:420-433 | the rebase loop returns exactly `Rebase` |
| Interface.ShowRates | valutatrade_hub/cli/interface.py:341-478 | a StorageError from the read is reported as a read error and any other read error as unexpected, with its text; the empty cache is reported exactly when the read gave no pairs; a table or "nothing matched" needs cached pairs |
| Interface.FinishTable | valutatrade_hub/cli/interface.py:435-466 | the table holds one row per remaining pair, sorted by pair key |
| Interface.SelectedKeeps | valutatrade_hub/cli/interface.py:376-398 | the filters keep keys distinct and unpackable |
| Interface.ShowCurrency | valutatrade_hub/cli/interface.py:376-440 | --currency C alone shows exactly the pairs whose FROM code is C.upper(), sorted by key |
| Interface.SelectionOk | valutatrade_hub/cli/interface.py:376-398 | without malformed keys --currency and --top cannot fail |
| Interface.ShowBaseMissing | valutatrade_hub/cli/interface.py:404-417 | --base B without `B_USD` among all cached pairs reports the missing base and the available FROM codes, and shows no table |
| Interface.CmdShowRates | valutatrade_hub/cli/interface.py:333-478 | the command with its loops shows exactly `ShowRates` |
| Interface.CmdUpdateRates | valutatrade_hub/cli/interface.py:481-565 | an unknown --source is refused with its message and touches no file; otherwise the history is the client loop's and nothing fetched reports the API error; with rates fetched, a malformed key reports the unexpected-error message with the cache untouched, and otherwise the cache is saved as the cycle's merges leave it and the report is the stats (success message exactly when errors == 0) when they succeed, the save error for a StorageError and the unexpected error for any other |
| Currencies.ValidateCode | valutatrade_hub/core/currencies.py:54-79 | passes exactly when the code has 2-5 characters, no space and only letters and digits; the first failing check names its reason and the code as given |
| Currencies.StoreCodesAreCurrencyCodes | valutatrade_hub/core/currencies.py:63-79 | every code the rate store accepts is a currency code, already upper-case |
| Currencies.CurrencyCodesMayHoldDigits | valutatrade_hub/core/currencies.py:76-79 | the converse fails: "B2" is a currency code the rate store rejects |
| Currencies.NewBase | valutatrade_hub/core/currencies.py:32-51 | a blank name is refused before the code is checked; the result holds the stripped name and the upper-cased code and is well formed |
| Currencies.NewFiat | valutatrade_hub/core/currencies.py:114-130 | the base checks first, then a blank issuing country is refused; the country is stored stripped |
| Currencies.NewCrypto | valutatrade_hub/core/currencies.py:157-178 | the base checks, then a blank algorithm, then a negative market cap are refused in that order |
| Currencies.WithCurrency | valutatrade_hub/core/currencies.py:200-206 | the entry under the currency's code is the currency and every other entry is kept |
| Currencies.Lookup | valutatrade_hub/core/currencies.py:209-226 | found exactly when the upper-cased code is registered; otherwise CurrencyNotFoundError naming the upper-cased code |
| Currencies.IsRegisteredIffFound | valutatrade_hub/core/currencies.py:238-247 | is_currency_registered answers whether get_currency succeeds, for any letter case |
| Currencies.RegisterThenGet | valutatrade_hub/core/currencies.py:206-226 | after registering c, get_currency finds c under every spelling of its code |
| Currencies.RegisterKeepsOthers | valutatrade_hub/core/currencies.py:206 | registering leaves every other code's lookup unchanged |
| Currencies.ReRegisterReplaces | valutatrade_hub/core/currencies.py:206 | registering a second currency under a code replaces the first |
| Currencies.RegisterKeepsKeyed | valutatrade_hub/core/currencies.py:206-226 | every entry stays under its own code, so a found currency carries the upper-cased argument as its code |
| Currencies.WithAll | valutatrade_hub/core/currencies.py:254-270 | registering a list gives exactly the old keys plus the listed codes |
| Currencies.Defaults | valutatrade_hub/core/currencies.py:257-270 | the eight default currencies, six fiat then two crypto, with their names, countries, algorithms and market caps |
| Currencies.FiatRoundTrip | valutatrade_hub/core/currencies.py:114-130 | constructing from a well-formed fiat currency's attributes gives it back |
| Currencies.CryptoRoundTrip | valutatrade_hub/core/currencies.py:157-178 | constructing from a well-formed crypto currency's attributes gives it back |
| Currencies.DefaultCodes | valutatrade_hub/core/currencies.py:257-270 | every default code is valid and upper-case |
| Currencies.DefaultWellFormed | valutatrade_hub/core/currencies.py:257-270 | every default currency is well formed, so no default constructor call raises |
| Currencies.DefaultRegistry | valutatrade_hub/core/currencies.py:254-274 | after import the registry holds exactly USD, EUR, GBP, RUB, CNY, JPY, BTC, ETH |
| Currencies.DefaultRegistryKeyed | valutatrade_hub/core/currencies.py:254-274 | after import every entry sits under its own code |
| Currencies.Registry.constructor | valutatrade_hub/core/currencies.py:254-274 | importing the module registers the defaults into an empty registry |
| Currencies.Registry.Register | valutatrade_hub/core/currencies.py:200-206 | the registry becomes `WithCurrency` of the old one |
| Currencies.Registry.InitDefaults | valutatrade_hub/core/currencies.py:254-270 | the registry becomes the old one with the defaults registered in order |
| Utils.ValidateAmount | valutatrade_hub/core/utils.py:45-62 | a positive amount is returned unchanged; anything else is ValueError("Сумма должна быть положительной") |
| Utils.ValidateCurrencyCode | valutatrade_hub/core/utils.py:65-83 | succeeds exactly when the code is not blank; the result is its stripped, upper-cased form, trimmed and upper-case |
| Utils.ValidateCurrencyCodeIdempotent | valutatrade_hub/core/utils.py:78-83 | validating a validated code gives it back |
| Utils.RequireLogin | valutatrade_hub/core/utils.py:86-96 | raises PermissionError exactly when nobody is logged in |
| Utils.DefaultRates | valutatrade_hub/core/utils.py:104-113 | the eight default codes, USD at 1.0, every rate positive |
| Utils.GetRates | valutatrade_hub/core/utils.py:116-126 | the document's "rates", or the defaults when the key is absent, the file missing or not JSON; read errors (an OSError or a UnicodeDecodeError) and non-object content are passed on |
| Utils.RatesAfterCacheUpdate | valutatrade_hub/core/utils.py:122-126 | after the parser's successful cache update, get_rates falls back to the defaults, because the new cache has no "rates" key |
| Utils.GetRatesInfo | valutatrade_hub/core/utils.py:162-180 | the same table as get_rates, with the document's base_currency ("USD" when absent or when there is no document) and its updated_at |
| Utils.GetRate | valutatrade_hub/core/utils.py:129-145 | the table's rate for the normalised code; a missing code is a ValueError naming the normalised code |
| Utils.TableFor | valutatrade_hub/core/utils.py:204-205 | the rates passed in, or get_rates() when none are |
| Utils.ConvertCurrency | valutatrade_hub/core/utils.py:183-214 | amount, FROM and TO validated in that order; a missing FROM reported before a missing TO; the result scales the amount by rate[from] / rate[to] |
| Utils.ConvertSameCode | valutatrade_hub/core/utils.py:213-214 | converting to the same currency returns the amount |
| Utils.ConvertRoundTrip | valutatrade_hub/core/utils.py:213-214 | with positive rates, converting there and back returns the original amount |
| Utils.ConvertThroughUsd | valutatrade_hub/core/utils.py:213-214 | with USD at 1 and positive rates, converting to USD and on to the target equals the direct conversion |
| Models.SaltedInjective | valutatrade_hub/core/models.py:51-52 | for an injective hash, equal salted hashes under one salt mean equal passwords |
| Models.User.constructor | valutatrade_hub/core/models.py:19-40 | the user holds the id, the stripped username, the salt, hash(password + salt) and the given date or now |
| Models.User.New | valutatrade_hub/core/models.py:19-40 | a short password is refused first, then a blank username; success gives a valid user with the constructor's fields |
| Models.User.SetUsername | valutatrade_hub/core/models.py:78-90 | a blank value is refused and nothing changes; otherwise the stripped value is stored; credentials never change; a valid user stays valid |
| Models.User.ChangePassword | valutatrade_hub/core/models.py:106-118 | a short password is refused with salt and hash unchanged; otherwise the new salt and hash(new + salt) are stored; a valid user stays valid |
| Models.User.VerifyPassword | valutatrade_hub/core/models.py:120-129 | true exactly when the salted hash matches; for an injective hash, exactly the last password set |
| Models.User.GetUserInfo | valutatrade_hub/core/models.py:94-104 | the id, username and registration date, nothing about the password |
| Usecases.MaxId | valutatrade_hub/core/usecases.py:47 | the largest stored id, 0 for no users |
| Usecases.NewId | valutatrade_hub/core/usecases.py:47 | the new id is larger than every existing id, and 1 for no users |
| Usecases.FirstMatch | valutatrade_hub/core/usecases.py:83-84 | the first record carrying this username |
| Usecases.RegisterRecord | valutatrade_hub/core/usecases.py:39-59 | registration succeeds exactly when the name as given is not stored, the password is long enough and the name is not blank; the record is trimmed, newer than every id, with the salt and date |
| Usecases.RegisterDuplicatesPaddedName | valutatrade_hub/core/usecases.py:42-44 | with "name" stored, registering " name" succeeds and leaves two users called "name" |
| Usecases.RegisterRecordStripped | valutatrade_hub/core/usecases.py:42-59 | the intended check: refused exactly when the stripped name is stored |
| Usecases.RegisterStrippedKeepsUnique | valutatrade_hub/core/usecases.py:42-59 | with the intended check, registration keeps usernames unique |
| Usecases.UserStore.RegisterUser | valutatrade_hub/core/usecases.py:26-65 | the outcome is `RegisterRecord`'s; success appends exactly that record and one portfolio with no wallets; a failure changes nothing |
| Usecases.UserStore.FindUsername | valutatrade_hub/core/usecases.py:42-44 | finds the name exactly when some record carries it |
| Usecases.UserStore.MaxUserId | valutatrade_hub/core/usecases.py:47 | returns `MaxId` of the users |
| Usecases.UserStore.CreatePortfolio | valutatrade_hub/core/usecases.py:134-145 | appends one portfolio with the user's id and no wallets |
| Usecases.UserStore.LoginUser | valutatrade_hub/core/usecases.py:68-91 | the first record with the name decides: its password check gives the user or "wrong password", and a blank stored name raises the User setter's error; no record gives "not found" |
| Usecases.UserStore.RestoreUser | valutatrade_hub/core/usecases.py:107-126 | the user carries the stored id, name, date, salt and hash |
| Usecases.GetExchangeRate | valutatrade_hub/core/usecases.py:411-426 | the normalised code, its rate and base "USD"; fails exactly when get_rate fails |
| Usecases.GetExchangeRateBetween | valutatrade_hub/core/usecases.py:438-472 | both codes normalised; a missing FROM reported before a missing TO; rate = rates[from] / rates[to], with the table's updated_at and base_currency ("USD" when the document has none); a zero TO rate raises ZeroDivisionError |
| Usecases.BetweenAgreesWithConvert | valutatrade_hub/core/usecases.py:461-463 | the quoted rate is what convert_currency yields for one unit on the same table |
| Database.Loaded | valutatrade_hub/infra/database.py:101-148 | a cache hit answers without touching file or lock; an uncached absent file raises DataNotFoundError; undecodable JSON raises the re-raised JSONDecodeError, a file `open` refuses or that is not UTF-8 its own error unconverted; a successful read is cached exactly when caching is on |
| Database.Saved | valutatrade_hub/infra/database.py:150-183 | the file becomes the data; with invalidate_cache and caching on the cache entry becomes the data, otherwise the cache is untouched |
| Database.Cleared | valutatrade_hub/infra/database.py:224-239 | None empties the cache; a name removes only that entry; no entry is added or changed |
| Database.WithCacheEnabled | valutatrade_hub/infra/database.py:241-253 | the flag is set; switching off empties the cache |
| Database.Updated | valutatrade_hub/infra/database.py:185-222 | the update as intended: on success the file holds the returned data; a load error changes nothing |
| Database.CacheTransparent | valutatrade_hub/infra/database.py:122-139 | with a coherent cache, load answers the same with and without the cache |
| Database.LoadKeepsCoherent | valutatrade_hub/infra/database.py:122-139 | load keeps every cached value equal to the file's |
| Database.SaveKeepsCoherent | valutatrade_hub/infra/database.py:175-180 | save keeps the cache coherent with invalidate_cache, or when the file was not cached |
| Database.ClearKeepsCoherent | valutatrade_hub/infra/database.py:236-253 | clear_cache and set_cache_enabled keep the cache coherent |
| Database.UpdateKeepsCoherent | valutatrade_hub/infra/database.py:212-222 | the intended update keeps the cache coherent |
| Database.LoadAfterSave | valutatrade_hub/infra/database.py:175-180 | after save(f, d), load(f) returns d unless the save left a stale entry that the load reads |
| Database.SaveWithoutInvalidateIsStale | valutatrade_hub/infra/database.py:179-180 | save(f, d, invalidate_cache=False) on a cached file leaves load(f) returning the old value |
| Database.LoadWhileDisabled | valutatrade_hub/infra/database.py:122-138 | with caching off, load neither reads nor fills the cache, whatever use_cache says |
| Database.DisabledStaysEmpty | valutatrade_hub/infra/database.py:241-253 | set_cache_enabled(False) empties the cache and no operation fills it while caching stays off |
| Database.UpdateAsWrittenNeverReturns | valutatrade_hub/infra/database.py:212-222 | update as written never returns: an absent uncached file raises DataNotFoundError, every other call waits forever on its own lock |
| Database.UpdateReturnsAndPersists | valutatrade_hub/infra/database.py:212-222 | the intended update returns updater(load(f)), writes it, and a later load returns it |
| Database.UpdatePropagatesLoadError | valutatrade_hub/infra/database.py:212-214 | the intended update raises what load raises and changes nothing |
| Database.DatabaseManager.constructor | valutatrade_hub/infra/database.py:61-82 | an empty, coherent cache, caching on, the lock free |
| Database.DatabaseManager.Load | valutatrade_hub/infra/database.py:101-148 | the result and the new state are `Loaded`'s |
| Database.DatabaseManager.Save | valutatrade_hub/infra/database.py:150-183 | the result and the new state are `Saved`'s |
| Database.DatabaseManager.UpdateAsWritten | valutatrade_hub/infra/database.py:185-222 | the result and the new state are those of `update` as written |
| Database.DatabaseManager.Update | valutatrade_hub/infra/database.py:185-222 | the result and the new state are `Updated`'s |
| Database.DatabaseManager.ClearCache | valutatrade_hub/infra/database.py:224-239 | the result and the new state are `Cleared`'s |
| Database.DatabaseManager.SetCacheEnabled | valutatrade_hub/infra/database.py:241-253 | the result and the new state are `WithCacheEnabled`'s |
| Database.ManagerClass.Call | valutatrade_hub/infra/database.py:51-82 | the first call creates the one instance; every later call returns that same object, untouched by `__init__` |

## Left out

- HTTP (`requests.Session`), `time.sleep`, `time.time` and `datetime.utcnow()`/`datetime.now()`: attempts are a function from attempt number to outcome, sleeps a returned list, clock readings parameters.
- Elapsed milliseconds (`request_ms`): a parameter function of client and record index, not a clock.
- The temp-file-then-rename writes and directory creation of `write_exchange_rates_history` / `write_rates_cache`: a write replaces a file value whole, or fails with the OSError text held by `DataDir`.
- `updated_count` in `update_rates_cache`: it is only logged.
- JSON `null` values inside cache entries: a cache entry's optional fields are `Option`s, rates are `real`.
- Storage.ReadHistory: does not model a "history" that is not a list. A `null` or a number there makes the `len` at storage.py:162 raise TypeError. "history" is a list of records or absent in the model, so that error cannot arise.
- Storage.AddHistory: does not model a "history" string or object. Such a log reads without error, and then the `.append` at storage.py:282 raises AttributeError.
- Storage.RatesOnRead: does not model a "pairs" that is not an object. `"pairs": null` makes the `len` at storage.py:368 raise TypeError. The model has no JSON null there, only an absent key, which is repaired to `{}`.
- Storage.CacheAfterUpdate: does not model a "pairs" list or string, or a cache entry that is not an object. Both read without error. The item assignment at storage.py:462 then raises TypeError on the first, and the `.get` at storage.py:456 raises AttributeError on the second. "pairs" is a map of entries in the model.
- PairKeys.ParsePair: checks both codes with the corrected code pattern, as does PairKeys.GenerateRecordId, and so does every pair-key check built on them (Storage.AddHistory, Storage.FirstInvalid, Storage.MergeRates). `parse_pair` and `generate_record_id` as written also accept a code with one trailing newline, such as the FROM of "USD\n_EUR" (see Findings).
- PairKeys.GenerateRecordId: refuses a FROM or TO of "USD\n", which `generate_record_id` as written accepts; it checks with the corrected code pattern, as PairKeys.ParsePair does.
- ParserConfig.DefaultConfig: the built-in fallback API keys of config.py are replaced by placeholders. The model uses only that they are non-empty.
- Storage.RatesOnRead: does not model a legacy "rates" value that is not an object, or legacy rates that `float()` rejects; the legacy rates are a map of reals.
- ApiClients.ToFloat: what `float()` makes of a string is a parameter, so its grammar is not modelled; and "nan", "inf" and their variants, which Python accepts, have no `real` value, so the parameter cannot give them one.
- ApiClients.ErrorTypeText: a number, list or object in "error-type" is shown as its type name, not as Python's `str()` of the value; numbers are reals without their int/float spelling and objects have no key order, so the exact text cannot be rebuilt.
- Database.Loaded: does not model callers mutating the objects they share with the cache; `load` returns the cached object itself and `save` caches the caller's object, so an in-place change by a caller is seen by later loads without a save.
- IEEE floating point: rates and amounts are exact reals; only the zero guard of the ExchangeRate inversion is modelled.
- Python's `upper`, `lower`, `isalnum` and `strip` are modelled on ASCII; other Unicode case mappings and white space are not.
- The texts of Python's own `TypeError`, `AttributeError` and `JSONDecodeError` messages raised in the API clients: those errors keep only their kind (and the decoder's reason as an opaque string). The storage read keeps the texts of the errors it lets escape.
- `isinstance` checks on arguments (`validate_amount`, `validate_currency_code`): arguments are typed.
- `StorageError`: storage.py and updater.py import it from core/exceptions.py, which does not define it. The model treats it as an exception carrying its message.
- The legacy branch of `cmd_show_rates` (interface.py:350-365): `read_rates_cache` always returns "pairs", so the branch is unreachable.
- Printing: the formatted table, the headers, the `.6f` description of `get_exchange_rate_between` and `get_display_info` / `__str__` / `__repr__` of currencies and of `DatabaseManager`.
- `get_all_currencies`, `get_all_rates`, `update_rates`, `load_json`, `save_json`, `get_user_info` of usecases.py, `DatabaseManager.file_exists` and `get_file_path`: copies, pass-throughs or file plumbing with no logic beyond what is modelled.
- `datetime.fromisoformat` / `isoformat` of registration dates: dates are strings.
- The order of the currency registry and of the legacy "rates" in `rates.json`: those are maps. `PyDict` keeps insertion order for the fetched rates, the id map and the `show-rates` pairs.
- Interface.ShowRates: the cached pairs it walks are an ordered parameter that is not linked to the stored file. `Storage` keeps the cache's "pairs" as a map, so the model does not say in which order `read_rates_cache` yields them: file order, with the keys `update_rates_cache` adds appended at the end. That order decides which equal-rate crypto pairs survive `--top`, which pair wins an `X_B` collision in the rebase, and whether a malformed key raises before `B_USD` is found. The `Interface` lemmas hold for every order of the parameter; which order the stored cache produces is not modelled.
- SHA-256 and `secrets.token_hex`: the hash is an uninterpreted function, the salt a parameter.
- `load` errors on users.json and portfolios.json in usecases.py: the user store is an in-memory list.
- Portfolio and wallet operations, scheduler.py, settings.py, logging, decorators, argparse and the session file: outside the modelled core.
- Concurrency: the lock of `DatabaseManager` is a flag, so only one thread's view is modelled; two threads contending for it are not.
- `updater` functions passed to `DatabaseManager.update` that raise: updaters are total functions.
- Database.Saved: does not model the TypeError/OSError of an unserialisable value or a failed write, nor JSON encoding that changes the value (tuples, non-string keys); a saved value reads back unchanged.
- Database.Loaded: does not model other readers or writers of the data directory; the files change only through this manager.
- Usecases.UserStore.RegisterUser: follows the uniqueness check as written; the corrected check is `RegisterRecordStripped` (see Findings).

## Findings

| source | as written | input that shows it | evidently intended | confidence | as-written member | corrected member |
|---|---|---|---|---|---|---|
| valutatrade_hub/parser_service/storage.py:28-45 | `re.match(r"^[A-Z]{2,5}$", code)`: without MULTILINE, `$` also matches just before a final newline | "USD\n" is accepted as a currency code, so "USD\n_EUR" passes `parse_pair` and a FROM of "USD\n" passes `generate_record_id` | accept only two to five capitals (`fullmatch` or `\Z`) | high, not executed | PairKeys.TrailingNewlineAccepted | PairKeys.ValidateCurrencyCode |
| valutatrade_hub/infra/database.py:212-220 | `update` holds the non-reentrant `threading.Lock`, then calls `load` (which takes it on a cache miss, line 132) and `save` (which always takes it, line 173) | any `update` of a file that exists or is cached: the thread waits forever on its own lock | `load` and `save` run inside `update`'s critical section (an `RLock`, or lock-free inner helpers), and the updated data is returned | high, not executed | Database.UpdateAsWrittenNeverReturns | Database.Updated |
| valutatrade_hub/core/usecases.py:42-44 | the uniqueness check compares the raw argument with stored usernames, which the `User` setter has stripped | with "alice" registered, `register_user(" alice", "secret")` succeeds and stores a second "alice" | compare the stripped name: `u["username"] == username.strip()` | medium, not executed | Usecases.RegisterDuplicatesPaddedName | Usecases.RegisterRecordStripped |
