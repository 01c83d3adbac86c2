# ATMQuant futures data and alerting core, modelled in Dafny

ATMQuant is a quantitative-trading workspace built on VeighNa (vnpy). This project models
the parts of it that decide *which* futures contracts are downloaded and *how*, how the
download is scheduled and retried, how its configuration files and the `.env` file are
read, and how trading alerts are routed, signed, suppressed and retried:

- `futures_config.dfy` (`config/futures_config.py`): the product table lookup, the
  contract months of a product (`generate_contract_months`), the active contracts with
  their main-continuous (`9999`) and index (`8888`) codes, and the priority contracts
  (`get_priority_contracts`), including the CFFEX two-future-contracts rule and the
  one-digit year of Zhengzhou (CZCE) codes.
- `downloader.dfy` (`core/data/downloader.py`): converting vnpy codes to TqSdk codes,
  splitting a vnpy code, the kline request with its fall-back for the free SDK edition,
  saving bars in batches, and downloading a product or a list of products.
- `download_scheduler.dfy` (`scripts/download_futures_data.py`): the scheduler's JSON
  configuration (defaults overridden by the user file), retries with their sleeps, the
  batch loop over products, and the exit code.
- `contract_list.dfy` (`scripts/update_contract_list.py`): parsing a contract code,
  grouping codes by product, merging, de-duplicating and sorting the priority list,
  saving it, and the per-exchange summary counts.
- `config_loader.dfy` (`config/config_loader.py`): cached JSON configurations with
  built-in plugin defaults.
- `env_file.dfy`, `settings.dfy`, `alert_config.dfy` (`config/settings.py`,
  `config/alert_config.py`): loading `.env` into the process environment, the VeighNa
  settings dict built from the environment, and the alert channel configuration.
- `alert_manager.dfy` (`core/logging/alert_manager.py`): the webhook routing tables,
  commodity-code extraction, the weekend quiet hours, Feishu and DingTalk signing, the
  three-attempt delivery loop, and the dispatch of `send_alert`.

Helper modules: `wrappers.dfy` (Option, Result and the Python exception kinds),
`text.dfy` (character classes, `strip`, splitting), `decimal.dfy` (`str(n)`,
`f"{n:02d}"`, `s[-k:]`, `int(s)`), `strorder.dfy` (Python's `str` ordering and
`sorted(set(...))`), `dicts.dfy` (an insertion-ordered Python dict), `json.dfy` (JSON
values), `calendar.dfy` (the proleptic Gregorian calendar and `weekday()`), and
`platform.dfy` (a file store, the process environment, the lines that `for line in f`
yields, `os.path.join`).

Everything outside the program is a parameter: the file system is a `FileStore` object
(the files' text and the paths that cannot be written), the environment an
`Environment` object, and JSON parsing and dumping, HMAC-SHA256 with base64, the HTTP
transport, the TqSdk kline requests, the database's `save_bar_data`, the clock and the
local time zone's name are functions or values passed in.

Where the code and its documentation differ, the model follows the code. Two examples:
- `generate_contract_months` documents `['rb2510', 'rb2601', 'rb2605']` for rebar; the code
  also stops after `min(len(active_months), 6)` contracts, and the model does the same.
- `get_priority_contracts` describes "from next month on, six consecutive months". The model
  keeps what the code does: the months of the next six calendar months that are active,
  topped up from the remaining active months in table order (`SelectMonths`).

## Model

| member | source | states |
|---|---|---|
| FuturesConfig.ExchangeValue | config/futures_config.py:954 | an exchange's suffix names CFFEX or CZCE exactly for those two exchanges, and no suffix is empty or holds a dot |
| FuturesConfig.PlanMonths | config/futures_config.py:13-876 | every active-month list of the table is non-empty, ascending and within 1..12 |
| FuturesConfig.GetFuturesInfo | config/futures_config.py:878-880 | the lookup returns the product's entry when the product is in FUTURES_INFO, and nothing (`{}`) otherwise |
| FuturesConfig.MonthAt | config/futures_config.py:919-920 | month `i` of the scan is a calendar month exactly `i` months after the start month |
| FuturesConfig.ActiveWithinShape | config/futures_config.py:918-928 | the active months met in the first `n` scanned months are in range, strictly increasing, and none is missed |
| FuturesConfig.ContractMonthsShape | config/futures_config.py:909-931 | the contract months are at most `min(len(active), 6)` active months within 24 months of the start, strictly increasing, and every active month before the last one found is included |
| FuturesConfig.ContractMonthsBound | config/futures_config.py:915 | at most six contract months, each a calendar month |
| FuturesConfig.ContractCodeFormat | config/futures_config.py:924-926 | a contract code is the product, the last two digits of the year, and the month in two digits |
| FuturesConfig.Codes | config/futures_config.py:926-927 | one contract code per contract month, in order |
| FuturesConfig.GenerateContractMonths | config/futures_config.py:888-933 | an unknown product has no contracts; a known one has the codes of its contract months |
| FuturesConfig.ScanContractMonths | config/futures_config.py:909-931 | the 24-month scan loop yields exactly the codes of the contract months |
| FuturesConfig.GetActiveContracts | config/futures_config.py:936-971 | nothing for an unknown product; otherwise the active contracts of its exchange and active months |
| FuturesConfig.ActiveContractsFor | config/futures_config.py:957-971 | at most six dated codes with the exchange suffix, the 9999 and 8888 codes, and `all_contracts` being the dated codes followed by those two |
| FuturesConfig.WithSuffix | config/futures_config.py:960 | every code gets the suffix and the order is kept |
| FuturesConfig.CheckMonthIsCalendarMonth | config/futures_config.py:1008-1012 | the CFFEX scan's `check_month`/`check_year` arithmetic gives the same calendar month as the contract-month scan |
| FuturesConfig.IsFutureMeansLater | config/futures_config.py:1016 | the "future contract" test holds exactly for the months after the current one |
| FuturesConfig.FutureActiveShape | config/futures_config.py:1007-1017 | the future active months of the CFFEX scan lie strictly after the current month, increase, and none is missed |
| FuturesConfig.CffexMonthsShape | config/futures_config.py:999-1017 | CFFEX keeps at most the first two future active months within 24 months, in order, missing none before the second |
| FuturesConfig.CffexMonthsBound | config/futures_config.py:1014 | at most two CFFEX months, each a calendar month |
| FuturesConfig.CffexScan | config/futures_config.py:1007-1017 | the scan loop yields exactly the CFFEX months |
| FuturesConfig.CffexScanStep | config/futures_config.py:1008-1017 | one pass of the scan extends the found months as the CFFEX month function does |
| FuturesConfig.CffexCodes | config/futures_config.py:1020-1024 | one CFFEX-suffixed code per found month, in order |
| FuturesConfig.CffexMonthCodes | config/futures_config.py:1020-1024 | the code loop yields exactly those codes |
| FuturesConfig.NextMonthsActive | config/futures_config.py:1039-1047 | the months picked from the next six calendar months are active, lie within those six months and keep their calendar order |
| FuturesConfig.NextMonthsComplete | config/futures_config.py:1039-1047 | every active month among the next six calendar months is picked |
| FuturesConfig.Without | config/futures_config.py:1051 | the remaining months are exactly the active months not yet selected |
| FuturesConfig.WithoutInOrder | config/futures_config.py:1051 | the remaining months keep the list order of the active months |
| FuturesConfig.Among | config/futures_config.py:1051 | the selected and remaining active months together account for every active month |
| FuturesConfig.WithoutLength | config/futures_config.py:1051-1053 | with distinct active months, at least `len(active) - len(selected)` months remain to top up from |
| FuturesConfig.SelectMonths | config/futures_config.py:1035-1055 | every selected month is an active month, and at most six are selected |
| FuturesConfig.SelectMonthsShape | config/futures_config.py:1035-1055 | six or fewer active months are kept as they are; more are cut to exactly six distinct months: first the active months of the next six calendar months, then the first of the remaining active months in list order |
| FuturesConfig.TopUpShape | config/futures_config.py:1050-1053 | topping up gives six distinct months whose tail is the first remaining months |
| FuturesConfig.SelectPriorityMonths | config/futures_config.py:1035-1055 | the selection loops compute exactly the selected months |
| FuturesConfig.PriorityCodeFormat | config/futures_config.py:1060-1075 | a month not after the current month is dated next year; CZCE codes carry one year digit and the others two, then the month in two digits and the exchange |
| FuturesConfig.PriorityCodes | config/futures_config.py:1060-1077 | one priority code per selected month |
| FuturesConfig.PriorityMonthCodes | config/futures_config.py:1060-1077 | the code loop yields exactly the priority codes |
| FuturesConfig.PriorityMonthCode | config/futures_config.py:1061-1075 | one pass of that loop yields the month's priority code |
| FuturesConfig.PriorityCffex | config/futures_config.py:999-1031 | a CFFEX priority list is its at most two future dated codes, then the 9999 and 8888 codes |
| FuturesConfig.PriorityOther | config/futures_config.py:1033-1085 | any other exchange's list is one code per selected month (at most six), then the 9999 and 8888 codes |
| FuturesConfig.GetPriorityContracts | config/futures_config.py:974-1085 | an unknown product has no priority contracts; a known one has the list its exchange calls for |
| FuturesConfig.PriorityForInfo | config/futures_config.py:994-1085 | the branch on the exchange computes that list |
| FuturesConfig.CodeExamples | config/futures_config.py:897 | the documented rebar codes rb2510, rb2601 and rb2605 |
| FuturesConfig.RebarMonths | config/futures_config.py:909-931 | rebar's active months 1, 5 and 10, scanned from October 2025, give October 2025, January 2026 and May 2026 |
| FuturesConfig.CopperSelection | config/futures_config.py:1035-1055 | a product trading all twelve months, in October, selects November to April |
| FuturesConfig.MethanolCode | config/futures_config.py:1071-1073 | the documented CZCE code MA509, and a month not after the current month moving to the next year (MA609) |
| Downloader.ConvertToTqSymbol | core/data/downloader.py:88-114 | a code without a dot is unchanged; two or more dots make the unpacking raise ValueError, and only then |
| Downloader.ConvertContinuous | core/data/downloader.py:104-107 | `X9999.EX` becomes `KQ.m@EX.X` |
| Downloader.ConvertWeighted | core/data/downloader.py:108-111 | `X8888.EX` becomes `KQ.i@EX.X` |
| Downloader.ConvertPlain | core/data/downloader.py:112-114 | any other code `S.EX` becomes `EX.S` |
| Downloader.ConvertDated | core/data/downloader.py:112-114 | a dated contract code of the contract-month generator becomes `EX.code` |
| Downloader.ParseVtSymbol | core/data/downloader.py:116-140 | `(None, None, None)` without a dot; ValueError for two or more dots; otherwise the exchange, the product, and the maximal trailing digit run as the month (None when there is none) |
| Downloader.ExchangeCode | core/data/downloader.py:35-42 | the mapping finds an exchange exactly when the text is that exchange's name |
| Downloader.FetchKlines | core/data/downloader.py:185-203 | one request (by date range when both dates are given, else by length); a second get_kline_serial exactly when the first raised a professional-edition error; the rows come from the last request |
| Downloader.FetchWithFallback | core/data/downloader.py:185-203 | the try/except makes exactly those requests and gets those rows |
| Downloader.ContractAttempt | core/data/downloader.py:163-207 | without the SDK, without the database, or with an unsupported exchange nothing is requested; otherwise the kline requests above |
| Downloader.SupportedExchangeOf | core/data/downloader.py:177-178 | a code whose part after the dot is a supported exchange's name is supported |
| Downloader.ParsedExchange | core/data/downloader.py:177-178 | the exchange looked up is the part parse_vt_symbol returns |
| Downloader.SavedRows | core/data/downloader.py:245-252 | the rows saved never exceed the rows handed over |
| Downloader.BatchedUnique | core/data/downloader.py:245-246 | the slicing into batches is determined by the bars and the batch size |
| Downloader.FlattenLength | core/data/downloader.py:245-246 | k full batches of n hold k·n rows |
| Downloader.RowIndices | core/data/downloader.py:211 | the loop visits rows 0 to n−1 in order |
| Downloader.SaveBarsBatch | core/data/downloader.py:237-252 | the bars go to the database in consecutive slices of the batch size, in order, nothing for no bars; the count reported is the rows of the slices that were saved |
| Downloader.FuturesDataDownloader.constructor | core/data/downloader.py:29-42 | neither the database nor the SDK is set |
| Downloader.FuturesDataDownloader.InitDatabase | core/data/downloader.py:44-52 | True exactly when the connection succeeds; a failure keeps the previous state |
| Downloader.FuturesDataDownloader.InitTqsdk | core/data/downloader.py:54-80 | True exactly when TqApi is created; an ImportError or another exception returns False |
| Downloader.FuturesDataDownloader.Close | core/data/downloader.py:82-86 | the SDK is released; the database is kept |
| Downloader.FuturesDataDownloader.DownloadContractData | core/data/downloader.py:142-235 | returns True exactly when the guards pass and the last kline request gives rows, which are then saved in batches |
| Downloader.BarCount | core/data/downloader.py:292-297 | 2000 bars for "incremental", and 10000 for every other mode |
| Downloader.Successes | core/data/downloader.py:302-312 | per contract, whether its download returns True |
| Downloader.FuturesDataDownloader.DownloadSymbolData | core/data/downloader.py:254-315 | one entry per priority contract of the product, each recording whether its download succeeded |
| Downloader.FuturesDataDownloader.DownloadContracts | core/data/downloader.py:302-312 | the loop builds the dict from contract to success |
| Downloader.SymbolResults | core/data/downloader.py:342-353 | per product, its results dict, or `{}` when its download raised |
| Downloader.FuturesDataDownloader.DownloadMultipleSymbols | core/data/downloader.py:317-366 | one entry per product, and totals counting every contract tried and every success, successes never exceeding contracts |
| Downloader.FuturesDataDownloader.DownloadOrRaise | core/data/downloader.py:343-353 | one pass records the product's results or `{}` |
| Downloader.CountTotals | core/data/downloader.py:355-363 | the totals are the sum of the dict sizes and of their True values |
| Downloader.NothingSucceedsUnset | core/data/downloader.py:163-169 | without the SDK or the database no contract is recorded as a success |
| Downloader.FromPairsValues | core/data/downloader.py:310 | every value of the results dict is one of the assigned values |
| Downloader.PutValues | core/data/downloader.py:310 | an assignment leaves every entry of another key where it was; each entry is then the new pair or the one held before at that position |
| DownloadScheduler.UpdateItemOf | scripts/download_futures_data.py:65 | an element of an array sets a text key exactly when it is a pair with a text key or a two-character text |
| DownloadScheduler.UpdatedWith | scripts/download_futures_data.py:65 | `update` with an array of pairs keeps every key the configuration had |
| DownloadScheduler.UpdatedKeeps | scripts/download_futures_data.py:65 | a key no pair sets keeps its value, present or absent |
| DownloadScheduler.UpdatedLast | scripts/download_futures_data.py:65 | the last pair setting a key decides it when no element up to it raises |
| DownloadScheduler.UpdatedStops | scripts/download_futures_data.py:65-67 | the first element that raises ends the update, and the pairs before it stay applied |
| DownloadScheduler.PairListExamples | scripts/download_futures_data.py:65 | `[["batch_size", 10]]` sets the batch size, `["ab"]` sets `a` to `b`, and `[]` changes nothing |
| DownloadScheduler.LoadedConfig | scripts/download_futures_data.py:40-74 | the loaded configuration always has every default key |
| DownloadScheduler.LoadedConfigMerge | scripts/download_futures_data.py:61-65 | a key of the user's object overrides the default, a default key it leaves out is kept, and no other key appears; without a readable user object or array the defaults are used |
| DownloadScheduler.LoadedConfigPairs | scripts/download_futures_data.py:61-65 | for an array in the user's file, the last pair setting a key decides it and a default key no pair sets keeps its default |
| DownloadScheduler.SymbolList | scripts/download_futures_data.py:152-153 | the products given as the argument are used as they are |
| DownloadScheduler.SymbolCount | scripts/download_futures_data.py:181 | `len(symbols)` is the length of the product list whenever that list is made of texts |
| DownloadScheduler.BatchStep | scripts/download_futures_data.py:180-181 | a batch size accepted by `range` is never 0 |
| DownloadScheduler.Outcomes | scripts/download_futures_data.py:185-200 | one outcome per product |
| DownloadScheduler.RecordedResult | scripts/download_futures_data.py:189-197 | for a product's last occurrence, the results dict holds whether it is known and some allowed attempt succeeded |
| DownloadScheduler.CountOf | scripts/download_futures_data.py:199-200 | the success count never exceeds the number of products |
| DownloadScheduler.ExitCode | scripts/download_futures_data.py:288-290 | exit code 0 exactly when some product succeeded, else 1 (also when run_download raised) |
| DownloadScheduler.FuturesDataScheduler.constructor | scripts/download_futures_data.py:29-38 | the configuration is the loaded one; a missing file is created with the defaults unless the path cannot be written; the downloader starts unset |
| DownloadScheduler.FuturesDataScheduler.LoadConfig | scripts/download_futures_data.py:40-74 | the defaults updated with the user's object; a missing file is written with the defaults |
| DownloadScheduler.FuturesDataScheduler.SaveConfig | scripts/download_futures_data.py:76-89 | writes the given configuration, or the current one, unless the path cannot be written |
| DownloadScheduler.FuturesDataScheduler.UpdateConfig | scripts/download_futures_data.py:231-240 | known keys take the new values, unknown keywords are ignored, the keys stay the same, and the result is saved |
| DownloadScheduler.FuturesDataScheduler.DownloadWithRetry | scripts/download_futures_data.py:97-140 | at most `max_retries + 1` attempts, stopping at the first with a successful contract; True exactly when some allowed attempt succeeds; one sleep before each retry; a non-integer retry count raises TypeError |
| DownloadScheduler.FuturesDataScheduler.DownloadOne | scripts/download_futures_data.py:185-200 | an unknown product is recorded False without a download; a known one gets the retried download's outcome |
| DownloadScheduler.FuturesDataScheduler.DownloadBatches | scripts/download_futures_data.py:178-201 | the batch loops record every product's outcome in order and count the successes; they raise TypeError exactly when a known product meets a non-integer retry count |
| DownloadScheduler.FuturesDataScheduler.DownloadBatch | scripts/download_futures_data.py:182-200 | one batch extends the processed prefix, or names the product whose download raised |
| DownloadScheduler.FuturesDataScheduler.DoneStep | scripts/download_futures_data.py:185-200 | processing one more product adds its outcome and its success |
| DownloadScheduler.FuturesDataScheduler.DoneAll | scripts/download_futures_data.py:175-201 | once every product is processed, the results and the count are those of all products |
| DownloadScheduler.FuturesDataScheduler.RunDownload | scripts/download_futures_data.py:142-215 | `{}` when the database or the SDK cannot be started; otherwise TypeError when `len(symbols)` raises, the step's error for a zero or non-integer batch size, `{}` for a negative batch size or no products, and else the products' outcomes; the SDK is closed afterwards |
| ContractList.TrailingDigits | scripts/update_contract_list.py:91-96 | the length of the maximal run of digits at the end |
| ContractList.TrailingDigitsUnique | scripts/update_contract_list.py:91-96 | a digit run that cannot be extended to the left is that maximal run |
| ContractList.ContractParts | scripts/update_contract_list.py:78-104 | `(None, None, None)` without a dot; ValueError for two or more dots, and only then |
| ContractList.ContractPartsRoundTrip | scripts/update_contract_list.py:86-104 | product, month and exchange spell the code out again, and neither the product nor the exchange holds a dot |
| ContractList.ContractPartsMonth | scripts/update_contract_list.py:91-101 | the month is a non-empty run of digits and the product does not end in a digit |
| ContractList.ParseContractSymbol | scripts/update_contract_list.py:78-104 | the backward scan over the digits computes those parts |
| ContractList.FiledMembers | scripts/update_contract_list.py:117-128 | a code is filed under a product exactly when it parses completely to that lower-cased product |
| ContractList.FiledStep | scripts/update_contract_list.py:117-128 | one more code is filed at the end of its product's list |
| ContractList.GetSymbolContracts | scripts/update_contract_list.py:107-130 | ValueError exactly when a code has two dots; otherwise one entry per product with the codes filed under it, in input order |
| ContractList.FileContract | scripts/update_contract_list.py:117-128 | one pass of the loop keeps the grouping of the prefix |
| ContractList.GroupingSkip | scripts/update_contract_list.py:121 | an incomplete code is filed nowhere |
| ContractList.GroupingPut | scripts/update_contract_list.py:122-126 | appending the code to its product's list keeps the grouping |
| ContractList.FiledOnly | scripts/update_contract_list.py:122 | a code is filed under one product at most |
| ContractList.ExtendAll | scripts/update_contract_list.py:150-159 | after the loop every product holds its previous codes and those of the new grouping |
| ContractList.ExtendOne | scripts/update_contract_list.py:151-153 | one pass adds the product if needed and extends its list |
| ContractList.SortAll | scripts/update_contract_list.py:162-163 | every list is replaced by its sorted distinct codes; the products stay |
| ContractList.SortedGet | scripts/update_contract_list.py:162-163 | the looked-up list of a product is its sorted distinct codes |
| ContractList.GeneratePriorityDownloadList | scripts/update_contract_list.py:133-165 | ValueError when a code of either list has two dots; otherwise one entry per product of either list, each strictly ascending and holding exactly that product's codes from both lists |
| ContractList.SortedContents | scripts/update_contract_list.py:162-163 | sorting keeps every list's codes and makes it strictly ascending |
| ContractList.PriorityMembers | scripts/update_contract_list.py:147-159 | after both merge loops each product holds the codes of either list filed under it |
| ContractList.ListedLength | scripts/update_contract_list.py:184 | the contract total is the number of listed codes |
| ContractList.ConfigData | scripts/update_contract_list.py:180-186 | the saved object counts the products and the codes and holds the dict and the time |
| ContractList.SaveContractConfig | scripts/update_contract_list.py:168-195 | True exactly when the write succeeds, and the file then holds that object |
| ContractList.Exchanges | scripts/update_contract_list.py:218-219 | one exchange part per code |
| ContractList.TallyPositive | scripts/update_contract_list.py:220-223 | an exchange is counted exactly when it occurs |
| ContractList.ShowContractSummary | scripts/update_contract_list.py:198-230 | ValueError exactly when a listed code has two dots; otherwise the total of the list lengths, and per exchange the number of codes on it |
| ContractList.TallyList | scripts/update_contract_list.py:218-223 | the inner loop keeps the counts true of the codes seen so far |
| ContractList.TallyOne | scripts/update_contract_list.py:220-223 | one code bumps its exchange's count, starting it at 0 |
| ContractList.TallyStep | scripts/update_contract_list.py:220-223 | one more exchange part raises its own count and the number of codes with an exchange by one |
| ContractList.TallySum | scripts/update_contract_list.py:229-230 | the printed per-exchange counts add up to the number of codes with an exchange |
| ConfigLoader.DefaultConfig | config/config_loader.py:45-63 | an object for every name, non-empty exactly for the five names with built-in settings |
| ConfigLoader.ConfigLoader.constructor | config/config_loader.py:14-16 | the directory is kept and the cache starts empty |
| ConfigLoader.ConfigLoader.LoadConfig | config/config_loader.py:18-32 | a cached configuration is returned as it is; otherwise the file's object, which is then cached; a file that does not parse raises; a missing file gives the default, not cached |
| ConfigLoader.ConfigLoader.SaveConfig | config/config_loader.py:34-43 | writes the file and caches the configuration; a failed write raises OSError and caches nothing |
| ConfigLoader.ConfigLoader.SaveThenLoad | config/config_loader.py:18-43 | after a successful save, a load of the same name returns what was saved |
| EnvFile.ParseEnvLine | config/settings.py:24-26 | a stripped line that is empty, starts with `#` or lacks `=` is skipped; otherwise the key holds no `=` |
| EnvFile.ParseEnvLineAssign | config/settings.py:25-27 | the line `a=b` sets `strip(a)` to `strip(b)` |
| EnvFile.ParseLines | config/settings.py:22-24 | one parsed line per line of the file |
| EnvFile.AppliedKeeps | config/settings.py:23-27 | a variable no line assigns keeps what it had, set or unset |
| EnvFile.AppliedLast | config/settings.py:23-27 | the last line that assigns a variable decides its value, provided no line up to it raises |
| EnvFile.AppliedStops | config/settings.py:21-29 | the first assignment that raises ends the loading; later lines have no effect |
| EnvFile.LoadEnvFile | config/settings.py:15-29 | a missing file leaves the environment alone; otherwise the lines are applied in order until one raises |
| Settings.SettingsFromFails | config/settings.py:32-72 | the settings fail exactly when a port variable holds text that `int()` rejects, and otherwise hold the parsed ports |
| Settings.SettingsWithKeys | config/settings.py:38-70 | the dict has exactly the 22 keys |
| Settings.SettingsWithFixed | config/settings.py:40-44 | the font family, the font size and `log.active` do not depend on the environment |
| Settings.SettingsOfEnvDatabase | config/settings.py:63-69 | the database entries are the variables when set, else "sqlite", "atmquant.db" or ""; then the port and the local time zone |
| Settings.SettingsOfEnvDatafeed | config/settings.py:58-60 | the datafeed entries are the variables when set, else "" |
| Settings.SettingsOfEnvEmail | config/settings.py:50-52 | the email server and user name are the variables when set, else "", and the port is the parsed one |
| Settings.SettingsOfEnvAddresses | config/settings.py:54-55 | the sender and receiver are the variables when set, else "" |
| Settings.PortOfDigits | config/settings.py:51-67 | an unset port reads as 0, and digits read as their value |
| Settings.PortsOfTestEnvironment | tests/test_config.py:52-64 | with DATABASE_PORT "5432" and EMAIL_PORT unset the ports are 5432 and 0 |
| Settings.SettingsOfTestEnvironment | tests/test_config.py:49-89 | that environment gives a dict with database port 5432, email port 0, and "sqlite" when DATABASE_TYPE is unset |
| Settings.GetAtmquantSettings | config/settings.py:32-72 | loads `.env` into the environment, then builds the dict from it |
| AlertConfig.ChannelFromEnv | config/alert_config.py:33-72 | a channel's webhook and secret are the variables when set, else "", with no per-symbol routing |
| AlertConfig.IsAlertEnabled | config/alert_config.py:113-115 | only "feishu" is enabled |
| AlertConfig.ShouldAlertForLevel | config/alert_config.py:117-119 | exactly ERROR and CRITICAL are alerted |
| AlertConfig.DefaultTypeEnabled | config/alert_config.py:77-79 | the default type is one of the enabled types |
| AlertConfig.WebhookFromEnvFile | config/alert_config.py:13-36 | the last `.env` line setting a channel's webhook decides it, provided no line up to it raises |
| AlertConfig.AlertConfigModule.constructor | config/alert_config.py:30-72 | importing the module loads `.env` first, then reads both channels from the environment |
| AlertConfig.AlertConfigModule.GetAlertConfig | config/alert_config.py:105-111 | the three dicts under feishu, dingtalk and alert |
| AlertManager.LeadingDigits | core/logging/alert_manager.py:115 | the length of the run of digits that starts the text |
| AlertManager.TailOk | core/logging/alert_manager.py:115 | the tail matches `[0-9]+\.[A-Z]+` |
| AlertManager.ExtractCommodityCode | core/logging/alert_manager.py:110-120 | a code exactly when the pattern matches; two letters when two match, else one |
| AlertManager.ExtractTwoLetterCode | core/logging/alert_manager.py:115-118 | "rb2510.SHFE" gives "rb" |
| AlertManager.ExtractCzceCode | core/logging/alert_manager.py:115-118 | "MA601.CZCE" gives "MA" |
| AlertManager.ExtractOneLetterCode | core/logging/alert_manager.py:115-118 | "i2601.DCE" gives "i" |
| AlertManager.ExtractRejects | core/logging/alert_manager.py:116-120 | "rb" and "rb1.shfe" give nothing |
| AlertManager.ExtractRejectsLowerExchange | core/logging/alert_manager.py:115-120 | "rb2510.shfe" gives nothing, since the exchange must be upper case |
| AlertManager.ShouldSendAlert | core/logging/alert_manager.py:122-138 | sent when forced, or when dated today and before Saturday 03:00 of the week |
| AlertManager.ForceAlwaysSends | core/logging/alert_manager.py:124-125 | a forced alert is always sent |
| AlertManager.QuietHours | core/logging/alert_manager.py:127-138 | another day, Saturday from 03:00 and all of Sunday are silent; the rest of today is sent |
| AlertManager.Configure | core/logging/alert_manager.py:37-85 | the channel's default URL and secret are replaced, the other channel's are kept, and the mappings are merged with new entries winning |
| AlertManager.Resolve | core/logging/alert_manager.py:171-182 | a mapped commodity code gets its webhook and secret; otherwise the channel's defaults |
| AlertManager.ConfigureThenResolve | core/logging/alert_manager.py:171-182 | a mapping just configured is what resolution finds, and the defaults are found without a code |
| AlertManager.StringToSignInjective | core/logging/alert_manager.py:91-101 | the text to sign determines the timestamp and the secret |
| AlertManager.FirstNewline | core/logging/alert_manager.py:91-101 | the first newline of that text ends the timestamp |
| AlertManager.DingtalkSignedUrlParts | core/logging/alert_manager.py:286 | the signed URL is the webhook, `&timestamp=` and the timestamp, then `&sign=` and the signature |
| AlertManager.FeishuRequestBody | core/logging/alert_manager.py:185-200 | the Feishu body has exactly timestamp, sign, msg_type and content, with the signature of the timestamp and secret |
| AlertManager.PostWithRetry | core/logging/alert_manager.py:203-228 | the same request is posted one to three times, stopping at the first success; retries wait 5 s only after a transport exception; then 1 s |
| AlertManager.AlwaysFailingTransport | core/logging/alert_manager.py:221-225 | three transport failures wait 5 s twice |
| AlertManager.BusinessFailuresDoNotWait | core/logging/alert_manager.py:212-219 | replies that are not exceptions never cause a wait |
| AlertManager.RetryWaitsBound | core/logging/alert_manager.py:203-225 | at most two waits, each 5 s |
| AlertManager.Submit | core/logging/alert_manager.py:156-160 | the job keeps channel, content, time and force flag, and extracts the code from a non-empty symbol |
| AlertManager.SendAlert | core/logging/alert_manager.py:335-361 | "feishu" and "dingtalk" submit one job, "all" submits both, any other type submits none |
| AlertManager.AlertManager.constructor | core/logging/alert_manager.py:29-35 | empty routing tables and empty defaults |
| AlertManager.AlertManager.ConfigureFeishu | core/logging/alert_manager.py:37-59 | the routing becomes Configure of the old one for Feishu |
| AlertManager.AlertManager.ConfigureDingtalk | core/logging/alert_manager.py:63-87 | the routing becomes Configure of the old one for DingTalk |
| AlertManager.AlertManager.RunJob | core/logging/alert_manager.py:162-326 | a quiet-hour job is suppressed, an unconfigured channel sends nothing, and otherwise the signed request goes through the retry loop |
| AlertManager.FeishuEndToEnd | core/logging/alert_manager.py:156-235 | a configured Feishu alert whose first post succeeds is delivered once, followed by one 1 s sleep |
| Calendar.DaysBeforeNextMonth | core/logging/alert_manager.py:133-135 | the days-before-month table agrees with the month lengths |
| Calendar.Weekday | core/logging/alert_manager.py:133-135 | a weekday is 0 (Monday) to 6 (Sunday) |
| Calendar.WeekdayExamples | core/logging/alert_manager.py:133-135 | 0001-01-01 was a Monday; October 10 to 13, 2025 were Friday to Monday |
| Decimal.NatToString | config/futures_config.py:924 | `str(n)` consists of digits, denotes n, and has no leading zero |
| Decimal.NatToStringInjective | config/futures_config.py:924 | different numbers have different texts |
| Decimal.LastChars | config/futures_config.py:924 | `s[-k:]` is the last k characters, or all of s |
| Decimal.Pad2 | config/futures_config.py:925 | `f"{n:02d}"` is two digits denoting n |
| Decimal.TwoDigitSuffix | config/futures_config.py:924 | the last two characters of a year are its tens and units digits |
| Decimal.OneDigitSuffix | config/futures_config.py:1072 | the last character of a year is its units digit |
| Decimal.ParseIntOfDigits | config/settings.py:51 | `int()` of a run of digits is the number it denotes |
| Decimal.ParseIntOfNatToString | config/settings.py:51 | `int(str(n)) == n` |
| StrOrder.LessIrreflexive | scripts/update_contract_list.py:163 | no text sorts before itself |
| StrOrder.LessTransitive | scripts/update_contract_list.py:163 | the order is transitive |
| StrOrder.LessTotal | scripts/update_contract_list.py:163 | any two different texts are ordered |
| StrOrder.Insert | scripts/update_contract_list.py:163 | inserting keeps the list strictly ascending and adds exactly the element |
| StrOrder.SortedUnique | scripts/update_contract_list.py:163 | `sorted(set(xs))` is strictly ascending and holds exactly the elements of xs |
| Dicts.Put | scripts/update_contract_list.py:122-126 | an assignment replaces a present key in place or appends a new one, and the key then holds the value |
| Dicts.FromPairsGet | scripts/download_futures_data.py:192-197 | each key holds the value it was assigned last |
| Dicts.FromPairsKeys | core/data/downloader.py:302-310 | without repeats the keys come in assignment order |
| Dicts.CountTruePositive | scripts/download_futures_data.py:288-289 | the success count is positive exactly when some value is True |
| Dicts.CountTruePut | core/data/downloader.py:310-312 | how one assignment changes the number of True values |
| Platform.FileStore.Write | config/config_loader.py:40-41 | a write succeeds exactly for a writable path and replaces that file's text |
| Platform.GetEnv | config/settings.py:50 | `os.getenv(name, default)`: the variable when set, else the default |
| Platform.LineEnds | config/settings.py:22-23 | the line ends of a text are line-end characters taken from it |
| Platform.Lines | config/settings.py:22-23 | the lines hold no line end, there is one more line than line ends, and the lines with the text's own line ends between them give back the text |
| Platform.LinesOfLine | config/settings.py:22-23 | a text without line ends is one line |
| Platform.LinesJoin | config/settings.py:22-23 | two texts joined by a line end give the lines of the first followed by those of the second |
| Platform.Join | config/config_loader.py:23 | `os.path.join` ends with the name, and an absolute name replaces the directory |

## Left out

- The hash, network and SDK calls themselves are parameters: HMAC-SHA256 with base64, `requests.post`, the TqSdk `TqApi` and its kline calls, the vnpy database, and `time.sleep`.
- The clocks and the local time zone are parameters. `datetime.now()`, `time.time()` and `get_localzone_name()` are passed in.
- `get_download_date_range` is left out because it only reads the clock. The model keeps just whether both dates are given.
- Threads are left out: `ThreadPoolExecutor`, and the background submission of alert jobs. `SendAlert` returns the jobs, and `RunJob` runs one to the end.
- Floating point is not modelled: the kline columns and bar prices. `BarData` conversion only counts the rows it turns into bars.
- Output is not modelled. That covers printing, logging, `show_config`, `print_config`, the argparse `main` functions and `apply_settings`, which copies the dict into vnpy's SETTINGS.
- `get_all_symbols` is left out because it only lists the table's keys.
- JSON text is not modelled. Parsing and dumping are functions passed in, so key order, indentation and `ensure_ascii` are not modelled.
- `DownloadScheduler.UpdateItemOf`: an array element that is a two-key object is modelled as raising. The source reads it as the pair of its two keys, in an order the JSON value here does not keep. A pair whose key is a number, a boolean or null is skipped; the source stores it under that key, which no lookup of the script reads.
- The file store is a flat map from path to text. Directories, `mkdir` and the encoding are not modelled; a file that cannot be decoded cannot be represented.
- The path ".env" is the key of the file store: the process's working directory is not modelled.
- `Platform.Lines` splits at every `\n` and `\r`, so a `\r\n` line end gives an extra empty line, and a text that ends with a line end gives a last empty line. The only caller skips empty lines after `strip()`, so the variables set are the same. Other Unicode line breaks are kept inside a line.
- `Text.IsDigit` and `Text.LowerChar` are ASCII only. `str.isdigit` also accepts other Unicode digits and `str.lower` other letters; the codes the core reads are ASCII. `Text.IsSpace` is Python's full `str.isspace` set, and the `[a-zA-Z]` and `[A-Z]` classes of the regular expression are ASCII in the source too.
- FUTURES_INFO is the constant `FuturesInfoTable`. Only the exchange and active months of each entry are modelled; names, sizes and price ticks are never read by the core.
- `DownloadScheduler.FuturesDataScheduler.RunDownload`: a non-empty configured `enabled_symbols` with a positive batch size must be a list of texts or a text; anything else is modelled as TypeError. With a list holding numbers, booleans or null, the source records each such item as an unknown product (`get_futures_info` gives `{}`) under that key, and raises only at an item that is a list or an object. With a non-empty object, the source's slicing raises (KeyError from Python 3.12, TypeError before).
- `ContractList.GeneratePriorityDownloadList` takes the module-level lists `current_main_contracts` and `future_main_contracts` as its two parameters.
- `Downloader.FuturesDataDownloader.InitTqsdk`: the choice between username/password and guest mode is not modelled. Either way TqApi is created or raises, which is the outcome parameter.
- `Downloader.SymbolResults`: whether `download_symbol_data` raises is a parameter (`raises`). It stands for errors outside the model, such as the logging calls.
- `FuturesConfig.SelectMonths`: its own contract states only that every selected month is active. How many months are chosen, and which, is stated by `SelectMonthsShape`, `NextMonthsComplete` and `WithoutInOrder`.
- `ContractList.GetSymbolContracts` states the grouping as a set of keys with each key's codes in input order. The order of the keys in the dict is not stated.
- `Settings.SettingsWithFixed` states the font entries and `log.active`. `log.level`, `log.console` and `log.file` are in the definition, but no lemma restates them.
- `Settings.SettingsOfEnvEmail`: `email.password` and `database.password` follow the same pattern as the other entries, but no lemma states them.
- `AlertConfig.AlertConfigModule.GetAlertConfig` only states which dicts it returns; the alert policy is the constant `Alert`.
- The alert configuration module's logger is left out.
- Integers are unbounded. Python's integers are unbounded too, so nothing wraps around.
