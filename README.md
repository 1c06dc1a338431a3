# Stock-trading core, modelled in Dafny

This project is a Dafny model of the decision logic of a small stock-trading
application. The application has three parts:

- an Express backend: orders, holdings, authentication, and a forecast proxy;
- a Python AI service: LSTM next-close prediction;
- a React dashboard.

The centre of the model is the **order ledger** (`orders.dfy`). A BUY or SELL
request reads the holding stored under the key (instrument name, user). It
then changes that holding's quantity, or creates or deletes the holding, and
appends the order to the order log.

- `Orders.Execute` is the request as a function of the ledger state.
- `Orders.Ledger` is the stored ledger. Its `CreateOrder` method performs the
  request in place, the way the controller does.
- The class invariant states that the ledger is *reconciled*: the quantity
  held under every key equals what the order log bought minus what it sold
  under that key. Every request keeps this invariant, and so does any sequence
  of requests.

Around the ledger the project models:

- the portfolio reads (`portfolio.dfy`);
- registration, login and profile lookup over a user store (`auth.dfy`);
- the "Bearer" token middleware (`middleware.dfy`);
- the forecast route validator, the forecast controller and the AI-service
  client (`forecast.dfy`);
- on the Python side:
  - the windowing, split and preparation of a price series (`data.py` in
    `data.dfy`);
  - the batch schedule, artifact directory name and metadata record of the
    trainer (`trainer.py` in `trainer.dfy`);
  - the 24-hour model cache of the older predictor (`utils.py` in `utils.dfy`);
  - the memory → disk → train selection of the current predictor
    (`inference.py` in `inference.dfy`);
- two dashboard string helpers:
  - the symbol input of the prediction form (`prediction_form.dfy`);
  - the avatar initials of the menu (`menu.dfy`).

Supporting modules:

- `wrappers.dfy`: `Option`, `Result`, `Min`, `Max`.
- `text.dfy`: ASCII upper-casing, alphanumerics, the JavaScript and Python
  whitespace sets, trim, split and join.
- `jsvalue.dfy`: a JSON field value with JavaScript truthiness.
- `seqs.dfy`: filter and flatten.

Everything outside this logic becomes a parameter of the operation that uses
it. These parameters are function-typed values or plain inputs:

- password hashing and comparison;
- token signing and decoding;
- the HTTP call to the AI service;
- the market-data download;
- the artifacts found on disk;
- training, scoring and the model's forward pass;
- the clocks.

## Behaviour worth noting

- **A BUY into an existing holding** only adds to `qty`. `avg` and `price`
  keep the values of the first BUY, because the code never writes them after
  it creates the holding (`Orders.BuyAddsToHolding`,
  `Orders.FourOrderScenario`).
- **Quantities are not checked.** A BUY of 0 stores a holding of quantity 0,
  and a SELL of a negative quantity raises the holding
  (`Orders.UncheckedQuantities`). So a holding is present exactly when its
  quantity is positive only while every stored order has a positive quantity
  (`Orders.RunKeepsPositive`, `Orders.HeldIffNetPositive`). The holdings match
  the order log for every quantity (`Orders.RunKeepsConsistent`).
- **A mode that is neither "BUY" nor "SELL"** is answered with success but
  stores nothing (`Orders.UnknownModeStoresNothing`).
- **Form length and route limit.** The prediction form keeps up to 15
  characters, but the forecast route refuses symbols longer than 10
  (`PredictionForm.FormAdmitsWhatRouteRefuses`).

## Model

| member | source | states |
|---|---|---|
| Orders.Execute | backend/src/controllers/orders.controller.js:4-71 | a rejected request changes nothing; an accepted one answers with the order built from the request; the log is unchanged or grows by exactly that order |
| Orders.OrdersOf | backend/src/controllers/orders.controller.js:73-76 | the list is no longer than the log and holds only the caller's orders, each taken from the log |
| Orders.BuyCreatesHolding | backend/src/controllers/orders.controller.js:27-38 | a BUY with no holding under its key adds exactly that key, holding `qty`, `avg = price =` the order price and `net = day = "+0.00%"`, and appends the order |
| Orders.BuyAddsToHolding | backend/src/controllers/orders.controller.js:24-26 | a BUY on an existing holding raises `qty` by the order quantity; `avg`, `price`, `net` and `day` are unchanged, no key is added, one order is appended |
| Orders.SellWithoutHolding | backend/src/controllers/orders.controller.js:41-49 | a SELL with nothing held is rejected with "No holdings to sell" and the state is unchanged |
| Orders.SellTooMuch | backend/src/controllers/orders.controller.js:51-53 | a SELL above the held quantity is rejected with "Insufficient quantity" and the state is unchanged |
| Orders.SellLowersHolding | backend/src/controllers/orders.controller.js:55-63 | an accepted SELL lowers `qty`; at 0 the key is removed, otherwise only `qty` changes; exactly one order is appended |
| Orders.UnknownModeStoresNothing | backend/src/controllers/orders.controller.js:66-70 | for any other mode the state is unchanged and the reply is still success with the order |
| Orders.ExecuteIsLocal | backend/src/controllers/orders.controller.js:8-22 | holdings under every other key are unchanged; the log is unchanged or grows by the order carrying the request's name, qty, price, mode and caller id |
| Orders.ExecuteAppends | backend/src/controllers/orders.controller.js:16-64 | the log only ever grows by the request's order, and it grows exactly when the mode is BUY or SELL and the request is accepted |
| Orders.ExecuteKeepsConsistent | backend/src/controllers/orders.controller.js:16-64 | a request keeps holdings stored under their own key and each key's held quantity equal to the log's bought-minus-sold quantity |
| Orders.RunKeepsConsistent | backend/src/controllers/orders.controller.js:4-71 | the reconciliation holds after any sequence of requests |
| Orders.ExecuteKeepsPositive | backend/src/controllers/orders.controller.js:24-61 | a request whose order is stored only with a positive quantity never leaves a stored holding at zero or below; rejected SELLs and unknown modes may carry any quantity |
| Orders.RunExtends | backend/src/controllers/orders.controller.js:16-64 | over any sequence of requests the old log is a prefix of the new one |
| Orders.RunKeepsPositive | backend/src/controllers/orders.controller.js:24-61 | if every order the requests add to the log has a positive quantity, every stored holding has `qty > 0`, whatever the quantities of the requests that stored nothing |
| Orders.HeldIffNetPositive | backend/src/controllers/orders.controller.js:55-61 | in a reconciled ledger of positive holdings a key is held iff the log bought more than it sold under it, and the holding has that difference |
| Orders.OrdersOfSpec | backend/src/controllers/orders.controller.js:73-76 | the order list contains exactly the caller's orders, and keeps log order (the list of a concatenated log is the concatenation of the lists) |
| Orders.ExecuteKeepsOthersOrders | backend/src/controllers/orders.controller.js:8-14 | a request never changes another user's order list |
| Orders.AcceptedOrderListed | backend/src/controllers/orders.controller.js:17-63 | an accepted BUY or SELL appends its order to the end of its user's list |
| Orders.FourOrderScenario | backend/src/controllers/orders.controller.js:24-58 | BUY 10 @ 100, BUY 10 @ 120, SELL 5, SELL 15: the average stays 100 at quantity 20 and 15, the holding is deleted at the end, and the log has 4 orders |
| Orders.UncheckedQuantities | backend/src/controllers/orders.controller.js:5-6 | a BUY of 0 stores a zero holding and an accepted SELL of -5 raises it to 5 |
| Orders.Ledger.CreateOrder | backend/src/controllers/orders.controller.js:4-71 | the in-place update yields exactly the state and reply of `Execute` on the old state, and keeps the ledger reconciled |
| Orders.Ledger.GetAllOrders | backend/src/controllers/orders.controller.js:73-76 | the result holds exactly the stored orders whose `userId` is the caller's, in log order |
| Portfolio.HoldingsOf | backend/src/controllers/portfolio.controller.js:4-7 | the holdings read returns only stored holdings |
| Portfolio.HoldingsOfSpec | backend/src/controllers/portfolio.controller.js:5 | every holding of the caller is returned, and each returned holding is the caller's and is stored under its own key |
| Portfolio.PositionsOf | backend/src/controllers/portfolio.controller.js:9-12 | the positions read is no longer than the store and returns only stored positions of the caller |
| Portfolio.PositionsOfSpec | backend/src/controllers/portfolio.controller.js:10 | exactly the caller's positions are returned, in store order |
| Portfolio.OrderKeepsOthersHoldings | backend/src/controllers/portfolio.controller.js:5 | an order by one user never changes another user's holdings read |
| Auth.FindByEmail | backend/src/controllers/auth.controller.js:22 | a found user is stored and has the email; nothing is found iff no stored user has it |
| Auth.FindById | backend/src/controllers/auth.controller.js:144 | a found user is stored and has the id; nothing is found iff no stored user has it |
| Auth.FindAppended | backend/src/controllers/auth.controller.js:22-40 | a user appended with a fresh email is the one found by that email |
| Auth.Login | backend/src/controllers/auth.controller.js:74-125 | 200 only with both fields given, a user found by the email and the password accepted by `compare`, replying with that user without password; a failure is 400 exactly when a field is missing, and 401 otherwise |
| Auth.LoginNeedsBoth | backend/src/controllers/auth.controller.js:79-84 | a missing or empty email or password gives 400 "Please provide email and password" |
| Auth.LoginSpec | backend/src/controllers/auth.controller.js:86-125 | login succeeds iff the first user with the email exists and `compare(password, stored)` holds; success is 200 with a token signed from `{id, email}` and the user without password; every failure is the same 401 "Invalid email or password" |
| Auth.GetProfile | backend/src/controllers/auth.controller.js:141-163 | 404 "User not found" iff no stored user has the id; otherwise 200 with id, name, email and createdAt of that user and no password |
| Auth.DistinctLookups | backend/src/controllers/auth.controller.js:22-40 | in a store whose emails and ids are unique (the store invariant `Register` keeps), each stored user is the one found by its email and the one found by its id |
| Auth.ProfileOfStoredUser | backend/src/controllers/auth.controller.js:141-163 | in such a store the profile read for a stored user's id is that user's id, name, email and createdAt |
| Auth.UserStore.Register | backend/src/controllers/auth.controller.js:9-59 | a missing field gives 400 and a taken email gives 400 "User with this email already exists", both leaving the store unchanged; otherwise exactly one user with `hash(password)` is appended and 201 is returned with a token signed from `{id, email}` and the user without password; emails and ids stay unique |
| Auth.LoginAfterRegister | backend/src/controllers/auth.controller.js:31-40 | after a user with a fresh email is stored with `hash(password)`, login with that email and password succeeds for that user, given `compare(p, hash(p))` |
| AuthMiddleware.BearerToken | backend/src/middleware/auth.middleware.js:13-21 | a token exists iff the header is present and starts with "Bearer ", and then `"Bearer " + token == header` |
| AuthMiddleware.Authenticate | backend/src/middleware/auth.middleware.js:8-49 | in check order: no Bearer header → 401 "Access denied. No token provided."; undecodable token → 401 "Invalid or expired token"; unknown decoded id → 401 "User no longer exists"; otherwise admit `{id, email}` of the decoded token |
| AuthMiddleware.AdmitIff | backend/src/middleware/auth.middleware.js:13-47 | a request is admitted iff the header is "Bearer " + a token that decodes to a stored user's id; the attached user is the decoded id and email of `header.substring(7)` |
| AuthMiddleware.OptionalUser | backend/src/middleware/auth.middleware.js:66-78 | a user is attached iff the header has the prefix and the token decodes, and it is the decoded id and email |
| AuthMiddleware.AdmittedIsOptionalUser | backend/src/middleware/auth.middleware.js:64-85 | a user admitted by `verifyToken` is the one `optionalAuth` attaches |
| AuthMiddleware.Exchange.CallNext | backend/src/middleware/auth.middleware.js:49 | `next` is called once more |
| AuthMiddleware.Exchange.VerifyToken | backend/src/middleware/auth.middleware.js:8-49 | on admission `req.user` is set and `next` is called exactly once with no response; on denial the 401 is sent, `next` is not called and `req.user` is untouched |
| AuthMiddleware.Exchange.OptionalAuth | backend/src/middleware/auth.middleware.js:64-85 | `next` is always called exactly once and no response is sent; `req.user` is set exactly when a Bearer token decodes |
| JsValues.Truthy | backend/src/routes/forecastRoutes.js:10 | JavaScript truthiness of a body field; its partner `JsValues.FalsyValues` names the five falsy values |
| JsValues.FalsyValues | backend/src/routes/forecastRoutes.js:10 | a body field is falsy iff it is undefined, null, false, 0 or "" |
| ForecastRoutes.ValidateForecastRequest | backend/src/routes/forecastRoutes.js:7-32 | the first failing check wins: falsy → "Symbol is required in request body", non-string → "Symbol must be a string", longer than 10 → "Symbol must be 10 characters or less", all 400 |
| ForecastRoutes.ValidateNextIff | backend/src/routes/forecastRoutes.js:10-31 | `next` is reached iff the symbol is a string of 1 to 10 characters |
| AiService.ErrorMessage | backend/src/services/aiService.js:24-35 | code ECONNABORTED → "AI service request timed out"; else a server answer → its `detail` if non-empty, else "AI service error"; else "Unable to reach AI service" |
| AiService.GetForecast | backend/src/services/aiService.js:5-36 | no base URL → "AI_SERVICE_URL is not configured"; an answer → `symbol` and `next_close` copied from the response with the time stamp; a failure → its classified message |
| AiService.UnconfiguredMakesNoCall | backend/src/services/aiService.js:6-8 | without a base URL the result does not depend on the call's outcome |
| AiService.TimeoutWins | backend/src/services/aiService.js:25-27 | a timeout is reported as a timeout even when a server response is present |
| AiService.TimedOutMessageIff | backend/src/services/aiService.js:25-32 | the timeout text comes out iff the code is ECONNABORTED or the server's detail is that very text |
| ForecastController.GetForecast | backend/src/controllers/forecastController.js:3-26 | falsy symbol → 400 "Symbol is required"; success → 200 with the forecast unchanged; an error → 504 iff its message is "AI service request timed out", else 502, with the message verbatim and `success: false` |
| ForecastController.FalsySymbolSkipsService | backend/src/controllers/forecastController.js:7-12 | with a falsy symbol the response does not depend on the AI service |
| ForecastController.ControllerOverClient | backend/src/controllers/forecastController.js:20-24 | through the client: timeout → 504, unreachable → 502 "Unable to reach AI service", a server detail is passed through |
| SeriesData.CreateSequences | ai-service/data.py:25-30 | `max(0, n - lookback)` pairs; pair k is `values[k..k+lookback)` (length `lookback`) and `values[k+lookback]`; equal to the reference `Windows`/`Targets` |
| SeriesData.Least | ai-service/data.py:34 | the minimum is a value of the series and at most every value |
| SeriesData.Greatest | ai-service/data.py:35 | the maximum is a value of the series and at least every value |
| SeriesData.ScaleWith | ai-service/data.py:42-45 | scaling keeps the length of the series |
| SeriesData.MinMaxScale | ai-service/data.py:33-39 | the scaled series has the input's length and comes with the series' minimum and maximum |
| SeriesData.MinMaxScaleInUnit | ai-service/data.py:33-39 | every value scaled by the series' own range lies in [0, 1] |
| SeriesData.Tail | ai-service/utils.py:120 | `s[-k:]` is a suffix of `s`, of length `k` when `0 < k <= len(s)`, and the whole of `s` when `k == 0` |
| SeriesData.SliceBound | ai-service/data.py:58-61 | a Python slice bound lands in [0, n] and is the index itself when already in range |
| SeriesData.SplitTrainTest | ai-service/data.py:54-62 | empty `x` → inputs returned as both halves; otherwise `x_train ++ x_test == x` and `y_train ++ y_test == y`, `len(x_train)` is the clamped `int(len(x) * ratio)`, and both are split at the same index |
| SeriesData.SplitIndexInRange | ai-service/data.py:57 | for a ratio in [0, 1] the split index is in [0, len(x)] |
| SeriesData.EightyPercentSplit | ai-service/inference.py:40 | with ratio 0.8 a non-empty set of windows leaves at least one test window; the training part is empty iff there is a single window |
| SeriesData.Prepare | ai-service/data.py:71-84 | the prepared record copies the values, their count, the end date and the last close, scales by the series' min and max, and holds `n - lookback >= 1` windows of length `lookback` each followed by its target |
| SeriesData.PrepareData | ai-service/data.py:65-84 | a download error is passed on; `len(values) <= lookback` → "Insufficient data for prediction"; otherwise the record above |
| Trainer.Chunks | ai-service/trainer.py:50-51 | reference definition of the batches `perm[i : i + batch_size]`: there are none exactly when the sequence is empty; `ChunksCover` and `ChunksSizes` state the rest |
| Trainer.ChunksCover | ai-service/trainer.py:50-51 | the batches of a permutation concatenate to it, in order |
| Trainer.ChunksSizes | ai-service/trainer.py:50-51 | no batch is empty or longer than the batch size, and all but the last have exactly the batch size |
| Trainer.EpochBatches | ai-service/trainer.py:50-51 | a batch size of 0 is the `range()` error, a negative one gives no batches, a positive one gives exactly the contiguous chunks `perm[i : i + batch_size]` |
| Trainer.TrainingSchedule | ai-service/trainer.py:48-53 | one batch list per epoch, each the chunks of that epoch's permutation; an error iff the batch size is 0 and there is an epoch |
| Trainer.EvaluateRmse | ai-service/trainer.py:64-86 | no score iff the test set is empty; otherwise the score of the model on the test windows |
| Trainer.SafeName | ai-service/trainer.py:90 | the safe name has the symbol's length, only alphanumerics and '_', and at each position keeps the upper-cased character if alphanumeric and puts '_' otherwise |
| Trainer.SafeNameIdempotent | ai-service/trainer.py:90 | sanitising a safe name changes nothing |
| Trainer.SafeNameIgnoresCase | ai-service/trainer.py:90 | symbols that differ only in letter case share their directory |
| Trainer.SafeNameCollides | ai-service/trainer.py:90 | "BRK-B" and "BRK.B" share the directory "BRK_B" |
| Trainer.JoinPath | ai-service/trainer.py:91 | POSIX `os.path.join` for a relative leaf: the result starts with the directory and ends with the leaf, one character longer than both exactly when the directory is non-empty and does not end in '/', and that character is '/' |
| Trainer.SymbolDir | ai-service/trainer.py:89-91 | the directory is `artifacts_dir`, then a '/' unless `artifacts_dir` is empty or ends in '/', then the safe name; so it lies under `artifacts_dir` |
| Trainer.BuildMetadata | ai-service/trainer.py:146-167 | the symbol is upper-cased (no lower-case letter remains), lookback, sizes, data points, end date, rmse and seed are copied, `trained_at` is the clock + "Z" and `model_version` is "lstm_v1" |
| ModelUtils.ModelCache.constructor | ai-service/utils.py:13-14 | a new cache returns nothing for every symbol |
| ModelUtils.ModelCache.Get | ai-service/utils.py:16-17 | a value is returned iff one was set for the symbol, and it is the stored one |
| ModelUtils.ModelCache.Set | ai-service/utils.py:19-20 | afterwards `get(symbol)` is the value and every other symbol's entry is unchanged |
| ModelUtils.CreateSequences | ai-service/utils.py:33-38 | the second copy of the windowing loop produces the same pairs as `create_sequences` |
| ModelUtils.NormalizeSymbol | ai-service/utils.py:89 | `symbol.upper().strip()` is no longer than the symbol; `NormalizedForm` and `NormalizeIdempotent` state its shape |
| ModelUtils.NormalizedForm | ai-service/utils.py:89 | an upper-cased and stripped symbol has no lower-case letter and no whitespace at either end |
| ModelUtils.NormalizeIdempotent | ai-service/utils.py:89-90 | normalising twice equals normalising once |
| ModelUtils.IsFresh | ai-service/utils.py:94-95 | an entry is used as it is when it was trained less than 24 hours (86 400 000 000 microseconds) before now |
| ModelUtils.PredictWithModel | ai-service/utils.py:112-128 | a download error or a short series is an error; otherwise the model is given the last `lookback` values of the series scaled by its own range, and the entry's range maps the answer back |
| ModelUtils.PredictNextClose | ai-service/utils.py:88-109 | the symbol is normalised first; an entry younger than 24 hours is used as it is and the cache is unchanged; otherwise a download error or a short series fails with the cache unchanged, or a model trained on the windows of the scaled series is stored with its range and the current time, and the prediction uses it |
| Inference.TrainArtifacts | ai-service/inference.py:39-65 | the model is trained on the 80% part of the prepared windows; the metadata has the requested lookback and seed, the upper-cased symbol, sizes adding up to the window count, at least one test window, and a score |
| Inference.TrainArtifactsOn | ai-service/inference.py:42-65 | the model is trained on the split's training part with the seed; the range is the prepared one; the sizes are those of the two parts; a score exists iff the test part is non-empty, and it is the score of the model on that part |
| Inference.InfoOf | ai-service/inference.py:94-102 | the reported metadata copies the seven stored fields |
| Inference.Service.LoadOrTrain | ai-service/inference.py:29-65 | a cached entry with the requested lookback is returned and nothing changes; otherwise disk artifacts with that lookback are cached and returned; otherwise a preparation error leaves the cache unchanged, or freshly trained artifacts with a score are cached; on success `cache[symbol]` is the result and its lookback is the requested one |
| Inference.Service.PredictNextClose | ai-service/inference.py:68-104 | succeeds iff the download succeeds and is longer than `lookback`; the response carries the normalised symbol, the cached artifacts' prediction on the last `lookback` values scaled by their range, the last close, the name, the history, the rmse and the metadata of the requested lookback; the new cache is the old one on a cache hit, has the disk artifacts under the normalised symbol on a disk hit, the freshly trained artifacts when the download is long enough, and is unchanged otherwise; every other symbol's entry is unchanged |
| PredictionForm.Normalize | dashboard/src/components/PredictionForm.js:7 | the stored symbol has at most 15 characters, each the upper-cased input character at that position |
| PredictionForm.NormalizeIdempotent | dashboard/src/components/PredictionForm.js:7 | normalising the stored symbol changes nothing |
| PredictionForm.Blank | dashboard/src/components/PredictionForm.js:12 | `!symbol.trim()`; its partner `Text.TrimEmptyIff` makes it "every character is whitespace" |
| PredictionForm.HandleSubmit | dashboard/src/components/PredictionForm.js:10-15 | `onSearch` is called iff the symbol has a non-whitespace character, and it receives the untrimmed symbol |
| PredictionForm.Disabled | dashboard/src/components/PredictionForm.js:44 | the button's `disabled` is `loading || !symbol.trim()`; `DisabledIff` ties it to `HandleSubmit` |
| PredictionForm.DisabledIff | dashboard/src/components/PredictionForm.js:44 | the button is disabled iff loading or the symbol is all whitespace; when not loading, enabled iff a submit reaches `onSearch` |
| PredictionForm.FormAdmitsWhatRouteRefuses | dashboard/src/components/PredictionForm.js:40 | an 11-letter symbol passes the form and is refused by the forecast route |
| Menu.First | dashboard/src/components/Menu.js:15 | `n[0]` contributes at most one character, the first one of a non-empty piece |
| Menu.Heads | dashboard/src/components/Menu.js:15-16 | one character at most per piece, so no longer than the list of pieces |
| Menu.HeadsOfSplit | dashboard/src/components/Menu.js:13-16 | the joined first characters of the space-separated pieces are exactly the word starts of the name, in order |
| Menu.ExtraSpaceIgnored | dashboard/src/components/Menu.js:14-16 | a second space between two parts of a name starts no word |
| Menu.DisplayName | dashboard/src/components/Menu.js:11-12 | never empty: the stored name when it is present and non-empty, "User" otherwise |
| Menu.Initials | dashboard/src/components/Menu.js:11-18 | the initials are the upper-cased word starts of the name (or of "User"), cut to `min(2, count)` characters |
| Menu.DefaultInitial | dashboard/src/components/Menu.js:11-12 | a missing or empty name gives "U" |
| Menu.DoubleSpaceSameInitials | dashboard/src/components/Menu.js:14-16 | consecutive spaces give the same initials as one space |

## Left out

- Persistence: the MongoDB models and the database connection are not part of
  this model. Holdings are a map keyed by (name, user), and orders and users
  are sequences.
- Interleaving of the separate awaited writes: each request is one atomic step.
  Concurrent requests and lost updates are not modelled.
- In the BUY path the order is saved before the holding is read; in the SELL
  path it is saved after the holding write. In one atomic step this order
  does not show.
- The 500 responses of the `catch` blocks: these come from storage, hashing or
  library failures. In `verifyToken` such a failure gives 401 "Authentication
  failed". The model's oracles do not fail.
- `Number(...)` coercion of `qty` and `price`: NaN and fractional quantities
  are not modelled. `qty` is an integer and prices are reals that are only
  copied.
- A request body field is one of undefined, null, boolean, number, string
  or object.
- `register` and `login` fields are modelled as optional strings; non-string
  values are not modelled.
- Menu: a non-string user name is not modelled.
- `Auth.UserStore.Register` assumes the id the database assigns is fresh. That
  is the database's guarantee, not a check of the controller.
- The position store is given as a sequence of records of the holding shape.
  Its schema is not part of this model.
- `Portfolio.HoldingsOf` returns a set: the order in which the database
  returns holdings is not modelled.
- bcrypt and JWT internals: hashing, comparison, signing and decoding are
  function parameters. Token expiry is part of `decode`.
- Express routing, the axios transport and its 10-second timeout: only the
  classified outcome of the call is a parameter.
- A JSON `detail` that is not a string is not modelled.
- Strings are ASCII in the model:
  - Unicode case mapping and Unicode `isalnum`/`isspace` are not modelled;
  - JavaScript's non-ASCII trim characters are not modelled;
  - UTF-16 lengths are not modelled.
- Floating point: PyTorch training, inference, RMSE and `round` are
  parameters or left out. Prices and scaled values are exact reals.
  `float32` rounding is not modelled.
- `SeriesData.MinMaxScale`: the NaN handling of `values.min()` is not modelled.
- The downloads (`yf.download`, `fetch_close_series`, `_fetch_data`,
  `fetch_stock_name`, `fetch_history`) and the artifact file reads and writes
  (`save_artifacts`, `load_artifacts`) are inputs. One downloaded series
  serves every download made within one prediction.
- `Inference.Service.LoadOrTrain`: the write of the artifacts to disk is not
  modelled, so a later call's `disk` input is not tied to an earlier training.
- `os.makedirs` is not modelled.
- `Trainer.SymbolDir`: only the POSIX join is modelled, for a safe name, which
  is never an absolute path.
- `set_deterministic_seed` and the seeding of the random permutations: each
  epoch's permutation is an input of `Trainer.TrainingSchedule`.
- The optimiser steps of `train_model` and `_train_model` are not modelled.
  `_train_model` in `ai-service/utils.py` has the same batch loop, with 15
  epochs and batch size 64; the loop is modelled once, in
  `Trainer.TrainingSchedule`.
- A negative `lookback` is not modelled (lookback is a `nat`).
- `minmax_inverse` and `_minmax_inverse` are part of the model's
  forward-pass parameter.
- The service's FastAPI routes and schemas are not part of this model.
- React state, rendering, `localStorage`, navigation and the rest of
  `Menu.js` are not modelled.
- `PredictionResult.js`, `Orders.js`, `SellActionWindow.js` and `AiPage.js`
  are context only. `AiPage.js` upper-cases the symbol again before posting
  it, which `PredictionForm.FormAdmitsWhatRouteRefuses` includes.
