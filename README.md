# hermesConnector: the Alpaca connector's translation and validation layer

hermesConnector puts one canonical contract over several brokerage APIs. This
project models the part of its Alpaca connector that makes decisions, and
proves properties of that model:

- the translation of the canonical order side and time in force into the
  Alpaca SDK's enums, and of the SDK's side back into canonical form, with a
  named error on every unmatched value;
- the normalisation of the SDK's order record into a canonical
  `MarketOrderResult`: ids turned into strings, side translated, the
  serialised response kept as `raw`, every other field copied;
- the connector's construction: the credential guard of the connector
  template, the choice of a live or paper trading client from `mode`, and a
  stream client exactly when a data handler is given;
- `marketOrderQty`, `marketOrderCost` and `initiateLiveData` on top of these;
- the error taxonomy: numeric codes in 1xxx/2xxx/3xxx bands, each paired with
  a string.

Modules, one per source file: `HermesExceptions` (hermesExceptions.py),
`HermesEnums` (the canonical enums), `Models` (models.py), `ConnectorTemplate`
(connector_template.py), `ConnectorAlpaca` (connector_alpaca.py). Two
supporting modules model what the connector calls: `UuidText` is Python's
`str()` of a UUID (and of `None`), and `AlpacaSdk` is the Alpaca SDK as an
abstract backend. `Wrappers` holds `Option`, `Result` and `Outcome`.

The SDK is modelled as follows. `TradingClient` and `StockDataStream` are
classes. `TradingClient` records every request it sends (`submitted`) and
counts its calls. What the venue answers is a `Venue` value handed in at
construction. It gives the reply to the k-th call on a client, the clock
reading, and the SDK's JSON serialisation `model_dump_json`. A Python
exception becomes the `Failure` arm of a `Result`, using the `PyException`
datatype.

## Model

| member | source | states |
|---|---|---|
| HermesExceptions.ErrCode | hermesConnector/hermesExceptions.py:28-98 | each class's errCode lies in the 1000-wide band of the group it is declared under: generic 1xxx, order 2xxx, account 3xxx |
| HermesExceptions.ErrStr | hermesConnector/hermesExceptions.py:5-25 | each class's errStr is a member of its group's literal set (the set as evidently intended, with one literal per entry) |
| HermesExceptions.FromCode | hermesConnector/hermesExceptions.py:41-98 | the reverse lookup by code only returns a class that has that code |
| HermesExceptions.FromStr | hermesConnector/hermesExceptions.py:41-98 | the reverse lookup by string only returns a class that has that string |
| HermesExceptions.CodeRoundTrip | hermesConnector/hermesExceptions.py:41-98 | looking up a class's code gives that class back |
| HermesExceptions.StrRoundTrip | hermesConnector/hermesExceptions.py:41-98 | looking up a class's string gives that class back |
| HermesExceptions.ErrCodeInjective | hermesConnector/hermesExceptions.py:41-98 | no two classes share an errCode |
| HermesExceptions.ErrStrInjective | hermesConnector/hermesExceptions.py:41-98 | no two classes share an errStr |
| HermesExceptions.CodeStrBijection | hermesConnector/hermesExceptions.py:41-98 | a code and a string belong to the same class exactly when both lookups find that same class, so code and string correspond one to one |
| HermesExceptions.GroupStrs | hermesConnector/hermesExceptions.py:5-20 | the three literal groups as intended, one literal per entry: six generic, three order and one account name |
| HermesExceptions.GroupStrsAreErrStrs | hermesConnector/hermesExceptions.py:5-20 | a string is in a group's intended literal set exactly when some class of that group has it as errStr |
| HermesExceptions.AsWrittenHandlerNonExistentUndefined | hermesConnector/connector_alpaca.py:6 | as written, HandlerNonExistent is the one name the connector imports from the exceptions file that the file does not define |
| HermesExceptions.ExceptionClasses | hermesConnector/connector_alpaca.py:6 | the intended exception names add HandlerNonExistent and nothing else, and then every imported name is defined |
| Models.AsWrittenMarketOrderBaseParamsUndefined | hermesConnector/connector_alpaca.py:18 | as written, MarketOrderBaseParams is the one name the connector imports from models.py that the file does not define |
| Models.ModelClasses | hermesConnector/connector_alpaca.py:18 | the intended record names add MarketOrderBaseParams and nothing else, and then every imported name is defined |
| HermesExceptions.GenericErrStrAsWritten | hermesConnector/hermesExceptions.py:5-12 | the generic group as written: it holds the joined literal "REQUEST_TIMEOUTAUTHORISATION_FAILED" and otherwise the intended generic names without "REQUEST_TIMEOUT" and "AUTHORISATION_FAILED" |
| HermesExceptions.AsWrittenGenericGroupMissesTwo | hermesConnector/hermesExceptions.py:5-12 | as written, the generic literal set lacks the errStr of RequestTimeout and of AuthFailed, and holds the errStr of the other four generic classes |
| UuidText.HexDigits | hermesConnector/connector_alpaca.py:126 | the hex rendering of a number has the requested width and only lower-case hex digits |
| UuidText.ParseHexDigits | hermesConnector/connector_alpaca.py:126 | reading the hex rendering back gives the number, when it fits the width |
| UuidText.UuidString | hermesConnector/connector_alpaca.py:126 | str() of a UUID has 36 characters, hyphens at positions 8, 13, 18 and 23 and hex digits everywhere else |
| UuidText.UuidRoundTrip | hermesConnector/connector_alpaca.py:126 | the string form of a UUID parses back to that UUID |
| UuidText.UuidStringInjective | hermesConnector/connector_alpaca.py:126 | distinct UUIDs have distinct string forms |
| UuidText.ParseUuid | hermesConnector/connector_alpaca.py:126 | a text is read as a UUID exactly when it has the canonical 8-4-4-4-12 form of lower-case hex digits |
| UuidText.ParseHexBound | hermesConnector/connector_alpaca.py:126 | a string of n hex digits denotes a number below 16^n |
| UuidText.HexDigitsOfParse | hermesConnector/connector_alpaca.py:126 | printing the number a string of hex digits denotes gives that string back |
| UuidText.ParseUuidInverse | hermesConnector/connector_alpaca.py:126 | a text that is read as a UUID is exactly that UUID's string form |
| UuidText.ParsePyStrInverse | hermesConnector/connector_alpaca.py:135 | a text that is read as an optional UUID is exactly its str() rendering |
| UuidText.PyStrRoundTrip | hermesConnector/connector_alpaca.py:135 | str() of an optional UUID ("None" when absent) parses back to the same optional value |
| ConnectorTemplate.Init | hermesConnector/connector_template.py:25-47 | construction succeeds exactly when both credentials exist and are non-empty. It fails with InsufficientParameters exactly when the first or the second credential is empty. It fails with IndexError when the list is too short to reach an empty entry. On success the options hold every argument exactly as passed, with wshandler stored as dataHandler |
| ConnectorTemplate.Defaults | hermesConnector/connector_template.py:29-37 | the default credentials ["", ""] always fail with InsufficientParameters; omitted mode and limit become "live" and 75 |
| ConnectorAlpaca.SideToBackend | hermesConnector/connector_alpaca.py:85-91 | BUY goes to the SDK's BUY and SELL to its SELL; any other side fails with InsufficientParameters |
| ConnectorAlpaca.TifToBackend | hermesConnector/connector_alpaca.py:93-102 | GTC, IOC and DAY go to the same-named SDK value, each exactly; any other value fails with InsufficientParameters |
| ConnectorAlpaca.TranslateParams | hermesConnector/connector_alpaca.py:78-104 | the pair is produced exactly when both side and time in force are recognised, and holds their translations; otherwise the error is InsufficientParameters |
| ConnectorAlpaca.SideFromBackend | hermesConnector/connector_alpaca.py:115-122 | the SDK's BUY comes back as canonical BUY and its SELL as SELL, each exactly; an absent side fails with UnknownGenericHermesException |
| ConnectorAlpaca.SideRoundTrip | hermesConnector/connector_alpaca.py:86-89 | a valid canonical side translated out and back is unchanged |
| ConnectorAlpaca.BackendSideRoundTrip | hermesConnector/connector_alpaca.py:116-120 | an SDK side translated back and out again is unchanged |
| ConnectorAlpaca.TifToBackendInjective | hermesConnector/connector_alpaca.py:94-100 | distinct valid times in force go out as distinct SDK values |
| ConnectorAlpaca.NormalizeOrder | hermesConnector/connector_alpaca.py:113-145 | normalisation fails exactly when the SDK order has no side, with UnknownGenericHermesException; on success order_id and asset_id are the string forms of the SDK ids, side is the translated side, raw is the serialisation, and every other field is the SDK order's field unchanged |
| ConnectorAlpaca.NormalizeLossless | hermesConnector/connector_alpaca.py:125-145 | normalisation loses nothing: the SDK order, ids and side included, can be rebuilt from its normalised result |
| ConnectorAlpaca.DenormalizeInverse | hermesConnector/connector_alpaca.py:125-145 | a result that rebuilds to an SDK order is exactly the normalisation of that order with its raw text, so results and SDK orders correspond one to one |
| ConnectorAlpaca.OrderIdIdentifiesOrder | hermesConnector/connector_alpaca.py:126 | two normalised results with the same order_id come from the same SDK order id |
| ConnectorAlpaca.SubmitOutcome | hermesConnector/connector_alpaca.py:110-148 | an APIError from the venue passes through unchanged; a reply order without a side fails with UnknownGenericHermesException; otherwise the result carries the serialised reply as raw and reads back to the reply order |
| ConnectorAlpaca.PaperFlagAsWritten | hermesConnector/connector_alpaca.py:46-50 | as written, a trading client is created exactly for "live" and "test", and every one created is a paper client |
| ConnectorAlpaca.AsWrittenLiveIsPaper | hermesConnector/connector_alpaca.py:46-50 | as written, mode "live" passes no paper flag and so gets the SDK's default, a paper client, the same kind "test" gets |
| ConnectorAlpaca.PaperFlag | hermesConnector/connector_alpaca.py:46-50 | as intended, "live" gives a non-paper client, "test" a paper client and any other mode no client, each exactly |
| ConnectorAlpaca.PaperFlagDiffersOnlyForLive | hermesConnector/connector_alpaca.py:46-50 | the intended and the as-written choice agree on every mode except "live" |
| ConnectorAlpaca.Alpaca.FromOptions | hermesConnector/connector_alpaca.py:45-62 | the trading client exists exactly when the mode is "live" or "test", carries the stored credentials, and is a paper client exactly as PaperFlag says (intended, not as written: see Findings); a stream client exists exactly when a data handler was given |
| ConnectorAlpaca.Alpaca.Create | hermesConnector/connector_alpaca.py:25-62 | construction fails exactly as the template's guard does, before any client exists; on success the options are the template's and the clients follow them as FromOptions states, and each client is newly created, so no two connectors share one |
| ConnectorAlpaca.ClockFromBackend | hermesConnector/connector_alpaca.py:66-70 | is_open, next_open, next_close and timestamp of the SDK clock become isOpen, nextOpen, nextClose and currentTimestamp |
| ConnectorAlpaca.Alpaca.ExchangeClock | hermesConnector/connector_alpaca.py:64-70 | the venue's clock reading is copied field by field into ClockReturnModel; no order is sent; with no trading client the call raises AttributeError |
| ConnectorAlpaca.Alpaca.SubmitMarketOrder | hermesConnector/connector_alpaca.py:106-148 | the request is appended to what the client has sent, and the result is the outcome of normalising the venue's reply; the order stays sent even when normalisation fails |
| ConnectorAlpaca.Alpaca.MarketOrderQty | hermesConnector/connector_alpaca.py:150-167 | when translation fails, InsufficientParameters is raised and nothing is sent; otherwise the one request sent has symbol = tradingPair, qty = orderParams.qty, no notional and the translated side and time in force |
| ConnectorAlpaca.Alpaca.MarketOrderCost | hermesConnector/connector_alpaca.py:169-186 | when translation fails, InsufficientParameters is raised and nothing is sent; otherwise the one request sent has symbol = tradingPair, notional = orderParams.cost, no qty and the translated side and time in force |
| ConnectorAlpaca.Alpaca.InitiateLiveData | hermesConnector/connector_alpaca.py:206-218 | without a stream client it raises HandlerNonExistent and changes nothing; otherwise the stream is subscribed to tradingPair and running |

The records of models.py are datatypes in `Models`. Their shapes hold by
construction, so they have no row:

- `ClockReturnModel` has exactly four required fields (hermesConnector/models.py:10-14).
- `MarketOrderQtyParams` carries `qty` and no `cost`; `MarketOrderNotionalParams`
  carries `cost` and no `qty`; both carry `side` and `tif` (models.py:21-30).
- `LimitOrderBaseParams` adds an integer `qty` and no limit price (models.py:33-34).
- In `BaseOrderResult`, `order_id`, `created_at`, `updated_at`, `submitted_at`,
  `time_in_force`, `status` and `raw` are required and the rest are `Option`s
  (models.py:40-62).
- `MarketOrderResult` adds nothing, and `LimitOrderResult` adds only
  `limit_price`, whose default is `None` (models.py:65-70).

## Findings

| source | as written | input that shows it | evidently intended | confidence | as-written member | corrected member |
|---|---|---|---|---|---|---|
| hermesConnector/hermesExceptions.py:9-10 | a comma is missing after "REQUEST_TIMEOUT", so Python joins it with the next literal into "REQUEST_TIMEOUTAUTHORISATION_FAILED" | errStr "REQUEST_TIMEOUT" (RequestTimeout) and "AUTHORISATION_FAILED" (AuthFailed) are not members of genericErrStr | two separate literals, so that every generic errStr is in genericErrStr | high; not executed | HermesExceptions.AsWrittenGenericGroupMissesTwo | HermesExceptions.ErrStr |
| hermesConnector/connector_alpaca.py:48 | mode "live" creates the trading client without a paper flag, so it gets the SDK's default, which is paper trading | options.mode == "live" gives a client with paper == true, the same as mode "test" (line 50) | "live" passes paper=False and trades for real | medium: the alpaca-py SDK is not part of this model, and the live test (tests/live/test_alpaca.py:28-29) pairs paper credentials with mode "live", which works only with the as-written paper default; not executed | ConnectorAlpaca.AsWrittenLiveIsPaper | ConnectorAlpaca.PaperFlag |
| hermesConnector/connector_alpaca.py:6 | imports HandlerNonExistent, which hermesExceptions.py does not define, so importing the connector raises ImportError | importing connector_alpaca | HandlerNonExistent is an exception the file defines | high; not executed | HermesExceptions.AsWrittenHandlerNonExistentUndefined | HermesExceptions.ExceptionClasses |
| hermesConnector/connector_alpaca.py:18 | imports MarketOrderBaseParams, which models.py does not define, so importing the connector raises ImportError | importing connector_alpaca | MarketOrderBaseParams is the common base of the two market order inputs | high; not executed | Models.AsWrittenMarketOrderBaseParamsUndefined | Models.ModelClasses |

The rest of the model uses the corrected definitions. `GroupStrsAreErrStrs`
proves that each corrected literal set holds exactly its group's strings.
`Alpaca.FromOptions` creates the live client with `paper := false`, as
`PaperFlag` says. `PyException.HandlerNonExistent` is the defined
`HandlerNonExistent`. The translators read `Models.MarketOrderBaseParams`,
which is the common `OrderBaseParams`.

## Left out

- The Alpaca SDK's behaviour: `submit_order`, `get_clock`, `subscribe_bars`, `run` and `model_dump_json` are foreign network or library calls. Their answers are the `Venue` parameter, and the clients only record what was sent.
- `stop`, `account`, `limitOrder`, `queryOrder`, `cancelOrder`, `currentOrder`, `getAllOrders`, `historicData` and `wsHandlerInternal` are not modelled. They have no body (`pass`), or they forward one call to the SDK.
- The `try/except APIError: raise err` blocks around request construction re-raise unchanged, so they are the identity and are not modelled.
- Pydantic's validation and coercion are not modelled. The SDK order's `type`, `time_in_force` and `status` are taken to be already canonical, and the string `'BUY'`/`'SELL'` assigned to `side` is taken as the canonical member.
- `ConnectorOptions.limit` is declared `str` but defaults to the integer `75`. The model stores an integer and does not model how pydantic would treat that mismatch. Likewise `interval` is a `string`.
- Credentials that are `None` rather than strings pass the source's guard, which only compares with `""`. The model's credentials are strings.
- `interval` and `columns` are stored but not otherwise used, because the timeframe calculator and historical data are not part of this model.
- The canonical enums (hermes_enums.py) are not part of this model. `OtherSide` and `OtherTif` stand for any other value: their subset types `OtherSideName` and `OtherTifName` exclude the strings of the named members, so a catch-all never equals a named member. `BUY`/`SELL` are assumed to compare equal to the strings "BUY"/"SELL".
- The SDK order's `side` and `asset_id` are optional here, as in the SDK. The only way to reach the default arm of the side translation back (connector_alpaca.py:121-122) is an absent side. An absent `asset_id` becomes the string "None", as Python's `str(None)` does.
- HandlerNonExistent has no errCode or errStr in the model, because hermesExceptions.py, the module connector_alpaca.py:6 imports it from, does not define the class (see Findings).
- ConnectorAlpaca.Alpaca.FromOptions: does not model line 48 as written. It passes `paper := false` for "live", the intended behaviour. The source passes no flag, so it gets the SDK's default (`AlpacaSdk.DefaultPaper`, true). `PaperFlagAsWritten` and `AsWrittenLiveIsPaper` model the as-written choice.
- ConnectorAlpaca.Alpaca.Create: inherits the same choice through `WiredFrom`. Its "live gives a non-paper client" is the intended behaviour, not the behaviour as written.
- ConnectorAlpaca.NormalizeOrder: does not promise that `raw` is non-empty. `raw` is whatever the SDK's `model_dump_json` returns, and that function is a foreign parameter of the venue that nothing constrains.
- `self.clients` is a dictionary with the fixed keys "trading" and "ws". It is modelled as the two fields `trading` and `ws`, which are set only during construction.
- `qty`, `cost` and prices are floats that no code does arithmetic on. They are `real` values and are only copied.
- Concurrency, the blocking of `run()` and the live-bar handler are not modelled. `Run` only marks the stream as running.
