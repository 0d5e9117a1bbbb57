# Crypto Trader starter bot: the exchange proxy and the command delegator, in Dafny

This project models the core of the JavaScript starter bot for the Riddles.io
Crypto Trader game and proves properties of that model. The core has three parts.

- **`ExchangeDataProxy`** (`src/ExchangeDataProxy.js`) is the bot's simulated view of the exchange. It holds:
  - the balance table ("stacks"), which every `update game stacks` replaces whole;
  - the candles of each currency pair, built from `;`/`,`-delimited batches under a configurable field order;
  - the market registry, built from `QUOTE_BASE` identifiers;
  - a check-then-commit order engine that prices a market order against the last close;
  - the serialiser that turns the queued orders into the line sent back to the engine.
- **`CommandDelegator`** (`src/CommandDelegator.js`) reads the engine's line protocol. It trims input, splits it into lines and words, camel-cases the first word, and calls the method of that name with the remaining words. Those handlers update the bot's settings and the proxy.
- **`toCamelCase`** (`src/utils.js`) is the command-name normaliser. The first `/` becomes `_`, and every `_x` with `x` a lower-case letter becomes `X`.

Files:

- `wrappers.dfy`: `Option`, `Result` and `Outcome`.
- `strings.dfy` (module `Strings`): the JavaScript string primitives the core relies on. These are `split` and `join` with a one-character separator, `trim`, and `replace` with a string pattern, which replaces only the first occurrence.
- `js_numbers.dfy` (module `JsNumbers`): `Number.parseFloat`, the `Number(...)` coercion behind `value * 1000`, and `parseInt`. They work over exact decimals, and `None` stands for NaN.
- `utils.dfy` (module `Utils`): `toCamelCase`, with its properties.
- `exchange.dfy` (module `Exchange`): the proxy.
  - First, every operation is a function on a `ProxyState` value.
  - Then the class `ExchangeDataProxy` keeps the same state in fields: `orderCount: nat`, `orders: seq<Order>`, `stacks: map<string, real>`, `markets: seq<Market>`, `candles: map<string, seq<Candle>>`, `lastDate` and `candleIndexToKey`.
  - The class's methods update these fields in place, with the source's loops, and each method is proved to perform its function.
- `command_delegator.dfy` (module `Commands`): the delegator.
  - The handling of input is a function on a `Session` (the bot's settings plus the proxy's state).
  - That function returns the new session, the writes to standard output and standard error, and the calls of the bot's `step`, in order, as `Effect`s.
  - The classes `Bot` and `CommandDelegator` perform the handling on objects. `CommandDelegator.HandleLine` is proved to agree with the function.

Amounts, prices and dates are `real`. `getBalance` of an asset never recorded is `None`, and so is the market id that may be undefined.

The JavaScript conversion of a number to text (used when an order is flushed) is a parameter, `show: real -> string`.

## Model

| member | source | states |
|---|---|---|
| Utils.ToCamelCase | src/utils.js:9-13 | the whole of `toCamelCase`: the first `/` replaced by `_`, then the global `_[a-z]` rewrite; the lemmas below state what it guarantees |
| Utils.Capitalize | src/utils.js:10-12 | the global `/_[a-z]/g` rewrite, left to right with non-overlapping matches, each `_x` becoming the upper-cased `X`; its properties are the `Capitalize*` lemmas |
| Utils.ToCamelCaseSecondSlash | src/utils.js:10 | only the first `/` is replaced, because the pattern is a string: `a/b/c` becomes `aB/c` |
| Utils.CapitalizeLength | src/utils.js:10-12 | the global `/_[a-z]/` rewrite shortens its input by exactly one character per match |
| Utils.CapitalizeNoMatch | src/utils.js:10-12 | after the rewrite no `_` is followed by a lower-case letter |
| Utils.CapitalizeIdentity | src/utils.js:10-12 | a string with no `_[a-z]` is left as it is |
| Utils.ToCamelCaseLength | src/utils.js:10-12 | the output length is the input length minus the `_[a-z]` matches counted after the slash replacement |
| Utils.ToCamelCaseNoMatch | src/utils.js:10-12 | the result never contains `_` immediately followed by a lower-case letter |
| Utils.ToCamelCaseKeeps | src/utils.js:10-12 | a name with neither `/` nor `_` (`action`, `settings`, `update`) is returned unchanged |
| Utils.ToCamelCaseIdempotent | src/utils.js:10-12 | on inputs with at most one `/`, applying `toCamelCase` twice is the same as once |
| Utils.ToCamelCaseSnake | src/utils.js:10-12 | `p_q`, for words without `/` or `_` where `q` starts lower-case, becomes `p` + upper-cased `q[0]` + rest of `q` |
| Utils.ToCamelCaseNextCandles | src/utils.js:10-12 | `next_candles` becomes `nextCandles` |
| Strings.Split | src/CommandDelegator.js:27-32 | a split always has at least one piece, so the early return on empty `lineParts` can never be taken |
| Strings.SplitCount | src/ExchangeDataProxy.js:56 | a split has one more piece than there are separators |
| Strings.SplitPartsFree | src/ExchangeDataProxy.js:56 | no piece of a split contains the separator |
| Strings.JoinSplit | src/ExchangeDataProxy.js:115 | joining the pieces of a split with the separator restores the input |
| Strings.SplitJoin | src/ExchangeDataProxy.js:174-176 | splitting a join of separator-free pieces gives the pieces back |
| Strings.Trim | src/CommandDelegator.js:23 | `trim` keeps a slice of the input with only whitespace cut off on each side, and the slice neither starts nor ends with whitespace |
| Strings.ReplaceFirst | src/utils.js:10 | `replace` with a one-character string pattern: same length, and the input back when the pattern is absent |
| Strings.ReplaceFirstAt | src/utils.js:10 | `replace` with a one-character string changes exactly its first occurrence and keeps everything else |
| Strings.ReplaceFirstCount | src/utils.js:10 | `replace` removes one occurrence of the pattern, or none when it is absent |
| JsNumbers.ParseIntNatToString | src/CommandDelegator.js:61 | `parseInt` reads back the decimal text of any natural number |
| JsNumbers.ParseInt | src/CommandDelegator.js:61 | `parseInt(s, 10)`: optional leading whitespace and sign, then the longest digit run; NaN (`None`) with no digit; read back by `ParseIntNatToString` and `ParseIntDigits` |
| JsNumbers.ParseIntDigits | src/CommandDelegator.js:87 | `parseInt` of a digit string is its value |
| JsNumbers.ParseFloatNat | src/ExchangeDataProxy.js:39 | `parseFloat` of a whole number followed by text that cannot extend the literal is that number |
| JsNumbers.ParseFloat | src/ExchangeDataProxy.js:39 | `Number.parseFloat`: the longest decimal literal after leading whitespace, NaN (`None`) without one; read back by `ParseFloatNat` and `ScanMantissaFraction` |
| JsNumbers.ScanMantissaFraction | src/ExchangeDataProxy.js:94 | the literal scanner reads `digits.digits` as integer part plus fraction, spanning exactly those characters |
| JsNumbers.ToNumberDigits | src/ExchangeDataProxy.js:88 | `Number(...)` of a digit string is its value |
| JsNumbers.ToNumberNatToString | src/ExchangeDataProxy.js:88 | `Number(...)` reads back the decimal text of any natural number |
| JsNumbers.ToNumber | src/ExchangeDataProxy.js:88 | the `Number` coercion of `value * 1000`: the trimmed text must be exactly one decimal literal (empty text is 0), otherwise NaN (`None`); read back by `ToNumberDigits` and `ToNumberNatToString` |
| Exchange.Installed | src/ExchangeDataProxy.js:36-40 | installing entries into the cleared table keys it by exactly the assets named |
| Exchange.StackEntry | src/ExchangeDataProxy.js:38-39 | one `asset:amount` entry: the text before the first `:` and `parseFloat` of the text after it, refused when there is no `:` or the amount is NaN; it belongs to the rows of `StacksUpdated` and `UpdateStacksReplaces` |
| Exchange.InstalledLastWins | src/ExchangeDataProxy.js:37-44 | an asset maps to the amount of its last entry, so a later duplicate wins |
| Exchange.UpdateStacksReplaces | src/ExchangeDataProxy.js:34-45 | `updateStacks` is a full replace. Afterwards the key set is exactly the assets of the batch, each holding its last parsed amount, and nothing but the balances changes. A batch with an unreadable entry is refused |
| Exchange.StacksUpdated | src/ExchangeDataProxy.js:34-41 | `updateStacks` on the state value; what it guarantees is `UpdateStacksReplaces` |
| Exchange.ExchangeDataProxy.UpdateStacks | src/ExchangeDataProxy.js:34-41 | the method performs that replace on the fields, or changes nothing and reports the refusal |
| Exchange.ExchangeDataProxy.InstallStacks | src/ExchangeDataProxy.js:36-40 | clearing, then `updateStack` for each entry in order, leaves the table from `Installed` and every other field as it was |
| Exchange.ExchangeDataProxy.ClearStacks | src/ExchangeDataProxy.js:30-32 | the table is emptied and nothing else changes |
| Exchange.ExchangeDataProxy.UpdateStack | src/ExchangeDataProxy.js:43-45 | one asset's balance is set and nothing else changes |
| Exchange.ExchangeDataProxy.constructor | src/ExchangeDataProxy.js:12-19 | no orders, a zero counter, empty tables, no date, and the default field order `pair,date,high,low,open,close,volume` |
| Exchange.ExchangeDataProxy.GetBalance | src/ExchangeDataProxy.js:51-53 | a balance is defined exactly for a recorded asset, and is its recorded amount |
| Exchange.ExchangeDataProxy.GetOrders | src/ExchangeDataProxy.js:166-168 | the queued orders, in the order they were placed |
| Exchange.MarketFrom | src/ExchangeDataProxy.js:56-62 | the registry entry built from an id; what it guarantees is `MarketFromSplits` |
| Exchange.MarketFromSplits | src/ExchangeDataProxy.js:55-62 | an id yields a market exactly when it contains `_`. The quote is the text before the first `_` and the base the text after it; the id starts with `quote_base`, and the symbol is `base/quote` |
| Exchange.AddMarketAppends | src/ExchangeDataProxy.js:55-64 | `addMarket` appends exactly one entry (with the given id) and keeps the earlier ones, duplicates included; an id without `_` is refused with the registry unchanged |
| Exchange.MarketAdded | src/ExchangeDataProxy.js:55-64 | `addMarket` on the state value; what it guarantees is `AddMarketAppends` |
| Exchange.ExchangeDataProxy.AddMarket | src/ExchangeDataProxy.js:55-64 | the method appends that entry to the field, or changes nothing |
| Exchange.FormatCandleValue | src/ExchangeDataProxy.js:85-98 | `formatCandleValue`: `date` through `Number` times 1000, the five price keys through `parseFloat`, any other key as text; stated by `FormatDate`, `FormatPrice` and `FormatOther` |
| Exchange.FormatDate | src/ExchangeDataProxy.js:87-88 | a date in seconds, written in digits, is stored as milliseconds |
| Exchange.FormatPrice | src/ExchangeDataProxy.js:89-94 | a price or volume written in digits is stored as that number |
| Exchange.FormatOther | src/ExchangeDataProxy.js:95-96 | any other key keeps its raw text |
| Exchange.CandleFromFields | src/ExchangeDataProxy.js:72-77 | a group's object exists exactly when every field converts. Its keys are the first `n` names of the format, and each key holds the converted field at its last position |
| Exchange.Assemble | src/ExchangeDataProxy.js:73-77 | the object written key by key, the last write under a key winning, refused at the first value that does not convert; stated by `AssembleSome`, `AssembleKeys` and `AssembleValues` |
| Exchange.AssembleSome | src/ExchangeDataProxy.js:73-77 | the object is built exactly when every value converted |
| Exchange.AssembleKeys | src/ExchangeDataProxy.js:73-77 | the object's keys are exactly the keys used |
| Exchange.AssembleValues | src/ExchangeDataProxy.js:73-77 | a key holds the value written last under it |
| Exchange.ParseGroup | src/ExchangeDataProxy.js:71-80 | an accepted group carries its pair as text, and when markets are registered that pair is a valid market id |
| Exchange.ParseGroups | src/ExchangeDataProxy.js:71-77 | every `;`-group converted, in order, or the first refusal; stated by `GroupsParsed` and the `Collect*` lemmas |
| Exchange.GroupsParsed | src/ExchangeDataProxy.js:71-77 | an accepted batch has exactly one candle per `;`-group, each that group's own outcome, and every candle carries its pair |
| Exchange.Collect | src/ExchangeDataProxy.js:71-82 | when every group is accepted, the candles are the groups' candles in input order |
| Exchange.CollectFailureStays | src/ExchangeDataProxy.js:71-82 | once a group is refused, later groups do not change the outcome |
| Exchange.CollectFirstFailure | src/ExchangeDataProxy.js:71-82 | a refusal carries the error of the first refused group, and every group before it was accepted |
| Exchange.SeriesAdded | src/ExchangeDataProxy.js:100-106 | storing a candle extends its own pair's series by the candle without `pair`, and no other series |
| Exchange.CandleAdded | src/ExchangeDataProxy.js:78-81 | one candle stored, its market registered first when asked; stated by `SeriesAdded` |
| Exchange.CandlesCommitted | src/ExchangeDataProxy.js:78-82 | the candles stored one after another; stated by `CommittedSeries`, `CommittedMarkets` and `CommittedRest` |
| Exchange.CommittedSeries | src/ExchangeDataProxy.js:78-82 | after committing a batch, each pair's series is its old series followed by that pair's candles from the batch, in input order and without `pair` |
| Exchange.CommittedMarkets | src/ExchangeDataProxy.js:78-80 | committing registers one market per candle, in order, when asked, and none otherwise |
| Exchange.CommittedRest | src/ExchangeDataProxy.js:100-108 | `lastDate` ends as the date of the last candle; balances, orders, counter and format are unchanged |
| Exchange.AddCandlesOnePerGroup | src/ExchangeDataProxy.js:70-83 | an accepted batch adds exactly one candle per `;`-group, each to its own pair's series, in input order. Other pairs are unchanged, `lastDate` is the last group's date, and balances and orders are untouched |
| Exchange.CandlesAdded | src/ExchangeDataProxy.js:70-83 | `addCandleByString` on the state value; what it guarantees is `AddCandlesOnePerGroup` |
| Exchange.ExchangeDataProxy.ConvertFields | src/ExchangeDataProxy.js:74-77 | the field loop builds the object `Assemble` describes, stopping at the first field that does not convert |
| Exchange.ExchangeDataProxy.ParseCandle | src/ExchangeDataProxy.js:71-77 | one group is converted as `ParseGroup` states |
| Exchange.ExchangeDataProxy.ParseCandles | src/ExchangeDataProxy.js:71-77 | the groups are converted in order, stopping at the first refused group |
| Exchange.ExchangeDataProxy.AddCandle | src/ExchangeDataProxy.js:100-108 | the pair is removed, the candle is appended to its pair's series (created when absent), and `lastDate` is the candle's date |
| Exchange.ExchangeDataProxy.CommitCandle | src/ExchangeDataProxy.js:78-81 | one candle is stored, and its pair's market is registered first when asked |
| Exchange.ExchangeDataProxy.CommitCandles | src/ExchangeDataProxy.js:71-82 | the candles are stored one after another, in order |
| Exchange.ExchangeDataProxy.AddCandleByString | src/ExchangeDataProxy.js:70-83 | the fields end as `CandlesAdded` states, or are unchanged when the batch is refused |
| Exchange.FormatSet | src/ExchangeDataProxy.js:114-116 | the new format is at least one comma-free name and joins with `,` to the format string, so it is that string's names; nothing else changes |
| Exchange.FormatSetUnique | src/ExchangeDataProxy.js:115 | any comma-free names that join to the format string are exactly the names installed |
| Exchange.ExchangeDataProxy.SetCandleFormat | src/ExchangeDataProxy.js:114-116 | the method sets that format |
| Exchange.FundingCurrency | src/ExchangeDataProxy.js:119 | the quote asset pays for a buy, the base asset for anything else |
| Exchange.LastClose | src/ExchangeDataProxy.js:123-124 | the `close` of the market's last candle, undefined when that candle has none |
| Exchange.RequiredAmount | src/ExchangeDataProxy.js:125-132 | `amount × close` for a buy, `amount` otherwise |
| Exchange.OrderPlaced | src/ExchangeDataProxy.js:118-164 | see the paragraph after this table |
| Exchange.BuyThenRefusedExample | src/ExchangeDataProxy.js:124-142 | with close 10000 and 1000 USDT, buying 0.05 BTC spends 500 USDT and is order 1; a further buy of 0.06 needs 600 and is refused with 500 available |
| Exchange.SellWithoutCloseExample | src/ExchangeDataProxy.js:124-155 | a sell needs no close: with 5 BTC and a last candle without `close`, selling 1 BTC leaves 4 BTC, and the receipt's price is undefined |
| Exchange.OrderNeverCredits | src/ExchangeDataProxy.js:128-142 | with a non-negative amount and, on a buy, a non-negative close, an accepted order does not raise the funding balance |
| Exchange.NegativeCloseCreditsExample | src/ExchangeDataProxy.js:124-142 | with 0 USDT and a last close of -5, buying 1 BTC passes the check at line 133 and leaves 5 USDT |
| Exchange.ExchangeDataProxy.AddOrder | src/ExchangeDataProxy.js:118-164 | the method returns the receipt and leaves the fields as `OrderPlaced` states, or returns its error with the fields unchanged |
| Exchange.OrderLines | src/ExchangeDataProxy.js:174-175 | one `side marketId amount` line per queued order, in queue order |
| Exchange.OrderLine | src/ExchangeDataProxy.js:175 | one order as `side marketId amount`; it belongs to the rows of `OrderLines` and `OrderCommandRoundTrip` |
| Exchange.OrderCommand | src/ExchangeDataProxy.js:170-177 | the flushed command on the queue; stated by `OrderCommandPass` and `OrderCommandRoundTrip` |
| Exchange.OrderCommandPass | src/ExchangeDataProxy.js:171-177 | the command is `pass` exactly when the queue is empty |
| Exchange.OrderCommandRoundTrip | src/ExchangeDataProxy.js:170-179 | for space- and `;`-free tokens, splitting the command on `;` gives one line per queued order in queue order, and each line splits on spaces into `[side, marketId, amount]` |
| Exchange.ExchangeDataProxy.FlushOrders | src/ExchangeDataProxy.js:170-180 | the flushed command is `pass` exactly when nothing is queued; flushing changes nothing |
| Commands.InputStep | src/CommandDelegator.js:17-25 | `handleLine` on the session: nothing for empty input, otherwise the trimmed input's lines handled by `RunLines`; stated by `InputEmpty` and the `RunLines*` lemmas |
| Commands.RunLines | src/CommandDelegator.js:25-50 | the lines handled in order, each from where the previous one left the session, until one throws; stated by `RunLinesCons`, `RunLinesAppend` and `RunLinesStopAtThrow` |
| Commands.LineStep | src/CommandDelegator.js:26-40 | one line trimmed and split on spaces, its first word camel-cased and dispatched with the rest; stated by `UpdateStacksLine` and `ActionOrderLine` |
| Commands.Dispatch | src/CommandDelegator.js:39-49 | the reflective lookup of the command on the delegator; stated by `UnknownCommandReported`, `KeepsName` and the handler lemmas |
| Commands.InputEmpty | src/CommandDelegator.js:19-21 | empty input has no effect and writes nothing |
| Commands.RunLinesCons | src/CommandDelegator.js:25-50 | the first remaining line is handled after what came before, and the rest follow unless it threw |
| Commands.RunLinesAppend | src/CommandDelegator.js:25-50 | lines `a + b` are handled as `a`, then `b` from where `a` left the session, unless `a` threw |
| Commands.RunLinesStopAtThrow | src/CommandDelegator.js:25-50 | a line that throws ends the handling, and no later line has any effect |
| Commands.TrimmedWords | src/CommandDelegator.js:26-27 | a trimmed line of three space-free words splits into those words |
| Commands.UpdateStacksWords | src/CommandDelegator.js:26-27 | `update game stacks B` splits into `update`, `game`, `stacks`, `B` |
| Commands.KeepsName | src/CommandDelegator.js:35-39 | `action`, `settings` and `update` are looked up under their own names |
| Commands.CommandNamesNormalised | src/CommandDelegator.js:35-39 | the name looked up never has `_` before a lower-case letter, so `__proto__`-style members cannot be reached |
| Commands.UnknownCommandReported | src/CommandDelegator.js:45-49 | a name that is no method writes `Unable to execute command: <cmd>, with data: <words joined by ,>` and a newline to standard error, and changes nothing |
| Commands.UnableToExecute | src/CommandDelegator.js:47 | the report for a name that is no method: the command, then the words joined by `,`, then a newline; it belongs to the row of `UnknownCommandReported` |
| Commands.ActionEffects | src/CommandDelegator.js:58-65 | only `action order` has effects: the bot's `step` with `parseInt` of the next word, then the flushed command on standard output. No `action` changes the session or writes a response |
| Commands.ActionOrderLine | src/CommandDelegator.js:58-64 | the line `action order N` calls `step(N)` and then writes the queue's command |
| Commands.ActionStep | src/CommandDelegator.js:58-65 | `action`; what it guarantees is `ActionEffects` |
| Commands.SettingsStep | src/CommandDelegator.js:71-92 | `settings`; stated for each kind of key by `CandleFormatSetting`, `NumericSetting` and `VerbatimSetting` |
| Commands.CandleFormatSetting | src/CommandDelegator.js:78-80 | `settings candle_format F` makes the format at least one comma-free name joining with `,` to `F`, so `F`'s names, and leaves the settings alone; with no `F` it throws |
| Commands.NumericSetting | src/CommandDelegator.js:81-88 | each of the six timing and size settings, given in digits, is stored as that integer |
| Commands.VerbatimSetting | src/CommandDelegator.js:89-90 | any other key's value is stored as given, under the key, where a missing key is `undefined` |
| Commands.UnknownGameKey | src/CommandDelegator.js:122-123 | `update game` with another key writes `Cannot parse game data input with key <key>` to standard error and changes nothing |
| Commands.NextCandlesKeepsOrders | src/CommandDelegator.js:116-118 | a candle batch from the engine extends each pair's series by that pair's candles of the batch, in order, or changes nothing when refused; it registers no market and leaves balances, orders and settings unchanged |
| Commands.NextCandlesDispatch | src/CommandDelegator.js:100-118 | `update` with `game next_candles B` commits `B` without registering markets, or changes nothing when `B` is refused, and writes nothing |
| Commands.UpdateGameDispatch | src/CommandDelegator.js:100-105 | `update game D` acts as `updateGame` with `D` |
| Commands.UpdateIgnoresOthers | src/CommandDelegator.js:100-107 | `update` with anything but `game` changes nothing and writes nothing |
| Commands.UpdateStep | src/CommandDelegator.js:100-107 | `update`; stated by `UpdateGameDispatch` and `UpdateIgnoresOthers` |
| Commands.UpdateGameStep | src/CommandDelegator.js:114-125 | `updateGame`; stated by `NextCandlesKeepsOrders`, `UpdateStacksDispatch` and `UnknownGameKey` |
| Commands.UpdateStacksDispatch | src/CommandDelegator.js:100-121 | `update` with `game stacks B` replaces the balances by `B`, or changes nothing when `B` is refused |
| Commands.UpdateStacksLine | src/CommandDelegator.js:23-44 | the whole line `update game stacks B` replaces the balances by `B`, or changes nothing when `B` is refused, and writes nothing |
| Commands.CommandDelegator.constructor | src/CommandDelegator.js:12-15 | the delegator holds the given bot and proxy |
| Commands.CommandDelegator.Action | src/CommandDelegator.js:58-65 | `action` has the effects `ActionStep` states and changes no object |
| Commands.CommandDelegator.Settings | src/CommandDelegator.js:71-92 | `settings` leaves the bot and the proxy as `SettingsStep` states |
| Commands.CommandDelegator.Update | src/CommandDelegator.js:100-107 | `update` leaves the proxy as `UpdateStep` states |
| Commands.CommandDelegator.UpdateGame | src/CommandDelegator.js:114-125 | `updateGame` leaves the proxy, and writes, as `UpdateGameStep` states |
| Commands.CommandDelegator.Invoke | src/CommandDelegator.js:39-49 | the method looked up by name acts as `Dispatch` states |
| Commands.CommandDelegator.HandleOne | src/CommandDelegator.js:26-49 | one line acts as `LineStep` states |
| Commands.CommandDelegator.HandleLine | src/CommandDelegator.js:17-51 | `handleLine` on the objects leaves them as `InputStep` states, with the same writes in the same order and a throw at the same line |

`Exchange.OrderPlaced` states all of `addOrder`'s rules:

- The funding currency is the quote asset for a buy and the base asset otherwise.
- The required amount is `amount × close` for a buy and `amount` otherwise, where `close` is the close of the market's last candle.
- Each refusal is named with its exact cause:
  - an undefined market id is `MissingMarketId`;
  - a market without candles is `NoCandles`;
  - a buy whose last candle has no close is `NoClosePrice`;
  - a funding currency never recorded is `UnknownBalance`;
  - a balance below the required amount is `InsufficientFunds`, carrying the side, the amount, the required amount, the currency and the balance.
- A sell needs no close price.
- The order is accepted exactly when none of these applies.
- On acceptance, only the funding balance changes:
  - it is debited by the required amount and stays at or above zero;
  - no balance is added;
  - for a non-negative amount and, on a buy, a non-negative last close, it does not rise (`OrderNeverCredits`). A negative close is read like any other number and then credits a buy (`NegativeCloseCreditsExample`), as in the source.
- The order `{side, marketId, amount}` is appended and the counter advances by one. Markets, candles, date and format are unchanged.
- The receipt is exact: time `lastDate`, `orderId` the new count, type `market`, price the last close (undefined for a sell on a candle without one), `filled` the amount, `remaining` 0, status `open`, and the market's symbol.

Some behaviour here differs from what the repository's tests expect, because
the code is followed. `flushOrders` does not clear the queue and writes no
trailing newline. Several orders on the same pair are not merged.

The command set is wider than `action`, `settings` and `update`: the lookup at
`src/CommandDelegator.js:39` is `this[command] instanceof Function`, so it
reaches every method of the object. `Commands.Dispatch` models the ones a line
can name:

- `updateGame` is called directly.
- `handleLine` with words, and the class `constructor`, throw a TypeError.
- `toString` and `toLocaleString` answer `[object Object]`, which is written.
- `hasOwnProperty`, `isPrototypeOf`, `propertyIsEnumerable` and `valueOf` answer values that are not written.
- The underscore members of `Object.prototype` cannot be named: see `Commands.CommandNamesNormalised`.

A TypeError ends `handleLine`, as the exception would. These cases are:

- `settings candle_format` without a value;
- `update game next_candles` or `update game stacks` without a batch;
- a call of `handleLine` with words, or of `constructor`.

## Left out

- `setOutputStream`, the stream's error listener and the write callback of `flushOrders` (`src/ExchangeDataProxy.js:23-28`, `179`) are not modelled. `FlushOrders` returns the command text, and the delegator records it as the standard-output write.
- `Bot.step` is not modelled: it is the strategy placeholder in `src/Bot.js`. A call of it is recorded as a `BotStep` effect with its time bank and does not change the session.
- The default settings that `src/Bot.js` gives the bot are not modelled: `Bot` is constructed with any settings table.
- Writes to `process.stdout`, `process.stderr` and `console.error` are `Effect`s in a returned sequence, not I/O.
- The JavaScript text of a number (in `flushOrders`' template string) is the parameter `show`. Its round trip through `OrderCommandRoundTrip` assumes `show` yields no space and no `;`.
- Floating point is not modelled. Numbers are exact `real`s. `parseFloat`, `Number(...)` and `parseInt` read decimal literals exactly; Infinity, hexadecimal and binary literals, and double rounding are left out.
- `getStacks`, `getMarkets`, `getCandles`, `getLastDate` and `setLastDate` are field reads and writes. They appear as the class's fields; `GetBalance` and `GetOrders` are the two readers the core uses.
- There is no general lemma for `parseFloat` of a number with a fraction. `ScanMantissaFraction` states how the literal's digits are read; for the whole call, `ParseFloatNat` covers whole numbers only.
- Exchange.ExchangeDataProxy.UpdateStacks: a batch with an entry lacking `:` or an unreadable amount is refused whole, with the balances unchanged. The source stores `NaN` for that asset, since `parseFloat` of such text, or of a missing amount, is `NaN`.
- Exchange.StacksUpdated: the same refusal of a batch with an unreadable entry as `Exchange.ExchangeDataProxy.UpdateStacks`.
- Exchange.UpdateStacksReplaces: states that refusal, so it is weaker than the source in the same way.
- Exchange.StackEntry: refuses an entry without `:` or with a NaN amount, where the source stores `NaN`.
- Exchange.ExchangeDataProxy.AddMarket: an id without `_` is refused. The source appends a market whose base is `undefined`.
- Exchange.MarketAdded: the same refusal of an id without `_` as `Exchange.ExchangeDataProxy.AddMarket`.
- Exchange.AddMarketAppends: states that refusal, so it is weaker than the source in the same way.
- Exchange.ExchangeDataProxy.AddCandleByString: a batch is refused whole, with nothing changed, in these cases:
  - a group has more fields than the format has keys (the source stores the extra fields under the key `undefined`);
  - a number does not convert (the source stores `NaN`);
  - a group lacks its pair (the source files it under `undefined`);
  - when markets are registered, a pair has no `_`.
  The source never stops at an awkward group. At its one call site (`src/CommandDelegator.js:117`, markets not registered) it stores every group, the faulty one and those after it included. When markets are registered, only a group without a pair stops it, with a TypeError in `addMarket`, and the earlier groups stay stored.
- Exchange.CandlesAdded: the same whole-batch refusals as `Exchange.ExchangeDataProxy.AddCandleByString`.
- Exchange.ParseGroups: refuses a batch at its first faulty group, as above.
- Exchange.ParseGroup: refuses a group with extra fields, an unconvertible number or no pair, and, when markets are registered, a pair without `_`, as above.
- Exchange.ExchangeDataProxy.AddOrder: `NoCandles` stands for the TypeError of `src/ExchangeDataProxy.js:124`. `NoClosePrice` (a buy on a last candle without `close`) and `UnknownBalance` are refusals. In the source, the comparison at line 133 is then made against `NaN` or `undefined` and is false, so the order goes through and the funding balance becomes `NaN`.
- Exchange.OrderPlaced: the same `NoCandles`, `NoClosePrice` and `UnknownBalance` outcomes as `Exchange.ExchangeDataProxy.AddOrder`.
- Commands.CommandDelegator.UpdateGame: the proxy's refusals are not visible in the delegator's output. The source shows them only through the `NaN`/`undefined` values above.
- The proxy's tables are plain JavaScript objects in the source; here they are maps, and every name is an ordinary key (`Exchange.Installed`, `Exchange.CandleAdded`). The inherited names of `Object.prototype` are not modelled. In the source, `marketId in this.candles` at `src/ExchangeDataProxy.js:103` is true for names such as `toString` or `constructor`, so the `push` at line 106 throws a TypeError, and assigning `this.stacks["__proto__"]` at line 44 stores nothing.
- The legacy exchange adapter in `src/riddles.js`, `src/ccxt.js` and `src/foo.js`, the bootstrap in `main.js` and `src/main.js`, and the test double are not part of this model.
