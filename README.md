# Crypto portfolio WhatsApp bot: a verified model of its core

The system is a WhatsApp bot backed by an LLM agent. Messages from one
allowed WhatsApp number arrive from the Evolution API at a FastAPI webhook.
The agent answers them with two kinds of tool:

- local tools that record buy and sell transactions in a SQLite ledger and
  report on the portfolio;
- market-data tools on an MCP server, which fetch prices, the Fear & Greed
  index, Bitcoin dominance and fiat rates.

This Dafny project models the logic of those pieces that can be stated
exactly, and proves what each one promises:

- `Database` (`whatsapp-bot/database.py`): the ledger as a class `Ledger`.
  - It holds the table's rows, the autoincrement counter and whether the
    table has been created.
  - Its methods are `InitDb` and `AddTransaction`. Its two read-only
    queries are `GetTransactions` (a filter, then newest first) and
    `GetPortfolioSummary`.
  - The summary reproduces `GROUP BY crypto_symbol HAVING net_quantity > 0
    ORDER BY crypto_symbol` as pure functions over the rows.
- `BotTools` (`whatsapp-bot/tools.py`):
  - `RegisterTransaction`: the ordered validation in front of the insert;
  - `QueryPortfolio`: the report, built with the source's two loops;
  - `SendWhatsappMessage`: the allow-list guard and recipient-number
    cleaning.
- `MarketData` (`mcp-server/tools.py`):
  - coin-id list parsing and re-joining;
  - fiat code normalisation;
  - Bitcoin-dominance defaults;
  - the mapping of each HTTP outcome to data or `{"error": ...}`.
- `Webhook` (`whatsapp-bot/main.py`): the routing decision of
  `receive_webhook`, and the reply-or-apology of `process_agent_and_reply`.
- `Config` (`whatsapp-bot/config.py`): the field validators, the defaults,
  and loading the settings from the environment.
- Supporting modules:
  - `Text`: the Python string operations used, in their ASCII form
    (`lower`, `upper`, `capitalize`, `strip`, `rstrip('/')`, `split`,
    `join`, `in`) and the SQLite BINARY string order;
  - `Json`: decoded JSON values with Python's `dict.get`, `in`, `len` and
    truthiness;
  - `Http`: the outcome of one HTTP request;
  - `Common`: `Option` and `Result`.

External effects are parameters:

- Every HTTP request's outcome is an `Http.Outcome` argument. A `Call` or
  `Delivery` result records the request the code would issue.
- The `created_at` timestamp is a `now: nat` argument.
- The agent's run is an `AgentOutcome` argument.
- Float formatting in the report strings goes through a `NumberFormat` of
  caller-supplied functions.

Quantities and prices are `real`.

Details of the code that the model follows exactly:

- The fiat code is `base.upper().strip()`. `NormalizeCurrency` proves this
  equals `Upper(Strip(base))`.
- `get_crypto_prices` logs `len(data)` before returning. A success body
  without a length therefore becomes an "Unexpected error" rather than
  being returned (`MarketData.PricesOutcome`).
- The webhook's allow-list test is Python's `in` applied to whatever
  `remoteJid` decodes to:
  - a substring test on a string;
  - membership on a list;
  - a key test on an object;
  - a 500 error on a number.

## Model

| member | source | states |
|---|---|---|
| Text.Lower | whatsapp-bot/tools.py:36 | `str.lower` on ASCII: same length, each character mapped by the ASCII lower-case map, no upper-case letter left |
| Text.Upper | mcp-server/tools.py:130 | `str.upper` on ASCII: same length, each character mapped by the ASCII upper-case map, no lower-case letter left |
| Text.Capitalize | whatsapp-bot/tools.py:63 | `str.capitalize` keeps the length |
| Text.LowerIsLowerCase | whatsapp-bot/database.py:76 | a lower-cased string contains no ASCII capital, which is why every stored symbol is lower case |
| Text.LowerIdempotent | whatsapp-bot/database.py:76 | lowering twice equals lowering once, so the store's second `lower()` of a symbol the tool already lowered changes nothing; a string is its own lower case exactly when it has no capital |
| Text.LStripDropsSpaces | mcp-server/tools.py:23 | everything the leading strip removes is whitespace |
| Text.RStripDropsSpaces | mcp-server/tools.py:23 | everything the trailing strip removes is whitespace |
| Text.Strip | whatsapp-bot/main.py:114 | `str.strip` leaves no whitespace at either end of a non-empty result |
| Text.StripTrims | whatsapp-bot/main.py:114 | the stripped string is the contiguous slice of the input that starts after its leading whitespace, and every character cut off on either side is whitespace |
| Text.TrimmedFrom | whatsapp-bot/main.py:114 | a prefix of a suffix with only whitespace cut off on either side is the input trimmed at the start of that suffix |
| Text.StripKeepsOut | mcp-server/tools.py:23 | stripping a piece of a split cannot bring back the separator |
| Text.StripIdempotent | mcp-server/tools.py:23 | stripping an already stripped piece changes nothing |
| Text.StripFixed | mcp-server/tools.py:23 | a string with no whitespace at either end is its own strip |
| Text.LowerKeepsOut | mcp-server/tools.py:29 | lower-casing cannot introduce a character that is not a letter, such as the `,` the ids are joined with |
| Text.StripLower | mcp-server/tools.py:23-29 | stripping commutes with lower-casing, so the ids' strip at line 23 and lower at line 29 may be applied in either order |
| Text.StripUpper | mcp-server/tools.py:130 | stripping commutes with upper-casing, so `upper().strip()` equals `strip().upper()` |
| Text.RStripSlash | whatsapp-bot/config.py:49 | `rstrip('/')`: a prefix of the input that does not end in `/`, with only slashes cut off |
| Text.RStripSlashFixed | whatsapp-bot/config.py:49 | a string not ending in `/` is its own `rstrip('/')` |
| Text.Split | mcp-server/tools.py:23 | `str.split(sep)` yields at least one piece and no piece contains the separator |
| Text.JoinSplit | mcp-server/tools.py:23-29 | joining the pieces of a split with the same separator gives back the input |
| Text.SplitJoin | mcp-server/tools.py:29 | splitting a join of separator-free pieces gives back the pieces |
| Text.SplitNoSeparator | mcp-server/tools.py:23 | a string without the separator splits into itself alone |
| Text.SplitSeparated | mcp-server/tools.py:23 | the first piece ends at the first separator and the rest is the split of what follows |
| Text.Join | mcp-server/tools.py:29 | `sep.join(parts)` of lower-case pieces with a separator that is not a capital is lower case |
| Text.BeforeFirst | whatsapp-bot/tools.py:144 | the longest prefix without the separator: a prefix, separator-free, followed by the separator when shorter than the input |
| Text.BeforeFirstIsFirstPiece | whatsapp-bot/tools.py:144 | that prefix is `split(sep)[0]` |
| Text.IsSubstringIff | whatsapp-bot/tools.py:139 | Python's `a in b` on strings holds exactly when `a` occurs in `b` at some position |
| Text.LexLessIrreflexive | whatsapp-bot/database.py:148 | the BINARY collation order used by `ORDER BY crypto_symbol` is irreflexive |
| Text.LexLessTransitive | whatsapp-bot/database.py:148 | that order is transitive |
| Text.LexLessTotal | whatsapp-bot/database.py:148 | that order is total on distinct strings |
| Text.LexLessAsymmetric | whatsapp-bot/database.py:148 | that order is asymmetric |
| Text.Decimal | whatsapp-bot/tools.py:62 | the decimal rendering of an id or a count is a non-empty string of digits |
| Text.DecimalValue | whatsapp-bot/tools.py:62 | the rendering of `n` denotes `n`: the digit string read back as a number is `n` |
| Text.DecimalInjective | whatsapp-bot/tools.py:62 | two numbers have the same rendering exactly when they are equal |
| Text.LeadingDigits | whatsapp-bot/tools.py:62 | the longest prefix made only of digits, followed by a non-digit when shorter than the input |
| Text.LeadingDigitsOf | whatsapp-bot/tools.py:62 | a digit string followed by a text that does not start with a digit is the leading-digit prefix of the whole |
| Text.ReadBack | whatsapp-bot/tools.py:62 | the number rendered at the front of a text that continues with a non-digit can be read back from it |
| Json.Get | whatsapp-bot/main.py:100-106 | `v.get(key, default)` succeeds exactly on a dict, giving the stored value when the key is present and the default otherwise |
| Json.Truthy | whatsapp-bot/main.py:108 | Python truthiness: a string, list or dict is truthy exactly when its `len` is positive |
| Json.Contains | whatsapp-bot/main.py:110 | `needle in v` is defined exactly on strings, lists and dicts, and on a string it is the substring test |
| Json.Len | mcp-server/tools.py:37 | `len(v)` is defined exactly on strings, lists and dicts |
| Config.Required | whatsapp-bot/config.py:41-43 | a required field is accepted exactly when it is non-empty, is kept unchanged, and is rejected with the given message |
| Config.ValidateOpenaiApiKey | whatsapp-bot/config.py:39-43 | an empty key is rejected with "OPENAI_API_KEY is required"; a non-empty one is returned unchanged |
| Config.ValidateEvolutionInstanceName | whatsapp-bot/config.py:51-55 | an empty name is rejected with "EVOLUTION_INSTANCE_NAME is required"; a non-empty one is returned unchanged |
| Config.ValidateEvolutionApiKey | whatsapp-bot/config.py:57-61 | an empty key is rejected with "EVOLUTION_API_KEY is required"; a non-empty one is returned unchanged |
| Config.ValidateAllowedWhatsappNumber | whatsapp-bot/config.py:63-67 | an empty number is rejected with "ALLOWED_WHATSAPP_NUMBER is required"; a non-empty one is returned unchanged |
| Config.ValidateEvolutionApiUrl | whatsapp-bot/config.py:45-49 | rejected exactly when empty, with "EVOLUTION_API_URL is required"; otherwise stored as a prefix of the input not ending in `/`, with only slashes removed |
| Config.ApiUrlStripIdempotent | whatsapp-bot/config.py:49 | stripping trailing slashes again changes nothing |
| Config.SlashOnlyUrlBecomesEmpty | whatsapp-bot/config.py:47-49 | the emptiness test comes before the strip, so a URL made only of slashes is accepted and stored as "" |
| Config.LoadSettings | whatsapp-bot/config.py:11-67 | settings load exactly when the five required fields are present and non-empty; otherwise loading fails with at least one error; the URL is slash-stripped, the other required values and the Logfire token are kept, and host, port, debug, MCP URL and database file are the supplied value or else the default |
| Config.DefaultsApplied | whatsapp-bot/config.py:15-17 | without overrides: host "0.0.0.0", port 8000, debug off, the local MCP URL (line 28) and "portfolio.db" (line 31) |
| Config.EmptyValueReported | whatsapp-bot/config.py:39-67 | each empty required value is reported with its own "… is required" message |
| MarketData.StatusFailure | mcp-server/tools.py:41 | the message starts with "API request failed with status " and the rest denotes exactly the status code |
| MarketData.Respond | mcp-server/tools.py:32-51 | the shared ending of the four tools (also lines 64-83, 96-117, 138-157): an error status, a timeout and any other exception each give their fixed message; a success response gives the decoded body, or "Unexpected error: …" when decoding raises |
| MarketData.Cleaned | mcp-server/tools.py:23 | the kept pieces are non-empty and stripped, at most as many as the input pieces, and comma-free when the pieces are |
| MarketData.CleanedPiecewise | mcp-server/tools.py:23 | the comprehension keeps order: a piece contributes its stripped form exactly when that is non-empty, and the result of a concatenation is the concatenation of the results |
| MarketData.ParseCoinIds | mcp-server/tools.py:23 | every parsed coin id is non-empty, comma-free and has no surrounding whitespace |
| MarketData.LowerAll | mcp-server/tools.py:29 | the lower-casing comprehension lowers each id in place and keeps the count |
| MarketData.IdsString | mcp-server/tools.py:29 | the id string joined from the lower-cased ids is all lower case |
| MarketData.GetCryptoPrices | mcp-server/tools.py:12-51 | no request, and "No valid coin IDs provided", exactly when the parsed list is empty; otherwise one request for the price URL of the normalised id string |
| MarketData.IdsStringSplits | mcp-server/tools.py:29-30 | the id string splits on `,` back into the lower-cased list and has no empty component |
| MarketData.CleanedFixed | mcp-server/tools.py:23 | cleaning a list of non-empty stripped ids changes nothing |
| MarketData.LowerAllIdempotent | mcp-server/tools.py:29 | lower-casing the list twice equals lower-casing it once |
| MarketData.NormalisationIdempotent | mcp-server/tools.py:23-29 | parsing the id string again yields the lower-cased list and the same id string |
| MarketData.LowerCleanedCommute | mcp-server/tools.py:23-29 | lowering the ids after stripping and filtering them gives the same list as lowering the pieces first and then stripping and filtering |
| MarketData.GetFearAndGreedIndex | mcp-server/tools.py:53-70 | the index tool always requests the alternative.me URL |
| MarketData.GetBitcoinDominance | mcp-server/tools.py:85-104 | the dominance tool always requests the CoinGecko global URL |
| MarketData.DominanceOf | mcp-server/tools.py:99-102 | the lookup raises exactly when the body, its `data` or that one's `market_cap_percentage` is not an object; otherwise the result is an object with only the `bitcoin_dominance_percentage` key |
| MarketData.DominanceDefaults | mcp-server/tools.py:99-102 | a missing `data`, `market_cap_percentage` or `btc` gives 0.0; a present `btc` is reported as is |
| MarketData.NormalizeCurrency | mcp-server/tools.py:130 | the code is the upper-cased stripped input and contains no lower-case letter |
| MarketData.GetFiatExchangeRates | mcp-server/tools.py:119-144 | no request, and the 3-letter error, exactly when the normalised code does not have length 3 (the empty code included); otherwise the URL ends with exactly that code |
| MarketData.PricesOutcome | mcp-server/tools.py:32-51 | once the price request is issued: an error status gives "API request failed with status N", a timeout "Request timed out", any other exception "Unexpected error: …"; an object or list body is returned unchanged; a body without a length (a bare number) is reported as an unexpected error, because `len(data)` is taken before returning |
| MarketData.IndexOutcome | mcp-server/tools.py:64-83 | the index tool maps the three failures the same way and returns a success body unchanged |
| MarketData.DominanceOutcome | mcp-server/tools.py:96-117 | the dominance tool maps the three failures the same way |
| MarketData.RatesOutcome | mcp-server/tools.py:138-157 | once the rates request is issued, the three failures are mapped the same way and a success body is returned unchanged |
| Database.FilterKey | whatsapp-bot/database.py:109-112 | no filter exactly for `None` or the empty string; otherwise the lower-cased symbol, which has no capital |
| Database.Matching | whatsapp-bot/database.py:109-115 | the `WHERE` clause keeps exactly the rows with the key's symbol, and every row when there is no key |
| Database.InsertNewestFirst | whatsapp-bot/database.py:111 | inserting into a newest-first list keeps it newest first and adds exactly that row |
| Database.SortNewestFirst | whatsapp-bot/database.py:111-115 | `ORDER BY created_at DESC` yields a permutation with non-increasing `created_at`; no tie order is claimed |
| Database.Count | whatsapp-bot/database.py:144 | `COUNT(*)` of a symbol is positive exactly when a row has that symbol |
| Database.NetQuantity | whatsapp-bot/database.py:142 | a symbol without rows has net quantity 0 |
| Database.AvgPrice | whatsapp-bot/database.py:143 | the mean price times the group's row count is the group's price total |
| Database.NetIsBoughtMinusSold | whatsapp-bot/database.py:142 | the net quantity is the total of "buy" rows minus the total of every other type |
| Database.InsertSymbol | whatsapp-bot/database.py:146-148 | adding a group symbol keeps the list strictly ascending and adds exactly that symbol |
| Database.GroupSymbols | whatsapp-bot/database.py:146-148 | the groups are the symbols present in the table, strictly ascending |
| Database.HoldingsOver | whatsapp-bot/database.py:142-147 | each holding is a group with positive net quantity, carrying its net quantity, unweighted mean price and row count |
| Database.HoldingsOverMembers | whatsapp-bot/database.py:147 | a group is held exactly when its net quantity is positive |
| Database.ConsNewestFirst | whatsapp-bot/database.py:111 | a row no older than every row of a newest-first list can go in front |
| Database.ConsAscending | whatsapp-bot/database.py:148 | a symbol below every symbol of an ascending list can go in front |
| Database.HoldingsOverAscending | whatsapp-bot/database.py:147-148 | the `HAVING` filter keeps the ascending order |
| Database.Holdings | whatsapp-bot/database.py:139-149 | every holding the summary query returns belongs to a present symbol with positive net quantity |
| Database.HoldingsCharacterised | whatsapp-bot/database.py:139-158 | a symbol is held exactly when present with positive net; holdings are strictly ascending, so no duplicates; each has net quantity bought minus sold, the unweighted mean price and the row count |
| Database.SummaryExampleHeld | whatsapp-bot/database.py:142-144 | buy 2 at 10 and sell 0.5 at 12 give net 1.5, average 11, count 2 |
| Database.SummaryExampleClosed | whatsapp-bot/database.py:142-147 | buy 1 and sell 1 of one symbol drop it from the holdings |
| Database.Ledger.constructor | whatsapp-bot/database.py:22-27 | a fresh database has no table, no rows and the counter at 1 |
| Database.Ledger.InitDb | whatsapp-bot/database.py:29-46 | afterwards the table exists, and rows and counter are unchanged, so a second call changes nothing |
| Database.Ledger.AddTransaction | whatsapp-bot/database.py:57-93 | without a table: fails, nothing changes. Otherwise: appends exactly one row (the counter's id, lower-cased symbol, other fields as given), leaves every earlier row alone, returns an id above every earlier id, keeps ids strictly increasing |
| Database.Ledger.GetTransactions | whatsapp-bot/database.py:95-126 | without a table: fails. Otherwise: exactly the rows of the lower-cased symbol (every row for `None` or ""), each as often as stored, newest first |
| Database.CollectHoldings | whatsapp-bot/database.py:151-158 | the loop over the fetched rows builds one holding per row, in the order fetched |
| Database.Ledger.GetPortfolioSummary | whatsapp-bot/database.py:128-170 | without a table: fails. Otherwise: the loop copies exactly the holdings of the aggregation, and `total_holdings` is their number |
| Database.InsertTwice | whatsapp-bot/database.py:83 | two inserts return increasing ids and append two rows carrying them, leaving earlier rows unchanged |
| BotTools.Validate | whatsapp-bot/tools.py:36-44 | the type check comes first, then quantity, then price, each with its own message; input passes exactly when the lower-cased type is buy or sell and both numbers are positive |
| BotTools.Confirmation | whatsapp-bot/tools.py:60-66 | the confirmation starts with the success heading up to "ID: ", is not an error, and the number that follows is exactly the stored id |
| BotTools.RegisterTransaction | whatsapp-bot/tools.py:14-70 | a failed check or a missing table stores nothing and returns its error; a valid call appends one row (lower-cased symbol and type) and confirms with the store's id; the reply starts with the error marker exactly when nothing was stored |
| BotTools.FirstTen | whatsapp-bot/tools.py:97 | `transactions[:10]` is the longest prefix of at most ten |
| BotTools.Remainder | whatsapp-bot/tools.py:105-106 | the line is present exactly when there are more than ten transactions, and the number it shows is the count less ten |
| BotTools.EntryNumbered | whatsapp-bot/tools.py:97-99 | each entry starts with its own number, which reads back as its index |
| BotTools.RenderEntries | whatsapp-bot/tools.py:97-103 | the entry loop produces exactly the numbered entries of the shown transactions, in order |
| BotTools.EntriesStep | whatsapp-bot/tools.py:97-103 | one more loop iteration appends exactly the next numbered entry |
| BotTools.EntriesAppend | whatsapp-bot/tools.py:97-103 | the entry loop numbers each transaction by its position from 1 |
| BotTools.QueryPortfolio | whatsapp-bot/tools.py:72-122 | a filtered query with no match answers "No transactions found for SYMBOL"; an empty unfiltered one "No transactions found in portfolio"; otherwise title, first ten in retrieved order, the count beyond ten and the unfiltered summary's holdings; a store failure is reported, never raised, and only a failure carries the error marker |
| BotTools.History | whatsapp-bot/tools.py:88-118 | a non-empty listing's report takes its holdings from the summary of the whole ledger, whatever the filter, and is never marked as an error |
| BotTools.Listing | whatsapp-bot/tools.py:97-106 | the first loop renders the first ten transactions in order, then "... and N more transactions" with N = count − 10 when there are more than ten |
| BotTools.HoldingsReport | whatsapp-bot/tools.py:110-116 | the second loop renders one line per holding in order, under its heading, and nothing when there are no holdings |
| BotTools.CleanNumber | whatsapp-bot/tools.py:144 | the cleaned number is the prefix before the first `@`, or the whole input without one |
| BotTools.SendWhatsappMessage | whatsapp-bot/tools.py:124-178 | no request exactly when the allowed number is not a substring of the recipient; otherwise one message with the given text to the cleaned number at the instance's send URL; the status carries the error marker exactly when no success response came back |
| Webhook.Decide | whatsapp-bot/main.py:108-123 | no action unless conversation and sender are both truthy; "ignored" exactly when the sender does not contain the allowed number; an authorised sender with a string conversation is queued with `(sender, stripped text)`, and a task is scheduled only that way; a 500 error exactly when the `in` test or the strip raises |
| Webhook.ReceiveWebhook | whatsapp-bot/main.py:91-127 | a missing `data`, `key` or `message` counts as empty and leads to no action; a non-object at any step or a settings failure gives a 500; when all three are objects, whatever other fields they carry, the decision is taken on `conversation` and `remoteJid` (absent ones as `None`); a scheduled task's sender always passes the allow-list test |
| Webhook.WellFormedDecision | whatsapp-bot/main.py:100-123 | on well-formed payloads the webhook never fails: it queues `(sender, stripped text)` exactly when both fields are non-empty and the sender contains the allowed number, ignores it when only that test fails, and otherwise takes no action |
| Webhook.AuthorisedMessageQueued | whatsapp-bot/main.py:100-120 | on any payload whose `key` and `message` are objects, extra fields included, a non-empty text from a sender containing the allowed number is queued with its stripped text |
| Webhook.ProcessAgentAndReply | whatsapp-bot/main.py:129-161 | the function itself attempts exactly one send to the sender: the agent's reply, or the fixed apology when the agent raised |
| Webhook.QueuedMessageIsAnswered | whatsapp-bot/main.py:110-118 | a message queued for a string sender always produces a reply request to that sender's cleaned number, since the webhook's guard implies the send tool's guard |

## Left out

- The network: every `httpx` request to CoinGecko, alternative.me,
  open.er-api and the Evolution API. Their outcome is an `Http.Outcome`
  argument, and JSON decoding of the body is taken as already done.
- SQLite itself: connections, `commit`, `close`, `row_factory` and the SQL
  text. The ledger is an in-memory table. Of the storage failures, only the
  "no such table" error of using the table before `init_db` is modelled.
- Concurrency. This covers concurrent writers to the database, background
  task execution, and the task being decoupled from the request.
- Database.Ledger.GetTransactions: `created_at` is a plain number supplied
  by the caller, not SQLite's second-resolution `CURRENT_TIMESTAMP`. SQLite
  does not fix the order of rows with the same timestamp, and neither does
  the contract of `GetTransactions`: it promises only the selected rows,
  newest first. The definition behind it, `SortNewestFirst`, keeps table
  order among such rows, which is one order SQLite may return. The report
  of `QueryPortfolio` is stated for that particular order.
- Float behaviour: rounding, NaN and infinities. Quantities and prices are
  exact reals.
- The `:,.2f` / `:.6f` number formatting and the `created_at` rendering in
  the report strings. These go through the caller-supplied `NumberFormat`.
- Text.Lower: Unicode case mapping is not modelled; only ASCII letters
  change case. The same holds for Text.Upper and Text.Capitalize.
- Text.Strip: whitespace is ASCII only.
- Text.Capitalize: its contract states only the length. The first-letter
  upper-casing appears only inside the confirmation text.
- Webhook.ProcessAgentAndReply: the sender is a string, as it is for every
  payload in which `remoteJid` is a string. A webhook task whose sender
  passed the `in` test as a list or an object is not followed into the
  send tool.
- `whatsapp-bot/agent.py` (the LLM agent and its prompt) and
  `mcp-server/app.py` (the Gradio UI and the MCP launch) are not part of
  this model.
- The FastAPI plumbing: app creation, CORS, lifespan, the health
  endpoints and uvicorn. The 500 response is modelled only as the
  `InternalError` outcome.
- Logging, which changes nothing the code returns, except the `len(data)`
  in the log line at mcp-server/tools.py:37, which the model keeps.
- `.env` loading and the `lru_cache` of `get_settings`. The settings, or
  the errors from loading them, are an argument.
- Config.LoadSettings: pydantic's exact error text and format are not
  modelled. A missing required field is reported as "Field required", and
  a failed validator by its own message.
