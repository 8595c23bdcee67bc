# Enter L2 explorer front end: search, data client and transaction page

This project models, in Dafny, the decision logic of the Enter L2 block-explorer front end.
It has three parts.

- **The search bar.** The search bar trims a free-text query and classifies it with an
  ordered cascade of anchored regular expressions. The six kinds are transaction hash,
  address, block number, `batch:` reference, name and unknown. The kind picks the page the
  browser navigates to. A blank query raises an error toast instead. The form keeps a
  loading flag around the navigation.
- **The data client.** `ApiClient` reaches two back ends:
  - a REST service, by `GET` of `baseUrl + endpoint`;
  - a node, by `POST` of a JSON-RPC 2.0 request object with id 1 (section 4 of the JSON-RPC
    2.0 Specification).

  A rejected fetch, a non-2xx status, an unparseable body or an RPC `error` member is a
  failure. Lookups (`getTransaction`, `getBlock`, `getAddress`, `getBatch`, `getNameInfo`,
  `resolveAddress`, `search`, `getStakingInfo`, `getBridgeStatus`, `getWalletInfo`) turn
  every failure into `null`. Listings and aggregates (`getNetworkStats`,
  `getLatestTransactions`, `getTransactionsByAddress`, `getLatestBlocks`,
  `getLatestBlockNumber`, `getAddressBalance`, `getLatestBatches`) pass the failure on.
  Block and batch numbers travel as `0x`-prefixed lower-case hexadecimal quantities.
  `parseInt(·, 16)` reads the latest block number back.
- **The transaction page.** The page decides:
  - the label of the type code;
  - the status badge's colour and icon, and the capitalised status;
  - the fee-token label and the merchant-paid-fee notice;
  - the `Pending` and `N/A` fallbacks for missing values;
  - whether the raw JSON is shown.

The network is a parameter. Each accessor takes `fetch`, a function from the call the client
makes (`Get(url)` or `Post(url, envelope)`) to the reply it settles with. Its contract names
the exact call and the policy applied to the reply. The client's two URLs are the fields of an
immutable `Api.ApiClient` value. Nothing can change them after construction.

Modules:
- `Wrappers`: `Option` and `Result`.
- `Js`: the JavaScript built-ins the core relies on:
  - `String.prototype.trim`;
  - `\d`;
  - `/i` on ASCII letters;
  - `Number.prototype.toString(radix)`;
  - template-literal numbers;
  - `parseInt(·, 16)`.
- `SearchBar`, `Api` and `TransactionDetails`: one per source file.
- `Explorer`: lemmas that join the three.

## Model

| member | source | states |
|---|---|---|
| Js.Trim | src/components/SearchBar.tsx:56 | `trim` removes exactly the leading white space and a trailing run of white space, and leaves no white space at either end |
| Js.TrimUnique | src/components/SearchBar.tsx:56 | white space around an unpadded string trims to that string |
| Js.LeadingWhitespaceAt | src/components/SearchBar.tsx:56 | the leading white space ends at the first character that is not white space |
| Js.TrimOfPadded | src/components/SearchBar.tsx:56 | text that starts where the leading white space ends and is followed only by white space is what `trim` returns |
| Js.BlankTrimsEmpty | src/components/SearchBar.tsx:17 | `!query.trim()` holds exactly when the query is all white space |
| Js.TrimIdempotent | src/components/SearchBar.tsx:17-26 | trimming twice is trimming once, so re-trimming in `detectSearchType` changes nothing |
| Js.TrimPadding | src/components/SearchBar.tsx:56 | extra white space on both sides does not change the trimmed text |
| Js.TrimParts | src/components/SearchBar.tsx:56 | every string is white space, its trimmed text, then white space |
| Js.DigitValue | src/components/SearchBar.tsx:59-69 | `\d` and `[a-fA-F0-9]` are exactly the characters of digit value below 10 and below 16 |
| Js.ToRadix | src/lib/api.ts:193 | `toString(radix)` gives a non-empty, lower-case numeral with no leading zero |
| Js.ToRadixRoundTrip | src/lib/api.ts:193 | the numeral `toString(radix)` writes denotes the number |
| Js.NumberToString | src/lib/api.ts:177 | `${n}` is a string of decimal digits that denotes `n` |
| Js.ParseHexInt | src/lib/api.ts:208 | `parseInt(s, 16)` is `NaN` for blank text and the value of a plain hexadecimal numeral |
| Js.HexQuantityRoundTrip | src/lib/api.ts:193-208 | `parseInt` in base 16 reads back `0x` followed by `toString(16)` of any natural number |
| SearchBar.DetectSearchType | src/components/SearchBar.tsx:54-89 | for each kind, the classifier answers that kind exactly when that kind's rule matches the trimmed input; `name` needs one of the name rules and none of the three earlier rules |
| SearchBar.TxHashIsTransaction | src/components/SearchBar.tsx:59-61 | `0x` and 64 hex digits in either case is a transaction |
| SearchBar.AddressIsAddress | src/components/SearchBar.tsx:64-66 | `0x` and 40 hex digits is an address |
| SearchBar.DigitsAreBlock | src/components/SearchBar.tsx:69-86 | a digit string matches the simple-name rule yet is a block, never a name |
| SearchBar.BatchRefIsBatch | src/components/SearchBar.tsx:74-76 | `batch:` in any letter case, then digits, is a batch |
| SearchBar.ColonIsBatchOrUnknown | src/components/SearchBar.tsx:74-88 | a trimmed query holding a colon is a batch or unknown |
| SearchBar.ForeignCharIsUnknown | src/components/SearchBar.tsx:54-88 | a character outside `[a-zA-Z0-9.:-]` anywhere in the trimmed query, inner white space included, makes it unknown |
| SearchBar.BlankIsUnknown | src/components/SearchBar.tsx:54-88 | the empty query and an all-white-space query are unknown |
| SearchBar.OtherHexLengthIsName | src/components/SearchBar.tsx:79-86 | `0x` and hex digits of any length other than 40 or 64 is a name |
| SearchBar.LetterFirstIsName | src/components/SearchBar.tsx:59-86 | an alphanumeric string starting with a letter is a name |
| SearchBar.DottedNameIsName | src/components/SearchBar.tsx:79-81 | a string over `[a-zA-Z0-9.-]` containing a dot is a name |
| SearchBar.ClassifyIgnoresPadding | src/components/SearchBar.tsx:56 | white space around a query does not change its kind |
| SearchBar.ClassifyTrimmed | src/components/SearchBar.tsx:26 | classifying the trimmed query is classifying the query |
| SearchBar.LowerBatchExample | src/components/SearchBar.tsx:74-76 | `batch:123` is a batch |
| SearchBar.UpperBatchExample | src/components/SearchBar.tsx:74-76 | `BATCH:123` is a batch |
| SearchBar.BatchWithoutDigitsExample | src/components/SearchBar.tsx:74-88 | `batch:abc` is unknown |
| SearchBar.DottedNameExample | src/components/SearchBar.tsx:79-81 | `alice.l2` is a name |
| SearchBar.SimpleNameExample | src/components/SearchBar.tsx:84-86 | `alice123` is a name |
| SearchBar.InnerSpaceExample | src/components/SearchBar.tsx:84-88 | `alice 123` is unknown |
| SearchBar.Route | src/components/SearchBar.tsx:17-46 | a blank query navigates nowhere; a query navigates exactly when its kind is not unknown, to the kind's prefix followed by the trimmed query |
| SearchBar.RouteDeterminesQuery | src/components/SearchBar.tsx:28-43 | two queries with the same route have the same kind and the same trimmed text |
| SearchBar.RoutePrefixesDistinct | src/components/SearchBar.tsx:28-43 | the five route prefixes split a route back into one kind and one query |
| SearchBar.SearchForm.constructor | src/components/SearchBar.tsx:10-11 | the form starts with an empty query and not loading |
| SearchBar.SearchForm.SetQuery | src/components/SearchBar.tsx:91-93 | typing or clearing replaces the query and leaves the loading flag alone |
| SearchBar.SearchForm.SubmitDisabled | src/components/SearchBar.tsx:135-138 | the submit button is disabled exactly while loading or while the query is all white space |
| SearchBar.SubmitWhenEnabled | src/components/SearchBar.tsx:14-52 | a submission the enabled button allows never raises the empty-query toast; it navigates or reports an invalid format and ends not loading |
| SearchBar.SearchForm.HandleSearch | src/components/SearchBar.tsx:14-52 | a blank query gives the empty-query toast without touching the loading flag; any other query navigates to its route, or gives the invalid-format toast when unknown, and leaves loading off |
| Api.Message | src/lib/api.ts:119-152 | a rejected REST status gives an `HTTP error! status: ` message, a rejected RPC status an `RPC error! status: ` one, and a network failure, an unreadable body or a JSON-RPC `error` passes its own text on |
| Api.HttpMessageCarriesStatus | src/lib/api.ts:119-121 | the HTTP error message ends in the decimal status it reports |
| Api.RestOutcome | src/lib/api.ts:107-128 | `request` succeeds exactly on a 2xx reply whose body parses, with that body; a rejection or non-2xx status fails with its cause |
| Api.RpcOutcome | src/lib/api.ts:130-160 | `rpcRequest` succeeds exactly on a 2xx parsed reply without an `error` member, with its `result`; an `error` member fails with its message; transport failures fail with their cause |
| Api.ReadQuantity | src/lib/api.ts:207-208 | the block-number result is read as a hexadecimal integer: `NaN` when the result is missing, otherwise what `parseInt` with radix 16 reads from it |
| Api.CatchToNull | src/lib/api.ts:168-174 | a lookup answers `null` exactly when the request failed or answered `null` |
| Api.RpcEnvelope | src/lib/api.ts:137-142 | the envelope is a JSON-RPC 2.0 request object (version `2.0`, a non-reserved method name) carrying the method, the parameters and id 1 |
| Api.Quantity | src/lib/api.ts:193 | a quantity is `0x` followed by lower-case hex digits without a leading zero |
| Api.QuantityRoundTrip | src/lib/api.ts:193-208 | `parseInt(·, 16)` reads every quantity back as its number |
| Api.QuantityInjective | src/lib/api.ts:193 | different numbers are sent as different quantities |
| Api.QuantityOf255 | src/lib/api.ts:193 | 255 is sent as `0xff` |
| Api.EnvOr | src/lib/api.ts:3-4 | an unset or empty variable gives the fallback URL, any other value is used as is |
| Api.DefaultClient | src/lib/api.ts:3-4 | the shared client's URLs come from the environment or the defaults and are never empty |
| Api.ApiClient.Url | src/lib/api.ts:108 | a REST URL is the base URL followed by the endpoint |
| Api.ApiClient.GetNetworkStats | src/lib/api.ts:163-165 | GET `/api/v1/stats`, failures propagate |
| Api.ApiClient.GetLatestTransactions | src/lib/api.ts:176-178 | GET `/api/v1/transactions?limit=` with the limit, 10 by default; failures propagate |
| Api.ApiClient.GetTransactionsByAddress | src/lib/api.ts:180-187 | GET the address's transactions with page 1 and limit 20 by default; failures propagate |
| Api.ApiClient.GetLatestBlocks | src/lib/api.ts:202-204 | GET `/api/v1/blocks?limit=`, 10 by default; failures propagate |
| Api.ApiClient.GetLatestBlockNumber | src/lib/api.ts:206-209 | `eth_blockNumber` with no parameters; a failure propagates, an answer is read with `parseInt(·, 16)` (`NaN` for a missing result) |
| Api.ApiClient.GetAddressBalance | src/lib/api.ts:220-222 | `eth_getBalance` of the address at `latest`, whatever the token address; failures propagate |
| Api.ApiClient.GetLatestBatches | src/lib/api.ts:237-239 | GET `/api/v1/batches?limit=`, 10 by default; failures propagate |
| Api.ApiClient.GetTransaction | src/lib/api.ts:168-174 | `eth_getTransactionByHash` of the hash; every failure becomes `null` |
| Api.ApiClient.GetBlock | src/lib/api.ts:190-200 | a number or digit string asks `eth_getBlockByNumber` for its quantity, anything else asks `eth_getBlockByHash` for the text as is, both with full transactions; every failure becomes `null` |
| Api.ApiClient.GetAddress | src/lib/api.ts:212-218 | GET `/api/v1/addresses/` and the address; every failure becomes `null` |
| Api.ApiClient.GetBatch | src/lib/api.ts:225-235 | as `GetBlock` with `enterl2_getBatchByNumber` and `enterl2_getBatchByHash` and no second parameter |
| Api.ApiClient.GetNameInfo | src/lib/api.ts:242-248 | `enterl2_getNameInfo` of the name; every failure becomes `null` |
| Api.ApiClient.ResolveAddress | src/lib/api.ts:250-256 | GET `/api/v1/names/reverse/` and the address; every failure becomes `null` |
| Api.ApiClient.Search | src/lib/api.ts:259-268 | GET `/api/v1/search?q=` and the encoded query; every failure becomes `null` |
| Api.ApiClient.GetStakingInfo | src/lib/api.ts:271-277 | `enterl2_getStakingInfo` of the address; every failure becomes `null` |
| Api.ApiClient.GetBridgeStatus | src/lib/api.ts:280-286 | `enterl2_getBridgeStatus` of the hash; every failure becomes `null` |
| Api.ApiClient.GetWalletInfo | src/lib/api.ts:289-295 | `enterl2_getWalletInfo` of the address; every failure becomes `null` |
| Api.LookupHidesFailures | src/lib/api.ts:168-174 | whatever the node does wrong, a transaction lookup answers `null` |
| Api.ListingPropagatesFailures | src/lib/api.ts:202-204 | a block listing whose reply is not delivered fails |
| Api.LatestBlockNumberRoundTrip | src/lib/api.ts:206-209 | when the node answers the quantity of `n`, the latest block number is `n` |
| Api.DigitStringLookupIsNumberLookup | src/lib/api.ts:190-193 | a digit string and its number ask for the same block, and the quantity sent reads back as that number |
| TransactionDetails.TypeLabel | src/components/TransactionDetails.tsx:61-70 | the label is `Unknown` exactly for codes outside 0..4 |
| TransactionDetails.TypeCode | src/components/TransactionDetails.tsx:62-68 | a label names a code in 0..4, if any |
| TransactionDetails.TypeLabelRoundTrip | src/components/TransactionDetails.tsx:61-70 | the labels of codes 0..4 name those codes back, and every other code reads as no code |
| TransactionDetails.TypeLabelInjective | src/components/TransactionDetails.tsx:62-68 | two known codes never share a label |
| TransactionDetails.StatusColor | src/components/TransactionDetails.tsx:48-59 | the badge is the gray default exactly for a status other than confirmed, failed and pending; with ColorAndIconAgree, the badge depends on the status's tone alone |
| TransactionDetails.StatusIcon | src/components/TransactionDetails.tsx:35-46 | the icon classes follow the same tone; a check exactly for confirmed, a cross exactly for failed |
| TransactionDetails.BadgeClassInjective | src/components/TransactionDetails.tsx:48-59 | no two tones share badge classes |
| TransactionDetails.GlyphClassInjective | src/components/TransactionDetails.tsx:35-46 | no two tones share icon classes |
| TransactionDetails.ColorAndIconAgree | src/components/TransactionDetails.tsx:35-59 | two statuses get the same badge exactly when they get the same icon, exactly when they have the same tone |
| TransactionDetails.KnownStatusStyles | src/components/TransactionDetails.tsx:35-59 | confirmed, failed and pending are drawn with the green check, the red cross and the yellow clock and their badge classes |
| TransactionDetails.UnlistedStatusIsGray | src/components/TransactionDetails.tsx:43-57 | any status other than the three known ones gets the gray badge and the gray clock |
| TransactionDetails.DisplayStatus | src/components/TransactionDetails.tsx:86 | the shown status has the same length, its first character upper-cased and the rest unchanged |
| TransactionDetails.DisplayStatusRecoverable | src/components/TransactionDetails.tsx:86 | for a status starting with a lower-case letter, lower-casing the shown first letter gives the status back |
| TransactionDetails.DisplayStatusIdempotent | src/components/TransactionDetails.tsx:86 | capitalising a capitalised status changes nothing |
| TransactionDetails.KnownStatusesDisplayed | src/components/TransactionDetails.tsx:86 | `confirmed`, `failed` and `pending` show as `Confirmed`, `Failed` and `Pending` |
| TransactionDetails.FeeTokenLabel | src/components/TransactionDetails.tsx:307 | the label is `ETH` exactly for the zero address and `USDC` otherwise |
| TransactionDetails.FeeTokenIsCaseSensitive | src/components/TransactionDetails.tsx:307 | the zero address written with `0X` reads as `USDC` |
| TransactionDetails.FeeInformation | src/components/TransactionDetails.tsx:287-326 | the payer links to its address page, the token label is as above, and the merchant-paid notice shows exactly when the payer is not the sender |
| TransactionDetails.SelfPaidHasNoNotice | src/components/TransactionDetails.tsx:312 | a sender who paid their own fee sees no notice |
| TransactionDetails.BlockNumberCell | src/components/TransactionDetails.tsx:123-132 | `Pending` without a link exactly for a missing or zero block number, followed by the text of the falsy number itself (`0`) and nothing for a missing one; otherwise the number and a `/block/` link whose digits denote it |
| TransactionDetails.IntendedBlockNumberCell | src/components/TransactionDetails.tsx:123-132 | with a boolean guard every falsy block number shows `Pending` alone, and every truthy one the page's own cell |
| TransactionDetails.GenesisBlockShowsStrayZero | src/components/TransactionDetails.tsx:123-125 | block 0 shows `Pending` followed by a stray `0`, unlike a missing block number, while the intended cell shows both alike |
| TransactionDetails.TimestampCell | src/components/TransactionDetails.tsx:141-144 | `Pending` exactly for a missing or zero timestamp; otherwise that moment in milliseconds |
| TransactionDetails.GasUsedCell | src/components/TransactionDetails.tsx:171 | `N/A` exactly for missing or empty gas, otherwise the amount |
| TransactionDetails.FalsyFallbacks | src/components/TransactionDetails.tsx:123-144 | a missing timestamp shows like timestamp 0, but block 0 does not show like a missing block number |
| TransactionDetails.RawDataPanel.constructor | src/components/TransactionDetails.tsx:28 | the raw data starts hidden |
| TransactionDetails.RawDataPanel.Toggle | src/components/TransactionDetails.tsx:341 | a click flips `showRawData` |
| TransactionDetails.RawDataPanel.ButtonLabel | src/components/TransactionDetails.tsx:345 | the button reads `Hide Raw Data` exactly when open and `Show Raw Data` exactly when closed |
| TransactionDetails.RawDataPanel.ButtonGlyph | src/components/TransactionDetails.tsx:344 | the crossed eye shows exactly when open |
| TransactionDetails.ToggleTwice | src/components/TransactionDetails.tsx:341 | two clicks restore the panel and its label |
| TransactionDetails.ClickChangesLabel | src/components/TransactionDetails.tsx:341-349 | one click changes both the label and whether the JSON is rendered |
| Explorer.TransactionSearchToLookup | src/components/SearchBar.tsx:32-33 | a typed transaction hash opens `/tx/` with that hash, and a failing node makes its lookup `null` |
| Explorer.BlockSearchIsNumberLookup | src/lib/api.ts:190-193 | a query classified as a block is looked up by number, and the quantity sent reads back as that number |
| Explorer.BlockLinkMatchesSearch | src/components/TransactionDetails.tsx:125-127 | the block link beside a mined block is the page the search bar opens for that number |
| Explorer.ZeroAddressIsSearchableAddress | src/components/TransactionDetails.tsx:307 | the zero address classifies as an address and routes to its address page |
| Explorer.PayerLinkMatchesSearch | src/components/TransactionDetails.tsx:287-289 | the fee payer's link is the search bar's route for a well-formed payer address |

## Findings

| source | as written | input that shows it | evidently intended | confidence | as-written member | corrected member |
|---|---|---|---|---|---|---|
| src/components/TransactionDetails.tsx:125 | the link is guarded by `{transaction.blockNumber && …}`, which evaluates to the number `0` for block 0, and React renders that number as text | a transaction with `blockNumber` 0 shows `Pending` followed by `0`, where a missing block number shows `Pending` alone | every falsy block number shows `Pending` alone, as with a boolean guard | medium, not executed | TransactionDetails.GenesisBlockShowsStrayZero | TransactionDetails.IntendedBlockNumberCell |

The page's cell is `BlockNumberCell`, as written. `IntendedBlockNumberCell` agrees with it on every truthy block number, so the block links the explorer relates to search routes are the same under both.

## Left out

- `fetch`, request headers, `response.json()` and JSON (de)serialisation are not modelled. They become the `fetch` parameter and the `Reply`/`Payload` datatypes. `console.error` logging is not modelled.
- The async and Promise machinery is not modelled. Each accessor awaits at most one request, so it is a function of that request's reply.
- `Number(x)` above 2^53 loses precision in JavaScript; the model uses unbounded naturals instead. Negative or fractional numbers passed to `getBlock`/`getBatch` are out of scope: `NumberOrHash.Number` holds a `nat`. The `limit` and `page` arguments of the listing accessors are integers written with `${…}`, negative ones included; fractional values such as `2.5` are not modelled. `NaN` from `parseInt` is `None`.
- `encodeURIComponent` in `search` is a library function. It is the parameter `encode`.
- Router navigation is the chosen route string (`Effect.Navigate`) and toasts are their messages. React rendering, animation, clipboard copying and the search suggestions are not modelled.
- The `catch` in `handleSearch` that shows `Search failed. Please try again.` is not modelled: classification and route choice cannot throw.
- `formatEther`, `formatNumber`, `truncateAddress` and `formatDistanceToNow` are not modelled. The cells carry the raw value handed to them.
- The network statistics panel, the landing page hero and the home page are static markup, formatting and polling; they are not part of this model.
- JavaScript strings are UTF-16 code units and Dafny's `char` is a Unicode scalar value. No rule of the classifier accepts a non-ASCII character, so classification is the same. The `trim` white-space set is stated as code points.
- The JSON-RPC `error` member counts as present when it is an object; `Option` models its presence. A `result` that is `null` or absent is `None`. A REST lookup body that is JSON `null` is `Parsed(None)`.
- TransactionDetails.DisplayStatus: upper-cases only ASCII letters. JavaScript's `toUpperCase` also maps other letters, some to two characters (`ß` to `SS`). The contract is stated for the ASCII case.
- Api.ApiClient.GetAddressBalance: the `tokenAddress` argument is accepted and not used, as in the source.
- Api.ListingPropagatesFailures: states only that the listing fails. Which failure it is follows from `GetLatestBlocks`'s own contract.
