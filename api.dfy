/**
  The explorer's data client: the entities it returns, the two transports it speaks (a REST
  GET against the API base URL and a JSON-RPC 2.0 POST against the node URL), and the
  seventeen accessors of `ApiClient`. The network is a parameter: `fetch` maps the call the
  client makes to the reply it gets, so each accessor is a function of that reply.
*/
module Api {
  import opened Wrappers
  import Js

  // ---------------------------------------------------------------------------
  // Entities, as the node and the REST service return them
  // ---------------------------------------------------------------------------

  datatype NetworkStats = NetworkStats(
    latestBlock: int, totalTransactions: int, activeAddresses: int, totalValueLocked: real,
    averageTps: real, averageBlockTime: real, verifiedBatches: int, storageUsed: real,
    blockGrowth: real, txGrowth: real, addressGrowth: real, tvlGrowth: real, tpsGrowth: real,
    blockTimeChange: real, batchGrowth: real, storageGrowth: real)

  datatype Transaction = Transaction(
    hash: string, txType: int, status: string, from: string, to: string, amount: string,
    token: Option<string>, fee: string, feePayer: string, feeToken: string,
    blockNumber: Option<int>, blockHash: Option<string>, transactionIndex: Option<int>,
    gasUsed: Option<string>, timestamp: Option<int>, nonce: int, description: Option<string>)

  datatype Block = Block(
    number: int, hash: string, parentHash: string, timestamp: int, gasUsed: string,
    gasLimit: string, transactionCount: int, transactions: Option<seq<Transaction>>,
    stateRoot: string, batchHash: Option<string>, sequencer: string)

  datatype AddressKind = Eoa | Contract | ConsumerWallet | MerchantWallet
  datatype WalletKind = Consumer | Merchant
  datatype WalletInfo = WalletInfo(
    kind: WalletKind, owner: string, whitelistEnabled: bool, dailyLimit: string,
    operators: seq<string>)

  datatype Address = Address(
    address: string, balance: string, transactionCount: int, kind: AddressKind,
    isContract: bool, contractName: Option<string>, walletInfo: Option<WalletInfo>)

  datatype BatchStatus = BatchPending | BatchVerified | BatchFinalized
  datatype Batch = Batch(
    number: int, hash: string, timestamp: int, transactionCount: int, stateRoot: string,
    proof: string, status: BatchStatus, l1TxHash: Option<string>)

  datatype NameInfo = NameInfo(
    name: string, owner: string, resolver: string, expiresAt: int, isPrimary: bool,
    phoneNumber: Option<string>, phoneVerified: bool)

  /** One page of an address's transactions. */
  datatype AddressTransactions = AddressTransactions(
    transactions: seq<Transaction>, total: int, page: int, limit: int)

  datatype HitKind = HitTransaction | HitBlock | HitAddress | HitBatch | HitName

  /** A search hit; the service's `result` is untyped, so it is a type parameter. */
  datatype SearchHit<T> = SearchHit(kind: HitKind, result: T)

  // ---------------------------------------------------------------------------
  // Calls and replies
  // ---------------------------------------------------------------------------

  /** A JSON-RPC parameter: the client only ever sends strings and booleans. */
  datatype Param = Str(text: string) | Flag(flag: bool)

  /** The JSON-RPC request object of section 4 of the JSON-RPC 2.0 Specification. */
  datatype Envelope = Envelope(jsonrpc: string, methodName: string, params: seq<Param>, id: int)

  /** What goes on the wire: a REST GET of a URL, or a POST of a JSON-RPC envelope. */
  datatype Call = Get(url: string) | Post(url: string, envelope: Envelope)

  /** The body of a response: JSON that parsed to a `B`, or text `response.json()` rejects. */
  datatype Payload<B> = Unparseable(reason: string) | Parsed(body: B)

  /** What `fetch` settles with: a rejection (network down), or a response with its status. */
  datatype Reply<B> = Unreachable(reason: string) | Response(status: nat, payload: Payload<B>)

  /** The error object of section 5.1 of the JSON-RPC 2.0 Specification. */
  datatype RpcError = RpcError(code: int, message: string)

  /**
    The response object of section 5: an optional `error` member and a `result` member that
    may be `null` or absent (both `None`).
  */
  datatype RpcBody<R> = RpcBody(error: Option<RpcError>, result: Option<R>)

  /** Why a request was rejected; the client keeps no other distinction. */
  datatype Failure =
    | NetworkFailure(reason: string)
    | HttpStatus(status: nat)
    | RpcStatus(status: nat)
    | MalformedBody(reason: string)
    | RpcFault(message: string)

  /** `response.ok`: a status in the 2xx range. */
  predicate IsOk(status: nat) { 200 <= status <= 299 }

  /** A 2xx response whose body parsed. */
  predicate Delivered<B>(reply: Reply<B>) {
    reply.Response? && IsOk(reply.status) && reply.payload.Parsed?
  }

  const HttpErrorPrefix: string := "HTTP error! status: "
  const RpcErrorPrefix: string := "RPC error! status: "

  /**
    The message of the `Error` the client throws: a rejected status is named after the
    transport it came from, and every other failure passes its own text on.
  */
  function Message(f: Failure): (m: string)
    ensures f.HttpStatus? ==> |m| > |HttpErrorPrefix| && m[..|HttpErrorPrefix|] == HttpErrorPrefix
    ensures f.RpcStatus? ==> |m| > |RpcErrorPrefix| && m[..|RpcErrorPrefix|] == RpcErrorPrefix
    ensures f.NetworkFailure? || f.MalformedBody? ==> m == f.reason
    ensures f.RpcFault? ==> m == f.message
  {
    match f
    case NetworkFailure(reason) => reason
    case HttpStatus(status) => HttpErrorPrefix + Js.NumberToString(status)
    case RpcStatus(status) => RpcErrorPrefix + Js.NumberToString(status)
    case MalformedBody(reason) => reason
    case RpcFault(message) => message
  }

  /** The status of a rejected REST response can be read back from the error message. */
  lemma HttpMessageCarriesStatus(status: nat)
    ensures var m := Message(HttpStatus(status));
      && |m| > |HttpErrorPrefix|
      && m[..|HttpErrorPrefix|] == HttpErrorPrefix
      && Js.IsDigits(m[|HttpErrorPrefix|..])
      && Js.NumeralValue(m[|HttpErrorPrefix|..], 10) == status
  {
    var m := Message(HttpStatus(status));
    assert m[|HttpErrorPrefix|..] == Js.NumberToString(status);
  }

  /**
    How `request` turns a reply into a result: a rejection or a non-2xx status is a failure
    (checked before the body is read), a body that does not parse is a failure, and a 2xx
    response with a parsed body yields that body.
  */
  function RestOutcome<B>(reply: Reply<B>): (r: Result<B, Failure>)
    ensures r.Success? <==> Delivered(reply)
    ensures r.Success? ==> r.value == reply.payload.body
    ensures reply.Unreachable? ==> r == Failure(NetworkFailure(reply.reason))
    ensures reply.Response? && !IsOk(reply.status) ==> r == Failure(HttpStatus(reply.status))
  {
    match reply
    case Unreachable(reason) => Failure(NetworkFailure(reason))
    case Response(status, payload) =>
      if !IsOk(status) then Failure(HttpStatus(status))
      else
        match payload
        case Unparseable(reason) => Failure(MalformedBody(reason))
        case Parsed(body) => Success(body)
  }

  /**
    How `rpcRequest` turns a reply into a result: transport failures as for REST (with the
    RPC status message), then an `error` member is a failure carrying its message even when
    a `result` is present too; otherwise the `result` member, possibly `null`.
  */
  function RpcOutcome<R>(reply: Reply<RpcBody<R>>): (r: Result<Option<R>, Failure>)
    ensures r.Success? <==> Delivered(reply) && reply.payload.body.error.None?
    ensures r.Success? ==> r.value == reply.payload.body.result
    ensures Delivered(reply) && reply.payload.body.error.Some? ==>
      r == Failure(RpcFault(reply.payload.body.error.value.message))
    ensures reply.Unreachable? ==> r == Failure(NetworkFailure(reply.reason))
    ensures reply.Response? && !IsOk(reply.status) ==> r == Failure(RpcStatus(reply.status))
  {
    match reply
    case Unreachable(reason) => Failure(NetworkFailure(reason))
    case Response(status, payload) =>
      if !IsOk(status) then Failure(RpcStatus(status))
      else
        match payload
        case Unparseable(reason) => Failure(MalformedBody(reason))
        case Parsed(body) =>
          if body.error.Some? then Failure(RpcFault(body.error.value.message))
          else Success(body.result)
  }

  /**
    The `catch (error) { return null; }` of every lookup accessor: a failure and a `null`
    answer become the same absence.
  */
  function CatchToNull<R>(outcome: Result<Option<R>, Failure>): (r: Option<R>)
    ensures r.None? <==> outcome.Failure? || outcome == Success(None)
    ensures r.Some? ==> outcome == Success(r)
  {
    match outcome
    case Failure(_) => None
    case Success(v) => v
  }

  /** `String(x)` for the `result` of `eth_blockNumber`, where a missing result prints as `null`. */
  function ResultText(result: Option<string>): string {
    match result
    case Some(text) => text
    case None => "null"
  }

  /**
    `parseInt(String(result), 16)`: the number a quantity answer denotes, and `NaN` for a
    missing answer.
  */
  function ReadQuantity(result: Option<string>): (n: Option<int>)
    ensures result.None? ==> n.None?
    ensures result.Some? ==> n == Js.ParseHexInt(result.value)
  {
    var text := ResultText(result);
    assert text == "null" ==> Js.DigitValue(text[0]) >= 16;
    Js.ParseHexInt(text)
  }

  // ---------------------------------------------------------------------------
  // JSON-RPC methods and envelopes
  // ---------------------------------------------------------------------------

  datatype RpcMethod =
    | GetTransactionByHash | GetBlockByNumber | GetBlockByHash | BlockNumber | GetBalance
    | GetBatchByNumber | GetBatchByHash | GetNameInfoMethod | GetStakingInfoMethod
    | GetBridgeStatusMethod | GetWalletInfoMethod

  function MethodName(m: RpcMethod): string {
    match m
    case GetTransactionByHash => "eth_getTransactionByHash"
    case GetBlockByNumber => "eth_getBlockByNumber"
    case GetBlockByHash => "eth_getBlockByHash"
    case BlockNumber => "eth_blockNumber"
    case GetBalance => "eth_getBalance"
    case GetBatchByNumber => "enterl2_getBatchByNumber"
    case GetBatchByHash => "enterl2_getBatchByHash"
    case GetNameInfoMethod => "enterl2_getNameInfo"
    case GetStakingInfoMethod => "enterl2_getStakingInfo"
    case GetBridgeStatusMethod => "enterl2_getBridgeStatus"
    case GetWalletInfoMethod => "enterl2_getWalletInfo"
  }

  /**
    A request object as section 4 of the JSON-RPC 2.0 Specification asks: version `"2.0"`,
    a method name that is not one of the reserved `rpc.` names, and an integer id (so the
    request is not a notification).
  */
  predicate IsRequestObject(e: Envelope) {
    && e.jsonrpc == "2.0"
    && e.methodName != ""
    && !(|e.methodName| >= 4 && e.methodName[..4] == "rpc.")
  }

  /** The envelope `rpcRequest` posts: version `"2.0"`, the method, the parameters and id 1. */
  function RpcEnvelope(m: RpcMethod, params: seq<Param>): (e: Envelope)
    ensures IsRequestObject(e)
    ensures e.methodName == MethodName(m) && e.params == params && e.id == 1
  {
    assert MethodName(m)[0] == 'e';
    Envelope("2.0", MethodName(m), params, 1)
  }

  // ---------------------------------------------------------------------------
  // Block and batch references
  // ---------------------------------------------------------------------------

  /** The `string | number` argument of `getBlock` and `getBatch`. */
  datatype NumberOrHash = Number(n: nat) | Text(s: string)

  /** `typeof x === 'number' || /^\d+$/.test(x.toString())`: look up by number. */
  predicate ByNumber(x: NumberOrHash) {
    x.Number? || Js.IsDigits(x.s)
  }

  /** `Number(x)` for an argument looked up by number. */
  function NumberOf(x: NumberOrHash): nat
    requires ByNumber(x)
  {
    if x.Number? then x.n else Js.NumeralValue(x.s, 10)
  }

  /** `` `0x${n.toString(16)}` ``: the hexadecimal quantity a by-number lookup sends. */
  function Quantity(n: nat): (q: string)
    ensures |q| > 2 && q[..2] == "0x"
    ensures forall i :: 2 <= i < |q| ==> '0' <= q[i] <= '9' || 'a' <= q[i] <= 'f'
    ensures q[2] == '0' ==> n == 0 && q == "0x0"
  {
    var h := Js.ToRadix(n, 16);
    assert forall i :: 0 <= i < |h| ==> Js.DigitValue(h[i]) < 16 && !('A' <= h[i] <= 'Z');
    "0x" + h
  }

  /** `parseInt(·, 16)` reads every quantity back as the number it encodes. */
  lemma QuantityRoundTrip(n: nat)
    ensures Js.ParseHexInt(Quantity(n)) == Some(n)
  {
    Js.HexQuantityRoundTrip(n);
  }

  /** Two numbers never share a quantity. */
  lemma QuantityInjective(a: nat, b: nat)
    requires Quantity(a) == Quantity(b)
    ensures a == b
  {
    QuantityRoundTrip(a);
    QuantityRoundTrip(b);
  }

  /** `Number(n).toString(16)` for 255 is `ff`. */
  lemma QuantityOf255()
    ensures Quantity(255) == "0xff"
  {
    assert 255 / 16 == 15 && 255 % 16 == 15;
    assert Js.ToRadix(15, 16) == ['f'];
    assert Js.ToRadix(255, 16) == Js.ToRadix(15, 16) + [Js.DigitChar(15)];
  }

  // ---------------------------------------------------------------------------
  // Configuration
  // ---------------------------------------------------------------------------

  const DefaultApiUrl: string := "https://api.enterl2.com"
  const DefaultRpcUrl: string := "https://rpc.enterl2.com"

  /** `env || fallback`: an unset or empty variable gives the fallback. */
  function EnvOr(env: Option<string>, fallback: string): (url: string)
    ensures env.Some? && env.value != "" ==> url == env.value
    ensures env.None? || env.value == "" ==> url == fallback
  {
    if env.Some? && env.value != "" then env.value else fallback
  }

  /**
    The module's shared client, built from the two environment variables; neither URL is
    ever empty.
  */
  function DefaultClient(apiUrlEnv: Option<string>, rpcUrlEnv: Option<string>): (c: ApiClient)
    ensures c.baseUrl != "" && c.rpcUrl != ""
    ensures c.baseUrl == EnvOr(apiUrlEnv, DefaultApiUrl)
    ensures c.rpcUrl == EnvOr(rpcUrlEnv, DefaultRpcUrl)
  {
    ApiClient(EnvOr(apiUrlEnv, DefaultApiUrl), EnvOr(rpcUrlEnv, DefaultRpcUrl))
  }

  /** `undefined` selects a parameter's default value. */
  function OrDefault(x: Option<int>, default: int): int {
    if x.Some? then x.value else default
  }

  // ---------------------------------------------------------------------------
  // The client
  // ---------------------------------------------------------------------------

  /**
    `ApiClient`: its two URLs are fixed when it is built, and every accessor reads them and
    nothing else of the client.
  */
  datatype ApiClient = ApiClient(baseUrl: string, rpcUrl: string) {

    /** The URL of a REST endpoint: the endpoint path appended to the base URL. */
    function Url(endpoint: string): (url: string)
      ensures |url| == |baseUrl| + |endpoint|
      ensures url[..|baseUrl|] == baseUrl && url[|baseUrl|..] == endpoint
    {
      baseUrl + endpoint
    }

    /** `request(endpoint)`: GET `baseUrl + endpoint`. */
    function Request<T>(endpoint: string, fetch: Call -> Reply<T>): Result<T, Failure> {
      RestOutcome(fetch(Get(Url(endpoint))))
    }

    /** `rpcRequest(method, params)`: POST the envelope to `rpcUrl`. */
    function RpcRequest<R>(m: RpcMethod, params: seq<Param>, fetch: Call -> Reply<RpcBody<R>>)
      : Result<Option<R>, Failure>
    {
      RpcOutcome(fetch(Post(rpcUrl, RpcEnvelope(m, params))))
    }

    // Listing and aggregate accessors: failures propagate.

    function GetNetworkStats(fetch: Call -> Reply<NetworkStats>): (r: Result<NetworkStats, Failure>)
      ensures r == RestOutcome(fetch(Get(Url("/api/v1/stats"))))
    {
      Request("/api/v1/stats", fetch)
    }

    function GetLatestTransactions(limit: Option<int>, fetch: Call -> Reply<seq<Transaction>>)
      : (r: Result<seq<Transaction>, Failure>)
      ensures r == RestOutcome(fetch(Get(
        Url("/api/v1/transactions?limit=" + Js.IntToString(OrDefault(limit, 10))))))
    {
      Request("/api/v1/transactions?limit=" + Js.IntToString(OrDefault(limit, 10)), fetch)
    }

    function GetTransactionsByAddress(
      address: string, page: Option<int>, limit: Option<int>,
      fetch: Call -> Reply<AddressTransactions>): (r: Result<AddressTransactions, Failure>)
      ensures r == RestOutcome(fetch(Get(
        Url("/api/v1/addresses/" + address + "/transactions?page="
        + Js.IntToString(OrDefault(page, 1)) + "&limit=" + Js.IntToString(OrDefault(limit, 20))))))
    {
      Request("/api/v1/addresses/" + address + "/transactions?page="
        + Js.IntToString(OrDefault(page, 1)) + "&limit=" + Js.IntToString(OrDefault(limit, 20)), fetch)
    }

    function GetLatestBlocks(limit: Option<int>, fetch: Call -> Reply<seq<Block>>)
      : (r: Result<seq<Block>, Failure>)
      ensures r == RestOutcome(fetch(Get(
        Url("/api/v1/blocks?limit=" + Js.IntToString(OrDefault(limit, 10))))))
    {
      Request("/api/v1/blocks?limit=" + Js.IntToString(OrDefault(limit, 10)), fetch)
    }

    /**
      `eth_blockNumber` with the default empty parameter list; a failure propagates, and
      the answer is read with `parseInt(·, 16)` (`None` is `NaN`).
    */
    function GetLatestBlockNumber(fetch: Call -> Reply<RpcBody<string>>): (r: Result<Option<int>, Failure>)
      ensures var outcome := RpcOutcome(fetch(Post(rpcUrl, Envelope("2.0", "eth_blockNumber", [], 1))));
        && (outcome.Failure? ==> r == Failure(outcome.error))
        && (outcome.Success? ==> r == Success(ReadQuantity(outcome.value)))
    {
      var outcome := RpcRequest(BlockNumber, [], fetch);
      assert outcome == RpcOutcome(fetch(Post(rpcUrl, Envelope("2.0", "eth_blockNumber", [], 1))));
      if outcome.Failure? then Failure(outcome.error) else Success(ReadQuantity(outcome.value))
    }

    /** `eth_getBalance` at `latest`; the token address is accepted and not used. */
    function GetAddressBalance(address: string, tokenAddress: Option<string>,
      fetch: Call -> Reply<RpcBody<string>>): (r: Result<Option<string>, Failure>)
      ensures r == RpcOutcome(fetch(Post(rpcUrl,
        Envelope("2.0", "eth_getBalance", [Str(address), Str("latest")], 1))))
    {
      RpcRequest(GetBalance, [Str(address), Str("latest")], fetch)
    }

    function GetLatestBatches(limit: Option<int>, fetch: Call -> Reply<seq<Batch>>)
      : (r: Result<seq<Batch>, Failure>)
      ensures r == RestOutcome(fetch(Get(
        Url("/api/v1/batches?limit=" + Js.IntToString(OrDefault(limit, 10))))))
    {
      Request("/api/v1/batches?limit=" + Js.IntToString(OrDefault(limit, 10)), fetch)
    }

    // Lookup accessors: every failure becomes `null`.

    function GetTransaction(hash: string, fetch: Call -> Reply<RpcBody<Transaction>>): (r: Option<Transaction>)
      ensures r == CatchToNull(RpcOutcome(fetch(Post(rpcUrl,
        Envelope("2.0", "eth_getTransactionByHash", [Str(hash)], 1)))))
    {
      CatchToNull(RpcRequest(GetTransactionByHash, [Str(hash)], fetch))
    }

    /**
      A number, or a string of digits, is looked up by number with its hexadecimal quantity;
      any other string is looked up by hash as it is. Both ask for full transactions.
    */
    function GetBlock(x: NumberOrHash, fetch: Call -> Reply<RpcBody<Block>>): (r: Option<Block>)
      ensures ByNumber(x) ==> r == CatchToNull(RpcOutcome(fetch(Post(rpcUrl,
        Envelope("2.0", "eth_getBlockByNumber", [Str(Quantity(NumberOf(x))), Flag(true)], 1)))))
      ensures !ByNumber(x) ==> r == CatchToNull(RpcOutcome(fetch(Post(rpcUrl,
        Envelope("2.0", "eth_getBlockByHash", [Str(x.s), Flag(true)], 1)))))
    {
      if ByNumber(x) then
        CatchToNull(RpcRequest(GetBlockByNumber, [Str(Quantity(NumberOf(x))), Flag(true)], fetch))
      else
        CatchToNull(RpcRequest(GetBlockByHash, [Str(x.s), Flag(true)], fetch))
    }

    function GetAddress(address: string, fetch: Call -> Reply<Option<Address>>): (r: Option<Address>)
      ensures r == CatchToNull(RestOutcome(fetch(Get(Url("/api/v1/addresses/" + address)))))
    {
      CatchToNull(Request("/api/v1/addresses/" + address, fetch))
    }

    /** As `GetBlock`, with the batch methods and no second parameter. */
    function GetBatch(x: NumberOrHash, fetch: Call -> Reply<RpcBody<Batch>>): (r: Option<Batch>)
      ensures ByNumber(x) ==> r == CatchToNull(RpcOutcome(fetch(Post(rpcUrl,
        Envelope("2.0", "enterl2_getBatchByNumber", [Str(Quantity(NumberOf(x)))], 1)))))
      ensures !ByNumber(x) ==> r == CatchToNull(RpcOutcome(fetch(Post(rpcUrl,
        Envelope("2.0", "enterl2_getBatchByHash", [Str(x.s)], 1)))))
    {
      if ByNumber(x) then
        CatchToNull(RpcRequest(GetBatchByNumber, [Str(Quantity(NumberOf(x)))], fetch))
      else
        CatchToNull(RpcRequest(GetBatchByHash, [Str(x.s)], fetch))
    }

    function GetNameInfo(name: string, fetch: Call -> Reply<RpcBody<NameInfo>>): (r: Option<NameInfo>)
      ensures r == CatchToNull(RpcOutcome(fetch(Post(rpcUrl,
        Envelope("2.0", "enterl2_getNameInfo", [Str(name)], 1)))))
    {
      CatchToNull(RpcRequest(GetNameInfoMethod, [Str(name)], fetch))
    }

    function ResolveAddress(address: string, fetch: Call -> Reply<Option<string>>): (r: Option<string>)
      ensures r == CatchToNull(RestOutcome(fetch(Get(Url("/api/v1/names/reverse/" + address)))))
    {
      CatchToNull(Request("/api/v1/names/reverse/" + address, fetch))
    }

    /** `encodeURIComponent` is passed in as `encode`. */
    function Search<T>(query: string, encode: string -> string,
      fetch: Call -> Reply<Option<SearchHit<T>>>): (r: Option<SearchHit<T>>)
      ensures r == CatchToNull(RestOutcome(fetch(Get(Url("/api/v1/search?q=" + encode(query))))))
    {
      CatchToNull(Request("/api/v1/search?q=" + encode(query), fetch))
    }

    function GetStakingInfo<T>(address: string, fetch: Call -> Reply<RpcBody<T>>): (r: Option<T>)
      ensures r == CatchToNull(RpcOutcome(fetch(Post(rpcUrl,
        Envelope("2.0", "enterl2_getStakingInfo", [Str(address)], 1)))))
    {
      CatchToNull(RpcRequest(GetStakingInfoMethod, [Str(address)], fetch))
    }

    function GetBridgeStatus<T>(txHash: string, fetch: Call -> Reply<RpcBody<T>>): (r: Option<T>)
      ensures r == CatchToNull(RpcOutcome(fetch(Post(rpcUrl,
        Envelope("2.0", "enterl2_getBridgeStatus", [Str(txHash)], 1)))))
    {
      CatchToNull(RpcRequest(GetBridgeStatusMethod, [Str(txHash)], fetch))
    }

    function GetWalletInfo<T>(address: string, fetch: Call -> Reply<RpcBody<T>>): (r: Option<T>)
      ensures r == CatchToNull(RpcOutcome(fetch(Post(rpcUrl,
        Envelope("2.0", "enterl2_getWalletInfo", [Str(address)], 1)))))
    {
      CatchToNull(RpcRequest(GetWalletInfoMethod, [Str(address)], fetch))
    }
  }

  // ---------------------------------------------------------------------------
  // The error policy and the number encoding, end to end
  // ---------------------------------------------------------------------------

  /** A reply the client rejects: no reply, a non-2xx status, an unparseable body, or an RPC error. */
  predicate RpcRejected<R>(reply: Reply<RpcBody<R>>) {
    !Delivered(reply) || reply.payload.body.error.Some?
  }

  /**
    A lookup cannot tell a failed node from a missing entity: whatever the node does wrong,
    `getTransaction` answers `null`, exactly as for a `null` result.
  */
  lemma LookupHidesFailures(c: ApiClient, hash: string, fetch: Call -> Reply<RpcBody<Transaction>>)
    requires RpcRejected(fetch(Post(c.rpcUrl, RpcEnvelope(GetTransactionByHash, [Str(hash)]))))
    ensures c.GetTransaction(hash, fetch) == None
  {
  }

  /** A listing accessor hands a failure on unchanged: `getLatestBlocks` rejects with the transport's failure. */
  lemma ListingPropagatesFailures(c: ApiClient, limit: Option<int>, fetch: Call -> Reply<seq<Block>>)
    requires !Delivered(fetch(Get(c.Url("/api/v1/blocks?limit=" + Js.IntToString(OrDefault(limit, 10))))))
    ensures c.GetLatestBlocks(limit, fetch).Failure?
  {
  }

  /**
    When the node answers `eth_blockNumber` with the quantity of `n`, the client reports
    `n`: the encoding the client sends and the decoding it applies are inverse.
  */
  lemma LatestBlockNumberRoundTrip(c: ApiClient, n: nat, fetch: Call -> Reply<RpcBody<string>>)
    requires fetch(Post(c.rpcUrl, RpcEnvelope(BlockNumber, []))) ==
      Response(200, Parsed(RpcBody(None, Some(Quantity(n)))))
    ensures c.GetLatestBlockNumber(fetch) == Success(Some(n))
  {
    QuantityRoundTrip(n);
  }

  /**
    A decimal string and the number it denotes ask for the same block, and the node can
    read the number back from the parameter.
  */
  lemma DigitStringLookupIsNumberLookup(c: ApiClient, s: string, fetch: Call -> Reply<RpcBody<Block>>)
    requires Js.IsDigits(s)
    ensures c.GetBlock(Text(s), fetch) == c.GetBlock(Number(Js.NumeralValue(s, 10)), fetch)
    ensures Js.ParseHexInt(Quantity(NumberOf(Text(s)))) == Some(Js.NumeralValue(s, 10))
  {
    QuantityRoundTrip(Js.NumeralValue(s, 10));
  }
}
