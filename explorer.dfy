/**
  How the pieces meet: a query typed in the search bar, the route it opens, the client
  lookup that page performs, and the links the transaction page offers back into the
  explorer.
*/
module Explorer {
  import opened Wrappers
  import Js
  import SearchBar
  import Api
  import TransactionDetails

  /**
    A transaction hash typed into the search bar opens the transaction page of that very
    hash, and when the node then fails in any way the lookup answers `null`, just as for a
    hash the node does not know.
  */
  lemma TransactionSearchToLookup(c: Api.ApiClient, s: string,
    fetch: Api.Call -> Api.Reply<Api.RpcBody<Api.Transaction>>)
    requires SearchBar.IsPrefixedHex(s, 64)
    requires Api.RpcRejected(fetch(Api.Post(c.rpcUrl,
      Api.RpcEnvelope(Api.GetTransactionByHash, [Api.Str(s)]))))
    ensures SearchBar.Route(s) == Some("/tx/" + s)
    ensures c.GetTransaction(s, fetch) == None
  {
    SearchBar.TxHashIsTransaction(s);
    Js.TrimUnpadded(s);
  }

  /**
    A query classified as a block is looked up by number: its trimmed text is all digits,
    the client sends the hexadecimal quantity of that number, and that quantity reads back
    as the number.
  */
  lemma BlockSearchIsNumberLookup(query: string)
    requires SearchBar.DetectSearchType(query) == SearchBar.Block
    ensures Api.ByNumber(Api.Text(Js.Trim(query)))
    ensures Js.ParseHexInt(Api.Quantity(Api.NumberOf(Api.Text(Js.Trim(query))))) ==
      Some(Js.NumeralValue(Js.Trim(query), 10))
  {
    Api.QuantityRoundTrip(Js.NumeralValue(Js.Trim(query), 10));
  }

  /**
    The link the transaction page puts beside a mined block is the page the search bar
    opens for that block number.
  */
  lemma BlockLinkMatchesSearch(n: nat)
    requires n > 0
    ensures TransactionDetails.BlockNumberCell(Some(n)).Mined?
    ensures Some(TransactionDetails.BlockNumberCell(Some(n)).link) ==
      SearchBar.Route(Js.NumberToString(n))
  {
    var digits := Js.NumberToString(n);
    SearchBar.DigitsAreBlock(digits);
    assert SearchBar.Route(digits) == Some("/block/" + digits);
    assert TransactionDetails.BlockNumberCell(Some(n)).link == "/block/" + digits;
  }

  /** The zero address the fee panel compares against is itself an address to the search bar. */
  lemma ZeroAddressIsSearchableAddress()
    ensures SearchBar.DetectSearchType(TransactionDetails.ZeroAddress) == SearchBar.Address
    ensures SearchBar.Route(TransactionDetails.ZeroAddress) ==
      Some("/address/" + TransactionDetails.ZeroAddress)
  {
    var z := TransactionDetails.ZeroAddress;
    assert SearchBar.IsPrefixedHex(z, 40);
    SearchBar.AddressIsAddress(z);
    Js.TrimUnpadded(z);
  }

  /**
    The fee payer's link is the page the search bar opens for the payer when the payer is
    a well-formed address.
  */
  lemma PayerLinkMatchesSearch(tx: Api.Transaction)
    requires SearchBar.IsPrefixedHex(tx.feePayer, 40)
    ensures Some(TransactionDetails.FeeInformation(tx).payerLink) == SearchBar.Route(tx.feePayer)
  {
    SearchBar.AddressIsAddress(tx.feePayer);
    Js.TrimUnpadded(tx.feePayer);
  }
}
