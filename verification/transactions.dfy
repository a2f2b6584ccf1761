/**
 * Builder, decoder, validator and receipt verifier of a token transfer. Calldata is a
 * datatype; addresses are numbers behind a codec that may or may not accept a spelling.
 */
module Transactions {
  import opened Wrappers
  import opened Money
  import N = DecimalStrings

  type Address = nat

  /** `isAddress` (strict), `getAddress` (lenient parse) and the checksummed spelling. */
  datatype AddressCodec = AddressCodec(
    strict: string -> bool, parse: string -> Option<Address>, show: Address -> string)

  ghost predicate LawfulCodec(c: AddressCodec) {
    && (forall s :: c.strict(s) ==> c.parse(s).Some?)
    && (forall a: Address :: c.strict(c.show(a)) && c.parse(c.show(a)) == Some(a))
  }

  /** Addresses spelled as numerals are a lawful codec. */
  lemma CodecHypothesisIsConsistent()
    ensures LawfulCodec(AddressCodec(s => N.Plain(s), s => if N.Plain(s) then Some(N.Value(s)) else None, (a: Address) => N.Digits(a)))
  {
    forall a: Address ensures N.Plain(N.Digits(a)) && N.Value(N.Digits(a)) == a {
      N.DigitsIsPlain(a);
    }
  }

  datatype Asset = Asset(symbol: string, address: Option<string>, decimals: nat)

  datatype Chain = Chain(network: string, chainId: int, usdc: Option<Asset>)

  type Registry = map<string, Chain>

  /** The registry is indexed by the network name, and lists USDC under that symbol. */
  ghost predicate LawfulRegistry(reg: Registry) {
    forall n :: n in reg ==> reg[n].network == n && (reg[n].usdc.Some? ==> reg[n].usdc.value.symbol == "USDC")
  }

  function Usdc(reg: Registry, network: string): Option<Asset> {
    if network in reg then reg[network].usdc else None
  }

  /** The token address is the configured one, if it is not empty. */
  lemma TokenIsConfigured(usdc: Option<Asset>, a: string)
    ensures TokenAddress(usdc) == Some(a) <==> usdc.Some? && usdc.value.address == Some(a) && a != ""
  {
  }

  /** A configured, non-empty token address. */
  function TokenAddress(usdc: Option<Asset>): Option<string> {
    if usdc.Some? && usdc.value.address.Some? && usdc.value.address.value != "" then usdc.value.address else None
  }

  datatype Calldata =
    | Transfer(to: Address, amount: nat)
    | Approve(spender: Address, amount: nat)
    | TransferFrom(sender: Address, to: Address, amount: nat)
    | Opaque

  datatype Intent = Intent(
    transactionId: string, actionType: string, network: string, assetSymbol: string, amount: string, recipient: string)

  datatype TransactionRequest = TransactionRequest(
    transactionId: string, chainId: int, chainName: string, sender: string, to: string, value: string,
    data: Calldata, assetSymbol: string, assetAddress: string, amount: string)

  const UINT256_LIMIT: nat := 0x1_0000000000000000_0000000000000000_0000000000000000_0000000000000000

  // --------------------------------------------------------------------- builder

  function RequireAddress(c: AddressCodec, value: string): Result<Address> {
    if value == "" || !c.strict(value) then Err(BUILD_ERROR)
    else if c.parse(value).None? then Err(INVALID_ADDRESS)
    else Ok(c.parse(value).value)
  }

  function Build(c: AddressCodec, reg: Registry, intent: Intent, from: string): Result<TransactionRequest> {
    if intent.actionType != "payment" && intent.actionType != "transfer" then Err(BUILD_ERROR)
    else if intent.assetSymbol != "USDC" then Err(UNSUPPORTED)
    else if intent.network !in reg then Err(CONFIG_ERROR)
    else if reg[intent.network].usdc.None? then Err(UNSUPPORTED)
    else
      var chain := reg[intent.network];
      var usdc := chain.usdc.value;
      if TokenAddress(chain.usdc).None? then Err(CONFIG_ERROR)
      else
        match (RequireAddress(c, from), RequireAddress(c, intent.recipient), RequireAddress(c, usdc.address.value))
        case (Ok(sender), Ok(recipient), Ok(token)) =>
          (match ToBaseUnits(intent.amount, usdc.decimals)
           case Err(e) => Err(e)
           case Ok(units) =>
             if units == 0 then Err(BUILD_ERROR)
             else if units >= UINT256_LIMIT then Err(RANGE_ERROR)
             else Ok(TransactionRequest(intent.transactionId, chain.chainId, chain.network, c.show(sender), c.show(token),
                                        "0", Transfer(recipient, units), usdc.symbol, c.show(token), intent.amount)))
        case (Err(e), _, _) => Err(e)
        case (_, Err(e), _) => Err(e)
        case (_, _, Err(e)) => Err(e)
  }

  // --------------------------------------------------------------------- decoder

  datatype Function = TRANSFER | APPROVE | TRANSFER_FROM

  datatype Decoded = Decoded(
    called: Option<Function>, target: Option<Address>, amountUnits: Option<nat>, token: Address)

  function Decode(c: AddressCodec, tx: TransactionRequest): Result<Decoded> {
    match c.parse(tx.to)
    case None => Err(INVALID_ADDRESS)
    case Some(token) =>
      match tx.data
      case Transfer(to, amount) => Ok(Decoded(Some(TRANSFER), Some(to), Some(amount), token))
      case Approve(spender, amount) => Ok(Decoded(Some(APPROVE), Some(spender), Some(amount), token))
      case TransferFrom(_, to, amount) => Ok(Decoded(Some(TRANSFER_FROM), Some(to), Some(amount), token))
      case Opaque => Ok(Decoded(None, None, None, token))
  }

  // ------------------------------------------------------------------- validator

  /** The discrepancies the validator and the receipt verifier report. */
  datatype Label =
    | CHAIN | NETWORK | ASSET_SYMBOL | TOKEN_CONTRACT | TOKEN_UNKNOWN | UNKNOWN_FUNCTION | UNEXPECTED_FUNCTION
    | RECIPIENT | AMOUNT | NATIVE_VALUE | TX_REVERTED | ASSET | NO_TRANSFER

  datatype Expectation = Expectation(network: string, chainId: int, recipient: string, asset: string, amount: string)

  function When(b: bool, what: Label): seq<Label> {
    if b then [what] else []
  }

  function DecimalsOf(usdc: Option<Asset>): nat {
    if usdc.Some? then usdc.value.decimals else 6
  }

  /** The label pushed for the token contract, when the comparison can be made at all. */
  function TokenLabels(c: AddressCodec, tx: TransactionRequest, usdc: Option<Asset>): Result<seq<Label>> {
    match TokenAddress(usdc)
    case None => Ok([TOKEN_UNKNOWN])
    case Some(address) =>
      if tx.to != "" && c.strict(tx.to) then
        if c.parse(tx.to).None? || c.parse(address).None? then Err(INVALID_ADDRESS)
        else Ok(When(c.parse(tx.to) != c.parse(address), TOKEN_CONTRACT))
      else Ok([])
  }

  function CallLabels(c: AddressCodec, decoded: Decoded, exp: Expectation, decimals: nat): Result<seq<Label>> {
    if decoded.called.None? then Ok([UNKNOWN_FUNCTION])
    else if decoded.called != Some(TRANSFER) then Ok([UNEXPECTED_FUNCTION])
    else
      match ToBaseUnits(exp.amount, decimals)
      case Err(e) => Err(e)
      case Ok(units) =>
        Ok(When(!c.strict(exp.recipient) || decoded.target != c.parse(exp.recipient), RECIPIENT)
           + When(decoded.amountUnits != Some(units), AMOUNT))
  }

  /** The discrepancies of a transaction, in the order they are found. */
  function Discrepancies(c: AddressCodec, reg: Registry, tx: TransactionRequest, exp: Expectation): Result<seq<Label>> {
    var usdc := Usdc(reg, exp.network);
    match TokenLabels(c, tx, usdc)
    case Err(e) => Err(e)
    case Ok(token) =>
      match Decode(c, tx)
      case Err(e) => Err(e)
      case Ok(decoded) =>
        match CallLabels(c, decoded, exp, DecimalsOf(usdc))
        case Err(e) => Err(e)
        case Ok(call) =>
          Ok(When(tx.chainId != exp.chainId, CHAIN) + When(tx.chainName != exp.network, NETWORK)
             + When(tx.assetSymbol != exp.asset, ASSET_SYMBOL) + token + call + When(tx.value != "0", NATIVE_VALUE))
  }

  /** The function, recipient and amount part of `check`. */
  method CheckCall(c: AddressCodec, decoded: Decoded, exp: Expectation, decimals: nat) returns (r: Result<seq<Label>>)
    ensures r == CallLabels(c, decoded, exp, decimals)
  {
    var discrepancies: seq<Label> := [];
    if decoded.called.None? {
      discrepancies := discrepancies + [UNKNOWN_FUNCTION];
    } else if decoded.called != Some(TRANSFER) {
      discrepancies := discrepancies + [UNEXPECTED_FUNCTION];
    } else {
      if !c.strict(exp.recipient) {
        discrepancies := discrepancies + [RECIPIENT];
      } else if decoded.target != c.parse(exp.recipient) {
        discrepancies := discrepancies + [RECIPIENT];
      }
      var authorized := ToBaseUnits(exp.amount, decimals);
      if authorized.Err? { return Err(authorized.error); }
      if decoded.amountUnits != Some(authorized.value) { discrepancies := discrepancies + [AMOUNT]; }
    }
    assert discrepancies == CallLabels(c, decoded, exp, decimals).value;
    return Ok(discrepancies);
  }

  /** `check`: pushes a label for every field that diverges. */
  method Check(c: AddressCodec, reg: Registry, tx: TransactionRequest, exp: Expectation) returns (r: Result<seq<Label>>)
    ensures r == Discrepancies(c, reg, tx, exp)
  {
    var discrepancies: seq<Label> := [];
    if tx.chainId != exp.chainId { discrepancies := discrepancies + [CHAIN]; }
    if tx.chainName != exp.network { discrepancies := discrepancies + [NETWORK]; }

    var usdc := Usdc(reg, exp.network);
    if tx.assetSymbol != exp.asset { discrepancies := discrepancies + [ASSET_SYMBOL]; }
    ghost var head := When(tx.chainId != exp.chainId, CHAIN) + When(tx.chainName != exp.network, NETWORK)
      + When(tx.assetSymbol != exp.asset, ASSET_SYMBOL);
    assert discrepancies == head;
    var address := TokenAddress(usdc);
    if address.Some? && tx.to != "" && c.strict(tx.to) {
      var actual, expected := c.parse(tx.to), c.parse(address.value);
      if actual.None? || expected.None? { return Err(INVALID_ADDRESS); }
      if actual != expected { discrepancies := discrepancies + [TOKEN_CONTRACT]; }
    } else if address.None? {
      discrepancies := discrepancies + [TOKEN_UNKNOWN];
    }
    assert discrepancies == head + TokenLabels(c, tx, usdc).value;

    var decode := Decode(c, tx);
    if decode.Err? { return Err(decode.error); }
    var decoded := decode.value;
    var call := CheckCall(c, decoded, exp, DecimalsOf(usdc));
    if call.Err? { return Err(call.error); }
    discrepancies := discrepancies + call.value;
    assert discrepancies == head + TokenLabels(c, tx, usdc).value + CallLabels(c, decoded, exp, DecimalsOf(usdc)).value;

    if tx.value != "0" { discrepancies := discrepancies + [NATIVE_VALUE]; }
    assert discrepancies == Discrepancies(c, reg, tx, exp).value;
    return Ok(discrepancies);
  }

  /** What it takes for any transaction to pass, in terms of its bytes. */
  lemma CheckPassesExactly(c: AddressCodec, reg: Registry, tx: TransactionRequest, exp: Expectation)
    requires LawfulCodec(c)
    ensures Discrepancies(c, reg, tx, exp) == Ok([]) <==>
      && tx.chainId == exp.chainId && tx.chainName == exp.network && tx.assetSymbol == exp.asset && tx.value == "0"
      && c.parse(tx.to).Some?
      && TokenAddress(Usdc(reg, exp.network)).Some?
      && (tx.to != "" && c.strict(tx.to) ==> c.parse(tx.to) == c.parse(TokenAddress(Usdc(reg, exp.network)).value))
      && tx.data.Transfer? && c.strict(exp.recipient) && c.parse(exp.recipient) == Some(tx.data.to)
      && ToBaseUnits(exp.amount, DecimalsOf(Usdc(reg, exp.network))) == Ok(tx.data.amount)
  {
    var usdc := Usdc(reg, exp.network);
    if Discrepancies(c, reg, tx, exp).Ok? {
      var labels := Discrepancies(c, reg, tx, exp).value;
      var token := TokenLabels(c, tx, usdc).value;
      var call := CallLabels(c, Decode(c, tx).value, exp, DecimalsOf(usdc)).value;
      assert |labels| >= |token| + |call|;
      assert labels == [] <==> |labels| == 0;
    }
  }

  /**
   * A transaction the builder made from an intent passes exactly when the expectation names
   * the same chain, network, asset, recipient and base-unit amount.
   */
  lemma BuiltPassesIffExpected(c: AddressCodec, reg: Registry, intent: Intent, from: string, exp: Expectation)
    requires LawfulCodec(c) && LawfulRegistry(reg) && Build(c, reg, intent, from).Ok?
    ensures intent.network in reg && reg[intent.network].usdc.Some?
    ensures Discrepancies(c, reg, Build(c, reg, intent, from).value, exp) == Ok([]) <==>
      && exp.network == intent.network && exp.chainId == reg[intent.network].chainId && exp.asset == "USDC"
      && c.strict(exp.recipient) && c.parse(exp.recipient) == c.parse(intent.recipient)
      && ToBaseUnits(exp.amount, reg[intent.network].usdc.value.decimals)
           == ToBaseUnits(intent.amount, reg[intent.network].usdc.value.decimals)
  {
    var tx := Build(c, reg, intent, from).value;
    assert c.strict(tx.to) && c.parse(tx.to).Some?;
    CheckPassesExactly(c, reg, tx, exp);
  }

  // ------------------------------------------------------------ receipt verifier

  datatype TransferEvent = TransferEvent(token: Address, sender: Address, to: Address, valueUnits: nat)

  datatype ParsedReceipt = ParsedReceipt(success: bool, transfers: seq<TransferEvent>)

  datatype AuthorizedReceipt = AuthorizedReceipt(
    recipient: string, asset: string, amount: string, network: string, tokenAddress: string, decimals: nat)

  datatype Verification = Verification(verified: bool, discrepancies: seq<Label>, actualRecipient: string, actualAmount: string)

  predicate Matches(t: TransferEvent, token: Option<Address>, recipient: Option<Address>) {
    token == Some(t.token) && recipient == Some(t.to)
  }

  /** The first matching transfer at or after position `n`; the length if there is none. */
  function FirstMatch(ts: seq<TransferEvent>, token: Option<Address>, recipient: Option<Address>, n: nat): (i: nat)
    requires n <= |ts|
    ensures n <= i <= |ts| && (i < |ts| ==> Matches(ts[i], token, recipient))
    ensures forall j :: n <= j < i ==> !Matches(ts[j], token, recipient)
    decreases |ts| - n
  {
    if n == |ts| || Matches(ts[n], token, recipient) then n else FirstMatch(ts, token, recipient, n + 1)
  }

  function AmountText(units: nat, decimals: nat): string {
    var r := FromBaseUnits(units, decimals);
    if r.Ok? then r.value else ""
  }

  /** The labels about the transfer found, or about the first one when none matches. */
  function TransferLabels(parsed: ParsedReceipt, i: nat, token: Option<Address>, units: nat): seq<Label>
    requires i <= |parsed.transfers|
  {
    if i < |parsed.transfers| then When(parsed.transfers[i].valueUnits != units, AMOUNT)
    else if |parsed.transfers| > 0 then [RECIPIENT] + When(token != Some(parsed.transfers[0].token), ASSET)
    else [RECIPIENT, NO_TRANSFER]
  }

  /** The transfer that is reported: the one found, else the first. */
  function Reported(parsed: ParsedReceipt, i: nat): Option<TransferEvent> {
    if i < |parsed.transfers| then Some(parsed.transfers[i])
    else if |parsed.transfers| > 0 then Some(parsed.transfers[0])
    else None
  }

  function Verified(c: AddressCodec, auth: AuthorizedReceipt, parsed: ParsedReceipt, actualNetwork: string): Result<Verification> {
    match ToBaseUnits(auth.amount, auth.decimals)
    case Err(e) => Err(e)
    case Ok(units) =>
      var token, recipient := c.parse(auth.tokenAddress), c.parse(auth.recipient);
      var i := FirstMatch(parsed.transfers, token, recipient, 0);
      var labels := When(!parsed.success, TX_REVERTED) + TransferLabels(parsed, i, token, units)
        + When(auth.network != actualNetwork, NETWORK);
      var t := Reported(parsed, i);
      var seen := if t.Some? then c.show(t.value.to) else "";
      var fallback := if recipient.Some? then c.show(recipient.value) else auth.recipient;
      Ok(Verification(
        labels == [], labels, if seen != "" then seen else fallback,
        if labels == [] then auth.amount
        else if t.Some? then AmountText(t.value.valueUnits, auth.decimals) else "0"))
  }

  /** The search for the transfer of the token to the recipient. */
  method FindTransfer(ts: seq<TransferEvent>, token: Option<Address>, recipient: Option<Address>) returns (n: nat)
    ensures n == FirstMatch(ts, token, recipient, 0)
  {
    n := 0;
    while n < |ts| && !Matches(ts[n], token, recipient)
      invariant n <= |ts|
      invariant FirstMatch(ts, token, recipient, 0) == FirstMatch(ts, token, recipient, n)
    {
      n := n + 1;
    }
  }

  /** `verify`: looks for the transfer, then compares what moved with what was authorized. */
  method VerifyReceipt(c: AddressCodec, auth: AuthorizedReceipt, parsed: ParsedReceipt, actualNetwork: string)
    returns (r: Result<Verification>)
    ensures r == Verified(c, auth, parsed, actualNetwork)
  {
    var discrepancies: seq<Label> := [];
    if !parsed.success { discrepancies := discrepancies + [TX_REVERTED]; }
    var token, recipient := c.parse(auth.tokenAddress), c.parse(auth.recipient);
    var authorized := ToBaseUnits(auth.amount, auth.decimals);
    if authorized.Err? { return Err(authorized.error); }

    var n := FindTransfer(parsed.transfers, token, recipient);
    var actualRecipient, actualAmount := "", "0";
    if n == |parsed.transfers| {
      discrepancies := discrepancies + [RECIPIENT];
      if |parsed.transfers| > 0 {
        var first := parsed.transfers[0];
        actualRecipient, actualAmount := c.show(first.to), AmountText(first.valueUnits, auth.decimals);
        if token != Some(first.token) { discrepancies := discrepancies + [ASSET]; }
      } else {
        discrepancies := discrepancies + [NO_TRANSFER];
      }
    } else {
      actualRecipient, actualAmount := c.show(parsed.transfers[n].to), AmountText(parsed.transfers[n].valueUnits, auth.decimals);
      if parsed.transfers[n].valueUnits != authorized.value { discrepancies := discrepancies + [AMOUNT]; }
    }
    assert discrepancies == When(!parsed.success, TX_REVERTED) + TransferLabels(parsed, n, token, authorized.value);
    if auth.network != actualNetwork { discrepancies := discrepancies + [NETWORK]; }
    assert discrepancies == Verified(c, auth, parsed, actualNetwork).value.discrepancies;

    var verified := discrepancies == [];
    if actualRecipient == "" { actualRecipient := if recipient.Some? then c.show(recipient.value) else auth.recipient; }
    return Ok(Verification(verified, discrepancies, actualRecipient, if verified then auth.amount else actualAmount));
  }

  /** The first transfer of the token to the recipient carries the units. */
  ghost predicate FirstCarries(ts: seq<TransferEvent>, token: Option<Address>, recipient: Option<Address>, units: nat) {
    exists i :: 0 <= i < |ts| && Matches(ts[i], token, recipient) && ts[i].valueUnits == units &&
      forall j :: 0 <= j < i ==> !Matches(ts[j], token, recipient)
  }

  /** A receipt verifies exactly when it succeeded on the network and the first such transfer carries the amount. */
  lemma ReceiptVerifiesExactly(c: AddressCodec, auth: AuthorizedReceipt, parsed: ParsedReceipt, actualNetwork: string)
    ensures Verified(c, auth, parsed, actualNetwork).Ok? <==> ToBaseUnits(auth.amount, auth.decimals).Ok?
    ensures Verified(c, auth, parsed, actualNetwork).Ok? ==>
      (Verified(c, auth, parsed, actualNetwork).value.verified <==>
        && parsed.success && auth.network == actualNetwork
        && FirstCarries(parsed.transfers, c.parse(auth.tokenAddress), c.parse(auth.recipient),
                        ToBaseUnits(auth.amount, auth.decimals).value))
  {
    var token, recipient := c.parse(auth.tokenAddress), c.parse(auth.recipient);
    var i := FirstMatch(parsed.transfers, token, recipient, 0);
    if ToBaseUnits(auth.amount, auth.decimals).Ok? {
      var units := ToBaseUnits(auth.amount, auth.decimals).value;
      assert FirstCarries(parsed.transfers, token, recipient, units) <==>
        i < |parsed.transfers| && parsed.transfers[i].valueUnits == units;
      var labels := Verified(c, auth, parsed, actualNetwork).value.discrepancies;
      assert labels == [] <==> |labels| == 0;
    }
  }

  /** The receipt the pipeline verifies against, made from the expectation it validated. */
  function ReceiptOf(reg: Registry, exp: Expectation): AuthorizedReceipt
    requires Usdc(reg, exp.network).Some?
  {
    var usdc := Usdc(reg, exp.network).value;
    AuthorizedReceipt(exp.recipient, exp.asset, exp.amount, exp.network,
                      if usdc.address.Some? then usdc.address.value else "", usdc.decimals)
  }

  /**
   * Builder, decoder, validator and verifier mean one quantity: for a built transaction
   * that passed the check, a receipt verifies exactly when it succeeded and its first
   * transfer of the token to the recipient moves the units in the calldata.
   */
  lemma OneQuantityEndToEnd(c: AddressCodec, reg: Registry, intent: Intent, from: string, exp: Expectation, parsed: ParsedReceipt)
    requires LawfulCodec(c) && LawfulRegistry(reg) && Build(c, reg, intent, from).Ok?
    requires Discrepancies(c, reg, Build(c, reg, intent, from).value, exp) == Ok([])
    ensures var tx := Build(c, reg, intent, from).value;
      && tx.data.Transfer? && Usdc(reg, exp.network).Some?
      && Verified(c, ReceiptOf(reg, exp), parsed, tx.chainName).Ok?
      && (Verified(c, ReceiptOf(reg, exp), parsed, tx.chainName).value.verified <==>
            parsed.success && FirstCarries(parsed.transfers, c.parse(tx.to), Some(tx.data.to), tx.data.amount))
  {
    var tx := Build(c, reg, intent, from).value;
    BuiltPassesIffExpected(c, reg, intent, from, exp);
    CheckPassesExactly(c, reg, tx, exp);
    ReceiptVerifiesExactly(c, ReceiptOf(reg, exp), parsed, tx.chainName);
  }

  // ------------------------------------------------------------- what each part reports

  /** An address that the builder takes. */
  predicate IsAddress(c: AddressCodec, value: string) {
    value != "" && c.strict(value)
  }

  /**
   * The builder makes a transaction exactly for a payment or transfer of USDC on a configured
   * network, between addresses, of an amount that is not zero and fits its field.
   */
  lemma BuildsExactly(c: AddressCodec, reg: Registry, intent: Intent, from: string)
    requires LawfulCodec(c)
    ensures var r := Build(c, reg, intent, from);
      && (r.Ok? <==>
            && intent.actionType in {"payment", "transfer"} && intent.assetSymbol == "USDC" && intent.network in reg
            && reg[intent.network].usdc.Some? && TokenAddress(reg[intent.network].usdc).Some?
            && IsAddress(c, from) && IsAddress(c, intent.recipient) && IsAddress(c, TokenAddress(reg[intent.network].usdc).value)
            && var units := ToBaseUnits(intent.amount, reg[intent.network].usdc.value.decimals);
               units.Ok? && 0 < units.value < 0x1_0000000000000000_0000000000000000_0000000000000000_0000000000000000)
      && (r.Ok? ==>
            var tx := r.value; var usdc := reg[intent.network].usdc.value; var token := c.parse(TokenAddress(Some(usdc)).value).value;
            && tx.transactionId == intent.transactionId && tx.chainId == reg[intent.network].chainId && tx.chainName == reg[intent.network].network
            && c.parse(tx.sender) == c.parse(from) && tx.to == c.show(token) && tx.assetAddress == c.show(token)
            && tx.value == "0" && tx.assetSymbol == usdc.symbol && tx.amount == intent.amount
            && tx.data == Transfer(c.parse(intent.recipient).value, ToBaseUnits(intent.amount, usdc.decimals).value))
  {
  }

  /** Why the builder refuses: the first of these that applies. */
  lemma BuildSaysWhy(c: AddressCodec, reg: Registry, intent: Intent, from: string)
    requires LawfulCodec(c)
    ensures var r := Build(c, reg, intent, from);
      && (intent.actionType !in {"payment", "transfer"} ==> r == Err(BUILD_ERROR))
      && (intent.actionType in {"payment", "transfer"} ==>
            && (intent.assetSymbol != "USDC" ==> r == Err(UNSUPPORTED))
            && (intent.assetSymbol == "USDC" && intent.network !in reg ==> r == Err(CONFIG_ERROR))
            && (intent.assetSymbol == "USDC" && intent.network in reg ==>
                  && (reg[intent.network].usdc.None? ==> r == Err(UNSUPPORTED))
                  && (reg[intent.network].usdc.Some? && TokenAddress(reg[intent.network].usdc).None? ==> r == Err(CONFIG_ERROR))
                  && (TokenAddress(reg[intent.network].usdc).Some? ==>
                        AddressesSayWhy(c, intent, from, reg[intent.network].usdc.value, r))))
  {
  }

  predicate AddressesSayWhy(c: AddressCodec, intent: Intent, from: string, usdc: Asset, r: Result<TransactionRequest>)
    requires TokenAddress(Some(usdc)).Some?
  {
    var fine := IsAddress(c, from) && IsAddress(c, intent.recipient) && IsAddress(c, TokenAddress(Some(usdc)).value);
    && (!fine ==> r == Err(BUILD_ERROR))
    && (fine ==>
          match ToBaseUnits(intent.amount, usdc.decimals)
          case Err(e) => r == Err(e)
          case Ok(units) =>
            && (units == 0 ==> r == Err(BUILD_ERROR))
            && (units >= UINT256_LIMIT ==> r == Err(RANGE_ERROR)))
  }

  /** Each label of a check is there exactly when its field diverges. */
  lemma CheckSaysWhat(c: AddressCodec, reg: Registry, tx: TransactionRequest, exp: Expectation)
    requires LawfulCodec(c) && Discrepancies(c, reg, tx, exp).Ok?
    ensures var labels := Discrepancies(c, reg, tx, exp).value; var usdc := Usdc(reg, exp.network);
      && (CHAIN in labels <==> tx.chainId != exp.chainId) && (NETWORK in labels <==> tx.chainName != exp.network)
      && (ASSET_SYMBOL in labels <==> tx.assetSymbol != exp.asset) && (NATIVE_VALUE in labels <==> tx.value != "0")
      && (TOKEN_UNKNOWN in labels <==> TokenAddress(usdc).None?)
      && (TOKEN_CONTRACT in labels <==>
            TokenAddress(usdc).Some? && IsAddress(c, tx.to) && c.parse(tx.to) != c.parse(TokenAddress(usdc).value))
      && (UNKNOWN_FUNCTION in labels <==> tx.data.Opaque?)
      && (UNEXPECTED_FUNCTION in labels <==> tx.data.Approve? || tx.data.TransferFrom?)
      && (RECIPIENT in labels <==> tx.data.Transfer? && !(c.strict(exp.recipient) && c.parse(exp.recipient) == Some(tx.data.to)))
      && (AMOUNT in labels <==>
            tx.data.Transfer? && ToBaseUnits(exp.amount, if usdc.Some? then usdc.value.decimals else 6) != Ok(tx.data.amount))
  {
    var usdc := Usdc(reg, exp.network);
    var token := TokenLabels(c, tx, usdc).value;
    var call := CallLabels(c, Decode(c, tx).value, exp, DecimalsOf(usdc)).value;
    TokenLabelsSay(c, tx, usdc);
    CallLabelsSay(c, tx, exp, DecimalsOf(usdc));
    LabelsJoin(tx, exp, token, call);
  }

  lemma TokenLabelsSay(c: AddressCodec, tx: TransactionRequest, usdc: Option<Asset>)
    requires TokenLabels(c, tx, usdc).Ok?
    ensures var labels := TokenLabels(c, tx, usdc).value;
      && (forall l :: l in labels ==> l in {TOKEN_UNKNOWN, TOKEN_CONTRACT})
      && (TOKEN_UNKNOWN in labels <==> TokenAddress(usdc).None?)
      && (TOKEN_CONTRACT in labels <==>
            TokenAddress(usdc).Some? && IsAddress(c, tx.to) && c.parse(tx.to) != c.parse(TokenAddress(usdc).value))
  {
  }

  lemma CallLabelsSay(c: AddressCodec, tx: TransactionRequest, exp: Expectation, decimals: nat)
    requires LawfulCodec(c) && Decode(c, tx).Ok? && CallLabels(c, Decode(c, tx).value, exp, decimals).Ok?
    ensures var labels := CallLabels(c, Decode(c, tx).value, exp, decimals).value;
      && (forall l :: l in labels ==> l in {UNKNOWN_FUNCTION, UNEXPECTED_FUNCTION, RECIPIENT, AMOUNT})
      && (UNKNOWN_FUNCTION in labels <==> tx.data.Opaque?)
      && (UNEXPECTED_FUNCTION in labels <==> tx.data.Approve? || tx.data.TransferFrom?)
      && (RECIPIENT in labels <==> tx.data.Transfer? && !(c.strict(exp.recipient) && c.parse(exp.recipient) == Some(tx.data.to)))
      && (AMOUNT in labels <==> tx.data.Transfer? && ToBaseUnits(exp.amount, decimals) != Ok(tx.data.amount))
  {
  }

  lemma LabelsJoin(tx: TransactionRequest, exp: Expectation, token: seq<Label>, call: seq<Label>)
    requires forall l :: l in token ==> l in {TOKEN_UNKNOWN, TOKEN_CONTRACT}
    requires forall l :: l in call ==> l in {UNKNOWN_FUNCTION, UNEXPECTED_FUNCTION, RECIPIENT, AMOUNT}
    ensures var labels := When(tx.chainId != exp.chainId, CHAIN) + When(tx.chainName != exp.network, NETWORK)
              + When(tx.assetSymbol != exp.asset, ASSET_SYMBOL) + token + call + When(tx.value != "0", NATIVE_VALUE);
      && (CHAIN in labels <==> tx.chainId != exp.chainId) && (NETWORK in labels <==> tx.chainName != exp.network)
      && (ASSET_SYMBOL in labels <==> tx.assetSymbol != exp.asset) && (NATIVE_VALUE in labels <==> tx.value != "0")
      && (forall l :: l in {TOKEN_UNKNOWN, TOKEN_CONTRACT} ==> (l in labels <==> l in token))
      && (forall l :: l in {UNKNOWN_FUNCTION, UNEXPECTED_FUNCTION, RECIPIENT, AMOUNT} ==> (l in labels <==> l in call))
  {
  }

  /** A check fails only on an address or an amount that cannot be read. */
  lemma CheckFailsOnlyOnInput(c: AddressCodec, reg: Registry, tx: TransactionRequest, exp: Expectation)
    requires LawfulCodec(c)
    ensures var r := Discrepancies(c, reg, tx, exp); var usdc := Usdc(reg, exp.network);
      && (c.parse(tx.to).None? ==> r == Err(INVALID_ADDRESS))
      && (c.parse(tx.to).Some? && TokenAddress(usdc).Some? && IsAddress(c, tx.to) && c.parse(TokenAddress(usdc).value).None? ==>
            r == Err(INVALID_ADDRESS))
      && (r.Err? ==> r.error == INVALID_ADDRESS || (tx.data.Transfer? && ToBaseUnits(exp.amount, DecimalsOf(usdc)) == Err(r.error)))
  {
  }

  /** The label of a receipt is there exactly when what it names went wrong. */
  lemma ReceiptSaysWhat(c: AddressCodec, auth: AuthorizedReceipt, parsed: ParsedReceipt, actualNetwork: string)
    requires ToBaseUnits(auth.amount, auth.decimals).Ok?
    ensures var units := ToBaseUnits(auth.amount, auth.decimals).value;
      var token, recipient := c.parse(auth.tokenAddress), c.parse(auth.recipient);
      var v := Verified(c, auth, parsed, actualNetwork).value; var ts := parsed.transfers;
      var found := FirstMatch(ts, token, recipient, 0);
      && (v.verified <==> v.discrepancies == [])
      && (TX_REVERTED in v.discrepancies <==> !parsed.success) && (NETWORK in v.discrepancies <==> auth.network != actualNetwork)
      && (RECIPIENT in v.discrepancies <==> found == |ts|) && (NO_TRANSFER in v.discrepancies <==> |ts| == 0)
      && (ASSET in v.discrepancies <==> found == |ts| && |ts| > 0 && token != Some(ts[0].token))
      && (AMOUNT in v.discrepancies <==> found < |ts| && ts[found].valueUnits != units)
  {
    var units := ToBaseUnits(auth.amount, auth.decimals).value;
    var token, recipient := c.parse(auth.tokenAddress), c.parse(auth.recipient);
    var found := FirstMatch(parsed.transfers, token, recipient, 0);
    TransferLabelsSay(parsed, found, token, units);
  }

  /** The amount and recipient reported are those of the transfer found, else of the first. */
  lemma ReceiptReportsTheTransfer(c: AddressCodec, auth: AuthorizedReceipt, parsed: ParsedReceipt, actualNetwork: string)
    requires ToBaseUnits(auth.amount, auth.decimals).Ok?
    ensures var v := Verified(c, auth, parsed, actualNetwork).value; var ts := parsed.transfers;
      var found := FirstMatch(ts, c.parse(auth.tokenAddress), c.parse(auth.recipient), 0);
      SeenIs(c, auth, parsed, v, if found < |ts| then Some(ts[found]) else if |ts| > 0 then Some(ts[0]) else None)
  {
  }

  /** The transfer found is the first of the token to the recipient. */
  lemma FoundIsFirst(ts: seq<TransferEvent>, token: Option<Address>, recipient: Option<Address>)
    ensures var found := FirstMatch(ts, token, recipient, 0);
      && (found < |ts| ==> token == Some(ts[found].token) && recipient == Some(ts[found].to))
      && (forall j :: 0 <= j < found ==> token != Some(ts[j].token) || recipient != Some(ts[j].to))
  {
    var found := FirstMatch(ts, token, recipient, 0);
    assert forall j :: 0 <= j < found ==> !Matches(ts[j], token, recipient);
  }

  /** The recipient and amount a verification reports. */
  predicate SeenIs(c: AddressCodec, auth: AuthorizedReceipt, parsed: ParsedReceipt, v: Verification, seen: Option<TransferEvent>) {
    && (seen.Some? && c.show(seen.value.to) != "" ==> v.actualRecipient == c.show(seen.value.to))
    && (seen.None? && c.parse(auth.recipient).Some? ==> v.actualRecipient == c.show(c.parse(auth.recipient).value))
    && (seen.None? && c.parse(auth.recipient).None? ==> v.actualRecipient == auth.recipient)
    && (v.verified ==> v.actualAmount == auth.amount)
    && (!v.verified && seen.None? ==> v.actualAmount == "0")
    && (!v.verified && seen.Some? ==> FromBaseUnits(seen.value.valueUnits, auth.decimals) == Ok(v.actualAmount))
  }

  lemma TransferLabelsSay(parsed: ParsedReceipt, i: nat, token: Option<Address>, units: nat)
    requires i <= |parsed.transfers|
    ensures var ts := parsed.transfers; var labels := TransferLabels(parsed, i, token, units);
      && (forall l :: l in labels ==> l in {RECIPIENT, ASSET, AMOUNT, NO_TRANSFER})
      && (RECIPIENT in labels <==> i == |ts|) && (NO_TRANSFER in labels <==> |ts| == 0)
      && (ASSET in labels <==> i == |ts| && |ts| > 0 && token != Some(ts[0].token))
      && (AMOUNT in labels <==> i < |ts| && ts[i].valueUnits != units)
  {
  }
}
