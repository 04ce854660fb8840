/**
 * SdkConsumerActivity.kt: turns the form's strings into the SDK's
 * transaction parameters, launches the SDK, and dispatches the SDK's
 * activity result. The SDK's builders and result parsers are opaque and
 * are passed in as functions; what the activity does (show a toast, hand a
 * result to the fragment, launch the SDK, start a status check) is returned
 * as a list of effects.
 */
module SdkConsumer {
  import opened Wrappers
  import opened SdkTypes
  import IntText

  /** `Activity.RESULT_OK` and `Activity.RESULT_CANCELED`. */
  const ResultOk: int := -1
  const ResultCanceled: int := 0

  /** A thrown exception, known by its nullable `message`. */
  datatype Throwable = Throwable(message: Option<string>)

  /** The SDK's `AddressParams`. */
  datatype Address = Address(street1: string, street2: string, city: string, zip: string, country: string)

  /** The amount, left as `toDoubleOrNull() ?: 0.0` of the entry, or `0.0` when the entry is absent. */
  datatype Amount = ParsedAmount(text: string) | ZeroAmount

  /** The SDK's `TransactionParams`, as the builder is given them. */
  datatype TransactionParams = TransactionParams(
    terminalId: int,
    merchantTransactionDescription: string,
    transactionId: string,
    amount: Amount,
    currency: string,
    paymentMethods: seq<PaymentMethod>,
    transactionDescription: string,
    shopUrl: string,
    client: string,
    email: string,
    billingAddress: Option<Address>,
    shippingAddress: Option<Address>)

  /**
   * The SDK's two `build()` calls: None when `build()` returns, the
   * exception when it throws.
   */
  datatype SdkBuilders = SdkBuilders(
    addressBuild: Address -> Option<Throwable>,
    paramsBuild: TransactionParams -> Option<Throwable>)

  /** What the activity does, in order. */
  datatype Effect =
    | Toast(message: string)
    | Launch(params: TransactionParams)
    | SubmitResult(result: TransferResult)
    | StatusCheck(transactionId: string)

  /** A string entry, empty when the key is absent. */
  function OrEmpty(stringParams: map<string, string>, key: string): string {
    if key in stringParams then stringParams[key] else ""
  }

  /** The terminal id: the entry read as an `Int`, 0 when it is absent or not an `Int`. */
  function TerminalId(stringParams: map<string, string>): (id: int)
    ensures IntText.InIntRange(id)
    ensures "terminalId" !in stringParams ==> id == 0
    ensures "terminalId" in stringParams && IntText.ToIntOrNull(stringParams["terminalId"]).None? ==> id == 0
    ensures "terminalId" in stringParams && IntText.ToIntOrNull(stringParams["terminalId"]).Some? ==>
      id == IntText.ToIntOrNull(stringParams["terminalId"]).value
  {
    if "terminalId" in stringParams then IntText.ToIntOrNull(stringParams["terminalId"]).GetOr(0) else 0
  }

  /** A terminal id typed as the text of an `Int` reaches the SDK as that `Int`. */
  lemma TerminalIdRoundTrip(stringParams: map<string, string>, n: int)
    requires IntText.InIntRange(n)
    requires "terminalId" in stringParams && stringParams["terminalId"] == IntText.IntToString(n)
    ensures TerminalId(stringParams) == n
  {
    IntText.IntToStringRoundTrip(n);
  }

  /**
   * A terminal id entry that is absent, or that has a non-digit after its
   * optional sign, becomes 0.
   */
  lemma TerminalIdNotNumeric(stringParams: map<string, string>)
    requires "terminalId" in stringParams ==> !IntText.IsIntText(stringParams["terminalId"])
    ensures TerminalId(stringParams) == 0
    ensures TerminalId(map["terminalId" := "abc"]) == 0
  {
    if "terminalId" in stringParams {
      IntText.ToIntOrNullNotNumeric(stringParams["terminalId"]);
    }
    assert !IntText.IsDigit('a');
  }

  /** A terminal id whose digits do not fit in an `Int` becomes 0, not a wrapped value. */
  lemma TerminalIdOutOfRange(stringParams: map<string, string>)
    requires "terminalId" in stringParams && IntText.IsIntText(stringParams["terminalId"])
    requires !IntText.InIntRange(IntText.TextValue(stringParams["terminalId"]))
    ensures TerminalId(stringParams) == 0
  {
    IntText.ToIntOrNullOverflow(stringParams["terminalId"]);
  }

  /** `showErrorToast(msg, cause)`. */
  function ErrorToastText(msg: string, cause: Throwable): (text: string)
    ensures |text| == |msg| + 4 + |cause.message.GetOr("null")|
    ensures text[..|msg|] == msg && text[|msg|..|msg| + 3] == ": [" && text[|text| - 1] == ']'
    ensures text[|msg| + 3..|text| - 1] == cause.message.GetOr("null")
  {
    msg + ": [" + cause.message.GetOr("null") + "]"
  }

  /**
   * The address builder after street1, city, zip and country are set. The
   * city is the literal exactly as the source file holds it: "Cz", then
   * U+00C4 and U+2122 (the UTF-8 bytes of "ę" read as Windows-1252), then "stochowa".
   */
  function AddressWith(street2: string): Address {
    Address("Wall Street", street2, "Cz\U{00C4}\U{2122}stochowa", "42-200", "PL")
  }

  /** The built address, none when `build()` threw. */
  function BuiltAddress(sdk: SdkBuilders, street2: string): Option<Address> {
    if sdk.addressBuild(AddressWith(street2)).None? then Some(AddressWith(street2)) else None
  }

  /** The error toast of an address `build()` that threw. */
  function AddressToasts(sdk: SdkBuilders, street2: string, msg: string): seq<string> {
    if sdk.addressBuild(AddressWith(street2)).Some?
    then [ErrorToastText(msg, sdk.addressBuild(AddressWith(street2)).value)]
    else []
  }

  /** The fields copied as strings, empty when absent. */
  function StringFieldKeys(): set<string> {
    {"merchantTransactionDescription", "transactionId", "transactionDescription", "currency", "client", "email", "shopUrl"}
  }

  /** The request field filled from the form field `key`. */
  function DraftString(d: TransactionParams, key: string): string {
    match key
    case "merchantTransactionDescription" => d.merchantTransactionDescription
    case "transactionId" => d.transactionId
    case "transactionDescription" => d.transactionDescription
    case "currency" => d.currency
    case "client" => d.client
    case "email" => d.email
    case "shopUrl" => d.shopUrl
    case _ => ""
  }

  /** The parameters handed to `TransactionParams.Builder`, before `build()`. */
  function Draft(stringParams: map<string, string>, paymentMethods: seq<PaymentMethod>, sdk: SdkBuilders): (d: TransactionParams)
    ensures d.terminalId == TerminalId(stringParams)
    ensures d.paymentMethods == paymentMethods
    ensures forall key :: key in StringFieldKeys() ==> DraftString(d, key) == (if key in stringParams then stringParams[key] else "")
    ensures d.amount == if "amount" in stringParams then ParsedAmount(stringParams["amount"]) else ZeroAmount
    ensures d.shippingAddress.Some? <==> sdk.addressBuild(AddressWith("shipping")).None?
    ensures d.shippingAddress.Some? ==> d.shippingAddress.value == AddressWith("shipping")
    ensures d.billingAddress.Some? <==> sdk.addressBuild(AddressWith("billing")).None?
    ensures d.billingAddress.Some? ==> d.billingAddress.value == AddressWith("billing")
  {
    TransactionParams(
      TerminalId(stringParams),
      OrEmpty(stringParams, "merchantTransactionDescription"),
      OrEmpty(stringParams, "transactionId"),
      if "amount" in stringParams then ParsedAmount(stringParams["amount"]) else ZeroAmount,
      OrEmpty(stringParams, "currency"),
      paymentMethods,
      OrEmpty(stringParams, "transactionDescription"),
      OrEmpty(stringParams, "shopUrl"),
      OrEmpty(stringParams, "client"),
      OrEmpty(stringParams, "email"),
      BuiltAddress(sdk, "billing"),
      BuiltAddress(sdk, "shipping"))
  }

  /** The two addresses share street1, city, zip and country and differ only in street2. */
  lemma AddressesDifferInStreet2(stringParams: map<string, string>, paymentMethods: seq<PaymentMethod>, sdk: SdkBuilders)
    requires Draft(stringParams, paymentMethods, sdk).shippingAddress.Some?
    requires Draft(stringParams, paymentMethods, sdk).billingAddress.Some?
    ensures var shipping := Draft(stringParams, paymentMethods, sdk).shippingAddress.value;
      var billing := Draft(stringParams, paymentMethods, sdk).billingAddress.value;
      && shipping.(street2 := "billing") == billing
      && shipping != billing
  {
  }

  /** `createTransactionParams`: the parameters (none if `build()` threw) and the error toasts shown. */
  datatype Creation = Creation(params: Option<TransactionParams>, toasts: seq<string>)

  function CreateTransactionParams(stringParams: map<string, string>, paymentMethods: seq<PaymentMethod>, sdk: SdkBuilders): (c: Creation)
    ensures c.params.Some? <==> sdk.paramsBuild(Draft(stringParams, paymentMethods, sdk)).None?
    ensures c.params.Some? ==> c.params.value == Draft(stringParams, paymentMethods, sdk)
    ensures c.toasts ==
      (if sdk.addressBuild(AddressWith("shipping")).Some?
       then [ErrorToastText("Shipping address params", sdk.addressBuild(AddressWith("shipping")).value)]
       else [])
      + (if sdk.addressBuild(AddressWith("billing")).Some?
         then [ErrorToastText("Billing address params", sdk.addressBuild(AddressWith("billing")).value)]
         else [])
      + (if c.params.None?
         then [ErrorToastText("Couldn't build the transaction params", sdk.paramsBuild(Draft(stringParams, paymentMethods, sdk)).value)]
         else [])
  {
    var shipping := AddressToasts(sdk, "shipping", "Shipping address params");
    var billing := AddressToasts(sdk, "billing", "Billing address params");
    var toasts := shipping + billing;
    var draft := Draft(stringParams, paymentMethods, sdk);
    match sdk.paramsBuild(draft)
    case None => Creation(Some(draft), toasts)
    case Some(cause) => Creation(None, toasts + [ErrorToastText("Couldn't build the transaction params", cause)])
  }

  /** One toast effect per message, in order. */
  function Toasts(messages: seq<string>): (effects: seq<Effect>)
    ensures |effects| == |messages|
    ensures forall i :: 0 <= i < |messages| ==> effects[i] == Toast(messages[i])
    ensures forall e :: e in effects ==> e.Toast?
  {
    seq(|messages|, i requires 0 <= i < |messages| => Toast(messages[i]))
  }

  /** What `startPayment` does once `createTransactionParams` returned: its toasts, then the launch if there are parameters. */
  function LaunchOrReturn(c: Creation): (effects: seq<Effect>)
    ensures forall p :: Launch(p) in effects <==> c.params == Some(p)
    ensures |effects| == |c.toasts| + (if c.params.Some? then 1 else 0)
    ensures forall i :: 0 <= i < |c.toasts| ==> effects[i] == Toast(c.toasts[i])
    ensures forall i :: 0 <= i < |effects| - 1 ==> effects[i].Toast?
    ensures forall e :: e in effects ==> !e.SubmitResult? && !e.StatusCheck?
  {
    var toasts := Toasts(c.toasts);
    match c.params
    case None => toasts
    case Some(p) =>
      assert forall i :: 0 <= i < |toasts| ==> (toasts + [Launch(p)])[i] == toasts[i];
      toasts + [Launch(p)]
  }

  /** `startPayment`: launch the SDK with the parameters, or return early when they could not be built. */
  function StartPayment(stringParams: map<string, string>, paymentMethods: seq<PaymentMethod>, sdk: SdkBuilders): (effects: seq<Effect>)
    ensures forall p :: Launch(p) in effects <==> CreateTransactionParams(stringParams, paymentMethods, sdk).params == Some(p)
    ensures forall i :: 0 <= i < |effects| - 1 ==> effects[i].Toast?
    ensures forall e :: e in effects ==> !e.SubmitResult? && !e.StatusCheck?
    ensures var c := CreateTransactionParams(stringParams, paymentMethods, sdk);
      && |effects| == |c.toasts| + (if c.params.Some? then 1 else 0)
      && forall i :: 0 <= i < |c.toasts| ==> effects[i] == Toast(c.toasts[i])
  {
    LaunchOrReturn(CreateTransactionParams(stringParams, paymentMethods, sdk))
  }

  /**
   * The activity-result callback. On RESULT_OK the parsed result goes to
   * the fragment (if one is shown) and an unsuccessful result with a
   * transaction id is checked; on RESULT_CANCELED a transaction id parsed
   * from the data is checked; any other code does nothing.
   */
  function OnActivityResult<Intent>(
    resultCode: int,
    data: Option<Intent>,
    parseResult: Intent -> Option<TransferResult>,
    parseTransactionId: Intent -> Option<string>,
    fragmentShown: bool): (effects: seq<Effect>)
    ensures resultCode != ResultOk && resultCode != ResultCanceled ==> effects == []
    ensures resultCode == ResultOk ==> |effects| > 0 && effects[0] == Toast("Transaction finished")
    ensures resultCode == ResultCanceled ==> |effects| > 0 && effects[0] == Toast("Transaction canceled")
    ensures forall r :: SubmitResult(r) in effects <==>
      resultCode == ResultOk && fragmentShown && data.Some? && parseResult(data.value) == Some(r)
    ensures forall id :: StatusCheck(id) in effects <==>
      || (resultCode == ResultOk && data.Some? && parseResult(data.value).Some?
          && !parseResult(data.value).value.isSuccess && parseResult(data.value).value.transactionId == Some(id))
      || (resultCode == ResultCanceled && data.Some? && parseTransactionId(data.value) == Some(id))
    ensures forall i, j :: 0 <= i < j < |effects| && effects[i].StatusCheck? && effects[j].StatusCheck? ==> false
    ensures forall e :: e in effects ==> !e.Launch?
    ensures forall i :: 0 < i < |effects| ==> !effects[i].Toast?
    ensures forall i, j :: 0 <= i < j < |effects| && effects[j].SubmitResult? ==>
      !effects[i].SubmitResult? && !effects[i].StatusCheck?
  {
    if resultCode == ResultOk then
      [Toast("Transaction finished")]
      + match if data.Some? then parseResult(data.value) else None
        case None => []
        case Some(r) =>
          (if fragmentShown then [SubmitResult(r)] else [])
          + (if !r.isSuccess && r.transactionId.Some? then [StatusCheck(r.transactionId.value)] else [])
    else if resultCode == ResultCanceled then
      [Toast("Transaction canceled")]
      + match if data.Some? then parseTransactionId(data.value) else None
        case None => []
        case Some(id) => [StatusCheck(id)]
    else []
  }

  /** The toast of `performOptionalTransactionStatusCheck`. */
  function StatusMessage(response: PaymentStatusCheckResponse): (msg: string)
    ensures response.Checked? ==> |msg| >= 8 && msg[..8] == "status: " && msg[8..] == response.paymentStatus
    ensures response.Error? ==> |msg| > 6 && msg[..6] == "Error:"
    ensures response.SDKNotConfigured? ==> msg == "SDKNotConfigured"
  {
    match response
    case Checked(status) => "status: " + status
    case Error(code) => "Error:" + IntText.IntToString(code)
    case SDKNotConfigured => "SDKNotConfigured"
  }

  /** An HTTP error code that fits in an `Int`. */
  predicate HasIntCode(response: PaymentStatusCheckResponse) {
    response.Error? ==> IntText.InIntRange(response.httpErrorCode)
  }

  /** The message tells the three outcomes apart and keeps the status and the error code. */
  lemma StatusMessageInjective(a: PaymentStatusCheckResponse, b: PaymentStatusCheckResponse)
    requires HasIntCode(a) && HasIntCode(b)
    requires StatusMessage(a) == StatusMessage(b)
    ensures a == b
  {
    var m := StatusMessage(a);
    match a
    case Checked(s) =>
      assert m[0] == 's';
      if b.Checked? {
        assert s == m[8..] == b.paymentStatus;
      }
    case Error(code) =>
      assert m[0] == 'E';
      if b.Error? {
        assert IntText.IntToString(code) == m[6..] == IntText.IntToString(b.httpErrorCode);
        IntText.IntToStringInjective(code, b.httpErrorCode);
      }
    case SDKNotConfigured =>
      assert m[0] == 'S';
  }

  /**
   * What each message says: "status: " and the status of a checked
   * transaction, "Error:" and a code that reads back as the HTTP error code,
   * or the bare kind name "SDKNotConfigured".
   */
  lemma StatusMessageParts(response: PaymentStatusCheckResponse)
    requires HasIntCode(response)
    ensures var m := StatusMessage(response);
      && (response.Checked? ==> |m| >= 8 && m[..8] == "status: " && m[8..] == response.paymentStatus)
      && (response.Error? ==> |m| > 6 && m[..6] == "Error:" && IntText.ToIntOrNull(m[6..]) == Some(response.httpErrorCode))
      && (response.SDKNotConfigured? ==> m == "SDKNotConfigured")
  {
    var m := StatusMessage(response);
    if response.Error? {
      IntText.IntToStringRoundTrip(response.httpErrorCode);
      IntText.NatToStringDigits(if response.httpErrorCode < 0 then -response.httpErrorCode else response.httpErrorCode);
      assert m[6..] == IntText.IntToString(response.httpErrorCode);
    }
  }
}
