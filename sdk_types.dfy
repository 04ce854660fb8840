/**
 * Value types of the payment SDK (package com.sibs.sdk) that the demo app
 * reads and writes. The SDK itself is not part of this model: only the
 * fields the app touches are kept, and the Java class name that the app
 * obtains by reflection (`x::class.java.simpleName`) becomes a `KindName`
 * function over the constructors.
 */
module SdkTypes {
  import opened Wrappers

  /** One constant of the SDK's `PaymentMethod` enum, known by its `name`. */
  datatype PaymentMethod = PaymentMethod(name: string)

  /** Enum constants have pairwise distinct names. */
  predicate DistinctNames(values: seq<PaymentMethod>) {
    forall i, j :: 0 <= i < j < |values| ==> values[i].name != values[j].name
  }

  /** A card token returned by the SDK; `tokenType` is the SDK's `type`. */
  datatype Token = Token(
    tokenType: string,
    value: string,
    name: Option<string>,
    maskedPan: Option<string>,
    expireDate: Option<string>)

  /** `SibsSdkError`: only `CheckoutError` carries an HTTP error code. */
  datatype SdkError =
    | CheckoutError(httpErrorCode: int)
    | OtherSdkError(kind: string)

  /** The simple class name of the error's kind. */
  function SdkErrorKindName(e: SdkError): string {
    match e
    case CheckoutError(_) => "CheckoutError"
    case OtherSdkError(kind) => kind
  }

  /** The SDK's `TransferResult`. */
  datatype TransferResult = TransferResult(
    isSuccess: bool,
    transactionId: Option<string>,
    sdkError: Option<SdkError>,
    token: Option<Token>)

  /** The SDK's `PaymentStatusCheckResponse` sealed class. */
  datatype PaymentStatusCheckResponse =
    | Checked(paymentStatus: string)
    | Error(httpErrorCode: int)
    | SDKNotConfigured
}
