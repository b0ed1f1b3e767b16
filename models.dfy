/** The records of the billing core: the incoming order, the gateway's
    answer, the persisted receipt and the error kinds. Amounts are kept as
    integers in minor units (hundredths), the scale of the decimal(18,2)
    column the receipt is stored in. */
module Models {
  import opened Wrappers

  /** An order as received over HTTP. Every string may be missing (null). */
  datatype OrderRequest = OrderRequest(
    orderNumber: Option<string>,
    userId: Option<string>,
    payableAmount: int,
    paymentGateway: Option<string>,
    description: Option<string>)

  /** What a gateway answers for one charge attempt. */
  datatype PaymentResult = PaymentResult(
    isSuccess: bool,
    transactionId: Option<string>,
    message: Option<string>)

  /** The durable record of a paid order. `processedDate` is an opaque
      timestamp supplied by the caller. */
  datatype Receipt = Receipt(
    id: string,
    orderNumber: string,
    userId: string,
    amount: int,
    paymentGateway: string,
    processedDate: int,
    transactionId: Option<string>,
    description: Option<string>)

  /** The exception kinds the core raises, one constructor per kind.
      `StorageError` is the database refusing a commit. */
  datatype BillingError =
    | Validation(message: string)
    | NotFound(message: string)
    | PaymentProcessing(message: string)
    | StorageError

  /** The code points .NET's `char.IsWhiteSpace` accepts: the space, line and
      paragraph separators plus the control characters U+0009 to U+000D and
      U+0085. */
  predicate IsWhiteSpace(c: char) {
    || ('\t' <= c <= '\r')
    || c == ' '
    || c == '\U{0085}'
    || c == '\U{00A0}'
    || c == '\U{1680}'
    || ('\U{2000}' <= c <= '\U{200A}')
    || c == '\U{2028}'
    || c == '\U{2029}'
    || c == '\U{202F}'
    || c == '\U{205F}'
    || c == '\U{3000}'
  }

  /** Every character of `s` is white space. */
  predicate AllWhiteSpace(s: string) {
    |s| == 0 || (IsWhiteSpace(s[0]) && AllWhiteSpace(s[1..]))
  }

  /** `string.IsNullOrWhiteSpace`: missing, empty, or white space only. */
  predicate IsBlank(s: Option<string>) {
    s.None? || AllWhiteSpace(s.value)
  }

  /** `AllWhiteSpace` holds exactly when no character is visible. */
  lemma {:induction false} AllWhiteSpaceIffEveryChar(s: string)
    ensures AllWhiteSpace(s) <==> forall i :: 0 <= i < |s| ==> IsWhiteSpace(s[i])
  {
    if |s| > 0 {
      AllWhiteSpaceIffEveryChar(s[1..]);
      assert forall i :: 1 <= i < |s| ==> s[i] == s[1..][i - 1];
    }
  }

  /** The blank and non-blank strings of the validation tests. */
  lemma BlankExamples()
    ensures IsBlank(None) && IsBlank(Some("")) && IsBlank(Some(" \t\r\n"))
    ensures !IsBlank(Some("ORD123")) && !IsBlank(Some(" x "))
  {
  }
}
