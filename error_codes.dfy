/** The MusePay business codes: a fixed table of human-readable texts with an
    "Unknown Error" fallback, and the three classifications the library offers. */
module MuseWalletErrorCodes {
  import opened Wrappers
  import opened KeyOrder
  import opened PhpNumeric
  import opened PhpValue

  const Success: string := "200"
  const BadRequest: string := "400"
  const SignError: string := "406"
  const WrongTimestampOrNonce: string := "412"
  const SystemError: string := "500"
  const UserStatusInvalid: string := "5004"
  const OrderNotExist: string := "7000"
  const CurrencyNotSupport: string := "7002"
  const InsufficientBalance: string := "202203"
  const QuotaMinCheckFail: string := "202206"
  const UnsupportedCurrency: string := "202211"
  const OrderAmountMustMoreThanServiceFee: string := "202212"
  const DoublePayment: string := "202224"
  const NoSpecifiedFeeRule: string := "2204002"
  const KycLevelLow: string := "10211001"
  const PhoneNumberError: string := "10211027"
  const CardNotAllowActivate: string := "10213005"
  const RepeatedRequest: string := "10240000"

  datatype ErrorInfo = ErrorInfo(message: string, description: string, suggestion: string)

  /** The codes `MuseWalletErrorCodes::all()` lists. */
  const TableCodes: set<string> := {
    Success, BadRequest, SignError, WrongTimestampOrNonce, SystemError, UserStatusInvalid,
    OrderNotExist, CurrencyNotSupport, InsufficientBalance, QuotaMinCheckFail, UnsupportedCurrency,
    OrderAmountMustMoreThanServiceFee, DoublePayment, NoSpecifiedFeeRule, KycLevelLow,
    PhoneNumberError, CardNotAllowActivate, RepeatedRequest
  }

  /** `MuseWalletErrorCodes::all()[$code]`: the table entry of a code, if it has one. */
  function Lookup(code: string): Option<ErrorInfo> {
    if code !in TableCodes then None
    else if code == Success then
      Some(ErrorInfo("Success",
        "Request completed successfully",
        ""))
    else if code == BadRequest then
      Some(ErrorInfo("Bad Request",
        "Invalid parameters provided",
        "Check the request parameters and ensure all required fields are present and valid"))
    else if code == SignError then
      Some(ErrorInfo("Signature Error",
        "The request signature is incorrect",
        "Verify that the private key is correct and the signature generation algorithm matches MusePay requirements"))
    else if code == WrongTimestampOrNonce then
      Some(ErrorInfo("Wrong Timestamp or Nonce",
        "The timestamp or nonce value is invalid",
        "Ensure timestamp is current Unix timestamp and nonce is unique for each request"))
    else if code == SystemError then
      Some(ErrorInfo("System Error",
        "Internal server error on MusePay side",
        "Contact MusePay support if the error persists"))
    else if code == UserStatusInvalid then
      Some(ErrorInfo("User Status Invalid",
        "The user account status is not valid for this operation",
        "Check the user account status and ensure it is active"))
    else if code == OrderNotExist then
      Some(ErrorInfo("Order Not Exist",
        "The specified order does not exist",
        "Verify the order ID and ensure it was created successfully"))
    else if code == CurrencyNotSupport then
      Some(ErrorInfo("Currency Not Supported",
        "The specified currency is not supported",
        "Use one of the supported currencies: USDT_TRC20, USDT_ERC20, USDC_ERC20, etc."))
    else if code == InsufficientBalance then
      Some(ErrorInfo("Insufficient Balance",
        "The account does not have sufficient balance for this operation",
        "Top up the account balance before proceeding"))
    else if code == QuotaMinCheckFail then
      Some(ErrorInfo("Quota Minimum Check Failed",
        "The amount does not meet the minimum quota requirement",
        "Increase the amount to meet the minimum quota requirement"))
    else if code == UnsupportedCurrency then
      Some(ErrorInfo("Unsupported Currency",
        "The currency is not supported for this operation",
        "Use a supported currency for this card product"))
    else if code == OrderAmountMustMoreThanServiceFee then
      Some(ErrorInfo("Order Amount Too Small",
        "The order amount must be greater than the service fee",
        "Increase the order amount to cover the service fee"))
    else if code == DoublePayment then
      Some(ErrorInfo("Double Payment",
        "This payment has already been processed",
        "Use a unique request_id for each payment"))
    else if code == NoSpecifiedFeeRule then
      Some(ErrorInfo("No Fee Rule Specified",
        "No fee rule is configured for this operation",
        "Contact MusePay support to configure fee rules"))
    else if code == KycLevelLow then
      Some(ErrorInfo("KYC Level Too Low",
        "The user KYC verification level is insufficient for card issuance",
        "Complete KYC verification by uploading documents or using the KYC link. KYC status must be \"APPROVED\" (status 3) before applying for a card."))
    else if code == PhoneNumberError then
      Some(ErrorInfo("Phone Number Error",
        "The phone number is invalid or not verified",
        "Ensure the phone number is pre-verified by the partner and in correct format (area code without + sign, e.g., \"1\" for US, \"86\" for China)"))
    else if code == CardNotAllowActivate then
      Some(ErrorInfo("Card Cannot Be Activated",
        "The card is not in a status that allows activation. Card may already be ACTIVE or in PENDING_ACTIVE status.",
        "Check the card status first using getCard(). Virtual cards are often automatically activated after approval."))
    else if code == RepeatedRequest then
      Some(ErrorInfo("Repeated Request",
        "This request has already been processed (duplicate request_id)",
        "Use a unique request_id (UUID) for each new request"))
    else None
  }

  /** The codes with an entry are exactly the listed ones. */
  lemma LookupDomain(code: string)
    ensures Lookup(code).Some? <==> code in TableCodes
  {
    if code in TableCodes {
      assert Lookup(code).Some? by {
        if code == Success {
        } else if code == BadRequest {
        } else if code == SignError {
        } else if code == WrongTimestampOrNonce {
        } else if code == SystemError {
        } else if code == UserStatusInvalid {
        } else if code == OrderNotExist {
        } else if code == CurrencyNotSupport {
        } else if code == InsufficientBalance {
        } else if code == QuotaMinCheckFail {
        } else if code == UnsupportedCurrency {
        } else if code == OrderAmountMustMoreThanServiceFee {
        } else if code == DoublePayment {
        } else if code == NoSpecifiedFeeRule {
        } else if code == KycLevelLow {
        } else if code == PhoneNumberError {
        } else if code == CardNotAllowActivate {
        } else if code == RepeatedRequest {
        }
      }
    }
  }

  /** The entry `get` falls back to for a code outside the table. */
  function UnknownInfo(code: string): ErrorInfo {
    ErrorInfo("Unknown Error", "Unknown error code: " + code, "Check MusePay API documentation or contact support")
  }

  /** `MuseWalletErrorCodes::get($code)`: never fails. */
  function Get(code: string): (info: ErrorInfo)
    ensures Lookup(code).Some? ==> info == Lookup(code).value
    ensures Lookup(code).None? ==> info == UnknownInfo(code)
  {
    Lookup(code).UnwrapOr(UnknownInfo(code))
  }

  /** The fallback is recognisable: no table entry is called "Unknown Error". */
  lemma UnknownMessageOnlyOutsideTable(code: string)
    ensures Get(code).message == "Unknown Error" <==> code !in TableCodes
  {
    LookupDomain(code);
    if code in TableCodes {
      TableEntryNamed(code);
    }
  }

  lemma TableEntryNamed(code: string)
    requires Lookup(code).Some?
    ensures Lookup(code).value.message != "Unknown Error"
  {
    if code == Success {
    } else if code == BadRequest {
    } else if code == SignError {
    } else if code == WrongTimestampOrNonce {
    } else if code == SystemError {
    } else if code == UserStatusInvalid {
    } else if code == OrderNotExist {
    } else if code == CurrencyNotSupport {
    } else if code == InsufficientBalance {
    } else if code == QuotaMinCheckFail {
    } else if code == UnsupportedCurrency {
    } else if code == OrderAmountMustMoreThanServiceFee {
    } else if code == DoublePayment {
    } else if code == NoSpecifiedFeeRule {
    } else if code == KycLevelLow {
    } else if code == PhoneNumberError {
    } else if code == CardNotAllowActivate {
    } else if code == RepeatedRequest {
    }
  }

  function Message(code: string): (m: string)
    ensures Lookup(code).Some? ==> m == Lookup(code).value.message
    ensures Lookup(code).None? ==> m == "Unknown Error"
  {
    Get(code).message
  }

  function Description(code: string): (d: string)
    ensures Lookup(code).Some? ==> d == Lookup(code).value.description
    ensures Lookup(code).None? ==> d == "Unknown error code: " + code
  {
    Get(code).description
  }

  function Suggestion(code: string): (s: string)
    ensures Lookup(code).Some? ==> s == Lookup(code).value.suggestion
    ensures Lookup(code).None? ==> s == "Check MusePay API documentation or contact support"
  {
    Get(code).suggestion
  }

  lemma SystemErrorMessage()
    ensures Message(SystemError) == "System Error"
    ensures !IsSuccess(SystemError)
  {
  }

  /** `MuseWalletErrorCodes::isSuccess($code)`: `$code === '200'`, the table's "Success" entry. */
  function IsSuccess(code: string): (success: bool)
    ensures success ==> code in TableCodes && Message(code) == "Success"
  {
    code == Success
  }

  /** `MuseWalletErrorCodes::isRetryable($code)`: loose `in_array($code, ['500', '412'])`.
      Among codes written as plain decimals, exactly `500` and `412` are retryable. */
  function IsRetryable(code: string): (retryable: bool)
    ensures Decimal(code) ==> (retryable <==> code == SystemError || code == WrongTimestampOrNonce)
  {
    var retryable := [SystemError, WrongTimestampOrNonce];
    ClassifiedCodesDecimal();
    assert forall i :: 0 <= i < |retryable| ==> Decimal(retryable[i]);
    if Decimal(code) then
      InArrayLooseDecimal(code, retryable);
      InArrayLoose(code, retryable)
    else
      InArrayLoose(code, retryable)
  }

  /** `MuseWalletErrorCodes::requiresUserAction($code)`: loose `in_array` on the three codes
      a user must act on; among plain decimals exactly those three qualify. */
  function RequiresUserAction(code: string): (userAction: bool)
    ensures Decimal(code) ==>
              (userAction <==> code == KycLevelLow || code == PhoneNumberError || code == InsufficientBalance)
  {
    var userAction := [KycLevelLow, PhoneNumberError, InsufficientBalance];
    ClassifiedCodesDecimal();
    assert forall i :: 0 <= i < |userAction| ==> Decimal(userAction[i]);
    if Decimal(code) then
      InArrayLooseDecimal(code, userAction);
      InArrayLoose(code, userAction)
    else
      InArrayLoose(code, userAction)
  }

  lemma TableCodesDecimal()
    ensures forall c :: c in TableCodes ==> Decimal(c)
  {
  }

  lemma ClassifiedCodesDecimal()
    ensures Decimal(Success) && Decimal(SystemError) && Decimal(WrongTimestampOrNonce)
    ensures Decimal(KycLevelLow) && Decimal(PhoneNumberError) && Decimal(InsufficientBalance)
  {
  }

  /** The retryable and user-action codes are all table codes. */
  lemma ClassifiedCodesInTable()
    ensures Success in TableCodes
    ensures SystemError in TableCodes && WrongTimestampOrNonce in TableCodes
    ensures KycLevelLow in TableCodes && PhoneNumberError in TableCodes && InsufficientBalance in TableCodes
  {
  }

  /** The comparison is numeric, so spellings outside the table match too: `" 500"` is
      retryable, and a leading space never changes the verdict. */
  lemma IsRetryableLeadingSpace(code: string)
    ensures IsRetryable(" " + code) <==> IsRetryable(code)
  {
    var retryable := [SystemError, WrongTimestampOrNonce];
    assert InArrayLoose(" " + code, retryable) <==> InArrayLoose(code, retryable) by {
      InArrayLooseLeadingSpace(code, retryable);
    }
  }

  lemma PaddedCodeRetryable()
    ensures IsRetryable(" " + SystemError)
    ensures Lookup(" " + SystemError).None?
  {
    IsRetryableLeadingSpace(SystemError);
    ClassifiedCodesDecimal();
    TableCodesDecimal();
    assert !Decimal(" " + SystemError);
    LookupDomain(" " + SystemError);
  }

  /** No code is in two of the three classes, however it is spelled. */
  lemma ClassesDisjoint(code: string)
    ensures !(IsSuccess(code) && IsRetryable(code))
    ensures !(IsSuccess(code) && RequiresUserAction(code))
    ensures !(IsRetryable(code) && RequiresUserAction(code))
  {
    if IsSuccess(code) {
      ClassifiedCodesDecimal();
    }
    InArrayLooseDisjoint(code, [SystemError, WrongTimestampOrNonce],
                         [KycLevelLow, PhoneNumberError, InsufficientBalance]);
  }

  /** `MuseWalletErrorCodes::formatError($code, $additionalInfo)`. */
  function FormatError(code: string, additionalInfo: Option<string>): (r: Array)
    ensures DistinctKeys(r)
    ensures PhpValue.Get(r, "code") == Some(Str(code))
    ensures PhpValue.Get(r, "message") == Some(Str(Message(code)))
    ensures PhpValue.Get(r, "description") == Some(Str(Description(code)))
    ensures PhpValue.Get(r, "suggestion") == Some(Str(Suggestion(code)))
    ensures PhpValue.Get(r, "additional_info") == Some(if additionalInfo.Some? then Str(additionalInfo.value) else Null)
  {
    FormatEntries(code, Message(code), Description(code), Suggestion(code),
                  if additionalInfo.Some? then Str(additionalInfo.value) else Null)
  }

  /** The five entries of a formatted error, in order. */
  function FormatEntries(code: string, message: string, description: string, suggestion: string,
                         additionalInfo: Value): (r: Array)
    ensures DistinctKeys(r)
    ensures PhpValue.Get(r, "code") == Some(Str(code))
    ensures PhpValue.Get(r, "message") == Some(Str(message))
    ensures PhpValue.Get(r, "description") == Some(Str(description))
    ensures PhpValue.Get(r, "suggestion") == Some(Str(suggestion))
    ensures PhpValue.Get(r, "additional_info") == Some(additionalInfo)
  {
    var r := [("code", Str(code)), ("message", Str(message)), ("description", Str(description)),
              ("suggestion", Str(suggestion)), ("additional_info", additionalInfo)];
    GetAt(r, 0);
    GetAt(r, 1);
    GetAt(r, 2);
    GetAt(r, 3);
    GetAt(r, 4);
    r
  }
}
