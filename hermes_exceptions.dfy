/**
 * The error taxonomy of hermesConnector: every Hermes exception class with
 * its fixed numeric code and its string, grouped by code band
 * (1xxx generic, 2xxx order, 3xxx account), and the three string-literal
 * groups the base class's errStr is typed against.
 */
module HermesExceptions {
  import opened Wrappers

  /** The three groups of the taxonomy. */
  datatype ErrGroup = GenericGroup | OrderGroup | AccountGroup

  /** One constructor per HermesBaseException subclass. */
  datatype HermesError =
    | UnknownGenericHermesException
    | AuthFailed
    | InsufficientParameters
    | InternalConnectionError
    | TooManyRequests
    | RequestTimeout
    | GenericOrderError
    | OrderFailedToSend
    | OrderRejected
    | InsufficientBalance

  /** Everything the connector code can raise. */
  datatype PyException =
    | Hermes(kind: HermesError)
      /** HandlerNonExistent is imported by the Alpaca connector but has no
          errCode/errStr, since the exceptions file does not define it. */
    | HandlerNonExistent
      /** Python's IndexError: a credentials list shorter than two entries. */
    | IndexError
      /** Python's AttributeError: a method called on a client that is None. */
    | AttributeError
      /** The SDK's APIError, propagated unchanged with its diagnostic payload. */
    | ApiError(status_code: int, message: string)

  /** The group a class is declared under (the section comments of the file). */
  function Group(e: HermesError): ErrGroup
  {
    match e
    case UnknownGenericHermesException | AuthFailed | InsufficientParameters
       | InternalConnectionError | TooManyRequests | RequestTimeout => GenericGroup
    case GenericOrderError | OrderFailedToSend | OrderRejected => OrderGroup
    case InsufficientBalance => AccountGroup
  }

  /** The lowest code of a group's band: 1xxx, 2xxx, 3xxx. */
  function BandBase(g: ErrGroup): int
  {
    match g
    case GenericGroup => 1000
    case OrderGroup => 2000
    case AccountGroup => 3000
  }

  /** The class attribute errCode; it lies in the band of its group. */
  function ErrCode(e: HermesError): (c: int)
    ensures BandBase(Group(e)) <= c < BandBase(Group(e)) + 1000
  {
    match e
    case UnknownGenericHermesException => 1000
    case AuthFailed => 1002
    case InsufficientParameters => 1003
    case InternalConnectionError => 1006
    case TooManyRequests => 1007
    case RequestTimeout => 1008
    case GenericOrderError => 2000
    case OrderFailedToSend => 2004
    case OrderRejected => 2005
    case InsufficientBalance => 3001
  }

  /** The literal group of each band, as the file evidently intends it
      (one literal per entry; see GenericErrStrAsWritten for the file as written). */
  function GroupStrs(g: ErrGroup): (strs: set<string>)
    ensures |strs| == (match g case GenericGroup => 6 case OrderGroup => 3 case AccountGroup => 1)
  {
    match g
    case GenericGroup =>
      {"UNKNOWN_ERR", "INTERNAL_CON_ERR", "TOO_MANY_REQUESTS", "REQUEST_TIMEOUT",
       "AUTHORISATION_FAILED", "INSUFFICIENT_PARAMETERS"}
    case OrderGroup => {"UNKNOWN_ORDER_ERR", "ORDER_FAILED_TO_SEND", "ORDER_REJECTED_GENERAL"}
    case AccountGroup => {"INSUFFICIENT_BALANCE"}
  }

  /** The class attribute errStr; it is a member of its group's literal set. */
  function ErrStr(e: HermesError): (s: string)
    ensures s in GroupStrs(Group(e))
  {
    match e
    case UnknownGenericHermesException => "UNKNOWN_ERR"
    case AuthFailed => "AUTHORISATION_FAILED"
    case InsufficientParameters => "INSUFFICIENT_PARAMETERS"
    case InternalConnectionError => "INTERNAL_CON_ERR"
    case TooManyRequests => "TOO_MANY_REQUESTS"
    case RequestTimeout => "REQUEST_TIMEOUT"
    case GenericOrderError => "UNKNOWN_ORDER_ERR"
    case OrderFailedToSend => "ORDER_FAILED_TO_SEND"
    case OrderRejected => "ORDER_REJECTED_GENERAL"
    case InsufficientBalance => "INSUFFICIENT_BALANCE"
  }

  /** Reverse lookup of a class by its code. */
  function FromCode(c: int): (r: Option<HermesError>)
    ensures r.Some? ==> ErrCode(r.value) == c
  {
    match c
    case 1000 => Some(UnknownGenericHermesException)
    case 1002 => Some(AuthFailed)
    case 1003 => Some(InsufficientParameters)
    case 1006 => Some(InternalConnectionError)
    case 1007 => Some(TooManyRequests)
    case 1008 => Some(RequestTimeout)
    case 2000 => Some(GenericOrderError)
    case 2004 => Some(OrderFailedToSend)
    case 2005 => Some(OrderRejected)
    case 3001 => Some(InsufficientBalance)
    case _ => None
  }

  /** Reverse lookup of a class by its string. */
  function FromStr(s: string): (r: Option<HermesError>)
    ensures r.Some? ==> ErrStr(r.value) == s
  {
    if s == "UNKNOWN_ERR" then Some(UnknownGenericHermesException)
    else if s == "AUTHORISATION_FAILED" then Some(AuthFailed)
    else if s == "INSUFFICIENT_PARAMETERS" then Some(InsufficientParameters)
    else if s == "INTERNAL_CON_ERR" then Some(InternalConnectionError)
    else if s == "TOO_MANY_REQUESTS" then Some(TooManyRequests)
    else if s == "REQUEST_TIMEOUT" then Some(RequestTimeout)
    else if s == "UNKNOWN_ORDER_ERR" then Some(GenericOrderError)
    else if s == "ORDER_FAILED_TO_SEND" then Some(OrderFailedToSend)
    else if s == "ORDER_REJECTED_GENERAL" then Some(OrderRejected)
    else if s == "INSUFFICIENT_BALANCE" then Some(InsufficientBalance)
    else None
  }

  /** Every code identifies its class. */
  lemma CodeRoundTrip(e: HermesError)
    ensures FromCode(ErrCode(e)) == Some(e)
  {
  }

  /** Every string identifies its class. */
  lemma StrRoundTrip(e: HermesError)
    ensures FromStr(ErrStr(e)) == Some(e)
  {
  }

  /** Codes are pairwise distinct. */
  lemma ErrCodeInjective(a: HermesError, b: HermesError)
    ensures ErrCode(a) == ErrCode(b) ==> a == b
  {
  }

  /** Strings are pairwise distinct. */
  lemma ErrStrInjective(a: HermesError, b: HermesError)
    ensures ErrStr(a) == ErrStr(b) ==> a == b
  {
  }

  /** Code and string name the same class: the pairing is a bijection. */
  lemma CodeStrBijection(c: int, s: string)
    ensures (exists e :: ErrCode(e) == c && ErrStr(e) == s) <==>
            (FromCode(c).Some? && FromCode(c) == FromStr(s))
  {
  }

  /** A group's literal set holds exactly the strings of the classes in that group. */
  lemma GroupStrsAreErrStrs(g: ErrGroup, s: string)
    ensures s in GroupStrs(g) <==> exists e :: Group(e) == g && ErrStr(e) == s
  {
    if s in GroupStrs(g) {
      var e := FromStr(s).value;
      assert Group(e) == g && ErrStr(e) == s;
    }
  }

  /** The generic literal group as the file writes it: a missing comma makes
      Python concatenate two adjacent literals into one. */
  function GenericErrStrAsWritten(): (strs: set<string>)
    ensures "REQUEST_TIMEOUTAUTHORISATION_FAILED" in strs
    ensures strs - {"REQUEST_TIMEOUTAUTHORISATION_FAILED"} ==
            GroupStrs(GenericGroup) - {"REQUEST_TIMEOUT", "AUTHORISATION_FAILED"}
  {
    assert "REQUEST_TIMEOUT" + "AUTHORISATION_FAILED" == "REQUEST_TIMEOUTAUTHORISATION_FAILED";
    {"UNKNOWN_ERR", "INTERNAL_CON_ERR", "TOO_MANY_REQUESTS",
     "REQUEST_TIMEOUT" + "AUTHORISATION_FAILED", "INSUFFICIENT_PARAMETERS"}
  }

  /** As written, two generic classes have an errStr outside the generic
      literal group, while the other four generic ones are inside it. */
  lemma AsWrittenGenericGroupMissesTwo()
    ensures Group(RequestTimeout) == GenericGroup && ErrStr(RequestTimeout) !in GenericErrStrAsWritten()
    ensures Group(AuthFailed) == GenericGroup && ErrStr(AuthFailed) !in GenericErrStrAsWritten()
    ensures forall e :: Group(e) == GenericGroup && e != RequestTimeout && e != AuthFailed ==>
              ErrStr(e) in GenericErrStrAsWritten()
  {
  }

  /** The names of the exception classes the file defines. */
  function ExceptionClassesAsWritten(): set<string>
  {
    {"HermesBaseException", "UnknownGenericHermesException", "AuthFailed",
     "InsufficientParameters", "InternalConnectionError", "TooManyRequests",
     "RequestTimeout", "GenericOrderError", "OrderFailedToSend", "OrderRejected",
     "InsufficientBalance"}
  }

  /** The names the Alpaca connector imports from this file. */
  function ImportedByAlpaca(): set<string>
  {
    {"InsufficientParameters", "HandlerNonExistent", "UnknownGenericHermesException"}
  }

  /** As written, one imported name is not defined, so the import fails. */
  lemma AsWrittenHandlerNonExistentUndefined()
    ensures ImportedByAlpaca() - ExceptionClassesAsWritten() == {"HandlerNonExistent"}
  {
  }

  /** The exception names as intended: the file's classes and HandlerNonExistent
      (an arm of PyException); every imported name is defined. */
  function ExceptionClasses(): (names: set<string>)
    ensures ImportedByAlpaca() <= names
    ensures names - ExceptionClassesAsWritten() == {"HandlerNonExistent"}
  {
    ExceptionClassesAsWritten() + {"HandlerNonExistent"}
  }
}
