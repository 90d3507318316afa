/**
 * The backend-independent part of a connector: its options record and the
 * guard its constructor runs before storing them.
 */
module ConnectorTemplate {
  import opened Wrappers
  import opened HermesExceptions

  /** The handler a caller may pass for live data; its code is not modelled. */
  datatype Handler = Handler(id: nat)

  /** ConnectorOptions, the fields in declaration order; dataHandler holds
      the constructor's wshandler argument. */
  datatype ConnectorOptions = ConnectorOptions(
    tradingPair: string,
    interval: string,
    limit: int,
    mode: string,
    columns: Option<seq<string>>,
    dataHandler: Option<Handler>,
    credentials: seq<string>)

  /** ConnectorTemplate.__init__: refuses an empty key or secret before any
      option is stored; a list too short to index raises IndexError. */
  function Init(
    tradingPair: string,
    interval: string,
    mode: string := "live",
    limit: int := 75,
    credentials: seq<string> := ["", ""],
    columns: Option<seq<string>> := None,
    wshandler: Option<Handler> := None): (r: Result<ConnectorOptions, PyException>)
    ensures r.Success? <==> |credentials| >= 2 && credentials[0] != "" && credentials[1] != ""
    ensures |credentials| >= 2 ==>
              (r == Failure(Hermes(InsufficientParameters)) <==> credentials[0] == "" || credentials[1] == "")
    ensures r == Failure(IndexError) <==> |credentials| == 0 || (|credentials| == 1 && credentials[0] != "")
    ensures r.Failure? ==> r == Failure(IndexError) || r == Failure(Hermes(InsufficientParameters))
    ensures r.Success? ==>
              && r.value.tradingPair == tradingPair && r.value.interval == interval
              && r.value.limit == limit && r.value.mode == mode && r.value.columns == columns
              && r.value.dataHandler == wshandler && r.value.credentials == credentials
  {
    if |credentials| == 0 then Failure(IndexError)
    else if credentials[0] == "" then Failure(Hermes(InsufficientParameters))
    else if |credentials| < 2 then Failure(IndexError)
    else if credentials[1] == "" then Failure(Hermes(InsufficientParameters))
    else Success(ConnectorOptions(tradingPair, interval, limit, mode, columns, wshandler, credentials))
  }

  /** The default credentials ["", ""] always fail; omitted mode and limit
      default to "live" and 75. */
  lemma Defaults(tradingPair: string, interval: string, credentials: seq<string>)
    ensures Init(tradingPair, interval) == Failure(Hermes(InsufficientParameters))
    ensures Init(tradingPair, interval, credentials := credentials).Success? ==>
              Init(tradingPair, interval, credentials := credentials).value.mode == "live" &&
              Init(tradingPair, interval, credentials := credentials).value.limit == 75
  {
  }
}
