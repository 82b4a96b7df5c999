/** Messages, result codes and Windows error codes exchanged by the browser and the agent. */
module Protocol {
  import opened Common

  /** `internal::kBufferSize`, and the equal constant of the client. */
  const BUFFER_SIZE: nat := 4096

  /** Number of values of a `DWORD`. */
  const DWORDS: nat := 0x1_0000_0000

  /** Largest `int`, and so the largest size the parser takes and the serialiser gives. */
  const MAX_INT: nat := 0x7FFF_FFFF

  /** Conversion of a size to a 32-bit `DWORD`. */
  function ToDword(n: nat): (d: nat)
    ensures d < DWORDS && d <= n
    ensures n < DWORDS ==> d == n
    ensures n == DWORDS ==> d == 0
  {
    if n < DWORDS then n else n % DWORDS
  }

  datatype WinError =
    | Success | IoPending | MoreData | BrokenPipe | AccessDenied | InvalidName | PipeConnected | OtherError

  /** What a failed call leaves for `GetLastError`. */
  type RealError = e: WinError | !e.Success? witness OtherError

  /** A failure that is neither "success" nor "still pending". */
  type HardError = e: WinError | !e.Success? && !e.IoPending? witness OtherError

  /** Result of a call that either works or sets the last error. */
  datatype ApiResult = Done | Fail(err: RealError)

  datatype ResultCode =
    | Ok
    | ErrMissingResult
    | ErrResponseAlreadySent
    | ErrMissingRequestToken
    | ErrAgentNotInitialized
    | ErrInvalidRequestFromBrowser
    | ErrIoPending
    | ErrMoreData
    | ErrCannotGetBrowserPid
    | ErrCannotGetBrowserBinaryPath
    | ErrBrokenPipe
    | ErrUnexpected
    | ErrAgentAlreadyExists
    | ErrAgentEventHandlerNotSpecified
    | ErrCannotCreateAgentStopEvent
    | ErrInvalidChannelName
    | ErrCannotCreateChannelIoEvent

  function ErrorToResultCode(err: WinError): ResultCode {
    match err
    case Success => Ok
    case AccessDenied => ErrAgentAlreadyExists
    case BrokenPipe => ErrBrokenPipe
    case InvalidName => ErrInvalidChannelName
    case MoreData => ErrMoreData
    case IoPending => ErrIoPending
    case PipeConnected => ErrUnexpected
    case OtherError => ErrUnexpected
  }

  function ApiCode(r: ApiResult): ResultCode {
    match r
    case Done => Ok
    case Fail(err) => ErrorToResultCode(err)
  }

  datatype BrowserInfo = BrowserInfo(pid: nat, binaryPath: string)

  const NO_BROWSER := BrowserInfo(0, "")

  /** The `content_data` oneof of a request. */
  datatype Content = NoContent | TextContent(text: string) | FilePath(path: string) | PrintData

  /** An absent token reads as the empty string. */
  datatype Request = Request(token: string, tags: seq<string>, content: Content, url: string)

  datatype Acknowledgement = Acknowledgement(ackToken: string)

  datatype CancelRequests = CancelRequests(userActionId: string)

  datatype ChromeToAgent = ChromeToAgent(
    request: Option<Request>,
    ack: Option<Acknowledgement>,
    cancel: Option<CancelRequests>)

  datatype Status = StatusUnknown | StatusSuccess | StatusFailure

  datatype Action = ActionUnspecified | ReportOnly | Warn | Block

  datatype TriggeredRule = TriggeredRule(action: Option<Action>)

  datatype Result = Result(tag: Option<string>, status: Option<Status>, rules: seq<TriggeredRule>)

  datatype Response = Response(token: string, results: seq<Result>)

  /** `None` is a message whose `response` was never touched. */
  datatype AgentToChrome = AgentToChrome(response: Option<Response>)

  /** Serialisation of both message types. */
  datatype Codec = Codec(
    putRequest: ChromeToAgent -> Bytes,
    parseRequest: Bytes -> Option<ChromeToAgent>,
    putResponse: AgentToChrome -> Bytes,
    parseResponse: Bytes -> Option<AgentToChrome>)

  /** A message of 2 GiB or more serialises to the empty string, any other to something that parses back. */
  ghost predicate Lawful(codec: Codec) {
    && (forall m :: |codec.putRequest(m)| <= MAX_INT)
    && (forall m :: codec.putRequest(m) != [] ==> codec.parseRequest(codec.putRequest(m)) == Some(m))
    && (forall m :: |codec.putResponse(m)| <= MAX_INT)
    && (forall m :: codec.putResponse(m) != [] ==> codec.parseResponse(codec.putResponse(m)) == Some(m))
    && codec.putResponse(AgentToChrome(None)) == []
  }
}
