/**
  The envelope protocol of the push channel and the classification of one inbound
  envelope into a Response (readConnResponse and connectErrorMessage of client.go).
 */
module Protocol {

  import opened Wrappers
  import opened GoFormat

  /**
    The kind of an envelope. The constants follow the message types of the
    subscriptions-transport-ws protocol, which the `graphql-ws` sub-protocol names.
   */
  type MessageType = string

  const StartMsg: MessageType := "start"
  const DataMsg: MessageType := "data"
  const ErrorMsg: MessageType := "error"
  const CompleteMsg: MessageType := "complete"

  /** The envelope exchanged on the push channel. */
  datatype Message = Message(id: string, kind: MessageType, payload: seq<byte>)

  /** The code of one application error; the client synthesises only WebsocketConnectError. */
  datatype ErrorCode = WebsocketConnectError | ServerCode(name: string)

  datatype ResponseError = ResponseError(message: string, code: ErrorCode)

  /** A decoded response: untyped data and an ordered list of errors (empty on success). */
  datatype Response = Response(data: seq<byte>, errors: seq<ResponseError>)

  predicate HasErrors(r: Response) {
    |r.errors| != 0
  }

  /** What one `conn.ReadJSON(&msg)` gives: an envelope, or the error text of a failed read. */
  datatype ReadResult = Received(msg: Message) | ReadFailed(err: string)

  /** `json.Unmarshal` of a payload into a Response: the response, or the decoder's error text. */
  type Decoder = seq<byte> -> Result<Response, string>

  /** A response made by the client itself: no data and one WebsocketConnectError entry. */
  predicate IsConnectError(r: Response) {
    r.data == [] && |r.errors| == 1 && r.errors[0].code == WebsocketConnectError
  }

  /** The diagnostic text a client-made response carries. */
  function ConnectErrorText(r: Response): string
    requires IsConnectError(r)
  {
    r.errors[0].message
  }

  /** connectErrorMessage: wraps an already formatted text as a client-made error response. */
  function ConnectErrorMessage(message: string): (r: Response)
    ensures IsConnectError(r) && ConnectErrorText(r) == message
    ensures HasErrors(r)
  {
    Response([], [ResponseError(message, WebsocketConnectError)])
  }

  /** True when the read delivered a Data envelope whose payload decodes. */
  predicate DecodableData(read: ReadResult, decode: Decoder) {
    read.Received? && read.msg.kind == DataMsg && decode(read.msg.payload).Success?
  }

  /**
    readConnResponse with the Error branch as the protocol intends it: the message
    of the synthesised error is the raw payload. Every outcome other than a decodable
    Data envelope becomes a client-made error response.
   */
  function ReadConnResponse(read: ReadResult, decode: Decoder): (r: Response)
    ensures DecodableData(read, decode) ==> r == decode(read.msg.payload).value
    ensures !DecodableData(read, decode) ==> IsConnectError(r)
    ensures read.ReadFailed? ==> ConnectErrorText(r) == "error read response message: " + read.err
    ensures read.Received? && read.msg.kind == ErrorMsg ==> ConnectErrorText(r) == Text(read.msg.payload)
    ensures read.Received? && read.msg.kind == CompleteMsg ==>
              ConnectErrorText(r) == "unexpect complete msg, payload: " + FormatBytes(read.msg.payload)
    ensures read.Received? && read.msg.kind !in {DataMsg, ErrorMsg, CompleteMsg} ==>
              ConnectErrorText(r) == "unknow message type " + read.msg.kind + ", payload: " + FormatBytes(read.msg.payload)
    ensures read.Received? && read.msg.kind == DataMsg && decode(read.msg.payload).Failure? ==>
              ConnectErrorText(r) == "error unmarshal json message: " + decode(read.msg.payload).error
  {
    match read
    case ReadFailed(err) => ConnectErrorMessage("error read response message: " + err)
    case Received(msg) =>
      if msg.kind == ErrorMsg then ConnectErrorMessage(Text(msg.payload))
      else Classify(msg, decode)
  }

  /** The branches of readConnResponse's switch other than ErrorMsg, shared by both readings of it. */
  function Classify(msg: Message, decode: Decoder): Response
    requires msg.kind != ErrorMsg
  {
    if msg.kind == CompleteMsg then
      ConnectErrorMessage("unexpect complete msg, payload: " + FormatBytes(msg.payload))
    else if msg.kind != DataMsg then
      ConnectErrorMessage("unknow message type " + msg.kind + ", payload: " + FormatBytes(msg.payload))
    else
      match decode(msg.payload)
      case Success(resp) => resp
      case Failure(err) => ConnectErrorMessage("error unmarshal json message: " + err)
  }

  /**
    readConnResponse as written: the payload of an Error envelope is passed to
    Sprintf as the FORMAT, so any `%` in it is interpreted as a directive.
   */
  function ReadConnResponseAsWritten(read: ReadResult, decode: Decoder): (r: Response)
    ensures read.Received? && read.msg.kind == ErrorMsg ==>
              IsConnectError(r) && ConnectErrorText(r) == FormatNoOperands(Text(read.msg.payload))
  {
    match read
    case ReadFailed(err) => ConnectErrorMessage("error read response message: " + err)
    case Received(msg) =>
      if msg.kind == ErrorMsg then ConnectErrorMessage(FormatNoOperands(Text(msg.payload)))
      else Classify(msg, decode)
  }

  /** The two readings agree on every read except an Error envelope whose payload holds `%`. */
  lemma AsWrittenAgreesWithoutPercent(read: ReadResult, decode: Decoder)
    requires read.Received? && read.msg.kind == ErrorMsg ==> '%' !in Text(read.msg.payload)
    ensures ReadConnResponseAsWritten(read, decode) == ReadConnResponse(read, decode)
  {
    if read.Received? && read.msg.kind == ErrorMsg {
      PercentFreeFormatUnchanged(Text(read.msg.payload));
    }
  }

  /**
    An Error envelope whose payload is the two bytes of "%d" is reported, as written,
    with the message "%!d(MISSING)" instead of its payload.
   */
  lemma ErrorPayloadIsReformatted(decode: Decoder)
    ensures var read := Received(Message("1", ErrorMsg, [37, 100]));
            && ConnectErrorText(ReadConnResponseAsWritten(read, decode)) == "%!d(MISSING)"
            && ConnectErrorText(ReadConnResponse(read, decode)) == "%d"
  {
    var payload: seq<byte> := [37, 100];
    assert Text(payload) == "%d";
    VerbWithoutOperandPrintsMissing();
  }
}
