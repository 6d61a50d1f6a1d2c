/**
 * The sender-side session of AdvertisingDialog as a pure state machine. A `Session` is
 * everything the dialog's callbacks read or write: the visible state of the dialog (status
 * text, animation and transfer-button visibility, cancelability, the button's click
 * action), the `connectionEnd` flag, and the log of commands issued to the transport.
 * Each callback is a function from the session before it to the session after it; the
 * class in module `Dialog` is proved to follow these functions step for step.
 */
module SenderSession {
  import opened Wrappers
  import opened Nearby
  import opened Text

  /** What the dialog is constructed with, and the device properties it reads. */
  datatype Device = Device(brand: string, model: string, packageName: string, filePath: string)

  /**
   * The name used both to advertise and to request connections. A peer reading it gets
   * back the device's brand and model, as long as the brand holds no colon.
   */
  function LocalName(d: Device): (name: string)
    ensures ':' !in d.brand ==> SplitEndpointName(name) == Some((d.brand, d.model))
  {
    EndpointName(d.brand, d.model)
  }

  /** The listener installed on the transfer button. */
  datatype ClickAction = NoListener | AcceptOnClick(endpointId: string) | RequestOnClick(endpointId: string)

  datatype View = View(
    status: string,
    animationVisible: bool,
    buttonVisible: bool,
    cancelable: bool,
    onClick: ClickAction)

  datatype Session = Session(view: View, connectionEnd: bool, commands: seq<Command>)

  const SEARCHING := "Searching connection..."
  const SENDING_FILE := "Sending file..."
  const FILE_NOT_FOUND := "File not found"
  const PAYLOAD_SENT := "Payload Sent Success"
  const SEND_ERROR_FALLBACK := "Unknown error in sending payload"
  const REJECTED := "Connection rejected"
  const ERROR_FALLBACK := "Unknown Error"
  const UNKNOWN_CODE := "Unknown Error!"
  const DISCONNECTED := "Connection disconnected"
  const DONE := "Done\nConnection End"
  const SENDING_REQUEST := "Sending request..."
  const LOST := "Connection Lost"
  const TASK_ERROR_FALLBACK := "Unknown error occurred"

  function WithStatus(s: Session, text: string): Session
  {
    s.(view := s.view.(status := text))
  }

  /** startAdvertising(): P2P point-to-point, under the local name and the package name. */
  function BeginAdvertising(d: Device, s: Session): Session
  {
    s.(commands := s.commands + [StartAdvertising(LocalName(d), d.packageName, P2pPointToPoint)])
  }

  /** startDiscovery(): the same service id and strategy as advertising. */
  function BeginDiscovery(d: Device, s: Session): Session
  {
    s.(commands := s.commands + [StartDiscovery(d.packageName, P2pPointToPoint)])
  }

  /** requestConnection(endpointId), under the same name as advertising. */
  function SendConnectionRequest(d: Device, s: Session, endpointId: string): Session
  {
    s.(commands := s.commands + [RequestConnection(LocalName(d), endpointId)])
  }

  /** show(): a fresh view in the searching state, not cancelable, then advertising. */
  function Show(d: Device, s: Session): Session
  {
    BeginAdvertising(d, Session(View(SEARCHING, true, false, false, NoListener), s.connectionEnd, s.commands))
  }

  function OnConnectionInitiated(s: Session, endpointId: string, endpointName: string): Session
  {
    s.(view := s.view.(animationVisible := false, status := endpointName, buttonVisible := true,
                       onClick := AcceptOnClick(endpointId)))
  }

  function OnEndpointFound(s: Session, endpointId: string, endpointName: string): Session
  {
    s.(view := s.view.(status := endpointName, animationVisible := false, buttonVisible := true,
                       onClick := RequestOnClick(endpointId)))
  }

  function OnEndpointLost(s: Session): Session
  {
    WithStatus(s, LOST)
  }

  /** A click on the transfer button runs whichever listener was installed last. */
  function OnTransferButtonClick(d: Device, s: Session): Session
  {
    match s.view.onClick
    case NoListener => s
    case AcceptOnClick(id) =>
      s.(view := s.view.(buttonVisible := false), commands := s.commands + [AcceptConnection(id)])
    case RequestOnClick(id) =>
      var requested := SendConnectionRequest(d, s, id);
      requested.(view := requested.view.(buttonVisible := false, status := SENDING_REQUEST))
  }

  /**
   * The status text of a connection result other than STATUS_OK. The transport's message is
   * shown only for STATUS_ERROR; every code the dialog does not know gives "Unknown Error!",
   * whatever the message. Without a message the text tells the three cases apart.
   */
  function ResultStatus(code: int, statusMessage: Option<string>): (text: string)
    ensures code == STATUS_CONNECTION_REJECTED ==> text == REJECTED
    ensures code == STATUS_ERROR && statusMessage.Some? ==> text == statusMessage.value
    ensures code != STATUS_ERROR && code != STATUS_CONNECTION_REJECTED ==> text == UNKNOWN_CODE
    ensures statusMessage.None? ==> (text == REJECTED <==> code == STATUS_CONNECTION_REJECTED)
    ensures statusMessage.None? ==> (text == ERROR_FALLBACK <==> code == STATUS_ERROR)
    ensures statusMessage.None?
        ==> (text == UNKNOWN_CODE <==> code != STATUS_ERROR && code != STATUS_CONNECTION_REJECTED)
  {
    if code == STATUS_CONNECTION_REJECTED then REJECTED
    else if code == STATUS_ERROR then OrElse(statusMessage, ERROR_FALLBACK)
    else UNKNOWN_CODE
  }

  /**
   * onConnectionResult. `openedFile` is what `openFileDescriptor` returned at that moment:
   * a descriptor, or `None` for a null return. A missing file makes that call throw instead,
   * which this function does not model.
   */
  function OnConnectionResult(d: Device, s: Session, endpointId: string, code: int,
                              statusMessage: Option<string>, openedFile: Option<nat>): Session
  {
    if code == STATUS_OK then
      var stopped := WithStatus(s.(commands := s.commands + [StopAdvertising]), SENDING_FILE);
      match openedFile
      case None => WithStatus(stopped, FILE_NOT_FOUND)
      case Some(fd) =>
        stopped.(commands := stopped.commands + [SendPayload(endpointId, FilePayload(d.filePath, fd))])
    else
      WithStatus(s, ResultStatus(code, statusMessage))
  }

  function OnDisconnected(s: Session): Session
  {
    if s.connectionEnd then s else WithStatus(s, DISCONNECTED)
  }

  function OnPayloadTransferUpdate(d: Device, s: Session, status: int, bytesTransferred: int,
                                   totalBytes: int): Session
  {
    if status == TRANSFER_SUCCESS then
      var done := Session(s.view.(cancelable := true, status := DONE), true, s.commands + [StopAdvertising]);
      BeginDiscovery(d, done)
    else
      WithStatus(s, ProgressText(bytesTransferred, totalBytes))
  }

  /** The failure listener of startAdvertising, startDiscovery, acceptConnection or requestConnection. */
  function OnTaskFailure(s: Session, message: Option<string>): Session
  {
    WithStatus(s, OrElse(message, TASK_ERROR_FALLBACK))
  }

  /** The success listener of sendPayload. */
  function OnPayloadSent(s: Session): Session
  {
    WithStatus(s, PAYLOAD_SENT)
  }

  /** The failure listener of sendPayload. */
  function OnPayloadFailed(s: Session, message: Option<string>): Session
  {
    WithStatus(s, OrElse(message, SEND_ERROR_FALLBACK))
  }

  /** Everything that can happen to a shown dialog: transport callbacks, task listeners, clicks. */
  datatype Event =
    | Initiated(endpointId: string, endpointName: string)
    | Resolved(endpointId: string, code: int, statusMessage: Option<string>, openedFile: Option<nat>)
    | Disconnected(endpointId: string)
    | TransferUpdate(endpointId: string, status: int, bytesTransferred: int, totalBytes: int)
    | Found(endpointId: string, endpointName: string)
    | Lost(endpointId: string)
    | ButtonClick
    | AdvertisingFailed(message: Option<string>)
    | DiscoveryFailed(message: Option<string>)
    | AcceptFailed(message: Option<string>)
    | RequestFailed(message: Option<string>)
    | PayloadSent
    | PayloadFailed(message: Option<string>)

  function Step(d: Device, s: Session, e: Event): Session
  {
    match e
    case Initiated(id, name) => OnConnectionInitiated(s, id, name)
    case Resolved(id, code, msg, openedFile) => OnConnectionResult(d, s, id, code, msg, openedFile)
    case Disconnected(_) => OnDisconnected(s)
    case TransferUpdate(_, status, bytes, total) => OnPayloadTransferUpdate(d, s, status, bytes, total)
    case Found(id, name) => OnEndpointFound(s, id, name)
    case Lost(_) => OnEndpointLost(s)
    case ButtonClick => OnTransferButtonClick(d, s)
    case AdvertisingFailed(msg) => OnTaskFailure(s, msg)
    case DiscoveryFailed(msg) => OnTaskFailure(s, msg)
    case AcceptFailed(msg) => OnTaskFailure(s, msg)
    case RequestFailed(msg) => OnTaskFailure(s, msg)
    case PayloadSent => OnPayloadSent(s)
    case PayloadFailed(msg) => OnPayloadFailed(s, msg)
  }

  /** The session after a sequence of events, delivered one at a time. */
  function Run(d: Device, s: Session, events: seq<Event>): Session
    decreases |events|
  {
    if events == [] then s else Run(d, Step(d, s, events[0]), events[1..])
  }
}
