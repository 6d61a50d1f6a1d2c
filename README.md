# AdvertisingDialog: the sender side of a relayed nearby file handoff

This project models the sender-side session of the xsensory app's `AdvertisingDialog`.
The dialog advertises the device under "<brand>: <model>". It accepts a connection when
the user clicks. On a `STATUS_OK` result it stops advertising and sends the bound file as
a payload. It reports transfer progress in whole KB. When the transfer succeeds, it marks
the connection as ended and starts discovering a third device, so the file can be relayed.
The connection to that device is requested through the same lifecycle callback.
So when that connection succeeds, the file is sent again.

The model has five modules:

- `Wrappers` (wrappers.dfy): `Option`, for Kotlin's nullable values, and the elvis operator `?:`.
- `Nearby` (nearby.dfy): the transport vocabulary.
  - The `ConnectionsStatusCodes` and `PayloadTransferUpdate.Status` constants the dialog compares against.
  - The `Strategy` values.
  - The `Command` datatype. Each value records one call the dialog makes on the connections client.
- `Text` (text.dfy): the two texts the dialog computes.
  - The progress line, written with Kotlin's truncating `Long` division and `Long` rendering.
  - The endpoint name.
  - Each has a parser and a proved round trip.
- `SenderSession` (session.dfy): the dialog's state as a value (a `Session`).
  - One function per callback, task listener and button click.
  - `Step` and `Run`, which apply any sequence of such events.
- `SessionProperties` (properties.dfy): the invariant every callback keeps, the candidate
  properties of each callback, and facts about whole runs of events.
- `Dialog` (dialog.dfy): the class `AdvertisingDialog`.
  - Its fields are the status text, animation and button visibility, cancelability, the
    installed click listener, `connectionEnd`, and the command log.
  - It has one method per callback.
  - Each method is proved to produce exactly the state that the matching `SenderSession`
    function computes.
  - Each callback, listener and click method, and show(), is also proved to keep the
    invariant. The three helpers that issue a single transport call (`BeginAdvertising`,
    `BeginDiscovery`, `SendConnectionRequest`) promise only their new state. `BeginDiscovery`
    alone would break the invariant; the callback that calls it stops advertising first.

## Model

| member | source | states |
|---|---|---|
| Dialog.AdvertisingDialog.constructor | app/src/main/java/com/knight/xsensory/dialogs/AdvertisingDialog.kt:20-25 | A new dialog has no binding yet, `connectionEnd` is false and no transport call has been made |
| Dialog.AdvertisingDialog.Show | app/src/main/java/com/knight/xsensory/dialogs/AdvertisingDialog.kt:28-44 | show() leaves the dialog bound and in `SenderSession.Show`'s state, and keeps the invariant |
| Dialog.AdvertisingDialog.BeginAdvertising | app/src/main/java/com/knight/xsensory/dialogs/AdvertisingDialog.kt:147-160 | startAdvertising appends exactly one StartAdvertising(local name, package name, P2P_POINT_TO_POINT) command and changes nothing else |
| Dialog.AdvertisingDialog.BeginDiscovery | app/src/main/java/com/knight/xsensory/dialogs/AdvertisingDialog.kt:187-191 | startDiscovery appends exactly one StartDiscovery(package name, P2P_POINT_TO_POINT) command and changes nothing else |
| Dialog.AdvertisingDialog.SendConnectionRequest | app/src/main/java/com/knight/xsensory/dialogs/AdvertisingDialog.kt:194-207 | requestConnection appends exactly one RequestConnection(local name, endpoint) command and changes nothing else |
| Dialog.AdvertisingDialog.OnConnectionInitiated | app/src/main/java/com/knight/xsensory/dialogs/AdvertisingDialog.kt:48-71 | onConnectionInitiated produces `SenderSession.OnConnectionInitiated`'s state and keeps the invariant |
| Dialog.AdvertisingDialog.OnTransferButtonClick | app/src/main/java/com/knight/xsensory/dialogs/AdvertisingDialog.kt:57-67 | A click runs the listener installed last (accept, request, or none) and keeps the invariant |
| Dialog.AdvertisingDialog.OnConnectionResult | app/src/main/java/com/knight/xsensory/dialogs/AdvertisingDialog.kt:73-111 | onConnectionResult produces `SenderSession.OnConnectionResult`'s state for every code, message and file-open outcome, and keeps the invariant |
| Dialog.AdvertisingDialog.OnDisconnected | app/src/main/java/com/knight/xsensory/dialogs/AdvertisingDialog.kt:113-115 | onDisconnected produces `SenderSession.OnDisconnected`'s state and keeps the invariant |
| Dialog.AdvertisingDialog.OnPayloadTransferUpdate | app/src/main/java/com/knight/xsensory/dialogs/AdvertisingDialog.kt:125-141 | onPayloadTransferUpdate produces `SenderSession.OnPayloadTransferUpdate`'s state and keeps the invariant |
| Dialog.AdvertisingDialog.OnEndpointFound | app/src/main/java/com/knight/xsensory/dialogs/AdvertisingDialog.kt:166-179 | onEndpointFound produces `SenderSession.OnEndpointFound`'s state and keeps the invariant |
| Dialog.AdvertisingDialog.OnEndpointLost | app/src/main/java/com/knight/xsensory/dialogs/AdvertisingDialog.kt:181-183 | onEndpointLost sets the status to "Connection Lost" and changes nothing else |
| Dialog.AdvertisingDialog.OnTaskFailure | app/src/main/java/com/knight/xsensory/dialogs/AdvertisingDialog.kt:155-157 | A failed advertise, discover, accept or request task shows its message, or "Unknown error occurred", and changes nothing else |
| Dialog.AdvertisingDialog.OnPayloadSent | app/src/main/java/com/knight/xsensory/dialogs/AdvertisingDialog.kt:89-91 | The success listener of sendPayload sets "Payload Sent Success" and changes nothing else |
| Dialog.AdvertisingDialog.OnPayloadFailed | app/src/main/java/com/knight/xsensory/dialogs/AdvertisingDialog.kt:92-95 | The failure listener of sendPayload shows the message, or "Unknown error in sending payload", and changes nothing else |
| Dialog.DeliverThenDisconnect | app/src/main/java/com/knight/xsensory/dialogs/AdvertisingDialog.kt:113-140 | A caller that shows, accepts, gets STATUS_OK, receives progress and SUCCESS, and is then disconnected sees "Done\nConnection End". The transport received exactly advertise, accept, stop, send, stop, discover |
| SessionProperties.ShowStartsSearching | app/src/main/java/com/knight/xsensory/dialogs/AdvertisingDialog.kt:28-44 | show() gives status "Searching connection...", animation visible, button hidden with no listener, and not cancelable. `connectionEnd` is kept. StartAdvertising is the only command, issued after all that |
| SenderSession.ResultStatus | app/src/main/java/com/knight/xsensory/dialogs/AdvertisingDialog.kt:97-108 | REJECTED gives "Connection rejected". ERROR gives the transport's message, or "Unknown Error" without one. Every other code gives "Unknown Error!", whether or not a message is present. Without a message, the text determines which of the three cases occurred (both directions) |
| SessionProperties.NonOkResultOnlySetsStatus | app/src/main/java/com/knight/xsensory/dialogs/AdvertisingDialog.kt:97-108 | A non-OK result changes only the status text. It stops nothing and sends nothing |
| SessionProperties.OkResultSendsFile | app/src/main/java/com/knight/xsensory/dialogs/AdvertisingDialog.kt:78-96 | STATUS_OK with an opened file appends StopAdvertising, then exactly one SendPayload of the dialog's file to that endpoint. The status is "Sending file..." |
| SessionProperties.OkResultFileMissing | app/src/main/java/com/knight/xsensory/dialogs/AdvertisingDialog.kt:82-87 | STATUS_OK where `openFileDescriptor` returns null still stops advertising. The status is "File not found" and no payload is sent. A missing file makes that call throw instead, which is not modelled (see Left out) |
| SessionProperties.PayloadListenersOnlyReport | app/src/main/java/com/knight/xsensory/dialogs/AdvertisingDialog.kt:88-95 | sendPayload success shows "Payload Sent Success". Failure shows the message, or "Unknown error in sending payload". Neither changes anything else |
| SessionProperties.ProgressUpdateShowsKb | app/src/main/java/com/knight/xsensory/dialogs/AdvertisingDialog.kt:127-131 | A non-SUCCESS update's status line parses back to exactly (bytes/1024, total/1024), truncated toward zero. Nothing but the status changes: not `connectionEnd`, not cancelability, no command |
| SessionProperties.SuccessUpdateEndsConnection | app/src/main/java/com/knight/xsensory/dialogs/AdvertisingDialog.kt:127-140 | A SUCCESS update sets `connectionEnd`, makes the dialog cancelable and sets "Done\nConnection End". It appends StopAdvertising then StartDiscovery, and changes nothing else |
| SessionProperties.DisconnectedCases | app/src/main/java/com/knight/xsensory/dialogs/AdvertisingDialog.kt:113-115 | A disconnect changes nothing once `connectionEnd` is set. Otherwise it sets only "Connection disconnected" |
| SessionProperties.FoundThenClickRequests | app/src/main/java/com/knight/xsensory/dialogs/AdvertisingDialog.kt:166-179 | A found endpoint shows its name, hides the animation and shows the button, with no transport call. The click then issues exactly one RequestConnection for it, hides the button and sets "Sending request..." |
| SessionProperties.InitiatedThenClickAccepts | app/src/main/java/com/knight/xsensory/dialogs/AdvertisingDialog.kt:48-71 | An initiated connection shows the requester's name, hides the animation and shows the button, with no transport call. The click then issues exactly one AcceptConnection for that endpoint and hides the button |
| SessionProperties.RelayedResultSendsAgain | app/src/main/java/com/knight/xsensory/dialogs/AdvertisingDialog.kt:194-199 | After a found endpoint is requested, its STATUS_OK result goes to the same handler. The log gains RequestConnection, StopAdvertising and a SendPayload of the file to that endpoint |
| SessionProperties.ShowPreservesInv | app/src/main/java/com/knight/xsensory/dialogs/AdvertisingDialog.kt:149-153 | show() keeps the invariant: its advertising uses the dialog's name, service id and strategy |
| SessionProperties.StepPreservesInv | app/src/main/java/com/knight/xsensory/dialogs/AdvertisingDialog.kt:73-141 | Every callback keeps the invariant. Commands carry the dialog's name, package name, strategy and file. Each send and each discovery start directly follows a StopAdvertising. A visible button always has a listener. `connectionEnd` implies discovery was started |
| SessionProperties.RunPreservesInv | app/src/main/java/com/knight/xsensory/dialogs/AdvertisingDialog.kt:147-199 | The invariant holds after any sequence of events. In particular, advertising, discovery and requests always use "<brand>: <model>", the package name and P2P_POINT_TO_POINT |
| SessionProperties.ConnectionEndExactlyAfterSuccess | app/src/main/java/com/knight/xsensory/dialogs/AdvertisingDialog.kt:129 | After any run, `connectionEnd` holds if and only if it held before or the run contains a SUCCESS transfer update |
| SessionProperties.CompletionIsSticky | app/src/main/java/com/knight/xsensory/dialogs/AdvertisingDialog.kt:127-130 | Once set, `connectionEnd` and cancelability survive every later callback, listener or click. A second show() is not an event of `Run`; it would put up a new dialog that is not cancelable |
| SessionProperties.DisconnectIgnoredAfterSuccess | app/src/main/java/com/knight/xsensory/dialogs/AdvertisingDialog.kt:113-115 | After a SUCCESS update followed by any events, a disconnect leaves the whole state unchanged |
| SessionProperties.SendsMatchOkResults | app/src/main/java/com/knight/xsensory/dialogs/AdvertisingDialog.kt:85-88 | In any run, the number of payloads sent grows by exactly the number of STATUS_OK results whose file could be opened |
| SessionProperties.NoSendWithoutOk | app/src/main/java/com/knight/xsensory/dialogs/AdvertisingDialog.kt:97-108 | A run with no STATUS_OK result sends no payload, whatever else happens |
| SessionProperties.RelayScenario | app/src/main/java/com/knight/xsensory/dialogs/AdvertisingDialog.kt:133-139 | Show, accept, OK, SUCCESS, find, request, accept the connection the requested device initiates, OK: the state after SUCCESS is "Done" with `connectionEnd` set. For this sequence of callbacks the transport receives advertise, accept, stop, send, stop, discover, request, accept, stop, send, in that order |
| Text.KbOf | app/src/main/java/com/knight/xsensory/dialogs/AdvertisingDialog.kt:131 | The KB count is the byte count divided by 1024 and truncated toward zero, as Kotlin's `Long` division does. It is bounded on both sides, for negative counts too |
| Text.LongToString | app/src/main/java/com/knight/xsensory/dialogs/AdvertisingDialog.kt:131 | Kotlin's rendering of a `Long` in the template is non-empty, starts with '-' exactly when the value is negative, and is otherwise made of digits |
| Text.NatToDecimal | app/src/main/java/com/knight/xsensory/dialogs/AdvertisingDialog.kt:131 | The rendering of a count is a non-empty string of digits. It starts with '0' exactly when the count is 0, so it has no leading zeros |
| Text.DecimalRoundTrip | app/src/main/java/com/knight/xsensory/dialogs/AdvertisingDialog.kt:131 | Reading the decimal rendering of a count gives the count back |
| Text.LongRoundTrip | app/src/main/java/com/knight/xsensory/dialogs/AdvertisingDialog.kt:131 | Reading the signed rendering of a `Long` gives the value back |
| Text.ProgressTextRoundTrip | app/src/main/java/com/knight/xsensory/dialogs/AdvertisingDialog.kt:131 | `ProgressText`, the line "Sent: <x>KB \nTotal: <y>KB", parses back to exactly the two truncated KB counts |
| Text.EndpointName | app/src/main/java/com/knight/xsensory/dialogs/AdvertisingDialog.kt:150 | When the brand has no colon, "<brand>: <model>" splits back into brand and model |
| SenderSession.LocalName | app/src/main/java/com/knight/xsensory/dialogs/AdvertisingDialog.kt:196 | The name the dialog advertises and requests under is the device's "<brand>: <model>": when the brand has no colon, a peer splits it back into the device's brand and model |
| Text.EndpointNameInjective | app/src/main/java/com/knight/xsensory/dialogs/AdvertisingDialog.kt:196 | When no brand has a colon, different brand/model pairs give different endpoint names |

## Left out

- Android views are reduced to their state: the view binding, `AlertDialog`, the Lottie animation and `LayoutInflater`. Text becomes a string and visibility a boolean. The dialog's cancelable flag is a boolean. The button's click listener is a `ClickAction` value.
- The Nearby `ConnectionsClient` is a foreign library. Every call on it is appended to a command log. The lifecycle and payload callbacks it is given are always the dialog's own, so the log does not record them. Each `Task` listener that changes state is an event method.
- The success listeners of acceptConnection and requestConnection, and `onPayloadReceived`, only write to the log. They change no state, so they are not modelled. `Log.d`/`Log.e` calls are left out for the same reason.
- Coroutine dispatch (`viewModelScope.launch`) and threading are left out. Each callback is one atomic step.
- Opening the file through the content resolver is not modelled. Its outcome is an `Option` input to `OnConnectionResult`: a descriptor, or `None` for a null return of `openFileDescriptor`, which the code answers with "File not found".
- A file that does not exist makes `openFileDescriptor` on a `file://` URI throw `FileNotFoundException` rather than return null. The throw escapes the coroutine after advertising has been stopped and "Sending file..." shown. The model does not capture that path; `openedFile == None` stands only for a null return.
- `Build.BRAND`, `Build.MODEL` and the package name are constructor parameters.
- Transport events may arrive in any order in `Run`. The model does not restrict them to the orders the Nearby library would actually produce, so the lemmas about runs cover more orders than can occur.
- Dialog.AdvertisingDialog.OnTransferButtonClick: a click runs the last installed listener even when the button is hidden. The model does not capture that Android delivers no clicks to a view that is `GONE`.
- Text.KbOf: integers are unbounded. Kotlin's `Long` bounds are not modelled. Division by 1024 only shrinks a value, so the progress text cannot overflow.
- Callbacks require `bound`. Before show(), the `lateinit` binding does not exist and any callback would throw. That throw is not modelled.
- app/src/main/java/com/knight/xsensory/AppViewModel.kt is not part of this model. It only wraps `FileExtractor` in LiveData.
- app/build.gradle.kts is not part of this model. It is build configuration.
- `DiscoveringDialog` is not part of this model. It is imported but its source is not available.
- The model follows the code, not a state-enum design with InvalidStateTransition guards. The code has no session-state enum and no InvalidStateTransition error. It has no receiver role and no guarantee that progress never decreases. It also differs in three details:
  - A FAILURE or CANCELED transfer update shows the progress line, just like IN_PROGRESS.
  - A result other than STATUS_OK only sets the status text.
  - show() does not reset `connectionEnd`.
