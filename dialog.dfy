/**
 * AdvertisingDialog as the object it is: mutable fields for what its callbacks change,
 * one method per callback, task listener or click. The views are reduced to their text
 * and visibility, the transport client to the log of commands issued to it. Each method
 * is proved to leave the object in the state the matching function of `SenderSession`
 * computes, and to keep the invariant of `SessionProperties`.
 */
module Dialog {
  import opened Wrappers
  import opened Nearby
  import opened Text
  import opened SenderSession
  import opened SessionProperties

  class AdvertisingDialog {
    /** Build.BRAND, Build.MODEL, the package name and the file, fixed at construction. */
    const device: Device

    /** Whether show() has created the binding and the dialog (both `lateinit`). */
    var bound: bool

    /** b.tvSearching.text */
    var status: string
    /** b.animLottie.visibility == VISIBLE */
    var animationVisible: bool
    /** b.btnStartTransfer.visibility == VISIBLE */
    var buttonVisible: bool
    /** The cancelable flag of the AlertDialog. */
    var cancelable: bool
    /** The listener last installed on b.btnStartTransfer. */
    var onClick: ClickAction
    /** Set when a payload transfer has succeeded; a later disconnect is then not reported. */
    var connectionEnd: bool
    /** Every call made on the connections client, oldest first. */
    var commands: seq<Command>

    function State(): Session
      reads this
    {
      Session(View(status, animationVisible, buttonVisible, cancelable, onClick), connectionEnd, commands)
    }

    ghost predicate Valid()
      reads this
    {
      Inv(device, State()) && (!bound ==> commands == [] && !connectionEnd)
    }

    constructor (brand: string, model: string, packageName: string, filePath: string)
      ensures Valid() && !bound
      ensures device == Device(brand, model, packageName, filePath)
      ensures !connectionEnd && commands == []
    {
      device := Device(brand, model, packageName, filePath);
      bound := false;
      status, animationVisible, buttonVisible, cancelable, onClick := "", false, false, false, NoListener;
      connectionEnd := false;
      commands := [];
    }

    method Show()
      requires Valid()
      modifies this
      ensures Valid() && bound
      ensures State() == SenderSession.Show(device, old(State()))
    {
      ghost var before := State();
      animationVisible := true;
      status := SEARCHING;
      buttonVisible := false;
      onClick := NoListener;
      cancelable := false;
      bound := true;
      BeginAdvertising();
      ShowPreservesInv(device, before);
    }

    method BeginAdvertising()
      modifies this
      ensures bound == old(bound)
      ensures State() == SenderSession.BeginAdvertising(device, old(State()))
    {
      commands := commands + [StartAdvertising(LocalName(device), device.packageName, P2pPointToPoint)];
    }

    method BeginDiscovery()
      modifies this
      ensures bound == old(bound)
      ensures State() == SenderSession.BeginDiscovery(device, old(State()))
    {
      commands := commands + [StartDiscovery(device.packageName, P2pPointToPoint)];
    }

    method SendConnectionRequest(endpointId: string)
      modifies this
      ensures bound == old(bound)
      ensures State() == SenderSession.SendConnectionRequest(device, old(State()), endpointId)
    {
      commands := commands + [RequestConnection(LocalName(device), endpointId)];
    }

    method OnConnectionInitiated(endpointId: string, endpointName: string)
      requires bound && Valid()
      modifies this
      ensures bound && Valid()
      ensures State() == SenderSession.OnConnectionInitiated(old(State()), endpointId, endpointName)
    {
      ghost var before := State();
      animationVisible := false;
      status := endpointName;
      buttonVisible := true;
      onClick := AcceptOnClick(endpointId);
      StepPreservesInv(device, before, Initiated(endpointId, endpointName));
    }

    method OnTransferButtonClick()
      requires bound && Valid()
      modifies this
      ensures bound && Valid()
      ensures State() == SenderSession.OnTransferButtonClick(device, old(State()))
    {
      ghost var before := State();
      match onClick {
        case NoListener =>
        case AcceptOnClick(id) =>
          commands := commands + [AcceptConnection(id)];
          buttonVisible := false;
        case RequestOnClick(id) =>
          SendConnectionRequest(id);
          buttonVisible := false;
          status := SENDING_REQUEST;
      }
      StepPreservesInv(device, before, ButtonClick);
    }

    method OnConnectionResult(endpointId: string, code: int, statusMessage: Option<string>,
                              openedFile: Option<nat>)
      requires bound && Valid()
      modifies this
      ensures bound && Valid()
      ensures State() == SenderSession.OnConnectionResult(device, old(State()), endpointId, code,
                                                          statusMessage, openedFile)
    {
      ghost var before := State();
      if code == STATUS_OK {
        commands := commands + [StopAdvertising];
        status := SENDING_FILE;
        match openedFile {
          case None =>
            status := FILE_NOT_FOUND;
          case Some(fd) =>
            commands := commands + [SendPayload(endpointId, FilePayload(device.filePath, fd))];
        }
      } else if code == STATUS_CONNECTION_REJECTED {
        status := REJECTED;
      } else if code == STATUS_ERROR {
        status := OrElse(statusMessage, ERROR_FALLBACK);
      } else {
        status := UNKNOWN_CODE;
      }
      StepPreservesInv(device, before, Resolved(endpointId, code, statusMessage, openedFile));
    }

    method OnDisconnected(endpointId: string)
      requires bound && Valid()
      modifies this
      ensures bound && Valid()
      ensures State() == SenderSession.OnDisconnected(old(State()))
    {
      ghost var before := State();
      if !connectionEnd {
        status := DISCONNECTED;
      }
      StepPreservesInv(device, before, Disconnected(endpointId));
    }

    method OnPayloadTransferUpdate(endpointId: string, transferStatus: int, bytesTransferred: int,
                                   totalBytes: int)
      requires bound && Valid()
      modifies this
      ensures bound && Valid()
      ensures State() == SenderSession.OnPayloadTransferUpdate(device, old(State()), transferStatus,
                                                               bytesTransferred, totalBytes)
    {
      ghost var before := State();
      if transferStatus == TRANSFER_SUCCESS {
        cancelable := true;
        connectionEnd := true;
        status := DONE;
      } else {
        status := ProgressText(bytesTransferred, totalBytes);
      }
      if transferStatus == TRANSFER_SUCCESS {
        commands := commands + [StopAdvertising];
        BeginDiscovery();
      }
      StepPreservesInv(device, before, TransferUpdate(endpointId, transferStatus, bytesTransferred, totalBytes));
    }

    method OnEndpointFound(endpointId: string, endpointName: string)
      requires bound && Valid()
      modifies this
      ensures bound && Valid()
      ensures State() == SenderSession.OnEndpointFound(old(State()), endpointId, endpointName)
    {
      ghost var before := State();
      status := endpointName;
      animationVisible := false;
      buttonVisible := true;
      onClick := RequestOnClick(endpointId);
      StepPreservesInv(device, before, Found(endpointId, endpointName));
    }

    method OnEndpointLost(endpointId: string)
      requires bound && Valid()
      modifies this
      ensures bound && Valid()
      ensures State() == SenderSession.OnEndpointLost(old(State()))
    {
      ghost var before := State();
      status := LOST;
      StepPreservesInv(device, before, Lost(endpointId));
    }

    /** The failure listener of startAdvertising, startDiscovery, acceptConnection or requestConnection. */
    method OnTaskFailure(message: Option<string>)
      requires bound && Valid()
      modifies this
      ensures bound && Valid()
      ensures State() == SenderSession.OnTaskFailure(old(State()), message)
    {
      ghost var before := State();
      status := OrElse(message, TASK_ERROR_FALLBACK);
      StepPreservesInv(device, before, AdvertisingFailed(message));
    }

    method OnPayloadSent()
      requires bound && Valid()
      modifies this
      ensures bound && Valid()
      ensures State() == SenderSession.OnPayloadSent(old(State()))
    {
      ghost var before := State();
      status := PAYLOAD_SENT;
      StepPreservesInv(device, before, PayloadSent);
    }

    method OnPayloadFailed(message: Option<string>)
      requires bound && Valid()
      modifies this
      ensures bound && Valid()
      ensures State() == SenderSession.OnPayloadFailed(old(State()), message)
    {
      ghost var before := State();
      status := OrElse(message, SEND_ERROR_FALLBACK);
      StepPreservesInv(device, before, PayloadFailed(message));
    }
  }

  /**
   * A caller's view: from the specifications alone, a dialog that has delivered its file
   * and then loses the connection still reports the success.
   */
  method DeliverThenDisconnect(brand: string, model: string, packageName: string, filePath: string,
                               requester: string, fd: nat, size: int)
    returns (status: string, sent: seq<Command>)
    ensures status == DONE
    ensures sent == [StartAdvertising(EndpointName(brand, model), packageName, P2pPointToPoint),
                     AcceptConnection(requester), StopAdvertising,
                     SendPayload(requester, FilePayload(filePath, fd)),
                     StopAdvertising, StartDiscovery(packageName, P2pPointToPoint)]
  {
    var dialog := new AdvertisingDialog(brand, model, packageName, filePath);
    dialog.Show();
    dialog.OnConnectionInitiated(requester, "peer");
    dialog.OnTransferButtonClick();
    dialog.OnConnectionResult(requester, STATUS_OK, None, Some(fd));
    dialog.OnPayloadTransferUpdate(requester, TRANSFER_IN_PROGRESS, size / 2, size);
    dialog.OnPayloadTransferUpdate(requester, TRANSFER_SUCCESS, size, size);
    dialog.OnDisconnected(requester);
    status, sent := dialog.status, dialog.commands;
  }
}
