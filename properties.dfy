/**
 * What the sender session promises: the state each callback leaves behind, the invariant
 * every callback keeps, and facts about whole runs of callbacks (a success is never
 * undone, every file payload answers one STATUS_OK result, the relayed connection
 * re-enters the send branch).
 */
module SessionProperties {
  import opened Wrappers
  import opened Nearby
  import opened Text
  import opened SenderSession

  // ----- The invariant -----

  /** Every command is issued with the dialog's own settings. */
  predicate WellFormedCommand(d: Device, c: Command)
  {
    match c
    case StartAdvertising(name, serviceId, strategy) =>
      name == LocalName(d) && serviceId == d.packageName && strategy == P2pPointToPoint
    case StartDiscovery(serviceId, strategy) =>
      serviceId == d.packageName && strategy == P2pPointToPoint
    case RequestConnection(name, _) => name == LocalName(d)
    case SendPayload(_, payload) => payload.path == d.filePath
    case _ => true
  }

  /** A payload is sent, or discovery started, only right after advertising is stopped. */
  predicate StoppedBefore(cmds: seq<Command>, i: int)
    requires 0 <= i < |cmds|
  {
    (cmds[i].SendPayload? || cmds[i].StartDiscovery?) ==> 0 < i && cmds[i - 1] == StopAdvertising
  }

  predicate WellFormedLog(d: Device, cmds: seq<Command>)
  {
    forall i :: 0 <= i < |cmds| ==> WellFormedCommand(d, cmds[i]) && StoppedBefore(cmds, i)
  }

  predicate Inv(d: Device, s: Session)
  {
    WellFormedLog(d, s.commands)
    && (s.view.buttonVisible ==> s.view.onClick != NoListener)
    && (s.connectionEnd ==> StartDiscovery(d.packageName, P2pPointToPoint) in s.commands)
  }

  lemma ShowPreservesInv(d: Device, s: Session)
    requires Inv(d, s)
    ensures Inv(d, Show(d, s))
  {
  }

  lemma StepPreservesInv(d: Device, s: Session, e: Event)
    requires Inv(d, s)
    ensures Inv(d, Step(d, s, e))
  {
  }

  lemma {:induction false} RunPreservesInv(d: Device, s: Session, events: seq<Event>)
    requires Inv(d, s)
    ensures Inv(d, Run(d, s, events))
    decreases |events|
  {
    if events != [] {
      StepPreservesInv(d, s, events[0]);
      RunPreservesInv(d, Step(d, s, events[0]), events[1..]);
    }
  }

  // ----- One callback at a time -----

  /** show() puts up the searching screen, not cancelable, and only then starts advertising. */
  lemma ShowStartsSearching(d: Device, s: Session)
    ensures Show(d, s).view == View(SEARCHING, true, false, false, NoListener)
    ensures Show(d, s).connectionEnd == s.connectionEnd
    ensures Show(d, s).commands == s.commands + [StartAdvertising(LocalName(d), d.packageName, P2pPointToPoint)]
  {
  }

  /** A result other than STATUS_OK changes the status text and nothing else. */
  lemma NonOkResultOnlySetsStatus(d: Device, s: Session, endpointId: string, code: int,
                                  statusMessage: Option<string>, openedFile: Option<nat>)
    requires code != STATUS_OK
    ensures OnConnectionResult(d, s, endpointId, code, statusMessage, openedFile)
         == WithStatus(s, ResultStatus(code, statusMessage))
  {
  }

  /** STATUS_OK with an opened file: stop advertising, then one payload to that endpoint. */
  lemma OkResultSendsFile(d: Device, s: Session, endpointId: string, statusMessage: Option<string>, fd: nat)
    ensures var r := OnConnectionResult(d, s, endpointId, STATUS_OK, statusMessage, Some(fd));
      r.commands == s.commands + [StopAdvertising, SendPayload(endpointId, FilePayload(d.filePath, fd))]
      && r.view == s.view.(status := SENDING_FILE) && r.connectionEnd == s.connectionEnd
  {
  }

  /** STATUS_OK when opening the file returns null: advertising is still stopped, but nothing is sent. */
  lemma OkResultFileMissing(d: Device, s: Session, endpointId: string, statusMessage: Option<string>)
    ensures var r := OnConnectionResult(d, s, endpointId, STATUS_OK, statusMessage, None);
      r.commands == s.commands + [StopAdvertising]
      && r.view == s.view.(status := FILE_NOT_FOUND) && r.connectionEnd == s.connectionEnd
  {
  }

  /** The listeners of sendPayload only report, in the status text. */
  lemma PayloadListenersOnlyReport(s: Session, message: Option<string>)
    ensures OnPayloadSent(s) == WithStatus(s, PAYLOAD_SENT)
    ensures OnPayloadFailed(s, message)
         == WithStatus(s, if message.Some? then message.value else SEND_ERROR_FALLBACK)
  {
  }

  /**
   * An update that is not SUCCESS shows the transferred and total sizes in whole KB
   * (rounded toward zero) and changes nothing else.
   */
  lemma ProgressUpdateShowsKb(d: Device, s: Session, status: int, bytesTransferred: int, totalBytes: int)
    requires status != TRANSFER_SUCCESS
    ensures var r := OnPayloadTransferUpdate(d, s, status, bytesTransferred, totalBytes);
      ParseProgressText(r.view.status) == Some((KbOf(bytesTransferred), KbOf(totalBytes)))
      && r == WithStatus(s, r.view.status)
  {
    ProgressTextRoundTrip(bytesTransferred, totalBytes);
  }

  /** A SUCCESS update ends the connection and pivots to discovery for the next device. */
  lemma SuccessUpdateEndsConnection(d: Device, s: Session, bytesTransferred: int, totalBytes: int)
    ensures var r := OnPayloadTransferUpdate(d, s, TRANSFER_SUCCESS, bytesTransferred, totalBytes);
      r.connectionEnd && r.view.cancelable && r.view.status == DONE
      && r.view.(status := s.view.status, cancelable := s.view.cancelable) == s.view
      && r.commands == s.commands + [StopAdvertising, StartDiscovery(d.packageName, P2pPointToPoint)]
  {
  }

  lemma DisconnectedCases(s: Session)
    ensures s.connectionEnd ==> OnDisconnected(s) == s
    ensures !s.connectionEnd ==> OnDisconnected(s) == WithStatus(s, DISCONNECTED)
  {
  }

  /** Found endpoint: shown by name with the button up; a click requests it exactly once. */
  lemma FoundThenClickRequests(d: Device, s: Session, endpointId: string, endpointName: string)
    ensures var f := OnEndpointFound(s, endpointId, endpointName);
      f.view.status == endpointName && !f.view.animationVisible && f.view.buttonVisible
      && f.commands == s.commands
    ensures var c := OnTransferButtonClick(d, OnEndpointFound(s, endpointId, endpointName));
      c.commands == s.commands + [RequestConnection(LocalName(d), endpointId)]
      && !c.view.buttonVisible && c.view.status == SENDING_REQUEST
  {
  }

  /** Initiated connection: the requester is shown with the button up; a click accepts it. */
  lemma InitiatedThenClickAccepts(d: Device, s: Session, endpointId: string, endpointName: string)
    ensures var f := OnConnectionInitiated(s, endpointId, endpointName);
      f.view.status == endpointName && !f.view.animationVisible && f.view.buttonVisible
      && f.commands == s.commands
    ensures var c := OnTransferButtonClick(d, OnConnectionInitiated(s, endpointId, endpointName));
      c.commands == s.commands + [AcceptConnection(endpointId)]
      && !c.view.buttonVisible && c.view.status == endpointName
  {
  }

  /**
   * The connection requested from a found endpoint reports to the same lifecycle
   * callback, so its STATUS_OK result sends the file again, to that endpoint.
   */
  lemma RelayedResultSendsAgain(d: Device, s: Session, endpointId: string, endpointName: string,
                                statusMessage: Option<string>, fd: nat)
    ensures var requested := OnTransferButtonClick(d, OnEndpointFound(s, endpointId, endpointName));
      OnConnectionResult(d, requested, endpointId, STATUS_OK, statusMessage, Some(fd)).commands
      == s.commands + [RequestConnection(LocalName(d), endpointId), StopAdvertising,
                       SendPayload(endpointId, FilePayload(d.filePath, fd))]
  {
  }

  // ----- Whole runs -----

  predicate IsSuccessUpdate(e: Event)
  {
    e.TransferUpdate? && e.status == TRANSFER_SUCCESS
  }

  /** `connectionEnd` is only ever set, and only by a SUCCESS transfer update. */
  lemma {:induction false} ConnectionEndExactlyAfterSuccess(d: Device, s: Session, events: seq<Event>)
    ensures Run(d, s, events).connectionEnd
        <==> s.connectionEnd || exists i :: 0 <= i < |events| && IsSuccessUpdate(events[i])
    decreases |events|
  {
    if events != [] {
      var rest := events[1..];
      ConnectionEndExactlyAfterSuccess(d, Step(d, s, events[0]), rest);
      assert forall j :: 0 <= j < |rest| ==> rest[j] == events[j + 1];
      if exists i :: 0 <= i < |events| && IsSuccessUpdate(events[i]) {
        var i :| 0 <= i < |events| && IsSuccessUpdate(events[i]);
        if 0 < i {
          assert IsSuccessUpdate(rest[i - 1]);
        }
      }
    }
  }

  /**
   * Once a transfer has succeeded the dialog stays cancelable and the connection ended,
   * whatever callbacks follow. `Run` covers a dialog that has already been shown: a second
   * show() is not an event, and it would put up a new dialog that is not cancelable.
   */
  lemma {:induction false} CompletionIsSticky(d: Device, s: Session, events: seq<Event>)
    requires s.connectionEnd && s.view.cancelable
    ensures Run(d, s, events).connectionEnd && Run(d, s, events).view.cancelable
    decreases |events|
  {
    if events != [] {
      CompletionIsSticky(d, Step(d, s, events[0]), events[1..]);
    }
  }

  /** After a SUCCESS update, however many events follow, a disconnect changes nothing. */
  lemma DisconnectIgnoredAfterSuccess(d: Device, s: Session, bytesTransferred: int, totalBytes: int,
                                      events: seq<Event>)
    ensures var t := Run(d, OnPayloadTransferUpdate(d, s, TRANSFER_SUCCESS, bytesTransferred, totalBytes), events);
      OnDisconnected(t) == t
  {
    CompletionIsSticky(d, OnPayloadTransferUpdate(d, s, TRANSFER_SUCCESS, bytesTransferred, totalBytes), events);
  }

  /** The number of file payloads sent. */
  function SendCount(cmds: seq<Command>): nat
  {
    if cmds == [] then 0
    else SendCount(cmds[..|cmds| - 1]) + if cmds[|cmds| - 1].SendPayload? then 1 else 0
  }

  /** A STATUS_OK result for which the file could be opened. */
  predicate IsSendingResult(e: Event)
  {
    e.Resolved? && e.code == STATUS_OK && e.openedFile.Some?
  }

  function SendingResults(events: seq<Event>): nat
  {
    if events == [] then 0
    else (if IsSendingResult(events[0]) then 1 else 0) + SendingResults(events[1..])
  }

  lemma StepSendCount(d: Device, s: Session, e: Event)
    ensures SendCount(Step(d, s, e).commands)
         == SendCount(s.commands) + if IsSendingResult(e) then 1 else 0
  {
  }

  /** Every file payload ever sent answers exactly one STATUS_OK result with an opened file. */
  lemma {:induction false} SendsMatchOkResults(d: Device, s: Session, events: seq<Event>)
    ensures SendCount(Run(d, s, events).commands) == SendCount(s.commands) + SendingResults(events)
    decreases |events|
  {
    if events != [] {
      StepSendCount(d, s, events[0]);
      SendsMatchOkResults(d, Step(d, s, events[0]), events[1..]);
    }
  }

  /** Without a STATUS_OK result no payload is ever sent, whatever else happens. */
  lemma {:induction false} NoSendWithoutOk(d: Device, s: Session, events: seq<Event>)
    requires forall i :: 0 <= i < |events| ==> !(events[i].Resolved? && events[i].code == STATUS_OK)
    ensures SendCount(Run(d, s, events).commands) == SendCount(s.commands)
    decreases |events|
  {
    if events != [] {
      StepSendCount(d, s, events[0]);
      assert forall j :: 0 <= j < |events| - 1 ==> events[1..][j] == events[j + 1];
      NoSendWithoutOk(d, Step(d, s, events[0]), events[1..]);
    }
  }

  // ----- The whole relay -----

  lemma RunTwo(d: Device, s: Session, e1: Event, e2: Event)
    ensures Run(d, s, [e1, e2]) == Step(d, Step(d, s, e1), e2)
  {
    assert [e1, e2][1..] == [e2];
    assert Run(d, s, [e1, e2]) == Run(d, Step(d, s, e1), [e2]);
    assert [e2][1..] == [];
    assert Run(d, Step(d, s, e1), [e2]) == Run(d, Step(d, Step(d, s, e1), e2), []);
  }

  /**
   * Accept a requester, send the file, finish, find the next device, request it, accept the
   * connection it initiates in answer, and send the file again. For this sequence of
   * callbacks the transport receives exactly these commands, in this order.
   */
  lemma RelayScenario(d: Device, s0: Session, first: string, firstName: string, fd1: nat,
                      bytes: int, total: int, second: string, secondName: string, fd2: nat)
    ensures var s1 := Run(d, Show(d, s0), [Initiated(first, firstName), ButtonClick]);
      var s2 := Run(d, s1, [Resolved(first, STATUS_OK, None, Some(fd1)), TransferUpdate(first, TRANSFER_SUCCESS, bytes, total)]);
      var s3 := Run(d, s2, [Found(second, secondName), ButtonClick]);
      var s4 := Run(d, s3, [Initiated(second, secondName), ButtonClick]);
      var s5 := OnConnectionResult(d, s4, second, STATUS_OK, None, Some(fd2));
      s2.view.status == DONE && s2.connectionEnd
      && s5.commands == s0.commands + [
           StartAdvertising(LocalName(d), d.packageName, P2pPointToPoint),
           AcceptConnection(first),
           StopAdvertising, SendPayload(first, FilePayload(d.filePath, fd1)),
           StopAdvertising, StartDiscovery(d.packageName, P2pPointToPoint),
           RequestConnection(LocalName(d), second), AcceptConnection(second),
           StopAdvertising, SendPayload(second, FilePayload(d.filePath, fd2))]
  {
    var s := Show(d, s0);
    RunTwo(d, s, Initiated(first, firstName), ButtonClick);
    var s1 := Run(d, s, [Initiated(first, firstName), ButtonClick]);
    RunTwo(d, s1, Resolved(first, STATUS_OK, None, Some(fd1)), TransferUpdate(first, TRANSFER_SUCCESS, bytes, total));
    var s2 := Run(d, s1, [Resolved(first, STATUS_OK, None, Some(fd1)), TransferUpdate(first, TRANSFER_SUCCESS, bytes, total)]);
    RunTwo(d, s2, Found(second, secondName), ButtonClick);
    var s3 := Run(d, s2, [Found(second, secondName), ButtonClick]);
    RunTwo(d, s3, Initiated(second, secondName), ButtonClick);
  }
}
