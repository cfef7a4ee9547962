/**
 * The call button of src/index.js (`initializeRetellClient`). The closure
 * variables isCalling, isConnecting and webClient become fields, and so do the
 * three DOM properties that `updateButton` and the hover handlers write. The
 * click handler is split at its `fetch`: Click is the synchronous part,
 * CredentialsSettled the `.then`/`.catch` continuation.
 */
module IndexWidget {
  import opened Wrappers
  import opened Call

  /** What `updateButton` writes: the icon, the background colour and pointer-events. */
  datatype Look = Look(icon: Icon, background: string, pointerEvents: string)

  /** `updateButton` (src/index.js:74-86): calling takes precedence over connecting. */
  function ButtonLook(isCalling: bool, isConnecting: bool): (l: Look)
    ensures isCalling ==> l.icon == PhoneOff && l.background == "#991b1b"
    ensures !isCalling ==> l.background == "#000" && (l.icon == Loader <==> isConnecting)
    ensures !isCalling && !isConnecting ==> l.icon == Phone
    ensures l.pointerEvents == (if isConnecting then "none" else "auto")
  {
    var icon := if isCalling then PhoneOff else if isConnecting then Loader else Phone;
    var background := if isCalling then "#991b1b" else "#000";
    Look(icon, background, if isConnecting then "none" else "auto")
  }

  class Widget {
    var isCalling: bool
    var isConnecting: bool
    const client: ClientHolder
    /** buttonIcon.innerHTML, button.style.backgroundColor, button.style.pointerEvents */
    var icon: Icon
    var background: string
    var pointerEvents: string
    ghost var log: seq<Effect>
    ghost var inFlight: nat

    /**
     * The invariant every handler keeps: calling and connecting never hold together,
     * the icon and pointer-events always match the flags, at most one SDK client
     * is live and a call implies a client.
     */
    ghost predicate Valid()
      reads this, client
    {
      && client.Valid() && client.AtMostOneLive()
      && !(isCalling && isConnecting)
      && icon == ButtonLook(isCalling, isConnecting).icon
      && (pointerEvents == "none" <==> isConnecting)
      && (isConnecting ==> background == "#000")
      && (isCalling ==> client.hasClient)
    }

    /** The state once the button is appended (src/index.js:47-67, 89-91). */
    constructor ()
      ensures Valid() && fresh(client)
      ensures !isCalling && !isConnecting && !client.hasClient
      ensures icon == Phone && background == "#000" && pointerEvents == ""
      ensures log == [] && inFlight == 0
    {
      isCalling, isConnecting := false, false;
      client := new ClientHolder();
      icon, background, pointerEvents := Phone, "#000", "";
      log, inFlight := [], 0;
    }

    method UpdateButton()
      modifies this
      ensures var l := ButtonLook(isCalling, isConnecting);
              icon == l.icon && background == l.background && pointerEvents == l.pointerEvents
      ensures isCalling == old(isCalling) && isConnecting == old(isConnecting)
      ensures log == old(log) && inFlight == old(inFlight)
    {
      var l := ButtonLook(isCalling, isConnecting);
      icon := l.icon;
      background := l.background;
      pointerEvents := l.pointerEvents;
    }

    /** The click handler up to the request (src/index.js:93-115). */
    method Click()
      requires Valid()
      modifies this, client
      ensures Valid()
      ensures old(isConnecting) ==> unchanged(this, client)
      ensures !old(isConnecting) && old(isCalling) ==>
                isCalling && !isConnecting && icon == old(icon) && background == old(background)
                && pointerEvents == old(pointerEvents) && inFlight == old(inFlight)
                && log == old(log) + [StopCall] && !client.currentLive && client.live == 0
      ensures !old(isConnecting) && !old(isCalling) ==>
                isConnecting && !isCalling && icon == Loader && pointerEvents == "none"
                && log == old(log) + [RequestCredentials] && inFlight == old(inFlight) + 1
                && unchanged(client)
    {
      if isConnecting {
        return;
      }
      if isCalling {
        if client.hasClient {
          client.StopCall();
          log := log + [StopCall];
        }
        return;
      }
      isConnecting := true;
      UpdateButton();
      log := log + [RequestCredentials];
      inFlight := inFlight + 1;
    }

    /** `startConversation` (src/index.js:132-173): any previous client is stopped before the new one is created. */
    method StartConversation()
      requires Valid()
      modifies this, client
      ensures Valid()
      ensures log == old(log) + (if old(client.hasClient) then [StopCall] else []) + [StartCall]
      ensures client.hasClient && client.currentLive && client.live == 1
      ensures isCalling == old(isCalling) && isConnecting == old(isConnecting)
      ensures icon == old(icon) && background == old(background) && pointerEvents == old(pointerEvents)
      ensures inFlight == old(inFlight)
    {
      if client.hasClient {
        client.StopCall();
        log := log + [StopCall];
      }
      client.CreateClient();
      log := log + [StartCall];
    }

    /** The `.then`/`.catch` continuation of the register-call request (src/index.js:116-129). */
    method CredentialsSettled(reply: CredentialReply)
      requires Valid() && inFlight > 0
      modifies this, client
      ensures Valid()
      ensures inFlight == old(inFlight) - 1
      ensures isCalling == old(isCalling)
      ensures HasCredentials(reply) ==>
                isConnecting == old(isConnecting) && client.currentLive && client.live == 1
                && log == old(log) + (if old(client.hasClient) then [StopCall] else []) + [StartCall]
      ensures !HasCredentials(reply) ==>
                !isConnecting && log == old(log) + [Alert(StartFailedAlert)] && unchanged(client)
    {
      inFlight := inFlight - 1;
      if HasCredentials(reply) {
        StartConversation();
      } else {
        log := log + [Alert(StartFailedAlert)];
        isConnecting := false;
        UpdateButton();
      }
    }

    /** The `call_started` listener (src/index.js:138-142). */
    method OnCallStarted()
      requires Valid() && client.hasClient
      modifies this
      ensures Valid()
      ensures isCalling && !isConnecting && log == old(log) && inFlight == old(inFlight)
    {
      isCalling := true;
      isConnecting := false;
      UpdateButton();
    }

    /** The `call_ended` listener (src/index.js:144-148). */
    method OnCallEnded()
      requires Valid() && client.hasClient
      modifies this
      ensures Valid()
      ensures !isCalling && !isConnecting && log == old(log) && inFlight == old(inFlight)
    {
      isCalling := false;
      isConnecting := false;
      UpdateButton();
    }

    /** The `error` listener (src/index.js:150-156). */
    method OnError()
      requires Valid() && client.hasClient
      modifies this
      ensures Valid()
      ensures !isCalling && !isConnecting
      ensures log == old(log) + [Alert(ConversationErrorAlert)] && inFlight == old(inFlight)
    {
      isCalling := false;
      isConnecting := false;
      UpdateButton();
      log := log + [Alert(ConversationErrorAlert)];
    }

    /** The rejection of `webClient.startCall(...)` (src/index.js:167-172): only connecting is cleared. */
    method OnStartRejected()
      requires Valid() && client.hasClient
      modifies this
      ensures Valid()
      ensures isCalling == old(isCalling) && !isConnecting
      ensures log == old(log) + [Alert(StartRejectedAlert)] && inFlight == old(inFlight)
    {
      isConnecting := false;
      UpdateButton();
      log := log + [Alert(StartRejectedAlert)];
    }

    /** `mouseenter` (src/index.js:176-180). */
    method MouseEnter()
      requires Valid()
      modifies this
      ensures Valid()
      ensures old(isConnecting) ==> unchanged(this)
      ensures !old(isConnecting) ==> background == (if isCalling then "#000" else "#1f2937")
      ensures isCalling == old(isCalling) && isConnecting == old(isConnecting)
      ensures icon == old(icon) && pointerEvents == old(pointerEvents) && log == old(log) && inFlight == old(inFlight)
    {
      if !isConnecting {
        background := if isCalling then "#000" else "#1f2937";
      }
    }

    /** `mouseleave` (src/index.js:182-184). */
    method MouseLeave()
      requires Valid()
      modifies this
      ensures Valid()
      ensures background == (if isCalling then "#991b1b" else "#000")
      ensures isCalling == old(isCalling) && isConnecting == old(isConnecting)
      ensures icon == old(icon) && pointerEvents == old(pointerEvents) && log == old(log) && inFlight == old(inFlight)
    {
      background := if isCalling then "#991b1b" else "#000";
    }
  }

  /**
   * Ending a call from the button only asks the SDK to stop; the flags and the
   * icon change when the SDK reports `call_ended`.
   */
  method HangUpWaitsForCallEnded() returns (w: Widget)
    ensures w.Valid() && !w.isCalling && !w.isConnecting && w.icon == Phone
    ensures w.log == [RequestCredentials, StartCall, StopCall]
    ensures w.client.live == 0
  {
    w := new Widget();
    w.Click();
    w.CredentialsSettled(Body(Some("c1"), Some("t1")));
    w.OnCallStarted();
    w.Click();
    assert w.isCalling && w.icon == PhoneOff;
    w.OnCallEnded();
  }
}
