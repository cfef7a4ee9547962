/**
 * The React call button of src/components/ChatButton.tsx. The state hooks
 * become fields; `handleClick` is split at its `await` like the hook's
 * startCall; `getIcon` and `buttonStyle` are functions of the flags.
 */
module ChatButton {
  import opened Wrappers
  import opened Call
  import JsString

  /** `getIcon` (src/components/ChatButton.tsx:116-124): connecting takes precedence over calling. */
  function ButtonIcon(isConnecting: bool, isCalling: bool): (i: Icon)
    ensures i == Loader <==> isConnecting
    ensures i == PhoneOff <==> !isConnecting && isCalling
  {
    if isConnecting then Loader else if isCalling then PhoneOff else Phone
  }

  /** The flag-dependent part of `buttonStyle` (src/components/ChatButton.tsx:83-100). */
  datatype Style = Style(background: string, cursor: string, pointerEvents: string)

  function ButtonStyle(isCalling: bool, isConnecting: bool): (s: Style)
    ensures s.cursor == "not-allowed" <==> isConnecting
    ensures s.pointerEvents == "none" <==> s.cursor == "not-allowed"
    ensures s.background == "#991b1b" <==> isCalling
    ensures !isCalling ==> s.background == "#000"
    ensures !isConnecting ==> s.cursor == "pointer" && s.pointerEvents == "auto"
  {
    Style(if isCalling then "#991b1b" else "#000",
          if isConnecting then "not-allowed" else "pointer",
          if isConnecting then "none" else "auto")
  }

  class Button {
    var isCalling: bool
    var isConnecting: bool
    var hasService: bool
    const service: ClientHolder
    /** The `backgroundColor` state that the hover handlers set and that overrides buttonStyle's. */
    var background: string
    ghost var log: seq<Effect>
    ghost var inFlight: nat

    ghost predicate Valid()
      reads this, service
    {
      && service.Valid() && service.AtMostOneLive()
      && (!hasService ==> !service.hasClient)
      && !(isCalling && isConnecting)
    }

    /** The style the element renders: `{ ...buttonStyle, backgroundColor }`. */
    function RenderedStyle(): (s: Style)
      reads this
      ensures s.background == background
      ensures s.pointerEvents == "none" <==> isConnecting
    {
      ButtonStyle(isCalling, isConnecting).(background := background)
    }

    /** Initial state and the mount effect (src/components/ChatButton.tsx:6-24, 102). */
    constructor (agentIdAtMount: Option<string>)
      ensures Valid() && fresh(service)
      ensures !isCalling && !isConnecting && hasService == JsString.Truthy(agentIdAtMount)
      ensures background == "#000" && !service.hasClient && log == [] && inFlight == 0
    {
      isCalling, isConnecting := false, false;
      hasService := JsString.Truthy(agentIdAtMount);
      service := new ClientHolder();
      background := ButtonStyle(false, false).background;
      log, inFlight := [], 0;
    }

    /** `handleClick` up to the request (src/components/ChatButton.tsx:26-52). */
    method Click(agentId: Option<string>)
      requires Valid()
      modifies this, service
      ensures Valid()
      ensures hasService == old(hasService) && background == old(background)
      ensures old(isConnecting) ==> unchanged(this, service)
      ensures !old(isConnecting) && old(isCalling) ==>
                !isCalling && !isConnecting && inFlight == old(inFlight)
                && log == old(log) + (if hasService then [StopConversation] else [])
                && service.hasClient == old(service.hasClient) && !service.currentLive && service.live == 0
      ensures !old(isConnecting) && !old(isCalling) && !JsString.Truthy(agentId) ==>
                unchanged(this, service)
      ensures !old(isConnecting) && !old(isCalling) && JsString.Truthy(agentId) ==>
                isConnecting && !isCalling && log == old(log) + [RequestCredentials]
                && inFlight == old(inFlight) + 1 && unchanged(service)
    {
      if isConnecting {
        return;
      }
      if isCalling {
        if hasService {
          service.StopIfAny();
          log := log + [StopConversation];
        }
        isCalling := false;
        return;
      }
      isConnecting := true;
      if !JsString.Truthy(agentId) {
        isConnecting := false;
        return;
      }
      log := log + [RequestCredentials];
      inFlight := inFlight + 1;
    }

    /** The continuation of `handleClick` once the reply is in (src/components/ChatButton.tsx:53-79). */
    method CredentialsSettled(reply: CredentialReply)
      requires Valid() && inFlight > 0
      modifies this, service
      ensures Valid()
      ensures inFlight == old(inFlight) - 1
      ensures isCalling == old(isCalling) && hasService == old(hasService) && background == old(background)
      ensures HasCredentials(reply) && hasService ==>
                log == old(log) + [StartConversation] && isConnecting == old(isConnecting)
                && service.hasClient && service.currentLive
      ensures !(HasCredentials(reply) && hasService) ==>
                log == old(log) + [Alert(StartFailedAlert)] && !isConnecting && unchanged(service)
    {
      inFlight := inFlight - 1;
      if HasCredentials(reply) && hasService {
        service.StopAndCreate();
        log := log + [StartConversation];
      } else {
        log := log + [Alert(StartFailedAlert)];
        isConnecting := false;
      }
    }

    /** The started callback (src/components/ChatButton.tsx:57-60). */
    method OnCallStarted()
      requires Valid() && service.hasClient
      modifies this
      ensures Valid()
      ensures isCalling && !isConnecting
      ensures hasService == old(hasService) && background == old(background)
      ensures log == old(log) && inFlight == old(inFlight)
    {
      isCalling := true;
      isConnecting := false;
    }

    /** The ended callback (src/components/ChatButton.tsx:61-64). */
    method OnCallEnded()
      requires Valid() && service.hasClient
      modifies this
      ensures Valid()
      ensures !isCalling && !isConnecting
      ensures hasService == old(hasService) && background == old(background)
      ensures log == old(log) && inFlight == old(inFlight)
    {
      isCalling := false;
      isConnecting := false;
    }

    /** The error callback (src/components/ChatButton.tsx:65-70), also run when the SDK start rejects. */
    method OnError()
      requires Valid() && service.hasClient
      modifies this
      ensures Valid()
      ensures !isCalling && !isConnecting
      ensures hasService == old(hasService) && background == old(background)
      ensures log == old(log) + [Alert(ConversationErrorAlert)] && inFlight == old(inFlight)
    {
      isCalling := false;
      isConnecting := false;
      log := log + [Alert(ConversationErrorAlert)];
    }

    /** `handleMouseEnter` (src/components/ChatButton.tsx:104-108). */
    method MouseEnter()
      requires Valid()
      modifies this
      ensures Valid()
      ensures old(isConnecting) ==> unchanged(this)
      ensures !old(isConnecting) ==> background == (if isCalling then "#7f1d1d" else "#1f2937")
      ensures isCalling == old(isCalling) && isConnecting == old(isConnecting) && hasService == old(hasService)
      ensures log == old(log) && inFlight == old(inFlight)
    {
      if !isConnecting {
        background := if isCalling then "#7f1d1d" else "#1f2937";
      }
    }

    /** `handleMouseLeave` (src/components/ChatButton.tsx:110-114). */
    method MouseLeave()
      requires Valid()
      modifies this
      ensures Valid()
      ensures old(isConnecting) ==> unchanged(this)
      ensures !old(isConnecting) ==> background == ButtonStyle(isCalling, isConnecting).background
      ensures isCalling == old(isCalling) && isConnecting == old(isConnecting) && hasService == old(hasService)
      ensures log == old(log) && inFlight == old(inFlight)
    {
      if !isConnecting {
        background := if isCalling then "#991b1b" else "#000";
      }
    }
  }

  /** A click during a call clears isCalling at once, before the SDK reports the end. */
  method HangUpIsImmediate() returns (b: Button)
    ensures b.Valid() && !b.isCalling && !b.isConnecting
    ensures b.log == [RequestCredentials, StartConversation, StopConversation]
    ensures b.service.hasClient && b.service.live == 0
  {
    b := new Button(Some("agent"));
    b.Click(Some("agent"));
    b.CredentialsSettled(Body(Some("c1"), Some("t1")));
    b.OnCallStarted();
    b.Click(Some("agent"));
  }
}
