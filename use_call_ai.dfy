/**
 * The call hook of src/hooks/useCallAI.ts. Each handler runs atomically on the
 * current state; `startCall` is split at its `await`: StartCall is the part up to
 * the request, CredentialsSettled the continuation once the reply is in. The
 * three callbacks handed to RetellClientService.startConversation are methods of
 * their own.
 */
module UseCallAI {
  import opened Wrappers
  import opened Call
  import JsString

  class CallAI {
    var isCalling: bool
    var isConnecting: bool
    var isMuted: bool
    /** `retellService !== null`: the mount effect found an agent id. */
    var hasService: bool
    /** The RetellClientService, allocated up front and in use only when hasService. */
    const service: ClientHolder
    ghost var log: seq<Effect>
    /** Credential requests issued whose reply has not been handled yet. */
    ghost var inFlight: nat

    ghost predicate Valid()
      reads this, service
    {
      service.Valid() && service.AtMostOneLive() && (!hasService ==> !service.hasClient)
    }

    /** The three useState initial values and the mount effect (src/hooks/useCallAI.ts:6-25). */
    constructor (agentIdAtMount: Option<string>)
      ensures Valid() && fresh(service)
      ensures !isCalling && !isConnecting && !isMuted
      ensures hasService == JsString.Truthy(agentIdAtMount)
      ensures !service.hasClient && log == [] && inFlight == 0
    {
      isCalling, isConnecting, isMuted := false, false, false;
      hasService := JsString.Truthy(agentIdAtMount);
      service := new ClientHolder();
      log, inFlight := [], 0;
    }

    /** `startCall` up to the request; `agentId` is what `getAgentId()` finds in the page. */
    method StartCall(agentId: Option<string>)
      requires Valid()
      modifies this
      ensures Valid()
      ensures isCalling == old(isCalling) && isMuted == old(isMuted) && hasService == old(hasService)
      ensures old(isConnecting) ==> unchanged(this)
      ensures !old(isConnecting) && !JsString.Truthy(agentId) ==>
                !isConnecting && log == old(log) && inFlight == old(inFlight)
      ensures !old(isConnecting) && JsString.Truthy(agentId) ==>
                isConnecting && log == old(log) + [RequestCredentials] && inFlight == old(inFlight) + 1
    {
      if isConnecting {
        return;
      }
      isConnecting := true;
      if !JsString.Truthy(agentId) {
        isConnecting := false;
        return;
      }
      log := log + [RequestCredentials];
      inFlight := inFlight + 1;
    }

    /** The continuation of `startCall` once the register-call reply is in (src/hooks/useCallAI.ts:46-72). */
    method CredentialsSettled(reply: CredentialReply)
      requires Valid() && inFlight > 0
      modifies this, service
      ensures Valid()
      ensures inFlight == old(inFlight) - 1
      ensures isCalling == old(isCalling) && isMuted == old(isMuted) && hasService == old(hasService)
      ensures HasCredentials(reply) && hasService ==>
                log == old(log) + [StartConversation] && isConnecting == old(isConnecting)
                && service.hasClient && service.currentLive
      ensures !(HasCredentials(reply) && hasService) ==>
                log == old(log) + [Alert(StartFailedAlert)] && !isConnecting && unchanged(service)
    {
      inFlight := inFlight - 1;
      if HasCredentials(reply) && hasService {
        service.StopAndCreate();
        log := log + [StartConversation];
      } else {
        log := log + [Alert(StartFailedAlert)];
        isConnecting := false;
      }
    }

    /** The started callback (src/hooks/useCallAI.ts:50-53). */
    method OnCallStarted()
      requires Valid() && service.hasClient
      modifies this
      ensures Valid()
      ensures isCalling && !isConnecting
      ensures isMuted == old(isMuted) && hasService == old(hasService) && log == old(log) && inFlight == old(inFlight)
    {
      isCalling := true;
      isConnecting := false;
    }

    /** The ended callback (src/hooks/useCallAI.ts:54-57). */
    method OnCallEnded()
      requires Valid() && service.hasClient
      modifies this
      ensures Valid()
      ensures !isCalling && !isConnecting
      ensures isMuted == old(isMuted) && hasService == old(hasService) && log == old(log) && inFlight == old(inFlight)
    {
      isCalling := false;
      isConnecting := false;
    }

    /**
     * The error callback (src/hooks/useCallAI.ts:58-63). RetellClientService also
     * calls it when the SDK's startCall rejects (src/services/retellClient.ts:32-37).
     */
    method OnError()
      requires Valid() && service.hasClient
      modifies this
      ensures Valid()
      ensures !isCalling && !isConnecting
      ensures log == old(log) + [Alert(ConversationErrorAlert)]
      ensures isMuted == old(isMuted) && hasService == old(hasService) && inFlight == old(inFlight)
    {
      isCalling := false;
      isConnecting := false;
      log := log + [Alert(ConversationErrorAlert)];
    }

    /** `endCall`: callable in any state; it never touches isConnecting. */
    method EndCall()
      requires Valid()
      modifies this, service
      ensures Valid()
      ensures !isCalling && isConnecting == old(isConnecting)
      ensures isMuted == old(isMuted) && hasService == old(hasService) && inFlight == old(inFlight)
      ensures hasService ==> log == old(log) + [StopConversation] && !service.currentLive && service.live == 0
      ensures !hasService ==> log == old(log) && unchanged(service)
    {
      if hasService {
        service.StopIfAny();
        log := log + [StopConversation];
      }
      isCalling := false;
    }

    /** `toggleMute`: flips isMuted whatever the call state, forwarding to the service when there is one. */
    method ToggleMute()
      requires Valid()
      modifies this
      ensures Valid()
      ensures isMuted == !old(isMuted)
      ensures log == old(log) + (if hasService then [if old(isMuted) then Unmute else Mute] else [])
      ensures isCalling == old(isCalling) && isConnecting == old(isConnecting)
      ensures hasService == old(hasService) && inFlight == old(inFlight)
    {
      if isMuted {
        if hasService {
          log := log + [Unmute];
        }
        isMuted := !isMuted;
      } else {
        if hasService {
          log := log + [Mute];
        }
        isMuted := !isMuted;
      }
    }
  }

  /**
   * startCall guards on isConnecting alone, so a second startCall during a call
   * issues a new request while isCalling still holds: both flags end up true.
   */
  method ConnectingDuringCall() returns (h: CallAI)
    ensures h.Valid() && h.isCalling && h.isConnecting
    ensures h.log == [RequestCredentials, StartConversation, RequestCredentials]
  {
    h := new CallAI(Some("agent"));
    h.StartCall(Some("agent"));
    h.CredentialsSettled(Body(Some("c1"), Some("t1")));
    h.OnCallStarted();
    h.StartCall(Some("agent"));
  }

  /**
   * The happy path: a well-formed reply, the SDK's started event, then two mute
   * toggles, each forwarding exactly one call to the service.
   */
  method CallThenToggleMuteTwice() returns (h: CallAI)
    ensures h.Valid() && h.isCalling && !h.isConnecting && !h.isMuted
    ensures h.log == [RequestCredentials, StartConversation, Mute, Unmute]
    ensures h.service.live == 1
  {
    h := new CallAI(Some("agent"));
    h.StartCall(Some("agent"));
    h.CredentialsSettled(Body(Some("c1"), Some("t1")));
    h.OnCallStarted();
    h.ToggleMute();
    h.ToggleMute();
  }

  /** An empty JSON body: one alert, connecting cleared, no SDK client created. */
  method MissingFieldsReply() returns (h: CallAI)
    ensures h.Valid() && !h.isCalling && !h.isConnecting
    ensures h.log == [RequestCredentials, Alert(StartFailedAlert)]
    ensures !h.service.hasClient
  {
    h := new CallAI(Some("agent"));
    h.StartCall(Some("agent"));
    h.CredentialsSettled(Body(None, None));
  }
}
