/**
 * What the four call-button variants share: the reply of the register-call
 * endpoint, the effects a widget has on the outside world, the button icons,
 * and the variable that holds the current voice-SDK client.
 */
module Call {
  import opened Wrappers
  import JsString

  /** What `fetch(...).then(r => r.json())` gives the widget for a register-call request. */
  datatype CredentialReply =
    | Body(callId: Option<string>, accessToken: Option<string>)  // parsed JSON; None for an absent field
    | NetworkFailure                                              // the fetch or json() rejected, or the body was JSON null

  /** `data.call_id && data.access_token`: both fields present and non-empty. */
  predicate HasCredentials(r: CredentialReply) {
    r.Body? && JsString.Truthy(r.callId) && JsString.Truthy(r.accessToken)
  }

  /** One thing a widget does to the world outside its own state. */
  datatype Effect =
    | RequestCredentials      // one POST to the register-call endpoint
    | Alert(message: string)  // window.alert
    | StartConversation       // RetellClientService.startConversation(accessToken, ...)
    | StopConversation        // RetellClientService.stopConversation() / RetellWebClient.stopConversation()
    | StartCall               // RetellWebClient.startCall / startConversation on a freshly created client
    | StopCall                // RetellWebClient.stopCall()
    | Mute
    | Unmute

  const StartFailedAlert := "An error occurred while starting the call."
  const ConversationErrorAlert := "An error occurred during the conversation."
  const StartRejectedAlert := "Failed to start the conversation."

  /** The lucide icons the buttons show. */
  datatype Icon = Phone | PhoneOff | Loader

  /**
   * A variable that holds the latest voice-SDK client or null: `webClient` in
   * src/index.js and midpilot.js, and the private field of RetellClientService.
   * The SDK itself is not modelled; `live` counts the clients the widget has
   * created and not yet told to stop.
   */
  class ClientHolder {
    var hasClient: bool
    ghost var live: nat
    ghost var currentLive: bool

    ghost predicate Valid()
      reads this
    {
      currentLive ==> hasClient && live >= 1
    }

    /** At most one created client has not been told to stop, and if one has not, it is the one held. */
    ghost predicate AtMostOneLive()
      reads this
    {
      live == if currentLive then 1 else 0
    }

    constructor ()
      ensures Valid() && AtMostOneLive()
      ensures !hasClient && live == 0 && !currentLive
    {
      hasClient := false;
      live := 0;
      currentLive := false;
    }

    /** `webClient.stopCall()` on the held client. */
    method StopCall()
      requires Valid() && hasClient
      modifies this
      ensures Valid() && hasClient && !currentLive
      ensures live == if old(currentLive) then old(live) - 1 else old(live)
    {
      if currentLive {
        live := live - 1;
      }
      currentLive := false;
    }

    /** `webClient = new RetellWebClient()` and the start of a call on it; the previous client is dropped as it is. */
    method CreateClient()
      requires Valid()
      modifies this
      ensures Valid() && hasClient && currentLive
      ensures live == old(live) + 1
    {
      hasClient := true;
      live := live + 1;
      currentLive := true;
    }

    /** RetellClientService.startConversation (src/services/retellClient.ts:14-17), also src/index.js:133-136. */
    method StopAndCreate()
      requires Valid() && AtMostOneLive()
      modifies this
      ensures Valid() && AtMostOneLive() && hasClient && currentLive
    {
      if hasClient {
        StopCall();
      }
      CreateClient();
    }

    /** RetellClientService.stopConversation (src/services/retellClient.ts:40-44). */
    method StopIfAny()
      requires Valid() && AtMostOneLive()
      modifies this
      ensures Valid() && AtMostOneLive() && hasClient == old(hasClient) && !currentLive
    {
      if hasClient {
        StopCall();
      }
    }
  }
}
