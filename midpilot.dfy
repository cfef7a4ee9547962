/**
 * The earliest call button, midpilot.js (`initializeRetellClient`). Its
 * closure variables become fields, and so do the two DOM properties that
 * `updateButton` writes. Unlike the later variants, the fetch continuation
 * clears isConnecting before looking at the reply and does not refresh the
 * button, and `startConversation` never stops the previous client.
 */
module Midpilot {
  import opened Wrappers
  import opened Call

  const MalformedReplyAlert := "Failed to start the call. Please try again later."

  /** What `updateButton` writes: textContent (the icon emoji) and the background colour. */
  datatype Look = Look(icon: Icon, background: string)

  /** `updateButton` (midpilot.js:113-124): calling takes precedence over connecting. */
  function ButtonLook(isCalling: bool, isConnecting: bool): (l: Look)
    ensures isCalling ==> l == Look(PhoneOff, "#991b1b")
    ensures !isCalling ==> l.background == "#000" && (l.icon == Loader <==> isConnecting)
    ensures !isCalling && !isConnecting ==> l.icon == Phone
  {
    if isCalling then Look(PhoneOff, "#991b1b")
    else if isConnecting then Look(Loader, "#000")
    else Look(Phone, "#000")
  }

  class Widget {
    var isCalling: bool
    var isConnecting: bool
    const client: ClientHolder
    /** buttonText.textContent and button.style.backgroundColor */
    var icon: Icon
    var background: string
    ghost var log: seq<Effect>
    ghost var inFlight: nat

    ghost predicate Valid()
      reads this, client
    {
      client.Valid() && (isCalling ==> client.hasClient)
    }

    /** Whether the button shows what `updateButton` would show for the current flags. */
    predicate ShowsFlags()
      reads this
    {
      Look(icon, background) == ButtonLook(isCalling, isConnecting)
    }

    /** The state once the button is appended (midpilot.js:10-38). */
    constructor ()
      ensures Valid() && fresh(client) && ShowsFlags()
      ensures !isCalling && !isConnecting && !client.hasClient && client.live == 0
      ensures log == [] && inFlight == 0
    {
      isCalling, isConnecting := false, false;
      client := new ClientHolder();
      icon, background := Phone, "#000";
      log, inFlight := [], 0;
    }

    method UpdateButton()
      modifies this
      ensures ShowsFlags()
      ensures isCalling == old(isCalling) && isConnecting == old(isConnecting)
      ensures log == old(log) && inFlight == old(inFlight)
    {
      var l := ButtonLook(isCalling, isConnecting);
      icon := l.icon;
      background := l.background;
    }

    /** The click handler up to the request (midpilot.js:40-58). */
    method Click()
      requires Valid()
      modifies this, client
      ensures Valid()
      ensures old(isConnecting) ==> unchanged(this, client)
      ensures !old(isConnecting) && old(isCalling) ==>
                !isCalling && !isConnecting && ShowsFlags() && inFlight == old(inFlight)
                && log == old(log) + [StopConversation] && client.hasClient && !client.currentLive
      ensures !old(isConnecting) && !old(isCalling) ==>
                isConnecting && !isCalling && ShowsFlags() && icon == Loader
                && log == old(log) + [RequestCredentials] && inFlight == old(inFlight) + 1
                && unchanged(client)
    {
      if isConnecting {
        return;
      }
      if isCalling {
        client.StopCall();
        log := log + [StopConversation];
        isCalling := false;
        UpdateButton();
      } else {
        isConnecting := true;
        UpdateButton();
        log := log + [RequestCredentials];
        inFlight := inFlight + 1;
      }
    }

    /** `startConversation` (midpilot.js:77-111): a new client replaces the old one, which is not stopped. */
    method StartConversation()
      requires Valid()
      modifies this, client
      ensures Valid()
      ensures log == old(log) + [StartCall]
      ensures client.hasClient && client.currentLive && client.live == old(client.live) + 1
      ensures isCalling == old(isCalling) && isConnecting == old(isConnecting)
      ensures icon == old(icon) && background == old(background) && inFlight == old(inFlight)
    {
      client.CreateClient();
      log := log + [StartCall];
    }

    /**
     * The `.then`/`.catch` continuation (midpilot.js:59-73). isConnecting is
     * cleared first, whatever the reply; the button is not refreshed.
     */
    method CredentialsSettled(reply: CredentialReply)
      requires Valid() && inFlight > 0
      modifies this, client
      ensures Valid()
      ensures inFlight == old(inFlight) - 1
      ensures !isConnecting && isCalling == old(isCalling)
      ensures icon == old(icon) && background == old(background)
      ensures HasCredentials(reply) ==>
                log == old(log) + [StartCall] && client.currentLive && client.live == old(client.live) + 1
      ensures reply.Body? && !HasCredentials(reply) ==>
                log == old(log) + [Alert(MalformedReplyAlert)] && unchanged(client)
      ensures reply.NetworkFailure? ==>
                log == old(log) + [Alert(StartFailedAlert)] && unchanged(client)
    {
      inFlight := inFlight - 1;
      isConnecting := false;
      if HasCredentials(reply) {
        StartConversation();
      } else if reply.Body? {
        log := log + [Alert(MalformedReplyAlert)];
      } else {
        log := log + [Alert(StartFailedAlert)];
      }
    }

    /** The `conversationStarted` listener (midpilot.js:80-83): isConnecting is left as it is. */
    method OnConversationStarted()
      requires Valid() && client.hasClient
      modifies this
      ensures Valid() && ShowsFlags()
      ensures isCalling && isConnecting == old(isConnecting) && log == old(log) && inFlight == old(inFlight)
    {
      isCalling := true;
      UpdateButton();
    }

    /** The `conversationEnded` listener (midpilot.js:85-88). */
    method OnConversationEnded()
      requires Valid() && client.hasClient
      modifies this
      ensures Valid() && ShowsFlags()
      ensures !isCalling && isConnecting == old(isConnecting) && log == old(log) && inFlight == old(inFlight)
    {
      isCalling := false;
      UpdateButton();
    }

    /** The `error` listener (midpilot.js:90-95). */
    method OnError()
      requires Valid() && client.hasClient
      modifies this
      ensures Valid() && ShowsFlags()
      ensures !isCalling && isConnecting == old(isConnecting)
      ensures log == old(log) + [Alert(ConversationErrorAlert)] && inFlight == old(inFlight)
    {
      isCalling := false;
      UpdateButton();
      log := log + [Alert(ConversationErrorAlert)];
    }

    /** The rejection of `webClient.startConversation(...)` (midpilot.js:105-110). */
    method OnStartRejected()
      requires Valid() && client.hasClient
      modifies this
      ensures Valid() && ShowsFlags()
      ensures isCalling == old(isCalling) && !isConnecting
      ensures log == old(log) + [Alert(StartRejectedAlert)] && inFlight == old(inFlight)
    {
      isConnecting := false;
      UpdateButton();
      log := log + [Alert(StartRejectedAlert)];
    }
  }

  /** After a reply without credentials the flags are idle but the button still shows the loader. */
  method LoaderOutlivesBadReply() returns (w: Widget)
    ensures w.Valid() && !w.isCalling && !w.isConnecting
    ensures w.icon == Loader && !w.ShowsFlags()
    ensures w.log == [RequestCredentials, Alert(MalformedReplyAlert)]
  {
    w := new Widget();
    w.Click();
    w.CredentialsSettled(Body(Some("c1"), None));
  }

  /**
   * The button accepts a click between the reply and `conversationStarted`; that
   * click issues a second request, and its reply creates a second client while
   * the first is still live.
   */
  method SecondClientWithoutStop() returns (w: Widget)
    ensures w.Valid() && w.client.live == 2
    ensures w.log == [RequestCredentials, StartCall, RequestCredentials, StartCall]
  {
    w := new Widget();
    w.Click();
    w.CredentialsSettled(Body(Some("c1"), Some("t1")));
    w.Click();
    w.CredentialsSettled(Body(Some("c2"), Some("t2")));
  }

  /** The first client's `conversationStarted` can arrive while the second request is in flight. */
  method CallingWhileConnecting() returns (w: Widget)
    ensures w.Valid() && w.isCalling && w.isConnecting && w.icon == PhoneOff
  {
    w := new Widget();
    w.Click();
    w.CredentialsSettled(Body(Some("c1"), Some("t1")));
    w.Click();
    w.OnConversationStarted();
  }
}
