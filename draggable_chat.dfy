/**
 * The help widget of src/components/draggable-chat.tsx: its state hooks, the
 * localStorage map it reads and writes, and the call hook it drives. Every
 * handler is one atomic step on the current state.
 */
module DraggableChat {
  import opened Wrappers
  import opened Consent
  import JsString
  import UseCallAI
  import Call
  import PlaaceUtils

  /** `PendingAction.actionType` */
  datatype PendingAction = CallAI | ToggleDataSharing

  /** Which parts of the widget render (src/components/draggable-chat.tsx:244, 252, 282, 292, 388). */
  datatype Screen = Screen(consentModal: bool, helpButton: bool, callingModal: bool,
                           commandDialog: bool, textModal: bool)

  function Visible(isConnecting: bool, isCalling: bool, open: bool,
                   isTextModalVisible: bool, isConsentModalVisible: bool): (v: Screen)
    ensures v.callingModal <==> isConnecting || isCalling
    ensures v.helpButton <==> !v.callingModal && !v.textModal
    ensures v.commandDialog <==> open && !v.textModal
    ensures v.textModal == isTextModalVisible && v.consentModal == isConsentModalVisible
  {
    Screen(isConsentModalVisible, !(isConnecting || isCalling || isTextModalVisible),
           isConnecting || isCalling, open && !isTextModalVisible, isTextModalVisible)
  }

  /** `getCookieValue("token_jwt") || ""`: the token sent to the account page, empty when there is none. */
  function AccountToken(cookie: string): (t: string)
    ensures JsString.Truthy(PlaaceUtils.CookieValue(cookie, PlaaceUtils.TokenCookie)) ==>
              t == PlaaceUtils.CookieValue(cookie, PlaaceUtils.TokenCookie).value
    ensures !JsString.Truthy(PlaaceUtils.CookieValue(cookie, PlaaceUtils.TokenCookie)) ==> t == ""
  {
    var v := PlaaceUtils.CookieValue(cookie, PlaaceUtils.TokenCookie);
    if JsString.Truthy(v) then v.value else ""
  }

  /**
   * The value the e-mail effect settles `currentUserEmail` to
   * (src/components/draggable-chat.tsx:89-105); `account` is the account page's
   * answer for a token. Off Plaace, or when the fetch fails, it is null.
   */
  function ResolvedEmail(isOnPlaace: bool, cookie: string, account: string -> PlaaceUtils.AccountReply): (r: Option<string>)
    ensures !isOnPlaace ==> r.None?
    ensures r.Some? ==> r.value != [] && '"' !in r.value
    ensures isOnPlaace ==>
              (r.Some? <==> account(AccountToken(cookie)).AccountOk?
                            && PlaaceUtils.ExtractEmail(account(AccountToken(cookie)).document).Some?)
    ensures r.Some? ==> r == PlaaceUtils.ExtractEmail(account(AccountToken(cookie)).document)
  {
    if !isOnPlaace then None
    else
      match account(AccountToken(cookie))
      case AccountOk(doc) => PlaaceUtils.ExtractEmail(doc)
      case AccountUnreachable => None
      case AccountNotOk => None
  }

  /**
   * The widget and the access check fetch the account page separately, and no
   * code in the repository calls the access check. If both fetches get the same
   * answer for the token, then whenever access would be granted on Plaace
   * without the allow-all switch, the widget also knows the user's address, so
   * consent is bound to it.
   */
  lemma AccessGrantedResolvesEmail(cookie: string, checkAccount: string -> PlaaceUtils.AccountReply,
                                   widgetAccount: string -> PlaaceUtils.AccountReply,
                                   whitelist: string -> PlaaceUtils.WhitelistReply)
    requires PlaaceUtils.CheckUserAccess(false, cookie, checkAccount, whitelist)
    requires widgetAccount(AccountToken(cookie)) == checkAccount(AccountToken(cookie))
    ensures ResolvedEmail(true, cookie, widgetAccount).Some?
    ensures BindsEmail(true, ResolvedEmail(true, cookie, widgetAccount))
  {
    assert AccountToken(cookie) == PlaaceUtils.CookieValue(cookie, PlaaceUtils.TokenCookie).value;
  }

  /** Without a token cookie the account page is still fetched, with an empty token. */
  lemma MissingTokenStillFetches(cookie: string, account: string -> PlaaceUtils.AccountReply)
    requires PlaaceUtils.CookieValue(cookie, PlaaceUtils.TokenCookie).None?
    requires account("").AccountOk? && PlaaceUtils.ExtractEmail(account("").document).Some?
    ensures ResolvedEmail(true, cookie, account) == PlaaceUtils.ExtractEmail(account("").document)
  {
    assert AccountToken(cookie) == "";
  }

  class Chat {
    var open: bool
    var isTextModalVisible: bool
    var question: string
    var hasConsented: Option<bool>
    var isConsentModalVisible: bool
    var pendingAction: Option<PendingAction>
    var currentUserEmail: Option<string>
    var storage: Storage
    /** `isScriptHostedOn("plaace")`, fixed for the page. */
    const isOnPlaace: bool
    const call: UseCallAI.CallAI

    ghost predicate Valid()
      reads this, call, call.service
    {
      call.Valid()
    }

    function Rendered(): (v: Screen)
      reads this, call
      ensures v.helpButton <==> !call.isConnecting && !call.isCalling && !isTextModalVisible
    {
      Visible(call.isConnecting, call.isCalling, open, isTextModalVisible, isConsentModalVisible)
    }

    /** The initial state, before any effect has run (src/components/draggable-chat.tsx:53-68). */
    constructor (isOnPlaace: bool, storage: Storage, agentIdAtMount: Option<string>)
      ensures Valid() && fresh(call) && fresh(call.service)
      ensures this.isOnPlaace == isOnPlaace && this.storage == storage
      ensures !open && !isTextModalVisible && question == "" && hasConsented == None
      ensures !isConsentModalVisible && pendingAction == None && currentUserEmail == None
      ensures !call.isCalling && !call.isConnecting && call.log == []
    {
      open, isTextModalVisible, question := false, false, "";
      hasConsented, isConsentModalVisible, pendingAction := None, false, None;
      currentUserEmail := None;
      this.storage := storage;
      this.isOnPlaace := isOnPlaace;
      call := new UseCallAI.CallAI(agentIdAtMount);
    }

    /** The consent-load effect, read and cleared key by key. */
    method LoadConsent()
      requires Valid()
      modifies this
      ensures Valid()
      ensures Loaded(hasConsented, storage) == Load(old(storage), isOnPlaace, currentUserEmail)
      ensures open == old(open) && isTextModalVisible == old(isTextModalVisible) && question == old(question)
      ensures isConsentModalVisible == old(isConsentModalVisible) && pendingAction == old(pendingAction)
      ensures currentUserEmail == old(currentUserEmail)
    {
      var consentGiven := if StatusKey in storage then Some(storage[StatusKey]) else None;
      var consentTimestamp := if TimestampKey in storage then Some(storage[TimestampKey]) else None;
      if isOnPlaace && JsString.Truthy(currentUserEmail) {
        var storedEmail := if EmailKey in storage then Some(storage[EmailKey]) else None;
        if JsString.Truthy(consentGiven) && JsString.Truthy(consentTimestamp) && JsString.Truthy(storedEmail) {
          if storedEmail.value == currentUserEmail.value {
            hasConsented := Some(consentGiven.value == "true");
          } else {
            storage := storage - {StatusKey};
            storage := storage - {TimestampKey};
            storage := storage - {EmailKey};
            assert storage == old(storage) - Keys;
            hasConsented := None;
          }
        } else {
          hasConsented := None;
        }
      } else {
        if JsString.Truthy(consentGiven) && JsString.Truthy(consentTimestamp) {
          hasConsented := Some(consentGiven.value == "true");
        } else {
          hasConsented := None;
        }
      }
    }

    /**
     * The e-mail effect settling (src/components/draggable-chat.tsx:89-105): `email`
     * is what `extractEmail` found, or None off Plaace or on a failed fetch. A new
     * value re-runs the consent-load effect, which depends on it.
     */
    method UserEmailResolved(email: Option<string>)
      requires Valid()
      modifies this
      ensures Valid() && currentUserEmail == email
      ensures email != old(currentUserEmail) ==>
                Loaded(hasConsented, storage) == Load(old(storage), isOnPlaace, email)
      ensures email == old(currentUserEmail) ==> hasConsented == old(hasConsented) && storage == old(storage)
      ensures open == old(open) && pendingAction == old(pendingAction)
      ensures isTextModalVisible == old(isTextModalVisible) && question == old(question)
      ensures isConsentModalVisible == old(isConsentModalVisible)
    {
      if email != currentUserEmail {
        currentUserEmail := email;
        LoadConsent();
      }
    }

    /** The consented part of `handleCallAI`, also run for a pending call (src/components/draggable-chat.tsx:150-156, 202-208). */
    method ProceedWithCall(agentId: Option<string>)
      requires Valid()
      modifies this, call, call.service
      ensures Valid()
      ensures old(call.isConnecting) ==> unchanged(this, call) && unchanged(call.service)
      ensures !old(call.isConnecting) ==> !open && !call.isCalling
      ensures !old(call.isConnecting) && !old(call.isCalling) ==>
                call.log == old(call.log) + (if JsString.Truthy(agentId) then [Call.RequestCredentials] else [])
                && (call.isConnecting <==> JsString.Truthy(agentId))
      ensures !old(call.isConnecting) && old(call.isCalling) ==>
                call.log == old(call.log) + (if call.hasService then [Call.StopConversation] else [])
      ensures storage == old(storage) && hasConsented == old(hasConsented) && pendingAction == old(pendingAction)
      ensures isTextModalVisible == old(isTextModalVisible) && question == old(question)
      ensures isConsentModalVisible == old(isConsentModalVisible) && currentUserEmail == old(currentUserEmail)
    {
      if call.isConnecting {
        return;
      }
      if call.isCalling {
        call.EndCall();
      } else {
        call.StartCall(agentId);
      }
      open := false;
    }

    /** `handleCallAI` (src/components/draggable-chat.tsx:148-162): without consent the call is only queued. */
    method HandleCallAI(agentId: Option<string>)
      requires Valid()
      modifies this, call, call.service
      ensures Valid()
      ensures hasConsented != Some(true) ==>
                pendingAction == Some(CallAI) && isConsentModalVisible && open == old(open)
                && unchanged(call) && unchanged(call.service)
      ensures hasConsented == Some(true) && old(call.isConnecting) ==> unchanged(this, call) && unchanged(call.service)
      ensures hasConsented == Some(true) && !old(call.isConnecting) ==>
                !open && !call.isCalling && pendingAction == old(pendingAction)
                && isConsentModalVisible == old(isConsentModalVisible)
      ensures hasConsented == Some(true) && !old(call.isConnecting) && !old(call.isCalling) ==>
                call.log == old(call.log) + (if JsString.Truthy(agentId) then [Call.RequestCredentials] else [])
                && (call.isConnecting <==> JsString.Truthy(agentId))
      ensures hasConsented == Some(true) && !old(call.isConnecting) && old(call.isCalling) ==>
                call.log == old(call.log) + (if call.hasService then [Call.StopConversation] else [])
      ensures storage == old(storage) && hasConsented == old(hasConsented)
      ensures isTextModalVisible == old(isTextModalVisible) && question == old(question)
      ensures currentUserEmail == old(currentUserEmail)
    {
      if hasConsented == Some(true) {
        ProceedWithCall(agentId);
      } else {
        pendingAction := Some(CallAI);
        isConsentModalVisible := true;
      }
    }

    /** The storage writes of the consent modal and `handleConsent` (src/components/draggable-chat.tsx:176-192), key by key. */
    method WriteConsent(consent: bool, now: string)
      requires Valid()
      modifies this
      ensures Valid()
      ensures storage == Store(old(storage), consent, isOnPlaace, currentUserEmail, now)
      ensures hasConsented == Some(consent)
      ensures open == old(open) && pendingAction == old(pendingAction) && isConsentModalVisible == old(isConsentModalVisible)
      ensures isTextModalVisible == old(isTextModalVisible) && question == old(question)
      ensures currentUserEmail == old(currentUserEmail)
    {
      storage := storage[StatusKey := BoolString(consent)];
      hasConsented := Some(consent);
      if consent {
        storage := storage[StatusKey := "true"];
        storage := storage[TimestampKey := now];
        if isOnPlaace && JsString.Truthy(currentUserEmail) {
          storage := storage[EmailKey := currentUserEmail.value];
        } else {
          storage := storage - {EmailKey};
        }
      } else {
        storage := storage - {StatusKey};
        storage := storage - {TimestampKey};
        storage := storage - {EmailKey};
      }
    }

    /**
     * `handleConsent` (src/components/draggable-chat.tsx:174-222), preceded by the
     * modal's own write; `now` is the timestamp's ISO string.
     */
    method HandleConsent(consent: bool, now: string, agentId: Option<string>)
      requires Valid()
      modifies this, call, call.service
      ensures Valid()
      ensures storage == Store(old(storage), consent, isOnPlaace, currentUserEmail, now)
      ensures hasConsented == Some(consent) && pendingAction == None && !isConsentModalVisible
      ensures !(consent && old(pendingAction) == Some(CallAI)) ==>
                open == old(open) && unchanged(call) && unchanged(call.service)
      ensures consent && old(pendingAction) == Some(CallAI) && !old(call.isConnecting) ==>
                !open && !call.isCalling
      ensures consent && old(pendingAction) == Some(CallAI) && !old(call.isConnecting) && !old(call.isCalling) ==>
                call.log == old(call.log) + (if JsString.Truthy(agentId) then [Call.RequestCredentials] else [])
                && (call.isConnecting <==> JsString.Truthy(agentId))
      ensures consent && old(pendingAction) == Some(CallAI) && !old(call.isConnecting) && old(call.isCalling) ==>
                call.log == old(call.log) + (if call.hasService then [Call.StopConversation] else [])
      ensures consent && old(pendingAction) == Some(CallAI) && old(call.isConnecting) ==>
                open == old(open) && unchanged(call) && unchanged(call.service)
      ensures isTextModalVisible == old(isTextModalVisible) && question == old(question)
      ensures currentUserEmail == old(currentUserEmail)
    {
      WriteConsent(consent, now);
      isConsentModalVisible := false;
      if consent && pendingAction.Some? {
        var action := pendingAction.value;
        pendingAction := None;
        match action {
          case CallAI =>
            ProceedWithCall(agentId);
          case ToggleDataSharing =>
            storage := storage[StatusKey := "true"];
            hasConsented := Some(true);
        }
      } else {
        pendingAction := None;
      }
    }

    /** `handleConsentModalBack` (src/components/draggable-chat.tsx:224-227). */
    method Back()
      requires Valid()
      modifies this
      ensures Valid()
      ensures !isConsentModalVisible && pendingAction == None
      ensures storage == old(storage) && hasConsented == old(hasConsented) && open == old(open)
      ensures isTextModalVisible == old(isTextModalVisible) && question == old(question)
      ensures currentUserEmail == old(currentUserEmail)
    {
      isConsentModalVisible := false;
      pendingAction := None;
    }

    /** `toggleDataSharing` (src/components/draggable-chat.tsx:229-239). */
    method ToggleDataSharingSwitch()
      requires Valid()
      modifies this
      ensures Valid()
      ensures old(hasConsented) == Some(true) ==>
                storage == SharingOff(old(storage)) && hasConsented == Some(false)
                && pendingAction == old(pendingAction) && isConsentModalVisible == old(isConsentModalVisible)
      ensures old(hasConsented) != Some(true) ==>
                storage == old(storage) && hasConsented == old(hasConsented)
                && pendingAction == Some(ToggleDataSharing) && isConsentModalVisible
      ensures open == old(open) && currentUserEmail == old(currentUserEmail)
      ensures isTextModalVisible == old(isTextModalVisible) && question == old(question)
    {
      if hasConsented == Some(true) {
        storage := storage[StatusKey := "false"];
        hasConsented := Some(false);
      } else {
        pendingAction := Some(ToggleDataSharing);
        isConsentModalVisible := true;
      }
    }

    /** The document keydown listener (src/components/draggable-chat.tsx:71-82). */
    method KeyDown(key: string, metaKey: bool, ctrlKey: bool)
      requires Valid()
      modifies this, call, call.service
      ensures Valid()
      ensures key == "j" && (metaKey || ctrlKey) ==>
                open == !old(open) && isTextModalVisible == old(isTextModalVisible)
                && question == old(question) && unchanged(call) && unchanged(call.service)
      ensures key == "Escape" ==>
                !open && !isTextModalVisible && question == "" && !call.isCalling
                && call.isConnecting == old(call.isConnecting)
                && !Rendered().commandDialog && (Rendered().helpButton <==> !call.isConnecting)
                && call.isMuted == old(call.isMuted) && call.hasService == old(call.hasService)
                && (call.hasService ==> call.log == old(call.log) + [Call.StopConversation] && !call.service.currentLive)
                && (!call.hasService ==> call.log == old(call.log))
      ensures key != "Escape" && !(key == "j" && (metaKey || ctrlKey)) ==> unchanged(this, call) && unchanged(call.service)
      ensures storage == old(storage) && hasConsented == old(hasConsented) && pendingAction == old(pendingAction)
      ensures isConsentModalVisible == old(isConsentModalVisible) && currentUserEmail == old(currentUserEmail)
    {
      if key == "j" && (metaKey || ctrlKey) {
        open := !open;
      } else if key == "Escape" {
        open := false;
        call.EndCall();
        isTextModalVisible := false;
        question := "";
      }
    }

    /** `handleClose`, the calling modal's close button (src/components/draggable-chat.tsx:141-146). */
    method Close()
      requires Valid()
      modifies this, call, call.service
      ensures Valid()
      ensures !open && !isTextModalVisible && question == "" && !call.isCalling
      ensures call.isConnecting == old(call.isConnecting)
      ensures call.isMuted == old(call.isMuted) && call.hasService == old(call.hasService)
      ensures call.hasService ==> call.log == old(call.log) + [Call.StopConversation] && !call.service.currentLive
      ensures !call.hasService ==> call.log == old(call.log)
      ensures storage == old(storage) && hasConsented == old(hasConsented) && pendingAction == old(pendingAction)
      ensures isConsentModalVisible == old(isConsentModalVisible) && currentUserEmail == old(currentUserEmail)
    {
      call.EndCall();
      open := false;
      isTextModalVisible := false;
      question := "";
    }

    /** The text modal's close button (src/components/draggable-chat.tsx:389-392). */
    method CloseTextModal()
      requires Valid()
      modifies this
      ensures Valid()
      ensures !isTextModalVisible && question == ""
      ensures open == old(open) && storage == old(storage) && hasConsented == old(hasConsented)
      ensures pendingAction == old(pendingAction) && isConsentModalVisible == old(isConsentModalVisible)
      ensures currentUserEmail == old(currentUserEmail)
    {
      isTextModalVisible := false;
      question := "";
    }

    /** `toggleTextModal`, run for a suggestion or an entered question (src/components/draggable-chat.tsx:164-172). */
    method ToggleTextModal(q: string)
      requires Valid()
      modifies this
      ensures Valid()
      ensures question == q && isTextModalVisible && !open
      ensures storage == old(storage) && hasConsented == old(hasConsented) && pendingAction == old(pendingAction)
      ensures isConsentModalVisible == old(isConsentModalVisible) && currentUserEmail == old(currentUserEmail)
    {
      question := q;
      isTextModalVisible := true;
      open := false;
    }
  }

  /**
   * Asking for a call without consent queues it; consenting then runs it once
   * and clears the queue, and the stored record reads back as consent.
   */
  method CallAfterConsent() returns (c: Chat)
    ensures c.Valid() && c.hasConsented == Some(true) && c.pendingAction == None
    ensures c.call.isConnecting && c.call.log == [Call.RequestCredentials]
    ensures Load(c.storage, false, None) == Loaded(Some(true), c.storage)
  {
    c := new Chat(false, map[], Some("agent"));
    c.LoadConsent();
    c.HandleCallAI(Some("agent"));
    assert c.pendingAction == Some(CallAI) && c.call.log == [];
    c.HandleConsent(true, "2024-01-01T00:00:00.000Z", Some("agent"));
    ConsentReadBack(map[], false, None, "2024-01-01T00:00:00.000Z");
  }

  /** Declining a queued call starts nothing and leaves no consent keys. */
  method DeclinedCallNeverStarts() returns (c: Chat)
    ensures c.Valid() && c.hasConsented == Some(false) && c.pendingAction == None
    ensures !c.call.isConnecting && c.call.log == []
    ensures c.storage == map["theme" := "dark"]
  {
    c := new Chat(true, map["theme" := "dark", StatusKey := "true"], Some("agent"));
    c.HandleCallAI(Some("agent"));
    c.HandleConsent(false, "2024-01-01T00:00:00.000Z", Some("agent"));
    assert c.storage == map["theme" := "dark", StatusKey := "true"] - Keys;
  }
}
