/**
 * The answer panel of src/components/TextModal.tsx: the conversation and its
 * request state, the follow-up input, minimise/restore, the resize drag and the
 * horizontal drag bounds. Window sizes, the pointer position and the agent id
 * are parameters; `getGuide` is split into the request and its settling.
 */
module TextModal {
  import opened Wrappers
  import JsString

  /** `Message` of src/services/getGuide.ts */
  datatype Message = Message(role: string, content: string)

  /** How a `getGuide` call settles: the server's message, or a thrown error. */
  datatype GuideOutcome = Reply(message: Message) | Failed

  const ModalWidth := 300
  const MinHeight := 200
  const FetchErrorText := "Failed to fetch response."

  /** The conversation after a follow-up `input`: unchanged when it trims to nothing (src/components/TextModal.tsx:130-136). */
  function FollowUp(conversation: seq<Message>, input: string): (r: seq<Message>)
    ensures JsString.AllWhitespace(input) ==> r == conversation
    ensures !JsString.AllWhitespace(input) ==>
              |r| == |conversation| + 1 && r[..|conversation|] == conversation
              && r[|conversation|] == Message("user", JsString.Trim(input))
              && r[|conversation|].content != []
  {
    JsString.TrimEmptyIff(input);
    if JsString.Trim(input) == [] then conversation
    else conversation + [Message("user", JsString.Trim(input))]
  }

  /** The conversation once a request for `sent` succeeds: `sent` and the reply, its role forced to "assistant". */
  function WithReply(sent: seq<Message>, reply: Message): (r: seq<Message>)
    ensures |r| == |sent| + 1 && r[..|sent|] == sent
    ensures r[|sent|].role == "assistant" && r[|sent|].content == reply.content
  {
    sent + [reply.(role := "assistant")]
  }

  /** The height a resize drag sets (src/components/TextModal.tsx:328-334). */
  function ClampHeight(newHeight: int, maxHeight: int): (h: int)
    ensures h <= maxHeight
    ensures maxHeight >= MinHeight ==> MinHeight <= h
    ensures MinHeight <= newHeight <= maxHeight ==> h == newHeight
    ensures maxHeight >= MinHeight && newHeight < MinHeight ==> h == MinHeight
    ensures newHeight > maxHeight ==> h == maxHeight
    ensures maxHeight < MinHeight ==> h == maxHeight
  {
    var atLeast := if newHeight > MinHeight then newHeight else MinHeight;
    if atLeast < maxHeight then atLeast else maxHeight
  }

  /** Clamping an already clamped height changes nothing, when the bounds admit a height. */
  lemma ClampIdempotent(newHeight: int, maxHeight: int)
    requires maxHeight >= MinHeight
    ensures ClampHeight(ClampHeight(newHeight, maxHeight), maxHeight) == ClampHeight(newHeight, maxHeight)
  {
  }

  datatype Bounds = Bounds(left: int, right: int)

  /** `updateDragConstraints` (src/components/TextModal.tsx:160-169): the panel, anchored right, may move left until its left edge meets the viewport's. */
  function DragBounds(viewportWidth: int): (b: Bounds)
    ensures b.right == 0
    ensures b.left + viewportWidth == ModalWidth
    ensures b.left <= 0 <==> viewportWidth >= ModalWidth
  {
    Bounds(-(viewportWidth - ModalWidth), 0)
  }

  class Panel {
    var conversation: seq<Message>
    var isLoading: bool
    var error: Option<string>
    var followUpQuestion: string
    var modalHeight: int
    var prevModalHeight: int
    var isMinimized: bool
    var maxHeight: int
    var dragConstraints: Bounds
    var isResizing: bool
    /** What a resize drag's listener captured at mousedown: startY, startHeight and maxHeight. */
    var resizeStartY: int
    var resizeStartHeight: int
    var resizeMaxHeight: int
    /** The conversations sent to `getGuide`, in order, and those whose call has not settled. */
    ghost var requests: seq<seq<Message>>
    ghost var pending: multiset<seq<Message>>

    ghost predicate Valid()
      reads this
    {
      dragConstraints.right == 0
    }

    /**
     * The state after the mount effect (src/components/TextModal.tsx:30-70):
     * `initialHeight` is `window.innerHeight * 0.66`.
     */
    constructor (initialHeight: int, innerHeight: int, innerWidth: int)
      ensures Valid()
      ensures conversation == [] && !isLoading && error == None && followUpQuestion == ""
      ensures modalHeight == initialHeight && maxHeight == innerHeight - 100
      ensures !isMinimized && prevModalHeight == 0 && !isResizing
      ensures dragConstraints == DragBounds(innerWidth)
      ensures requests == [] && pending == multiset{}
    {
      conversation, isLoading, error, followUpQuestion := [], false, None, "";
      modalHeight, prevModalHeight, isMinimized := initialHeight, 0, false;
      maxHeight := innerHeight - 100;
      dragConstraints := DragBounds(innerWidth);
      isResizing := false;
      resizeStartY, resizeStartHeight, resizeMaxHeight := 0, 0, 0;
      requests, pending := [], multiset{};
    }

    /** `fetchGuide` up to the `await` (src/components/TextModal.tsx:106-117); `agentId` is what `getAgentId()` finds. */
    method FetchGuide(sent: seq<Message>, agentId: Option<string>)
      requires Valid()
      modifies this
      ensures Valid() && error == None
      ensures !JsString.Truthy(agentId) ==>
                !isLoading && requests == old(requests) && pending == old(pending)
      ensures JsString.Truthy(agentId) ==>
                isLoading && requests == old(requests) + [sent] && pending == old(pending) + multiset{sent}
      ensures conversation == old(conversation) && followUpQuestion == old(followUpQuestion)
      ensures modalHeight == old(modalHeight) && prevModalHeight == old(prevModalHeight)
      ensures isMinimized == old(isMinimized) && maxHeight == old(maxHeight)
      ensures dragConstraints == old(dragConstraints) && isResizing == old(isResizing)
      ensures resizeStartY == old(resizeStartY) && resizeStartHeight == old(resizeStartHeight)
      ensures resizeMaxHeight == old(resizeMaxHeight)
    {
      isLoading := true;
      error := None;
      if !JsString.Truthy(agentId) {
        isLoading := false;
        return;
      }
      requests := requests + [sent];
      pending := pending + multiset{sent};
    }

    /**
     * The rest of `fetchGuide` once the call for `sent` settles
     * (src/components/TextModal.tsx:117-127). The new conversation is built
     * from `sent`, not from the current one.
     */
    method GuideSettled(sent: seq<Message>, outcome: GuideOutcome)
      requires Valid() && sent in pending
      modifies this
      ensures Valid() && !isLoading && pending == old(pending) - multiset{sent} && requests == old(requests)
      ensures outcome.Reply? ==> conversation == WithReply(sent, outcome.message) && error == old(error)
      ensures outcome.Failed? ==> conversation == old(conversation) && error == Some(FetchErrorText)
      ensures followUpQuestion == old(followUpQuestion)
      ensures modalHeight == old(modalHeight) && prevModalHeight == old(prevModalHeight)
      ensures isMinimized == old(isMinimized) && maxHeight == old(maxHeight)
      ensures dragConstraints == old(dragConstraints) && isResizing == old(isResizing)
      ensures resizeStartY == old(resizeStartY) && resizeStartHeight == old(resizeStartHeight)
      ensures resizeMaxHeight == old(resizeMaxHeight)
    {
      match outcome {
        case Reply(m) =>
          conversation := WithReply(sent, m);
        case Failed =>
          error := Some(FetchErrorText);
      }
      isLoading := false;
      pending := pending - multiset{sent};
    }

    /** The question effect (src/components/TextModal.tsx:88-97), run when the `question` prop changes. */
    method QuestionChanged(question: string, agentId: Option<string>)
      requires Valid()
      modifies this
      ensures Valid()
      ensures question == "" ==> unchanged(this)
      ensures question != "" ==>
                conversation == [Message("user", question)] && error == None
                && (JsString.Truthy(agentId) ==>
                      isLoading && requests == old(requests) + [[Message("user", question)]]
                      && pending == old(pending) + multiset{[Message("user", question)]})
                && (!JsString.Truthy(agentId) ==> !isLoading && requests == old(requests) && pending == old(pending))
      ensures followUpQuestion == old(followUpQuestion) && modalHeight == old(modalHeight)
      ensures prevModalHeight == old(prevModalHeight) && isMinimized == old(isMinimized) && maxHeight == old(maxHeight)
      ensures dragConstraints == old(dragConstraints) && isResizing == old(isResizing)
      ensures resizeStartY == old(resizeStartY) && resizeStartHeight == old(resizeStartHeight)
      ensures resizeMaxHeight == old(resizeMaxHeight)
    {
      if question != "" {
        conversation := [Message("user", question)];
        FetchGuide(conversation, agentId);
      }
    }

    /** The input's onChange. */
    method FollowUpChanged(text: string)
      modifies this
      ensures followUpQuestion == text && conversation == old(conversation) && isLoading == old(isLoading)
      ensures requests == old(requests) && pending == old(pending) && Valid() == old(Valid())
      ensures modalHeight == old(modalHeight) && isMinimized == old(isMinimized) && error == old(error)
      ensures prevModalHeight == old(prevModalHeight) && maxHeight == old(maxHeight)
      ensures dragConstraints == old(dragConstraints) && isResizing == old(isResizing)
      ensures resizeStartY == old(resizeStartY) && resizeStartHeight == old(resizeStartHeight)
      ensures resizeMaxHeight == old(resizeMaxHeight)
    {
      followUpQuestion := text;
    }

    /** The form's submit: `handleAskFollowUp(followUpQuestion)` (src/components/TextModal.tsx:130-140). */
    method AskFollowUp(agentId: Option<string>)
      requires Valid()
      modifies this
      ensures Valid()
      ensures conversation == FollowUp(old(conversation), old(followUpQuestion))
      ensures JsString.AllWhitespace(old(followUpQuestion)) ==> unchanged(this)
      ensures !JsString.AllWhitespace(old(followUpQuestion)) ==>
                followUpQuestion == "" && error == None
                && requests == old(requests) + (if JsString.Truthy(agentId) then [conversation] else [])
                && pending == old(pending) + (if JsString.Truthy(agentId) then multiset{conversation} else multiset{})
                && isLoading == JsString.Truthy(agentId)
      ensures modalHeight == old(modalHeight) && isMinimized == old(isMinimized)
      ensures prevModalHeight == old(prevModalHeight) && maxHeight == old(maxHeight)
      ensures dragConstraints == old(dragConstraints) && isResizing == old(isResizing)
      ensures resizeStartY == old(resizeStartY) && resizeStartHeight == old(resizeStartHeight)
      ensures resizeMaxHeight == old(resizeMaxHeight)
    {
      JsString.TrimEmptyIff(followUpQuestion);
      var q := JsString.Trim(followUpQuestion);
      if q == [] {
        return;
      }
      conversation := conversation + [Message("user", q)];
      FetchGuide(conversation, agentId);
      followUpQuestion := "";
    }

    /** `updateDragConstraints` for the current `window.innerWidth`. */
    method UpdateDragConstraints(innerWidth: int)
      requires Valid()
      modifies this
      ensures Valid() && dragConstraints == DragBounds(innerWidth)
      ensures conversation == old(conversation) && isLoading == old(isLoading) && error == old(error)
      ensures followUpQuestion == old(followUpQuestion) && modalHeight == old(modalHeight)
      ensures prevModalHeight == old(prevModalHeight) && isMinimized == old(isMinimized)
      ensures maxHeight == old(maxHeight) && isResizing == old(isResizing)
      ensures resizeStartY == old(resizeStartY) && resizeStartHeight == old(resizeStartHeight)
      ensures resizeMaxHeight == old(resizeMaxHeight)
      ensures requests == old(requests) && pending == old(pending)
    {
      dragConstraints := DragBounds(innerWidth);
    }

    /** `toggleMinimize` (src/components/TextModal.tsx:142-154). */
    method ToggleMinimize(innerWidth: int)
      requires Valid()
      modifies this
      ensures Valid() && isMinimized == !old(isMinimized) && dragConstraints == DragBounds(innerWidth)
      ensures !old(isMinimized) ==> prevModalHeight == old(modalHeight) && modalHeight == old(modalHeight)
      ensures old(isMinimized) ==> modalHeight == old(prevModalHeight) && prevModalHeight == old(prevModalHeight)
      ensures conversation == old(conversation) && isLoading == old(isLoading) && error == old(error)
      ensures followUpQuestion == old(followUpQuestion) && maxHeight == old(maxHeight)
      ensures isResizing == old(isResizing) && resizeStartY == old(resizeStartY)
      ensures resizeStartHeight == old(resizeStartHeight) && resizeMaxHeight == old(resizeMaxHeight)
      ensures requests == old(requests) && pending == old(pending)
    {
      if !isMinimized {
        prevModalHeight := modalHeight;
      } else {
        modalHeight := prevModalHeight;
      }
      isMinimized := !isMinimized;
      UpdateDragConstraints(innerWidth);
    }

    /** `handleDragOrResizeMouseDown` (src/components/TextModal.tsx:321-325): the listener captures the current heights. */
    method BeginResize(clientY: int)
      requires Valid()
      modifies this
      ensures Valid() && isResizing
      ensures resizeStartY == clientY && resizeStartHeight == modalHeight && resizeMaxHeight == maxHeight
      ensures modalHeight == old(modalHeight) && prevModalHeight == old(prevModalHeight)
      ensures isMinimized == old(isMinimized) && maxHeight == old(maxHeight)
      ensures conversation == old(conversation) && requests == old(requests) && pending == old(pending)
      ensures isLoading == old(isLoading) && error == old(error) && followUpQuestion == old(followUpQuestion)
      ensures dragConstraints == old(dragConstraints)
    {
      isResizing := true;
      resizeStartY := clientY;
      resizeStartHeight := modalHeight;
      resizeMaxHeight := maxHeight;
    }

    /** The mousemove listener (src/components/TextModal.tsx:327-335). */
    method ResizeMove(clientY: int)
      requires Valid() && isResizing
      modifies this
      ensures Valid() && isResizing
      ensures modalHeight == ClampHeight(resizeStartHeight - (clientY - resizeStartY), resizeMaxHeight)
      ensures modalHeight <= resizeMaxHeight
      ensures resizeStartY == old(resizeStartY) && resizeStartHeight == old(resizeStartHeight)
      ensures resizeMaxHeight == old(resizeMaxHeight) && prevModalHeight == old(prevModalHeight)
      ensures isMinimized == old(isMinimized) && maxHeight == old(maxHeight)
      ensures conversation == old(conversation) && requests == old(requests) && pending == old(pending)
      ensures isLoading == old(isLoading) && error == old(error) && followUpQuestion == old(followUpQuestion)
      ensures dragConstraints == old(dragConstraints)
    {
      modalHeight := ClampHeight(resizeStartHeight - (clientY - resizeStartY), resizeMaxHeight);
    }

    /** The mouseup listener (src/components/TextModal.tsx:337-341). */
    method EndResize()
      requires Valid()
      modifies this
      ensures Valid() && !isResizing
      ensures modalHeight == old(modalHeight) && prevModalHeight == old(prevModalHeight)
      ensures isMinimized == old(isMinimized) && maxHeight == old(maxHeight)
      ensures conversation == old(conversation) && requests == old(requests) && pending == old(pending)
      ensures isLoading == old(isLoading) && error == old(error) && followUpQuestion == old(followUpQuestion)
      ensures dragConstraints == old(dragConstraints) && resizeStartY == old(resizeStartY)
      ensures resizeStartHeight == old(resizeStartHeight) && resizeMaxHeight == old(resizeMaxHeight)
    {
      isResizing := false;
    }

    /** The window resize listener (src/components/TextModal.tsx:74-77). */
    method WindowResized(innerHeight: int, innerWidth: int)
      requires Valid()
      modifies this
      ensures Valid() && maxHeight == innerHeight - 100 && dragConstraints == DragBounds(innerWidth)
      ensures modalHeight == old(modalHeight) && prevModalHeight == old(prevModalHeight)
      ensures isMinimized == old(isMinimized) && isResizing == old(isResizing)
      ensures resizeMaxHeight == old(resizeMaxHeight)
      ensures conversation == old(conversation) && requests == old(requests) && pending == old(pending)
      ensures isLoading == old(isLoading) && error == old(error) && followUpQuestion == old(followUpQuestion)
      ensures resizeStartY == old(resizeStartY) && resizeStartHeight == old(resizeStartHeight)
    {
      maxHeight := innerHeight - 100;
      UpdateDragConstraints(innerWidth);
    }
  }

  /**
   * Restoring after a minimise brings back the height at minimise time, even if
   * the panel was resized while minimised (the top bar stays draggable).
   */
  method MinimizeResizeRestore(p: Panel, innerWidth: int, y0: int, y1: int)
    requires p.Valid() && !p.isMinimized
    modifies p
    ensures p.Valid() && !p.isMinimized && p.modalHeight == old(p.modalHeight)
  {
    p.ToggleMinimize(innerWidth);
    p.BeginResize(y0);
    p.ResizeMove(y1);
    p.EndResize();
    p.ToggleMinimize(innerWidth);
  }

  /**
   * A follow-up asked while the first answer is pending is dropped when that
   * answer arrives, since the reply is appended to the conversation it was sent with.
   */
  method FollowUpLostToEarlierReply() returns (p: Panel)
    ensures p.Valid() && p.conversation == [Message("user", "q"), Message("assistant", "a")]
    ensures !p.isLoading && p.requests == [[Message("user", "q")], [Message("user", "q"), Message("user", "f")]]
  {
    p := new Panel(500, 800, 1200);
    p.QuestionChanged("q", Some("agent"));
    p.FollowUpChanged("f");
    assert JsString.Trim("f") == "f" && !JsString.AllWhitespace("f");
    p.AskFollowUp(Some("agent"));
    assert p.conversation == [Message("user", "q"), Message("user", "f")];
    assert [Message("user", "q")] in p.pending;
    p.GuideSettled([Message("user", "q")], Reply(Message("bot", "a")));
  }
}
