/**
 * The dialogue engine of ChatInterface.tsx as a pure transition: the four
 * conversation fields (lines 37-40) as a value, and one user turn of
 * `handleSendMessage` (lines 164-342) as a function from the fields and the
 * typed text to the new fields and the messages appended to the log.
 *
 * Each turn is taken as atomic: the typing delays, the API delays and the
 * 500 ms follow-up all finish before the next turn, so the follow-up message
 * is appended within the same turn. The random draws of the mock service are
 * the `Outcomes` of the turn.
 */
module Dialogue {
  import opened Wrappers
  import opened Text
  import opened OrderIds
  import opened Intents
  import opened Orders
  import opened Responses

  /** The optional `type` of a message. */
  datatype MessageType = StatusMessage | CancellationMessage | ErrorMessage | SuccessMessage

  /** What a log entry holds: the text the user typed, or the reply the assistant gave. */
  datatype Content = Typed(text: string) | Said(reply: Reply)

  /** A log entry; the id and the timestamp are left out. */
  datatype Message = Message(content: Content, isUser: bool, messageType: Option<MessageType>) {
    /** The text shown for the entry. */
    function Text(): string {
      match content
      case Typed(text) => text
      case Said(reply) => reply.Wording()
    }
  }

  function UserMessage(text: string): Message { Message(Typed(text), true, None) }
  function Answer(reply: Reply): Message { Message(Said(reply), false, None) }
  function ErrorAnswer(reply: Reply): Message { Message(Said(reply), false, Some(ErrorMessage)) }
  function SuccessAnswer(reply: Reply): Message { Message(Said(reply), false, Some(SuccessMessage)) }

  /** The conversation fields; the empty order id stands for "no order". */
  datatype SessionState = SessionState(
    waitingForOrderId: bool,
    waitingForReason: bool,
    currentOrderId: string,
    currentIntent: Intent)

  const Initial: SessionState := SessionState(false, false, "", NoIntent)

  /** What the mock service draws in one turn; at most one call is made per turn. */
  datatype Outcomes = Outcomes(lookupFails: bool, cancelFails: bool, returnNumber: ReturnNumber)

  /** The fields after a turn and the messages the turn appended. */
  datatype Transition = Transition(next: SessionState, emitted: seq<Message>)

  /**
   * The state every turn keeps. A pending reason belongs to a cancellation of
   * a known, undelivered order and excludes a pending order id; a pending
   * order id has an intent; a remembered order id is a canonical one.
   */
  predicate Invariant(s: SessionState) {
    && (s.waitingForReason ==>
          && s.currentOrderId != "" && s.currentIntent == Cancel && !s.waitingForOrderId
          && s.currentOrderId in MockOrders && MockOrders[s.currentOrderId].status != "delivered")
    && (s.waitingForOrderId ==> s.currentIntent != NoIntent)
    && (s.currentOrderId == "" || IsValidOrderId(s.currentOrderId))
  }

  // ---- the transition ---------------------------------------------------

  /** The status lookup of the order in `s.currentOrderId` (lines 184-202, 270-288). */
  function StatusLookup(s: SessionState, o: Outcomes): Transition {
    match GetOrderStatus(s.currentOrderId, o.lookupFails)
    case Ok(orderStatus) =>
      Transition(s, [SuccessAnswer(StatusReport(orderStatus, s.currentOrderId))])
    case Err(NotFound) =>
      Transition(s.(waitingForOrderId := true), [ErrorAnswer(OrderNotFound)])
    case Err(SystemError) =>
      Transition(s.(currentOrderId := "", currentIntent := NoIntent), [ErrorAnswer(LookupFailure)])
  }

  /** The deliverability check before a cancellation (lines 204-227, 306-329). */
  function CancelLookup(s: SessionState, o: Outcomes): Transition {
    match GetOrderStatus(s.currentOrderId, o.lookupFails)
    case Ok(orderStatus) =>
      if orderStatus.status == "delivered" then Transition(s, [ErrorAnswer(DeliveredNoCancel)])
      else Transition(s.(waitingForReason := true), [Answer(AskReason)])
    case Err(NotFound) =>
      Transition(s.(waitingForOrderId := true), [ErrorAnswer(OrderNotFound)])
    case Err(SystemError) =>
      Transition(s.(currentOrderId := "", currentIntent := NoIntent), [ErrorAnswer(LookupFailure)])
  }

  /** Acting on a resolved order id according to the current intent. */
  function Proceed(s: SessionState, o: Outcomes): Transition {
    match s.currentIntent
    case Status => StatusLookup(s, o)
    case Cancel => CancelLookup(s, o)
    case NoIntent => Transition(s, [])
  }

  /** The reason turn: the cancellation request itself (lines 232-254). */
  function SubmitReason(s: SessionState, reason: string, o: Outcomes): Transition {
    var s' := s.(waitingForReason := false);
    match CancelOrder(s.currentOrderId, reason, o.cancelFails, o.returnNumber)
    case Ok(result) =>
      Transition(s'.(currentOrderId := "", currentIntent := NoIntent),
        [SuccessAnswer(CancellationReceipt(result)), Answer(AnythingElse)])
    case Err(_) =>
      Transition(s', [ErrorAnswer(CancelFailure)])
  }

  /** A turn with no slot pending: detect the intent, then look for an order id (lines 257-341). */
  function FreshTurn(s: SessionState, userMessage: string, o: Outcomes): Transition {
    var intent := DetectIntent(userMessage);
    if intent == NoIntent then Transition(s, [Answer(OutOfScope)])
    else
      var s' := s.(currentIntent := intent);
      match ExtractOrderId(userMessage)
      case None =>
        Transition(s'.(waitingForOrderId := true),
          [Answer(if intent == Status then AskStatusOrderId else AskCancelOrderId)])
      case Some(orderId) => Proceed(s'.(currentOrderId := orderId), o)
  }

  /** The assistant's side of a turn, given the trimmed text (lines 172-341). */
  function Respond(s: SessionState, userMessage: string, o: Outcomes): Transition {
    if s.waitingForOrderId then
      var orderId := match ExtractOrderId(userMessage) case Some(id) => id case None => ToUpper(userMessage);
      if !IsValidOrderId(orderId) then
        Transition(s.(waitingForOrderId := true), [ErrorAnswer(InvalidFormat)])
      else Proceed(s.(currentOrderId := orderId, waitingForOrderId := false), o)
    else if s.waitingForReason && s.currentOrderId != "" then
      SubmitReason(s, userMessage, o)
    else FreshTurn(s, userMessage, o)
  }

  /** One turn of `handleSendMessage`: blank input is ignored; any other is logged trimmed, then answered. */
  function Step(s: SessionState, inputValue: string, o: Outcomes): Transition {
    var userMessage := Trim(inputValue);
    if userMessage == "" then Transition(s, [])
    else
      var r := Respond(s, userMessage, o);
      Transition(r.next, [UserMessage(userMessage)] + r.emitted)
  }

  /** The user's side of a conversation: one text and one set of draws per turn. */
  datatype Input = Input(text: string, outcomes: Outcomes)

  /** A sequence of turns: the final state and everything appended to the log. */
  function Run(s: SessionState, inputs: seq<Input>): Transition
    decreases |inputs|
  {
    if inputs == [] then Transition(s, [])
    else
      var t := Step(s, inputs[0].text, inputs[0].outcomes);
      var rest := Run(t.next, inputs[1..]);
      Transition(rest.next, t.emitted + rest.emitted)
  }

  // ---- the state invariant ------------------------------------------------

  lemma InitialInvariant()
    ensures Invariant(Initial)
  {
  }

  /** Every turn keeps the invariant. */
  lemma StepPreservesInvariant(s: SessionState, inputValue: string, o: Outcomes)
    requires Invariant(s)
    ensures Invariant(Step(s, inputValue, o).next)
  {
    var userMessage := Trim(inputValue);
    if userMessage != "" {
      RespondPreservesInvariant(s, userMessage, o);
    }
  }

  lemma RespondPreservesInvariant(s: SessionState, userMessage: string, o: Outcomes)
    requires Invariant(s)
    ensures Invariant(Respond(s, userMessage, o).next)
  {
    if s.waitingForOrderId {
      var orderId := match ExtractOrderId(userMessage) case Some(id) => id case None => ToUpper(userMessage);
      if IsValidOrderId(orderId) {
        ProceedPreservesInvariant(s.(currentOrderId := orderId, waitingForOrderId := false), o);
      }
    } else if s.waitingForReason && s.currentOrderId != "" {
      assert Respond(s, userMessage, o) == SubmitReason(s, userMessage, o);
    } else {
      assert Respond(s, userMessage, o) == FreshTurn(s, userMessage, o);
      var intent := DetectIntent(userMessage);
      var extracted := ExtractOrderId(userMessage);
      if intent != NoIntent && extracted.Some? {
        ProceedPreservesInvariant(s.(currentIntent := intent, currentOrderId := extracted.value), o);
      }
    }
  }

  /** A lookup of a valid order id, with no slot pending, leaves a state that keeps the invariant. */
  lemma ProceedPreservesInvariant(s: SessionState, o: Outcomes)
    requires !s.waitingForOrderId && !s.waitingForReason
    requires s.currentIntent != NoIntent && IsValidOrderId(s.currentOrderId)
    ensures Invariant(Proceed(s, o).next)
  {
  }

  /**
   * Under the invariant a non-blank text always gets one reply, and two
   * exactly when it is the reason of a cancellation that succeeds.
   */
  lemma RespondReplies(s: SessionState, userMessage: string, o: Outcomes)
    requires Invariant(s)
    ensures 1 <= |Respond(s, userMessage, o).emitted| <= 2
    ensures |Respond(s, userMessage, o).emitted| == 2 <==> !s.waitingForOrderId && s.waitingForReason && !o.cancelFails
  {
    if s.waitingForOrderId {
      var orderId := match ExtractOrderId(userMessage) case Some(id) => id case None => ToUpper(userMessage);
      if IsValidOrderId(orderId) {
        ProceedReplies(s.(currentOrderId := orderId, waitingForOrderId := false), o);
      }
    } else if s.waitingForReason && s.currentOrderId != "" {
      assert Respond(s, userMessage, o) == SubmitReason(s, userMessage, o);
    } else {
      assert Respond(s, userMessage, o) == FreshTurn(s, userMessage, o);
      var intent := DetectIntent(userMessage);
      var extracted := ExtractOrderId(userMessage);
      if intent != NoIntent && extracted.Some? {
        ProceedReplies(s.(currentIntent := intent, currentOrderId := extracted.value), o);
      }
    }
  }

  /** A lookup with an intent gives exactly one reply, and never the format error. */
  lemma ProceedReplies(s: SessionState, o: Outcomes)
    requires s.currentIntent != NoIntent
    ensures |Proceed(s, o).emitted| == 1
    ensures Proceed(s, o).emitted[0] != ErrorAnswer(InvalidFormat)
  {
  }

  /** So does every conversation, from the first greeting on. */
  lemma {:induction false} RunPreservesInvariant(s: SessionState, inputs: seq<Input>)
    requires Invariant(s)
    ensures Invariant(Run(s, inputs).next)
    decreases |inputs|
  {
    if inputs != [] {
      StepPreservesInvariant(s, inputs[0].text, inputs[0].outcomes);
      RunPreservesInvariant(Step(s, inputs[0].text, inputs[0].outcomes).next, inputs[1..]);
    }
  }

  // ---- turn start and log discipline ------------------------------------

  /** A blank text changes nothing, and only a blank text appends nothing. */
  lemma BlankTurn(s: SessionState, inputValue: string, o: Outcomes)
    ensures IsBlank(inputValue) ==> Step(s, inputValue, o) == Transition(s, [])
    ensures Step(s, inputValue, o).emitted == [] <==> IsBlank(inputValue)
  {
  }

  /** A turn on a non-blank text is its logging followed by the assistant's side. */
  lemma StepCases(s: SessionState, inputValue: string, o: Outcomes)
    ensures Trim(inputValue) == "" ==> Step(s, inputValue, o) == Transition(s, [])
    ensures Trim(inputValue) != "" ==>
      var r := Respond(s, Trim(inputValue), o);
      Step(s, inputValue, o) == Transition(r.next, [UserMessage(Trim(inputValue))] + r.emitted)
  {
  }

  /** The assistant's side of a turn holds only its own replies. */
  lemma RespondSaysOnly(s: SessionState, userMessage: string, o: Outcomes)
    ensures forall m :: m in Respond(s, userMessage, o).emitted ==> m.content.Said? && !m.isUser
  {
    if s.waitingForOrderId {
      var orderId := match ExtractOrderId(userMessage) case Some(id) => id case None => ToUpper(userMessage);
      if IsValidOrderId(orderId) {
        ProceedSaysOnly(s.(currentOrderId := orderId, waitingForOrderId := false), o);
      }
    } else if s.waitingForReason && s.currentOrderId != "" {
      assert Respond(s, userMessage, o) == SubmitReason(s, userMessage, o);
    } else {
      assert Respond(s, userMessage, o) == FreshTurn(s, userMessage, o);
      var intent := DetectIntent(userMessage);
      var extracted := ExtractOrderId(userMessage);
      if intent != NoIntent && extracted.Some? {
        ProceedSaysOnly(s.(currentIntent := intent, currentOrderId := extracted.value), o);
      }
    }
  }

  lemma ProceedSaysOnly(s: SessionState, o: Outcomes)
    ensures forall m :: m in Proceed(s, o).emitted ==> m.content.Said? && !m.isUser
  {
  }

  /**
   * Any other text is logged first, trimmed, as the user's and without a
   * type; what follows are the assistant's replies, one, or two after a
   * cancellation.
   */
  lemma UserMessageFirst(s: SessionState, inputValue: string, o: Outcomes)
    requires Invariant(s) && !IsBlank(inputValue)
    ensures var t := Step(s, inputValue, o);
      && 2 <= |t.emitted| <= 3
      && t.emitted[0] == UserMessage(Trim(inputValue))
      && forall m :: m in t.emitted[1..] ==> m.content.Said? && !m.isUser
  {
    RespondSaysOnly(s, Trim(inputValue), o);
    RespondReplies(s, Trim(inputValue), o);
    assert Step(s, inputValue, o).emitted[1..] == Respond(s, Trim(inputValue), o).emitted;
  }

  /** The text of an entry the user typed, if it is one. */
  function TypedText(m: Message): seq<string> {
    match m.content
    case Typed(text) => [text]
    case Said(_) => []
  }

  /** The texts the user typed, in log order. */
  function UserTexts(log: seq<Message>): seq<string>
    decreases |log|
  {
    if log == [] then [] else TypedText(log[0]) + UserTexts(log[1..])
  }

  lemma {:induction false} UserTextsAppend(a: seq<Message>, b: seq<Message>)
    ensures UserTexts(a + b) == UserTexts(a) + UserTexts(b)
    decreases |a|
  {
    if a != [] {
      assert (a + b)[0] == a[0];
      assert (a + b)[1..] == a[1..] + b;
      UserTextsAppend(a[1..], b);
      calc {
        UserTexts(a + b);
        TypedText(a[0]) + UserTexts(a[1..] + b);
        TypedText(a[0]) + (UserTexts(a[1..]) + UserTexts(b));
        (TypedText(a[0]) + UserTexts(a[1..])) + UserTexts(b);
      }
    } else {
      assert a + b == b;
    }
  }

  lemma {:induction false} NoUserTexts(log: seq<Message>)
    requires forall m :: m in log ==> m.content.Said?
    ensures UserTexts(log) == []
    decreases |log|
  {
    if log != [] {
      assert log[0] in log;
      assert forall m :: m in log[1..] ==> m in log;
      NoUserTexts(log[1..]);
    }
  }

  /** A turn logs the trimmed text as the only user entry, or nothing for a blank text. */
  lemma StepLogsText(s: SessionState, inputValue: string, o: Outcomes)
    ensures UserTexts(Step(s, inputValue, o).emitted) == if IsBlank(inputValue) then [] else [Trim(inputValue)]
  {
    var userMessage := Trim(inputValue);
    if userMessage != "" {
      var r := Respond(s, userMessage, o);
      assert Step(s, inputValue, o).emitted == [UserMessage(userMessage)] + r.emitted;
      RespondSaysOnly(s, userMessage, o);
      NoUserTexts(r.emitted);
      UserTextsAppend([UserMessage(userMessage)], r.emitted);
      assert UserTexts([UserMessage(userMessage)]) == [userMessage];
    }
  }

  /** The non-blank texts of a conversation, trimmed. */
  function SentTexts(inputs: seq<Input>): seq<string>
    decreases |inputs|
  {
    if inputs == [] then []
    else (if IsBlank(inputs[0].text) then [] else [Trim(inputs[0].text)]) + SentTexts(inputs[1..])
  }

  /** The log of a conversation holds every non-blank text, trimmed and in order, and no other user entry. */
  lemma {:induction false} RunLogsSentTexts(s: SessionState, inputs: seq<Input>)
    ensures UserTexts(Run(s, inputs).emitted) == SentTexts(inputs)
    decreases |inputs|
  {
    if inputs != [] {
      var t := Step(s, inputs[0].text, inputs[0].outcomes);
      var rest := Run(t.next, inputs[1..]);
      assert Run(s, inputs).emitted == t.emitted + rest.emitted;
      RunLogsSentTexts(t.next, inputs[1..]);
      UserTextsAppend(t.emitted, rest.emitted);
      StepLogsText(s, inputs[0].text, inputs[0].outcomes);
    }
  }

  // ---- awaiting an order id ---------------------------------------------

  /**
   * While an order id is awaited, the format error comes exactly when the
   * text holds no five consecutive digits; it is the only reply and leaves
   * every field as it was.
   */
  lemma AwaitingOrderIdRejects(s: SessionState, inputValue: string, o: Outcomes)
    requires Invariant(s) && s.waitingForOrderId && !IsBlank(inputValue)
    ensures var userMessage := Trim(inputValue);
      Step(s, inputValue, o) == Transition(s, [UserMessage(userMessage), ErrorAnswer(InvalidFormat)])
      <==> !HasFiveDigitRun(userMessage)
  {
    var userMessage := Trim(inputValue);
    if !HasFiveDigitRun(userMessage) {
      UpperFallbackInvalid(userMessage);
    } else {
      var id := ExtractOrderId(userMessage).value;
      var s' := s.(currentOrderId := id, waitingForOrderId := false);
      assert Respond(s, userMessage, o) == Proceed(s', o);
      ProceedReplies(s', o);
      assert Step(s, inputValue, o).emitted[1] == Proceed(s', o).emitted[0];
    }
  }

  /** An accepted order id is the one extracted from the text: the wait ends and the order is looked up. */
  lemma AwaitingOrderIdAccepts(s: SessionState, inputValue: string, o: Outcomes, id: string)
    requires s.waitingForOrderId && !IsBlank(inputValue)
    requires ExtractOrderId(Trim(inputValue)) == Some(id)
    ensures var s' := s.(currentOrderId := id, waitingForOrderId := false);
      Step(s, inputValue, o) == Transition(Proceed(s', o).next, [UserMessage(Trim(inputValue))] + Proceed(s', o).emitted)
  {
  }

  /** The log of a run of rejected texts: each text, then the format error. */
  function Rejections(inputs: seq<Input>): seq<Message>
    decreases |inputs|
  {
    if inputs == [] then []
    else [UserMessage(Trim(inputs[0].text)), ErrorAnswer(InvalidFormat)] + Rejections(inputs[1..])
  }

  /** Repeated texts without an order id keep the conversation where it is, one format error each. */
  lemma {:induction false} RepeatedRejects(s: SessionState, inputs: seq<Input>)
    requires Invariant(s) && s.waitingForOrderId
    requires forall i :: 0 <= i < |inputs| ==> !IsBlank(inputs[i].text) && !HasFiveDigitRun(Trim(inputs[i].text))
    ensures Run(s, inputs) == Transition(s, Rejections(inputs))
    decreases |inputs|
  {
    if inputs != [] {
      AwaitingOrderIdRejects(s, inputs[0].text, inputs[0].outcomes);
      assert forall i :: 0 <= i < |inputs[1..]| ==> inputs[1..][i] == inputs[i + 1];
      RepeatedRejects(s, inputs[1..]);
    }
  }

  // ---- fresh turns ------------------------------------------------------

  /** No slot pending (the reason slot counts only with an order id). */
  predicate IsFresh(s: SessionState) {
    !s.waitingForOrderId && !(s.waitingForReason && s.currentOrderId != "")
  }

  /** A fresh turn without an intent is deflected and changes no field. */
  lemma OutOfScopeTurn(s: SessionState, inputValue: string, o: Outcomes)
    requires IsFresh(s) && !IsBlank(inputValue) && DetectIntent(Trim(inputValue)) == NoIntent
    ensures Step(s, inputValue, o) == Transition(s, [UserMessage(Trim(inputValue)), Answer(OutOfScope)])
  {
  }

  /** A fresh turn with an intent but no order id asks for one and waits for it. */
  lemma AsksForOrderId(s: SessionState, inputValue: string, o: Outcomes)
    requires IsFresh(s) && !IsBlank(inputValue)
    requires DetectIntent(Trim(inputValue)) != NoIntent && !HasFiveDigitRun(Trim(inputValue))
    ensures var intent := DetectIntent(Trim(inputValue));
      Step(s, inputValue, o) == Transition(s.(currentIntent := intent, waitingForOrderId := true),
        [UserMessage(Trim(inputValue)), Answer(if intent == Status then AskStatusOrderId else AskCancelOrderId)])
  {
  }

  /** A fresh turn with an intent and an order id looks the order up at once. */
  lemma FreshLookup(s: SessionState, inputValue: string, o: Outcomes, id: string)
    requires IsFresh(s) && !IsBlank(inputValue)
    requires DetectIntent(Trim(inputValue)) != NoIntent && ExtractOrderId(Trim(inputValue)) == Some(id)
    ensures var s' := s.(currentIntent := DetectIntent(Trim(inputValue)), currentOrderId := id);
      Step(s, inputValue, o) == Transition(Proceed(s', o).next, [UserMessage(Trim(inputValue))] + Proceed(s', o).emitted)
  {
  }

  // ---- lookups ----------------------------------------------------------

  /**
   * The outcomes of a status lookup: the report of the order with no field
   * changed; for an unknown id the not-found error and the
   * order id awaited again, the intent kept; for a system error the failure
   * reply with the order id and the intent forgotten.
   */
  lemma StatusLookupOutcomes(s: SessionState, o: Outcomes)
    requires s.currentIntent == Status
    ensures var t := Proceed(s, o);
      && (!o.lookupFails && s.currentOrderId in MockOrders ==>
            t == Transition(s, [SuccessAnswer(StatusReport(MockOrders[s.currentOrderId], s.currentOrderId))]))
      && (!o.lookupFails && s.currentOrderId !in MockOrders ==>
            t == Transition(s.(waitingForOrderId := true), [ErrorAnswer(OrderNotFound)]))
      && (o.lookupFails ==>
            t == Transition(s.(currentOrderId := "", currentIntent := NoIntent), [ErrorAnswer(LookupFailure)]))
  {
  }

  /**
   * The outcomes of the check before a cancellation: the delivered order gets
   * the returns error, no reason prompt and no field changed; any other known
   * order gets the reason prompt and the reason is awaited; failures as for a
   * status lookup.
   */
  lemma CancelLookupOutcomes(s: SessionState, o: Outcomes)
    requires s.currentIntent == Cancel
    ensures var t := Proceed(s, o);
      && (!o.lookupFails && s.currentOrderId == "ORD-11111" ==>
            t == Transition(s, [ErrorAnswer(DeliveredNoCancel)]))
      && (!o.lookupFails && s.currentOrderId in MockOrders && s.currentOrderId != "ORD-11111" ==>
            t == Transition(s.(waitingForReason := true), [Answer(AskReason)]))
      && (!o.lookupFails && s.currentOrderId !in MockOrders ==>
            t == Transition(s.(waitingForOrderId := true), [ErrorAnswer(OrderNotFound)]))
      && (o.lookupFails ==>
            t == Transition(s.(currentOrderId := "", currentIntent := NoIntent), [ErrorAnswer(LookupFailure)]))
  {
    if !o.lookupFails && s.currentOrderId in MockOrders {
      OnlyOneDelivered(s.currentOrderId);
    }
  }

  /** The entry a successful status lookup logs is a success whose text names the order. */
  lemma StatusEntryNamesOrder(s: SessionState, o: Outcomes)
    requires s.currentIntent == Status && !o.lookupFails && s.currentOrderId in MockOrders
    ensures var e := Proceed(s, o).emitted;
      && |e| == 1 && !e[0].isUser && e[0].messageType == Some(SuccessMessage)
      && Contains(e[0].Text(), s.currentOrderId)
  {
    StatusReplyNamesOrder(MockOrders[s.currentOrderId], s.currentOrderId);
  }

  /** The first entry a successful cancellation logs is a success whose text gives `Return ID: RET-<n>.` */
  lemma ReceiptEntryGivesReturnId(s: SessionState, reason: string, o: Outcomes)
    requires !o.cancelFails
    ensures var e := SubmitReason(s, reason, o).emitted;
      && |e| == 2 && !e[0].isUser && e[0].messageType == Some(SuccessMessage)
      && Contains(e[0].Text(), "Return ID: " + ReturnId(o.returnNumber) + ".")
  {
  }

  // ---- the reason turn --------------------------------------------------

  /**
   * With a reason awaited, the next text is taken as the reason, whatever it
   * says, and the wait ends. On success the receipt for `RET-<n>` and the
   * closing question follow and the intent and order are forgotten; on a
   * system error the failure reply follows and the intent and order are kept.
   */
  lemma ReasonTurn(s: SessionState, inputValue: string, o: Outcomes)
    requires Invariant(s) && s.waitingForReason && !IsBlank(inputValue)
    ensures var t := Step(s, inputValue, o);
      && (!o.cancelFails ==>
            var result := CancellationResult(ReturnId(o.returnNumber), CancellationInstructions);
            && t.next == s.(waitingForReason := false, currentOrderId := "", currentIntent := NoIntent)
            && t.emitted == [UserMessage(Trim(inputValue)), SuccessAnswer(CancellationReceipt(result)), Answer(AnythingElse)]
            && Contains(CancellationReply(result), "Return ID: " + ReturnId(o.returnNumber) + "."))
      && (o.cancelFails ==>
            && t.next == s.(waitingForReason := false)
            && t.emitted == [UserMessage(Trim(inputValue)), ErrorAnswer(CancelFailure)])
  {
  }
}
