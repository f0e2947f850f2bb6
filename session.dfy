/**
 * The chat component's conversation state and its turn handler
 * (ChatInterface.tsx lines 27-40, 106-115 and 164-342): the message log and
 * the four conversation fields, updated in place by `HandleSendMessage`.
 * Each method is proved against the transition of `Dialogue`, so the
 * properties proved there hold of the object.
 */
module Chat {
  import opened Wrappers
  import opened Text
  import opened OrderIds
  import opened Intents
  import opened Orders
  import opened Responses
  import opened Dialogue

  class Session {
    var messages: seq<Message>
    var waitingForOrderId: bool
    var waitingForReason: bool
    var currentOrderId: string
    var currentIntent: Intent

    /** The conversation fields as a value. */
    function State(): SessionState
      reads this
    {
      SessionState(waitingForOrderId, waitingForReason, currentOrderId, currentIntent)
    }

    ghost predicate Valid()
      reads this
    {
      Invariant(State())
    }

    /** A new conversation: the greeting alone in the log, nothing pending. */
    constructor ()
      ensures messages == [Message(Said(Greeting), false, None)]
      ensures State() == Initial
      ensures Valid()
    {
      messages := [Message(Said(Greeting), false, None)];
      waitingForOrderId := false;
      waitingForReason := false;
      currentOrderId := "";
      currentIntent := NoIntent;
    }

    /** `addMessage`: appends one entry to the log and changes nothing else. */
    method AddMessage(content: Content, isUser: bool, messageType: Option<MessageType>)
      modifies this
      ensures messages == old(messages) + [Message(content, isUser, messageType)]
      ensures State() == old(State())
    {
      messages := messages + [Message(content, isUser, messageType)];
    }

    /**
     * `handleSendMessage`: one turn, with the text typed and the draws of the
     * mock service. A blank text changes nothing; any other is logged trimmed
     * and then answered as `Respond` says, which by `StepCases` is the turn
     * `Step`. The log only grows, and the invariant is kept.
     */
    method HandleSendMessage(inputValue: string, outcomes: Outcomes)
      modifies this
      ensures Trim(inputValue) == "" ==> State() == old(State()) && messages == old(messages)
      ensures Trim(inputValue) != "" ==>
        && State() == Respond(old(State()), Trim(inputValue), outcomes).next
        && messages == old(messages) + [UserMessage(Trim(inputValue))] + Respond(old(State()), Trim(inputValue), outcomes).emitted
      ensures old(Valid()) ==> Valid()
    {
      if Valid() {
        RespondPreservesInvariant(State(), Trim(inputValue), outcomes);
      }
      var userMessage := Trim(inputValue);
      if userMessage != "" {
        AddMessage(Typed(userMessage), true, None);
        HandleTurn(userMessage, outcomes);
      }
    }

    /** The handler past logging the user's text: the three branches of the source. */
    method HandleTurn(userMessage: string, outcomes: Outcomes)
      modifies this
      ensures State() == Respond(old(State()), userMessage, outcomes).next
      ensures messages == old(messages) + Respond(old(State()), userMessage, outcomes).emitted
    {
      if waitingForOrderId {
        var orderId := match ExtractOrderId(userMessage) case Some(id) => id case None => ToUpper(userMessage);
        if !IsValidOrderId(orderId) {
          AddMessage(Said(InvalidFormat), false, Some(ErrorMessage));
          waitingForOrderId := true;
          return;
        }
        currentOrderId := orderId;
        waitingForOrderId := false;
        LookUp(outcomes);
        return;
      }
      if waitingForReason && currentOrderId != "" {
        SubmitCancellation(userMessage, outcomes);
        return;
      }
      NewRequest(userMessage, outcomes);
    }

    /** A turn with no slot pending (lines 257-341). */
    method NewRequest(userMessage: string, outcomes: Outcomes)
      requires !waitingForOrderId && !(waitingForReason && currentOrderId != "")
      modifies this
      ensures State() == FreshTurn(old(State()), userMessage, outcomes).next
      ensures messages == old(messages) + FreshTurn(old(State()), userMessage, outcomes).emitted
    {
      var intent := DetectIntent(userMessage);
      var orderId := ExtractOrderId(userMessage);
      if intent == NoIntent {
        AddMessage(Said(OutOfScope), false, None);
        return;
      }
      currentIntent := intent;
      match orderId
      case Some(id) =>
        // the source checks the extracted id again here; extraction only yields valid ids
        assert IsValidOrderId(id);
        currentOrderId := id;
        LookUp(outcomes);
      case None =>
        AddMessage(Said(if intent == Status then AskStatusOrderId else AskCancelOrderId), false, None);
        waitingForOrderId := true;
    }

    /** The reason turn (lines 232-254). */
    method SubmitCancellation(reason: string, outcomes: Outcomes)
      modifies this
      ensures State() == SubmitReason(old(State()), reason, outcomes).next
      ensures messages == old(messages) + SubmitReason(old(State()), reason, outcomes).emitted
    {
      waitingForReason := false;
      var result := CancelOrder(currentOrderId, reason, outcomes.cancelFails, outcomes.returnNumber);
      match result
      case Ok(receipt) =>
        AddMessage(Said(CancellationReceipt(receipt)), false, Some(SuccessMessage));
        AddMessage(Said(AnythingElse), false, None);
        currentOrderId := "";
        currentIntent := NoIntent;
      case Err(error) =>
        // the mock service throws no code other than 500 here
        if error.Code() == 500 {
          AddMessage(Said(CancelFailure), false, Some(ErrorMessage));
        }
    }

    /** Acting on the resolved order id according to the current intent. */
    method LookUp(outcomes: Outcomes)
      modifies this
      ensures State() == Proceed(old(State()), outcomes).next
      ensures messages == old(messages) + Proceed(old(State()), outcomes).emitted
    {
      if currentIntent == Status {
        LookUpStatus(outcomes);
      } else if currentIntent == Cancel {
        LookUpForCancellation(outcomes);
      }
    }

    /** The status lookup (lines 184-202 and 270-288). */
    method LookUpStatus(outcomes: Outcomes)
      modifies this
      ensures State() == StatusLookup(old(State()), outcomes).next
      ensures messages == old(messages) + StatusLookup(old(State()), outcomes).emitted
    {
      match GetOrderStatus(currentOrderId, outcomes.lookupFails)
      case Ok(orderStatus) =>
        AddMessage(Said(StatusReport(orderStatus, currentOrderId)), false, Some(SuccessMessage));
      case Err(error) =>
        LookupError(error);
    }

    /** The deliverability check before a cancellation (lines 204-227 and 306-329). */
    method LookUpForCancellation(outcomes: Outcomes)
      modifies this
      ensures State() == CancelLookup(old(State()), outcomes).next
      ensures messages == old(messages) + CancelLookup(old(State()), outcomes).emitted
    {
      match GetOrderStatus(currentOrderId, outcomes.lookupFails)
      case Ok(orderStatus) =>
        if orderStatus.status == "delivered" {
          AddMessage(Said(DeliveredNoCancel), false, Some(ErrorMessage));
        } else {
          AddMessage(Said(AskReason), false, None);
          waitingForReason := true;
        }
      case Err(error) =>
        LookupError(error);
    }

    /** The error handling shared by both lookups: code 404 and code 500. */
    method LookupError(error: ApiError)
      modifies this
      ensures error == NotFound ==>
                && State() == old(State()).(waitingForOrderId := true)
                && messages == old(messages) + [ErrorAnswer(OrderNotFound)]
      ensures error == SystemError ==>
                && State() == old(State()).(currentOrderId := "", currentIntent := NoIntent)
                && messages == old(messages) + [ErrorAnswer(LookupFailure)]
    {
      if error.Code() == 404 {
        AddMessage(Said(OrderNotFound), false, Some(ErrorMessage));
        waitingForOrderId := true;
      } else if error.Code() == 500 {
        AddMessage(Said(LookupFailure), false, Some(ErrorMessage));
        currentOrderId := "";
        currentIntent := NoIntent;
      }
    }
  }
}
