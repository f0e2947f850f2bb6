/**
 * Whole conversations over the fixed order table, as consequences of the
 * general lemmas of `Dialogue`: a status lookup answering an awaited order
 * id, a full cancellation, and the two requests about the delivered order.
 */
module Scenarios {
  import opened Wrappers
  import opened Text
  import opened OrderIds
  import opened Intents
  import opened Orders
  import opened Responses
  import opened Dialogue

  // ---- the texts of the requests ----------------------------------------

  /** A request of the form `<word>ORD-<digits>` is kept as it is by trimming. */
  lemma TrimRequest(word: string, digits: string)
    requires |digits| == 5 && forall c :: c in digits ==> IsDigit(c)
    requires word != [] && !IsWhiteSpace(word[0])
    ensures Trim(word + "ORD-" + digits) == word + "ORD-" + digits
  {
    var text := word + "ORD-" + digits;
    assert text[0] == word[0];
    assert text[|text| - 1] == digits[4] && digits[4] in digits;
    TrimUnchanged(text);
  }

  /** It lower-cases to `<word>ord-<digits>`. */
  lemma LowerRequest(word: string, digits: string)
    requires forall c :: c in digits ==> IsDigit(c)
    requires forall c :: c in word ==> !IsUpper(c)
    ensures ToLower(word + "ORD-" + digits) == word + "ord-" + digits
  {
    LowerIdentity(word);
    LowerIdentity(digits);
    assert ToLower("ORD-") == "ord-";
    LowerAppend(word, "ORD-");
    LowerAppend(word + "ORD-", digits);
  }

  /** It yields the order id `ORD-<digits>`. */
  lemma ExtractRequest(word: string, digits: string)
    requires |digits| == 5 && forall c :: c in digits ==> IsDigit(c)
    requires forall c :: c in word ==> !IsDigit(c)
    ensures ExtractOrderId(word + "ORD-" + digits) == Some("ORD-" + digits)
  {
    FirstRunAfterNonDigits(word + "ORD-", digits, "");
    assert word + "ORD-" + digits + "" == word + "ORD-" + digits;
  }

  lemma StatusIntent(text: string, lower: string)
    requires ToLower(text) == lower && MentionsStatus(lower)
    ensures DetectIntent(text) == Status
  {
  }

  lemma CancelIntent(text: string, lower: string)
    requires ToLower(text) == lower && !MentionsStatus(lower) && MentionsCancel(lower)
    ensures DetectIntent(text) == Cancel
  {
  }

  /** No status keyword occurs in `<word>ord-<digits>` when none of w, s, t and v does. */
  lemma NoStatusKeyword(word: string, digits: string)
    requires forall c :: c in digits ==> IsDigit(c)
    requires 'w' !in word && 's' !in word && 't' !in word && 'v' !in word
    ensures !MentionsStatus(word + "ord-" + digits)
  {
    var lower := word + "ord-" + digits;
    assert 'w' !in lower && 's' !in lower && 't' !in lower && 'v' !in lower;
    MissingChar(lower, "where", 'w');
    MissingChar(lower, "status", 's');
    MissingChar(lower, "track", 't');
    MissingChar(lower, "delivery", 'v');
  }

  /** A text that starts with `word` contains it. */
  lemma StartsWith(word: string, rest: string)
    ensures Contains(word + rest, word)
  {
    assert (word + rest)[0..|word|] == word;
    ContainsWitness(word + rest, word, 0);
  }

  /** `cancel ORD-<digits>` is a cancellation request. */
  lemma CancelRequest(digits: string)
    requires forall c :: c in digits ==> IsDigit(c)
    ensures DetectIntent("cancel " + "ORD-" + digits) == Cancel
  {
    LowerRequest("cancel ", digits);
    NoStatusKeyword("cancel ", digits);
    StartsWith("cancel", " " + "ord-" + digits);
    assert "cancel" + (" " + "ord-" + digits) == "cancel " + "ord-" + digits;
    CancelIntent("cancel " + "ORD-" + digits, "cancel " + "ord-" + digits);
  }

  /** `status ORD-<digits>` is a status request. */
  lemma StatusRequest(digits: string)
    requires forall c :: c in digits ==> IsDigit(c)
    ensures DetectIntent("status " + "ORD-" + digits) == Status
  {
    LowerRequest("status ", digits);
    StartsWith("status", " " + "ord-" + digits);
    assert "status" + (" " + "ord-" + digits) == "status " + "ord-" + digits;
    StatusIntent("status " + "ORD-" + digits, "status " + "ord-" + digits);
  }

  // ---- turns ------------------------------------------------------------

  /** A fresh cancellation request naming an undelivered known order asks for the reason and awaits it. */
  lemma CancelRequestTurn(s: SessionState, o: Outcomes, text: string, id: string)
    requires Invariant(s) && IsFresh(s) && !o.lookupFails
    requires id in MockOrders && id != "ORD-11111"
    requires Trim(text) == text && text != [] && DetectIntent(text) == Cancel && ExtractOrderId(text) == Some(id)
    ensures Step(s, text, o)
            == Transition(s.(currentIntent := Cancel, currentOrderId := id, waitingForReason := true),
                 [UserMessage(text), Answer(AskReason)])
  {
    FreshLookup(s, text, o, id);
    CancelLookupOutcomes(s.(currentIntent := Cancel, currentOrderId := id), o);
  }

  /** A fresh request to cancel the delivered order gets the returns error and leaves no slot pending. */
  lemma DeliveredCancelTurn(s: SessionState, o: Outcomes, text: string)
    requires Invariant(s) && IsFresh(s) && !o.lookupFails
    requires Trim(text) == text && text != [] && DetectIntent(text) == Cancel && ExtractOrderId(text) == Some("ORD-11111")
    ensures Step(s, text, o)
            == Transition(s.(currentIntent := Cancel, currentOrderId := "ORD-11111"),
                 [UserMessage(text), ErrorAnswer(DeliveredNoCancel)])
  {
    FreshLookup(s, text, o, "ORD-11111");
    CancelLookupOutcomes(s.(currentIntent := Cancel, currentOrderId := "ORD-11111"), o);
  }

  /** A fresh status request naming a known order gets its report. */
  lemma StatusRequestTurn(s: SessionState, o: Outcomes, text: string, id: string)
    requires Invariant(s) && IsFresh(s) && !o.lookupFails && id in MockOrders
    requires Trim(text) == text && text != [] && DetectIntent(text) == Status && ExtractOrderId(text) == Some(id)
    ensures Step(s, text, o)
            == Transition(s.(currentIntent := Status, currentOrderId := id),
                 [UserMessage(text), SuccessAnswer(StatusReport(MockOrders[id], id))])
  {
    FreshLookup(s, text, o, id);
    StatusLookupOutcomes(s.(currentIntent := Status, currentOrderId := id), o);
  }

  // ---- the conversations ------------------------------------------------

  /**
   * With a status order id awaited, `ORD-12345` gets exactly one reply: the
   * success report of that order (which names it, by `StatusReplyNamesOrder`);
   * the wait ends.
   */
  lemma AwaitedStatusId(s: SessionState, o: Outcomes)
    requires Invariant(s) && s.waitingForOrderId && s.currentIntent == Status && !o.lookupFails
    ensures var t := Step(s, "ORD-12345", o);
      && t.next == s.(currentOrderId := "ORD-12345", waitingForOrderId := false)
      && t.emitted == [UserMessage("ORD-12345"), SuccessAnswer(StatusReport(MockOrders["ORD-12345"], "ORD-12345"))]
  {
    assert "ORD-12345"[8] == '5';
    TrimUnchanged("ORD-12345");
    ExtractPrefixed();
    KnownOrders();
    AwaitingOrderIdAccepts(s, "ORD-12345", o, "ORD-12345");
    StatusLookupOutcomes(s.(currentOrderId := "ORD-12345", waitingForOrderId := false), o);
  }

  /**
   * A cancellation from the start: a request naming a known, undelivered
   * order, then any non-blank reason. The reason is asked for, then the
   * receipt and the closing question follow, and every field is back where
   * the conversation started.
   */
  lemma CancelConversation(o1: Outcomes, o2: Outcomes, request: string, id: string, reason: string)
    requires !o1.lookupFails && !o2.cancelFails
    requires Trim(request) == request && request != [] && DetectIntent(request) == Cancel
    requires ExtractOrderId(request) == Some(id) && id in MockOrders && id != "ORD-11111"
    requires !IsBlank(reason)
    ensures var run := Run(Initial, [Input(request, o1), Input(reason, o2)]);
      && run.next == Initial
      && run.emitted == [
           UserMessage(request), Answer(AskReason),
           UserMessage(Trim(reason)),
           SuccessAnswer(CancellationReceipt(CancellationResult(ReturnId(o2.returnNumber), CancellationInstructions))),
           Answer(AnythingElse)]
  {
    var s1 := SessionState(false, true, id, Cancel);
    var first := Transition(s1, [UserMessage(request), Answer(AskReason)]);
    var receipt := SuccessAnswer(CancellationReceipt(CancellationResult(ReturnId(o2.returnNumber), CancellationInstructions)));
    var second := Transition(Initial, [UserMessage(Trim(reason)), receipt, Answer(AnythingElse)]);
    CancelRequestTurn(Initial, o1, request, id);
    ReasonClosesCancellation(id, reason, o2);
    RunTwoTurns(Initial, Input(request, o1), Input(reason, o2), first, second);
    Concat(UserMessage(request), Answer(AskReason), UserMessage(Trim(reason)), receipt, Answer(AnythingElse));
  }

  lemma Concat<T>(a: T, b: T, c: T, d: T, e: T)
    ensures [a, b] + [c, d, e] == [a, b, c, d, e]
  {
  }

  /** The reason for a pending cancellation of a known, undelivered order closes it and resets every field. */
  lemma ReasonClosesCancellation(id: string, reason: string, o: Outcomes)
    requires id in MockOrders && id != "ORD-11111" && !IsBlank(reason) && !o.cancelFails
    ensures Step(SessionState(false, true, id, Cancel), reason, o)
            == Transition(Initial, [
                 UserMessage(Trim(reason)),
                 SuccessAnswer(CancellationReceipt(CancellationResult(ReturnId(o.returnNumber), CancellationInstructions))),
                 Answer(AnythingElse)])
  {
    KnownOrders();
    OnlyOneDelivered(id);
    ReasonTurn(SessionState(false, true, id, Cancel), reason, o);
  }

  /** `cancel ORD-67890` then `wrong size` meets the premises of `CancelConversation`. */
  lemma CancelExample()
    ensures Trim("cancel ORD-67890") == "cancel ORD-67890"
    ensures DetectIntent("cancel ORD-67890") == Cancel
    ensures ExtractOrderId("cancel ORD-67890") == Some("ORD-67890")
    ensures "ORD-67890" in MockOrders && "ORD-67890" != "ORD-11111"
  {
    assert "cancel " + "ORD-" + "67890" == "cancel ORD-67890";
    assert "ORD-" + "67890" == "ORD-67890";
    TrimRequest("cancel ", "67890");
    ExtractRequest("cancel ", "67890");
    CancelRequest("67890");
    KnownOrders();
  }

  /** The reason `wrong size` is not blank and is logged as it stands. */
  lemma WrongSizeReason()
    ensures !IsBlank("wrong size") && Trim("wrong size") == "wrong size"
  {
    assert "wrong size"[9] == 'e';
    TrimUnchanged("wrong size");
  }

  /** A conversation of two turns is the first turn followed by the second. */
  lemma RunTwoTurns(s: SessionState, a: Input, b: Input, first: Transition, second: Transition)
    requires Step(s, a.text, a.outcomes) == first
    requires Step(first.next, b.text, b.outcomes) == second
    ensures Run(s, [a, b]) == Transition(second.next, first.emitted + second.emitted)
  {
    assert [a, b][0] == a && [a, b][1..] == [b];
    assert [b][0] == b && [b][1..] == [];
    assert Run(first.next, [b]) == Transition(second.next, second.emitted + []);
    assert second.emitted + [] == second.emitted;
  }


  /**
   * `status ORD-11111` asks about the delivered order: the report gives the
   * delivery date as it stands, with no `should arrive by` around it.
   */
  lemma StatusOfDeliveredOrder(s: SessionState, o: Outcomes)
    requires Invariant(s) && IsFresh(s) && !o.lookupFails
    ensures var t := Step(s, "status ORD-11111", o);
      var rec := MockOrders["ORD-11111"];
      && t.next == s.(currentIntent := Status, currentOrderId := "ORD-11111")
      && t.emitted == [UserMessage("status ORD-11111"), SuccessAnswer(StatusReport(rec, "ORD-11111"))]
      && FormatStatusResponse(rec, "ORD-11111") == StatusHead(rec, "ORD-11111") + "Delivered on 2025-06-18" + StatusTail(rec)
  {
    assert "status " + "ORD-" + "11111" == "status ORD-11111";
    assert "ORD-" + "11111" == "ORD-11111";
    TrimRequest("status ", "11111");
    ExtractRequest("status ", "11111");
    StatusRequest("11111");
    KnownOrders();
    StatusRequestTurn(s, o, "status ORD-11111", "ORD-11111");
    DeliveredReply();
  }

  /**
   * `cancel ORD-11111` asks to cancel the delivered order: one error pointing
   * to returns, no reason prompt, and no slot pending afterwards.
   */
  lemma CancelDeliveredOrder(s: SessionState, o: Outcomes)
    requires Invariant(s) && IsFresh(s) && !o.lookupFails
    ensures var t := Step(s, "cancel ORD-11111", o);
      && t.next == s.(currentIntent := Cancel, currentOrderId := "ORD-11111")
      && t.emitted == [UserMessage("cancel ORD-11111"), ErrorAnswer(DeliveredNoCancel)]
      && !t.next.waitingForOrderId && !t.next.waitingForReason
  {
    assert "cancel " + "ORD-" + "11111" == "cancel ORD-11111";
    assert "ORD-" + "11111" == "ORD-11111";
    TrimRequest("cancel ", "11111");
    ExtractRequest("cancel ", "11111");
    CancelRequest("11111");
    DeliveredCancelTurn(s, o, "cancel ORD-11111");
  }
}
