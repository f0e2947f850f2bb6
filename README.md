# Order-assistant dialogue engine, in Dafny

This project models the scripted dialogue engine of the order assistant's chat
component (`src/components/ChatInterface.tsx`). The assistant handles two
intents, order-status lookup and order cancellation. It works by keyword
matching and slot filling.

The model has these parts:

- **String helpers** (`Text`): ASCII case mapping, `includes`, `trim`,
  decimal rendering of numbers and `join`.
- **Order identifiers** (`OrderIds`): the canonical-form check
  `isValidOrderId` and the regex search of `extractOrderId`. The search is
  modelled as the regex engine's leftmost scan with the greedy optional
  `ORD-` prefix.
- **Intent detection** (`Intents`): `detectIntent`, with the status keywords
  tested before the cancellation keywords.
- **The mock order service** (`Orders`): the three-order table of
  `getOrderStatus`, and `cancelOrder`. Each `Math.random` draw is a
  parameter instead: whether the simulated system error (code 500) fires,
  and the number in `RET-<n>`.
- **Reply texts** (`Responses`): `formatStatusResponse`, the cancellation
  receipt and every fixed reply of the handler.
- **The turn as a transition** (`Dialogue`): the four conversation fields
  `waitingForOrderId`, `waitingForReason`, `currentOrderId` and
  `currentIntent` as a value. One call of `handleSendMessage` is a function
  `Step` from the fields, the typed text and the turn's `Outcomes` to the new
  fields and the messages appended to the log. The state invariant and the
  behaviour of every branch are proved about `Step` and about `Run`, a
  sequence of turns.
- **The component** (`Chat.Session`): a class with the message log
  (`seq<Message>`) and the four fields. `HandleSendMessage` updates them in
  place, keeping the branch layout of the source. Each method is proved equal
  to the matching part of the transition, and `Dialogue.StepCases` joins the
  parts into `Step`, so every lemma of `Dialogue` holds of the object.
- **Scenarios** (`Scenarios`): whole conversations over the fixed table, each
  derived from the general lemmas.

Some facts about the code shaped the model:

- `extractOrderId` always yields `ORD-` followed by five digits, so it always
  passes `isValidOrderId`. The "extracted but invalid" branches of the fresh
  turn (lines 263-267 and 299-303) can never run. The method keeps the source
  check as a proved `assert`, and the transition leaves those branches out.
  Extraction and validation look like separate checks, but in this code
  they never disagree.
- While an order id is awaited, the handler falls back to the upper-cased
  text when nothing is extracted. That fallback never passes validation
  (`OrderIds.UpperFallbackInvalid`). So the format error comes exactly when
  the text holds no five consecutive digits.
- A successful status lookup keeps `currentIntent` and `currentOrderId`, and
  so does the returns error for a delivered order. The code resets nothing
  there, so the model resets nothing either.
- A system error while submitting a cancellation reason keeps the intent and
  the order id. A system error during a lookup clears both. The model keeps
  this asymmetry as written.
- Nothing in the code blocks input while the assistant is "typing". Each turn
  is modelled as atomic, with no gating between turns.
- The mock service throws only codes 404 and 500. So the generic
  "Sorry, something went wrong" branches can never run, and they are not
  modelled.

## Model

| member | source | states |
|---|---|---|
| `Text.Trim` | src/components/ChatInterface.tsx:165-167 | `trim` leaves nothing exactly when the input is all white space |
| `Text.TrimShape` | src/components/ChatInterface.tsx:165-167 | the trimmed text is the infix of the input left once the white space at both ends is dropped, and it neither starts nor ends with white space |
| `Text.ParseNatToString` | src/components/ChatInterface.tsx:101 | the decimal rendering of a number reads back as that number |
| `Text.NatToStringLength` | src/components/ChatInterface.tsx:101 | a number below 10^k is rendered with at most k digits |
| `Text.JoinContainsParts` | src/components/ChatInterface.tsx:159 | every part occurs in the text that `join` builds |
| `Text.LowerOfUpper` | src/components/ChatInterface.tsx:125 | lower-casing after upper-casing gives the same text as lower-casing alone |
| `Text.ToLower` | src/components/ChatInterface.tsx:125 | definition of `toLowerCase` on ASCII letters, character by character; `LowerOfUpper` and `LowerOccurs` state its properties |
| `Text.ToUpper` | src/components/ChatInterface.tsx:173 | definition of `toUpperCase` on ASCII letters, character by character; `UpperFallbackInvalid` and `ExtractCaseInsensitive` state what the handler relies on |
| `Text.Contains` | src/components/ChatInterface.tsx:127-136 | definition of `includes`; `ContainsInContext`, `MissingChar` and `JoinContainsParts` state its properties |
| `Text.Join` | src/components/ChatInterface.tsx:159 | definition of `join`; `JoinContainsParts` states its properties |
| `Text.NatToString` | src/components/ChatInterface.tsx:101 | decimal rendering: non-empty, all digits, no leading zero; `ParseNatToString` and `NatToStringLength` are its partners |
| `OrderIds.IsValidOrderId` | src/components/ChatInterface.tsx:52 | definition of `/^ORD-\d{5}$/`; `ExtractOrderId`, `ExtractCanonical` and `UpperFallbackInvalid` state its properties |
| `OrderIds.MatchAt` | src/components/ChatInterface.tsx:144 | one regex attempt at index p captures five digits at p or, after a case-insensitive `ORD-`, at p+4, and fails exactly when neither is there |
| `OrderIds.Search` | src/components/ChatInterface.tsx:144 | the leftmost match captures the first run of five digits at or after the start, and there is no match exactly when no such run exists |
| `OrderIds.ExtractOrderId` | src/components/ChatInterface.tsx:143-149 | an id is extracted exactly when the text holds five consecutive digits; it is `ORD-` plus the first such run, and it always passes `isValidOrderId` |
| `OrderIds.UpperFallbackInvalid` | src/components/ChatInterface.tsx:173-175 | the upper-cased fallback of a text without five consecutive digits never passes `isValidOrderId` |
| `OrderIds.ExtractCaseInsensitive` | src/components/ChatInterface.tsx:144 | upper-casing a message does not change the extracted id |
| `OrderIds.ExtractCanonical` | src/components/ChatInterface.tsx:52 | a canonical id is extracted as itself |
| `OrderIds.FirstRunAfterNonDigits` | src/components/ChatInterface.tsx:143-149 | five digits with no digit before them are the extracted id, whatever follows |
| `OrderIds.ExtractPrefixed` | src/components/ChatInterface.tsx:143-149 | `ORD-12345` yields `ORD-12345` |
| `OrderIds.ExtractBareDigits` | src/components/ChatInterface.tsx:143-149 | `12345` yields `ORD-12345` |
| `OrderIds.ExtractFromSentence` | src/components/ChatInterface.tsx:143-149 | `order 12345 please` yields `ORD-12345` |
| `OrderIds.ExtractTruncatesLongRun` | src/components/ChatInterface.tsx:143-149 | a six-digit run after a lower-case prefix is cut to its first five digits |
| `Intents.DetectIntent` | src/components/ChatInterface.tsx:124-141 | status exactly when the lower-cased text has ("where" and "order") or "status", "track" or "delivery"; cancel exactly when it has none of those but "cancel", "return" or "refund"; no intent otherwise |
| `Intents.StatusWins` | src/components/ChatInterface.tsx:127-137 | when both keyword sets occur, the intent is status |
| `Intents.DetectIntentCaseInsensitive` | src/components/ChatInterface.tsx:125 | upper-casing a message does not change its intent |
| `Intents.DetectWhereIsMyOrder` | src/components/ChatInterface.tsx:127-131 | "Where is my order?" is a status request |
| `Intents.DetectRefund` | src/components/ChatInterface.tsx:134-137 | "I want a refund" is a cancellation request |
| `Intents.DetectHello` | src/components/ChatInterface.tsx:140 | "hello" has no intent |
| `Orders.GetOrderStatus` | src/components/ChatInterface.tsx:55-90 | a system error comes exactly when it is drawn, before the table is consulted; otherwise a known id yields its record and any other id yields not-found |
| `Orders.CancelOrder` | src/components/ChatInterface.tsx:92-104 | fails with the system error exactly when it is drawn; otherwise returns `RET-<n>` and the fixed instructions |
| `Orders.KnownOrders` | src/components/ChatInterface.tsx:66-82 | the table `MockOrders` holds exactly ORD-12345, ORD-67890 and ORD-11111, all canonical ids |
| `Orders.NotFoundExactly` | src/components/ChatInterface.tsx:83-89 | without a system error, not-found is returned for every id except the three known ones |
| `Orders.OnlyOneDelivered` | src/components/ChatInterface.tsx:66-82 | of the known orders only ORD-11111 is delivered |
| `Orders.ReturnId` | src/components/ChatInterface.tsx:101 | definition of `RET-${n}`; `ReturnIdShape` states its properties |
| `Orders.ReturnIdShape` | src/components/ChatInterface.tsx:101 | a return id is `RET-` and one to five digits, and the digits read back as the drawn number |
| `Responses.StatusLead` | src/components/ChatInterface.tsx:152-158 | each of processing, shipped and delivered gets its own lead sentence, and any other status gets the generic one |
| `Responses.FormatStatusResponse` | src/components/ChatInterface.tsx:151-162 | the reply opens with the lead sentence, `! Order ` and the id; then comes the eta verbatim for a delivered order and `should arrive by ` plus the eta otherwise; it closes with the items and the closing question |
| `Responses.ItemLabel` | src/components/ChatInterface.tsx:159 | definition of `${name} (${quantity}x)` |
| `Responses.ItemsText` | src/components/ChatInterface.tsx:159 | definition of the labels joined by ", "; `ItemsListed` states its property |
| `Responses.ItemsListed` | src/components/ChatInterface.tsx:159 | every item's `name (qx)` label occurs in the items text |
| `Responses.StatusReplyNamesOrder` | src/components/ChatInterface.tsx:161 | a status reply contains the order id |
| `Responses.StatusReplyListsItems` | src/components/ChatInterface.tsx:159-161 | a status reply lists every item of the order |
| `Responses.DeliveredReply` | src/components/ChatInterface.tsx:77-81 | the reply for ORD-11111 carries "Delivered on 2025-06-18" with no `should arrive by` |
| `Responses.CancellationReply` | src/components/ChatInterface.tsx:237 | the receipt contains `Return ID: <id>.` and the instructions |
| `Responses.CancelFailureGivesPhone` | src/components/ChatInterface.tsx:247 | the failed-cancellation reply gives the phone line 1-800-555-1234 |
| `Dialogue.Invariant` | src/components/ChatInterface.tsx:37-40 | definition of the state invariant; `InitialInvariant`, `StepPreservesInvariant` and `RunPreservesInvariant` state that it holds |
| `Dialogue.StatusLookup` | src/components/ChatInterface.tsx:184-202 | definition of the status lookup, shared with lines 270-288; `StatusLookupOutcomes` states its behaviour |
| `Dialogue.CancelLookup` | src/components/ChatInterface.tsx:204-227 | definition of the check before a cancellation, shared with lines 306-329; `CancelLookupOutcomes` states its behaviour |
| `Dialogue.Proceed` | src/components/ChatInterface.tsx:183-228 | definition of the lookup for the current intent; `ProceedReplies` and `ProceedPreservesInvariant` state its properties |
| `Dialogue.SubmitReason` | src/components/ChatInterface.tsx:232-254 | definition of the reason turn; `ReasonTurn` states its behaviour |
| `Dialogue.FreshTurn` | src/components/ChatInterface.tsx:256-341 | definition of a turn with no slot pending; `OutOfScopeTurn`, `AsksForOrderId` and `FreshLookup` state its behaviour |
| `Dialogue.Respond` | src/components/ChatInterface.tsx:172-341 | definition of the handler past logging the text; `RespondPreservesInvariant`, `RespondReplies` and `RespondSaysOnly` state its properties |
| `Dialogue.Step` | src/components/ChatInterface.tsx:164-342 | definition of one turn; `StepCases`, `BlankTurn`, `UserMessageFirst` and `StepLogsText` state its properties |
| `Dialogue.Run` | src/components/ChatInterface.tsx:164-342 | definition of a sequence of turns; `RunPreservesInvariant` and `RunLogsSentTexts` state its properties |
| `Dialogue.InitialInvariant` | src/components/ChatInterface.tsx:37-40 | the initial fields satisfy the state invariant |
| `Dialogue.StepPreservesInvariant` | src/components/ChatInterface.tsx:164-342 | every turn keeps the invariant: a pending reason means a non-empty, known and undelivered order id, the cancel intent and no pending order id; a pending order id means an intent; a stored order id is canonical |
| `Dialogue.RespondPreservesInvariant` | src/components/ChatInterface.tsx:172-341 | each of the three branches of a non-blank turn keeps the invariant |
| `Dialogue.ProceedPreservesInvariant` | src/components/ChatInterface.tsx:183-227 | a lookup of a canonical id, with an intent and no slot pending, leaves a state that keeps the invariant |
| `Dialogue.RunPreservesInvariant` | src/components/ChatInterface.tsx:164-342 | any sequence of turns keeps the invariant |
| `Dialogue.RespondReplies` | src/components/ChatInterface.tsx:172-341 | under the invariant a non-blank text gets one or two assistant replies, and two exactly when it is the reason of a cancellation that succeeds |
| `Dialogue.ProceedReplies` | src/components/ChatInterface.tsx:183-227 | a lookup gives exactly one reply, never the format error |
| `Dialogue.BlankTurn` | src/components/ChatInterface.tsx:165 | a blank text changes nothing, and only a blank text appends nothing |
| `Dialogue.StepCases` | src/components/ChatInterface.tsx:164-168 | a turn on a blank text is the identity; on any other it logs the trimmed text and then acts as `Respond`, which connects `Step` to `Chat.Session.HandleSendMessage` |
| `Dialogue.RespondSaysOnly` | src/components/ChatInterface.tsx:172-341 | everything the handler appends after the user's text is an assistant reply |
| `Dialogue.ProceedSaysOnly` | src/components/ChatInterface.tsx:183-227 | a lookup appends only assistant replies |
| `Dialogue.UserMessageFirst` | src/components/ChatInterface.tsx:164-168 | a non-blank turn first appends its trimmed text as an untyped user message, followed by one or two assistant replies |
| `Dialogue.StepLogsText` | src/components/ChatInterface.tsx:165-168 | a turn logs its trimmed text as the only user entry, or nothing for a blank text |
| `Dialogue.RunLogsSentTexts` | src/components/ChatInterface.tsx:106-115 | the log of a conversation holds every non-blank text, trimmed and in order, and no other user entry |
| `Dialogue.AwaitingOrderIdRejects` | src/components/ChatInterface.tsx:172-179 | while an order id is awaited, the turn appends exactly one format error and changes no field, and this happens exactly when the text has no five consecutive digits |
| `Dialogue.AwaitingOrderIdAccepts` | src/components/ChatInterface.tsx:172-182 | an extracted id ends the wait, is stored, and is looked up for the current intent |
| `Dialogue.RepeatedRejects` | src/components/ChatInterface.tsx:172-179 | repeated texts without an order id leave every field unchanged and append one format error each |
| `Dialogue.OutOfScopeTurn` | src/components/ChatInterface.tsx:337-340 | a fresh turn with no intent appends one deflection and changes no field |
| `Dialogue.AsksForOrderId` | src/components/ChatInterface.tsx:290-295 | a fresh turn with an intent but no id sets the intent, asks for the order number in the intent's words and awaits it |
| `Dialogue.FreshLookup` | src/components/ChatInterface.tsx:256-270 | a fresh turn with an intent and an id sets both and looks the order up at once |
| `Dialogue.StatusLookupOutcomes` | src/components/ChatInterface.tsx:183-202 | a status lookup gives the report with no field changed; not-found awaits the order id again with the intent kept; a system error clears the id and the intent |
| `Dialogue.CancelLookupOutcomes` | src/components/ChatInterface.tsx:203-227 | ORD-11111 gets the returns error and no reason prompt; any other known order gets the reason prompt and the reason is awaited; failures as for a status lookup |
| `Dialogue.StatusEntryNamesOrder` | src/components/ChatInterface.tsx:186-187 | the single entry a successful status lookup logs is an assistant success whose text contains the order id |
| `Dialogue.ReceiptEntryGivesReturnId` | src/components/ChatInterface.tsx:236-239 | a successful cancellation logs two entries, the first an assistant success whose text contains `Return ID: RET-<n>.` |
| `Dialogue.ReasonTurn` | src/components/ChatInterface.tsx:232-254 | the next text ends the reason wait; on success the receipt with `RET-<n>` and the closing question follow and the intent and id are cleared; on a system error one error follows and the intent and id are kept |
| `Chat.Session.constructor` | src/components/ChatInterface.tsx:27-40 | a new session logs the greeting alone, with nothing pending, and satisfies the invariant |
| `Chat.Session.AddMessage` | src/components/ChatInterface.tsx:106-115 | appends one entry to the log and changes no conversation field |
| `Chat.Session.HandleSendMessage` | src/components/ChatInterface.tsx:164-342 | a blank text changes nothing; any other appends the trimmed text as a user entry, then the fields and the replies are those of `Respond`; the log is only extended, and the invariant is kept |
| `Chat.Session.HandleTurn` | src/components/ChatInterface.tsx:171-254 | past the user's entry, the awaiting-order-id, awaiting-reason and fresh branches act as `Respond` |
| `Chat.Session.NewRequest` | src/components/ChatInterface.tsx:256-341 | a turn with no slot pending acts as `FreshTurn` |
| `Chat.Session.SubmitCancellation` | src/components/ChatInterface.tsx:232-254 | the reason turn acts as `SubmitReason` |
| `Chat.Session.LookUp` | src/components/ChatInterface.tsx:183-228 | the lookup for the current intent acts as `Proceed` |
| `Chat.Session.LookUpStatus` | src/components/ChatInterface.tsx:184-202 | the status lookup acts as `StatusLookup` |
| `Chat.Session.LookUpForCancellation` | src/components/ChatInterface.tsx:204-227 | the check before a cancellation acts as `CancelLookup` |
| `Chat.Session.LookupError` | src/components/ChatInterface.tsx:188-200 | code 404 appends the not-found error and awaits the order id; code 500 appends the failure reply and clears the id and the intent |
| `Scenarios.CancelRequestTurn` | src/components/ChatInterface.tsx:296-314 | a fresh request to cancel a known, undelivered order asks for the reason and awaits it |
| `Scenarios.DeliveredCancelTurn` | src/components/ChatInterface.tsx:306-310 | a fresh request to cancel ORD-11111 gets only the returns error |
| `Scenarios.StatusRequestTurn` | src/components/ChatInterface.tsx:260-273 | a fresh status request for a known order gets its report |
| `Scenarios.CancelRequest` | src/components/ChatInterface.tsx:134-137 | `cancel ORD-<digits>` is a cancellation request |
| `Scenarios.StatusRequest` | src/components/ChatInterface.tsx:127-131 | `status ORD-<digits>` is a status request |
| `Scenarios.AwaitedStatusId` | src/components/ChatInterface.tsx:172-187 | with a status id awaited, `ORD-12345` gets exactly one success report of that order and the wait ends |
| `Scenarios.CancelConversation` | src/components/ChatInterface.tsx:232-244 | a cancellation request followed by any reason gives the reason prompt, the receipt and the closing question, and returns every field to its initial value |
| `Scenarios.ReasonClosesCancellation` | src/components/ChatInterface.tsx:232-244 | with a reason awaited for a known, undelivered order, any non-blank text gets the receipt and the closing question and resets every field |
| `Scenarios.CancelExample` | src/components/ChatInterface.tsx:257-258 | `cancel ORD-67890` then `wrong size` meets the premises of `CancelConversation` |
| `Scenarios.WrongSizeReason` | src/components/ChatInterface.tsx:165-167 | the reason `wrong size` is not blank and is logged unchanged |
| `Scenarios.StatusOfDeliveredOrder` | src/components/ChatInterface.tsx:270-273 | `status ORD-11111` gets the report with the delivery date verbatim |
| `Scenarios.CancelDeliveredOrder` | src/components/ChatInterface.tsx:306-310 | `cancel ORD-11111` gets one returns error and leaves no slot pending |

## Left out

- Rendering: the JSX layout, the icon choice of `getMessageIcon`, scrolling to the newest message and the quick-reply buttons. They are presentation and contain no logic.
- Timers: the typing delay of `simulateTyping`, the `isTyping` flag, the 1 s API delays and the 500 ms delay before the closing question. Each turn is atomic, and the closing question is appended within the same turn.
- Randomness: `Math.random` is replaced by the injected `Outcomes` of a turn. These say whether a lookup or a cancellation fails with code 500, and give a return number below 100000.
- Message ids (`Date.now()`) and timestamps (`new Date()`): they are never read by the engine.
- Item prices: the float `price` of an item is never used in any reply.
- React's batched and stale-closure `setState`: setters are modelled as sequential updates that take effect by the end of the turn.
- Text handling beyond ASCII: case mapping covers ASCII letters only. The regex `\d` is taken as the ASCII digits.
- The prototype-key lookup of `statusMessages[...]`: a status such as `constructor` is not modelled as special.
- The generic "Sorry, something went wrong" branches (lines 196-200, 221-225, 248-250, 282-286, 323-327): the mock service throws only codes 404 and 500, so they cannot run.
- The input field itself (`setInputValue('')`): the typed text is a parameter of the turn.
