/**
 * The assistant's reply texts: `formatStatusResponse` (ChatInterface.tsx
 * lines 151-162), the cancellation receipt (line 237) and the fixed replies
 * of the turn handler.
 */
module Responses {
  import opened Text
  import opened Orders

  const GreetingText: string :=
    "Hi! I'm here to help you with your order status or cancellation requests. How can I assist you today?"
  const InvalidFormatText: string :=
    "That doesn't look like a valid order number. It should look like 'ORD-12345'. Could you double-check and enter it again?"
  const NotFoundText: string :=
    "I'm not able to find an order with that number. Could you double-check the order number? It should look like 'ORD-12345'. If you're still having trouble, I can connect you with a specialist."
  const LookupFailureText: string :=
    "I'm experiencing a temporary system issue while looking up your order. Let me connect you with a human agent who can assist you right away, or you can try again in a few minutes."
  const DeliveredCancelText: string :=
    "I see this order has already been delivered. For returns of delivered items, please visit our returns portal or contact our returns department directly."
  const ReasonPromptText: string :=
    "To process your cancellation, could you let me know the reason? This helps us improve our service."
  const CancelFailureText: string :=
    "I'm having trouble processing your cancellation request right now. To ensure this gets handled quickly, let me transfer you to our cancellation specialist, or you can call our direct cancellation line at 1-800-555-1234."
  const AnythingElseText: string := "Is there anything else I can help you with today?"
  const StatusIdPromptText: string :=
    "I'd be happy to check your order status! Could you please provide your order number? It usually starts with 'ORD-' followed by numbers."
  const CancelIdPromptText: string :=
    "I'd be happy to help you cancel your order. Could you please provide your order number?"
  const OutOfScopeText: string :=
    "I specialize in helping with order status and cancellations. For questions about other topics, I'd recommend reaching out to our support team. However, I'm here if you need help checking on an order or processing a cancellation!"

  const Processing: string := "Your order is being prepared in our warehouse"
  const Shipped: string := "Great news! Your order is on its way"
  const Delivered: string := "Your order has been delivered"
  const StatusUpdated: string := "Your order status has been updated"

  /** The lead sentence for a status, with the generic one for any other status. */
  function StatusLead(status: string): (r: string)
    ensures r == Processing <==> status == "processing"
    ensures r == Shipped <==> status == "shipped"
    ensures r == Delivered <==> status == "delivered"
    ensures r == StatusUpdated <==> status !in {"processing", "shipped", "delivered"}
  {
    if status == "processing" then Processing
    else if status == "shipped" then Shipped
    else if status == "delivered" then Delivered
    else StatusUpdated
  }

  /** `${item.name} (${item.quantity}x)`. */
  function ItemLabel(item: Item): string {
    item.name + " (" + NatToString(item.quantity) + "x)"
  }

  /** The item labels joined by ", ". */
  function ItemsText(items: seq<Item>): string {
    Join(seq(|items|, i requires 0 <= i < |items| => ItemLabel(items[i])), ", ")
  }

  /** Every item of the order is listed in the items text. */
  lemma ItemsListed(items: seq<Item>, i: nat)
    requires i < |items|
    ensures Contains(ItemsText(items), ItemLabel(items[i]))
  {
    JoinContainsParts(seq(|items|, j requires 0 <= j < |items| => ItemLabel(items[j])), ", ", i);
  }

  /** The delivered status shows the eta verbatim; any other says when it should arrive. */
  function Arrival(orderStatus: OrderStatus): string {
    if orderStatus.status == "delivered" then orderStatus.eta else "should arrive by " + orderStatus.eta
  }

  /** What opens a status reply: the lead sentence and the order id. */
  function StatusHead(orderStatus: OrderStatus, orderId: string): string {
    StatusLead(orderStatus.status) + "! Order " + orderId + " "
  }

  const IncludesSep: string := ". This includes: "
  const ClosingQuestion: string := ". Is there anything else I can help you with today?"

  /** What closes a status reply: the items and the offer of further help. */
  function StatusTail(orderStatus: OrderStatus): string {
    IncludesSep + ItemsText(orderStatus.items) + ClosingQuestion
  }

  /**
   * `formatStatusResponse`: the lead sentence of the status and the order id,
   * then for a delivered order the eta as it stands and for any other
   * `should arrive by` and the eta, then the items and the closing question.
   */
  function FormatStatusResponse(orderStatus: OrderStatus, orderId: string): (r: string)
    ensures StatusHead(orderStatus, orderId) <= r
    ensures |r| >= |StatusTail(orderStatus)| && r[|r| - |StatusTail(orderStatus)|..] == StatusTail(orderStatus)
    ensures orderStatus.status == "delivered" ==>
              r == StatusHead(orderStatus, orderId) + orderStatus.eta + StatusTail(orderStatus)
    ensures orderStatus.status != "delivered" ==>
              r == StatusHead(orderStatus, orderId) + ("should arrive by " + orderStatus.eta) + StatusTail(orderStatus)
  {
    var r := StatusLead(orderStatus.status) + "! Order " + orderId + " " + Arrival(orderStatus)
      + IncludesSep + ItemsText(orderStatus.items) + ClosingQuestion;
    FormatParts(orderStatus, orderId, r);
    r
  }

  lemma FormatParts(orderStatus: OrderStatus, orderId: string, r: string)
    requires r == StatusLead(orderStatus.status) + "! Order " + orderId + " " + Arrival(orderStatus)
      + IncludesSep + ItemsText(orderStatus.items) + ClosingQuestion
    ensures r == StatusHead(orderStatus, orderId) + Arrival(orderStatus) + StatusTail(orderStatus)
    ensures StatusHead(orderStatus, orderId) <= r
    ensures |r| >= |StatusTail(orderStatus)| && r[|r| - |StatusTail(orderStatus)|..] == StatusTail(orderStatus)
  {
    Regroup(StatusLead(orderStatus.status), "! Order ", orderId, " ", Arrival(orderStatus),
      IncludesSep, ItemsText(orderStatus.items), ClosingQuestion);
    var head, arrival, tail := StatusHead(orderStatus, orderId), Arrival(orderStatus), StatusTail(orderStatus);
    assert r[..|head|] == head;
    assert r[|head| + |arrival|..] == tail;
  }

  lemma Regroup(a: string, b: string, c: string, d: string, e: string, f: string, g: string, h: string)
    ensures a + b + c + d + e + f + g + h == (a + b + c + d) + e + (f + g + h)
  {
  }

  /** A status reply names the order it is about. */
  lemma StatusReplyNamesOrder(orderStatus: OrderStatus, orderId: string)
    ensures Contains(FormatStatusResponse(orderStatus, orderId), orderId)
  {
    var r := FormatStatusResponse(orderStatus, orderId);
    var lead := StatusLead(orderStatus.status) + "! Order ";
    var rest := " " + Arrival(orderStatus) + StatusTail(orderStatus);
    FormatParts(orderStatus, orderId, r);
    Regroup3(lead, orderId, " ", Arrival(orderStatus), StatusTail(orderStatus));
    ContainsSelf(orderId);
    ContainsInContext(lead, orderId, rest, orderId);
  }

  /** A status reply lists every item of the order. */
  lemma StatusReplyListsItems(orderStatus: OrderStatus, orderId: string, i: nat)
    requires i < |orderStatus.items|
    ensures Contains(FormatStatusResponse(orderStatus, orderId), ItemLabel(orderStatus.items[i]))
  {
    var r := FormatStatusResponse(orderStatus, orderId);
    var items := ItemsText(orderStatus.items);
    var before := StatusHead(orderStatus, orderId) + Arrival(orderStatus) + IncludesSep;
    FormatParts(orderStatus, orderId, r);
    Regroup4(StatusHead(orderStatus, orderId), Arrival(orderStatus), IncludesSep, items, ClosingQuestion);
    ItemsListed(orderStatus.items, i);
    ContainsInContext(before, items, ClosingQuestion, ItemLabel(orderStatus.items[i]));
  }

  lemma Regroup3(a: string, b: string, c: string, d: string, e: string)
    ensures a + b + c + d + e == a + b + (c + d + e)
  {
  }

  lemma Regroup4(a: string, b: string, c: string, d: string, e: string)
    ensures a + b + (c + d + e) == (a + b + c) + d + e
  {
  }

  /** The reply for delivered order ORD-11111 carries its eta alone, without `should arrive by`. */
  lemma DeliveredReply()
    ensures var rec := MockOrders["ORD-11111"];
            FormatStatusResponse(rec, "ORD-11111")
            == StatusHead(rec, "ORD-11111") + "Delivered on 2025-06-18" + StatusTail(rec)
    ensures Contains(FormatStatusResponse(MockOrders["ORD-11111"], "ORD-11111"), "Delivered on 2025-06-18")
  {
    var rec := MockOrders["ORD-11111"];
    assert rec.status == "delivered" && rec.eta == "Delivered on 2025-06-18";
    ContainsSelf(rec.eta);
    ContainsInContext(StatusHead(rec, "ORD-11111"), rec.eta, StatusTail(rec), rec.eta);
  }

  const ReceiptLead: string :=
    "Thank you for sharing your reason for cancellation. Your feedback helps us improve our service.\n\nYour cancellation has been processed successfully.\n"

  /** The text of a successful cancellation, carrying the return id and the instructions. */
  function CancellationReply(result: CancellationResult): (r: string)
    ensures Contains(r, "Return ID: " + result.returnId + ".")
    ensures Contains(r, result.instructions)
  {
    var receipt := "Return ID: " + result.returnId + ".";
    ReceiptParts(ReceiptLead, receipt, result.instructions);
    ReceiptLead + receipt + "\n" + result.instructions
  }

  lemma ReceiptParts(lead: string, receipt: string, instructions: string)
    ensures Contains(lead + receipt + "\n" + instructions, receipt)
    ensures Contains(lead + receipt + "\n" + instructions, instructions)
  {
    var r := lead + receipt + "\n" + instructions;
    ContainsSelf(receipt);
    ContainsInContext(lead, receipt, "\n" + instructions, receipt);
    assert r == lead + receipt + ("\n" + instructions);
    ContainsSelf(instructions);
    ContainsInContext(lead + receipt + "\n", instructions, "", instructions);
    assert r == lead + receipt + "\n" + instructions + "";
  }

  /** The failed-cancellation reply gives the phone line. */
  lemma CancelFailureGivesPhone()
    ensures Contains(CancelFailureText, "1-800-555-1234")
  {
    assert CancelFailureText[204..218] == "1-800-555-1234";
    ContainsWitness(CancelFailureText, "1-800-555-1234", 204);
  }

  /**
   * What the assistant says in a log entry: one of the fixed replies, a
   * status report or a cancellation receipt. The log records the reply, and
   * `Wording` gives the text the user sees.
   */
  datatype Reply =
    | Greeting
    | InvalidFormat
    | OrderNotFound
    | LookupFailure
    | DeliveredNoCancel
    | AskReason
    | CancelFailure
    | AnythingElse
    | AskStatusOrderId
    | AskCancelOrderId
    | OutOfScope
    | StatusReport(orderStatus: OrderStatus, orderId: string)
    | CancellationReceipt(result: CancellationResult)
  {
    function Wording(): string {
      match this
      case Greeting => GreetingText
      case InvalidFormat => InvalidFormatText
      case OrderNotFound => NotFoundText
      case LookupFailure => LookupFailureText
      case DeliveredNoCancel => DeliveredCancelText
      case AskReason => ReasonPromptText
      case CancelFailure => CancelFailureText
      case AnythingElse => AnythingElseText
      case AskStatusOrderId => StatusIdPromptText
      case AskCancelOrderId => CancelIdPromptText
      case OutOfScope => OutOfScopeText
      case StatusReport(orderStatus, orderId) => FormatStatusResponse(orderStatus, orderId)
      case CancellationReceipt(result) => CancellationReply(result)
    }
  }
}
