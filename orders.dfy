/**
 * The mock order-management service of ChatInterface.tsx: `getOrderStatus`
 * (lines 55-90) over a fixed table of three orders, and `cancelOrder`
 * (lines 92-104). The random draws of `Math.random` are parameters: whether
 * the simulated system error fires, and the number in the return id.
 */
module Orders {
  import opened Wrappers
  import opened Text
  import opened OrderIds

  /** An order line; its float `price` is never read by the engine and is left out. */
  datatype Item = Item(name: string, quantity: nat)

  datatype OrderStatus = OrderStatus(status: string, eta: string, items: seq<Item>)

  datatype CancellationResult = CancellationResult(returnId: string, instructions: string)

  /** The errors the mock service throws, with their `code` field. */
  datatype ApiError = NotFound | SystemError {
    function Code(): int {
      match this
      case NotFound => 404
      case SystemError => 500
    }
  }

  /** `Math.floor(Math.random() * 100000)`. */
  type ReturnNumber = n: nat | n < 100000

  const MockOrders: map<string, OrderStatus> := map[
    "ORD-12345" := OrderStatus("shipped", "2025-06-21 by 6:00 PM", [Item("Wireless Headphones", 1)]),
    "ORD-67890" := OrderStatus("processing", "2025-06-22 by 5:00 PM", [Item("Gaming Mouse", 1)]),
    "ORD-11111" := OrderStatus("delivered", "Delivered on 2025-06-18", [Item("Bluetooth Speaker", 1)])
  ]

  const CancellationInstructions: string :=
    "Your cancellation is confirmed. If the order has shipped, you can refuse delivery or use the prepaid return label that will be emailed to you within 2 hours."

  /**
   * `getOrderStatus`: the simulated system error is drawn before the table is
   * consulted, so it hits known and unknown ids alike; otherwise a known id
   * yields its record and any other id the not-found error.
   */
  function GetOrderStatus(orderId: string, systemFault: bool): (r: Result<OrderStatus, ApiError>)
    ensures systemFault ==> r == Err(SystemError)
    ensures !systemFault ==> (r.Ok? <==> orderId in MockOrders)
    ensures !systemFault && orderId !in MockOrders ==> r == Err(NotFound)
    ensures r.Ok? ==> orderId in MockOrders && r.value == MockOrders[orderId]
  {
    if systemFault then Err(SystemError)
    else if orderId in MockOrders then Ok(MockOrders[orderId])
    else Err(NotFound)
  }

  /** The return id `RET-<n>`. */
  function ReturnId(n: ReturnNumber): string {
    "RET-" + NatToString(n)
  }

  /**
   * `cancelOrder`: fails with the system error exactly when it is drawn;
   * otherwise returns `RET-<n>` and the fixed instructions. The order id and
   * the reason are not inspected.
   */
  function CancelOrder(orderId: string, reason: string, systemFault: bool, n: ReturnNumber)
    : (r: Result<CancellationResult, ApiError>)
    ensures r.Err? <==> systemFault
    ensures r.Err? ==> r.error == SystemError
    ensures r.Ok? ==> r.value == CancellationResult(ReturnId(n), CancellationInstructions)
  {
    if systemFault then Err(SystemError)
    else Ok(CancellationResult(ReturnId(n), CancellationInstructions))
  }

  // ---- properties -------------------------------------------------------

  /** The table knows exactly three orders, all of them canonical ids. */
  lemma KnownOrders()
    ensures MockOrders.Keys == {"ORD-12345", "ORD-67890", "ORD-11111"}
    ensures forall id :: id in MockOrders ==> IsValidOrderId(id)
  {
    ExtractCanonicalIsValid("12345");
    ExtractCanonicalIsValid("67890");
    ExtractCanonicalIsValid("11111");
    assert "ORD-" + "12345" == "ORD-12345";
    assert "ORD-" + "67890" == "ORD-67890";
    assert "ORD-" + "11111" == "ORD-11111";
  }

  lemma ExtractCanonicalIsValid(digits: string)
    requires |digits| == 5 && forall c :: c in digits ==> IsDigit(c)
    ensures IsValidOrderId("ORD-" + digits)
  {
    var id := "ORD-" + digits;
    forall k | 4 <= k < 9 ensures IsDigit(id[k]) {
      assert id[k] == digits[k - 4];
      assert digits[k - 4] in digits;
    }
    assert id[..4] == "ORD-";
  }

  /** Without a system error, the not-found error is given for every id but the three known ones. */
  lemma NotFoundExactly(orderId: string)
    ensures GetOrderStatus(orderId, false) == Err(NotFound)
            <==> orderId != "ORD-12345" && orderId != "ORD-67890" && orderId != "ORD-11111"
  {
    KnownOrders();
  }

  /** Of the known orders only ORD-11111 has been delivered. */
  lemma OnlyOneDelivered(orderId: string)
    requires orderId in MockOrders
    ensures MockOrders[orderId].status == "delivered" <==> orderId == "ORD-11111"
  {
    KnownOrders();
  }

  /** A return id is `RET-` and at most five digits, and those digits read back as `n`. */
  lemma ReturnIdShape(n: ReturnNumber)
    ensures "RET-" <= ReturnId(n)
    ensures 5 <= |ReturnId(n)| <= 9
    ensures AllDigits(ReturnId(n)[4..]) && ParseDecimal(ReturnId(n)[4..]) == n
  {
    var r := ReturnId(n);
    assert r[4..] == NatToString(n);
    ParseNatToString(n);
    assert Pow10(5) == 100000 by {
      assert Pow10(1) == 10;
      assert Pow10(2) == 100;
      assert Pow10(3) == 1000;
      assert Pow10(4) == 10000;
    }
    NatToStringLength(n, 5, 100000);
  }
}
