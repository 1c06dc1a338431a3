/** The order-execution ledger of the trading backend: a BUY or SELL request
    reads the holding stored under (instrument name, user), changes its
    quantity, creates or deletes it, and appends the order to the order log.

    `Execute` is the request as a function of the ledger's state; the class
    `Ledger` is the stateful store whose `CreateOrder` performs it in place. */
module Orders {
  import opened Seqs

  type UserId = string

  /** Prices are JavaScript numbers that the ledger only copies. */
  type Price = real

  /** The lookup key of a holding: `findOne({ name, userId })`. */
  datatype Key = Key(name: string, userId: UserId)

  datatype Holding = Holding(
    name: string,
    qty: int,
    avg: Price,
    price: Price,
    net: string,
    day: string,
    userId: UserId)

  datatype Order = Order(name: string, qty: int, price: Price, mode: string, userId: UserId)

  /** A request body (`name`, `qty`, `price`, `mode`) with the caller's id,
      `req.user.id`, set by the authentication middleware. */
  datatype Request = Request(userId: UserId, name: string, qty: int, price: Price, mode: string)

  /** `Accepted` is the `{ success: true, message: "Order saved!", data }`
      response; `Rejected` the 400 response with its message. */
  datatype Reply = Accepted(order: Order) | Rejected(message: string)

  datatype LedgerState = LedgerState(holdings: map<Key, Holding>, orders: seq<Order>)

  datatype Outcome = Outcome(state: LedgerState, reply: Reply)

  /** The initial `net` and `day` of a new holding. */
  const NoChange := "+0.00%"

  function KeyOf(o: Order): Key
  {
    Key(o.name, o.userId)
  }

  /** The order record built from the request before the mode is looked at. */
  function OrderOf(req: Request): Order
  {
    Order(req.name, req.qty, req.price, req.mode, req.userId)
  }

  function HeldQty(holdings: map<Key, Holding>, k: Key): int
  {
    if k in holdings then holdings[k].qty else 0
  }

  /** What an order of the log contributes to the quantity held under `k`. */
  function Delta(o: Order, k: Key): int
  {
    if KeyOf(o) != k then 0
    else if o.mode == "BUY" then o.qty
    else if o.mode == "SELL" then -o.qty
    else 0
  }

  /** Bought minus sold quantity for `k` over the whole log. */
  function NetQty(log: seq<Order>, k: Key): int
  {
    if log == [] then 0 else NetQty(log[..|log| - 1], k) + Delta(log[|log| - 1], k)
  }

  /** Every holding is stored under its own name and user. */
  ghost predicate KeysMatch(holdings: map<Key, Holding>)
  {
    forall k :: k in holdings ==> holdings[k].name == k.name && holdings[k].userId == k.userId
  }

  /** The quantity held under every key is what the order log bought minus
      what it sold under that key (0 when nothing is held). */
  ghost predicate Reconciled(s: LedgerState)
  {
    forall k :: HeldQty(s.holdings, k) == NetQty(s.orders, k)
  }

  ghost predicate Consistent(s: LedgerState)
  {
    KeysMatch(s.holdings) && Reconciled(s)
  }

  /** `createOrder` as a function of the ledger's state. */
  function Execute(s: LedgerState, req: Request): (o: Outcome)
    ensures o.reply.Rejected? ==> o.state == s
    ensures o.reply.Accepted? ==> o.reply.order == OrderOf(req)
    ensures o.state.orders == s.orders || o.state.orders == s.orders + [OrderOf(req)]
  {
    var order := OrderOf(req);
    var key := Key(req.name, req.userId);
    if req.mode == "BUY" then
      var h :=
        if key in s.holdings then s.holdings[key].(qty := s.holdings[key].qty + req.qty)
        else Holding(req.name, req.qty, req.price, req.price, NoChange, NoChange, req.userId);
      Outcome(LedgerState(s.holdings[key := h], s.orders + [order]), Accepted(order))
    else if req.mode == "SELL" then
      if key !in s.holdings then Outcome(s, Rejected("No holdings to sell"))
      else if req.qty > s.holdings[key].qty then Outcome(s, Rejected("Insufficient quantity"))
      else
        var left := s.holdings[key].qty - req.qty;
        var hs := if left == 0 then s.holdings - {key} else s.holdings[key := s.holdings[key].(qty := left)];
        Outcome(LedgerState(hs, s.orders + [order]), Accepted(order))
    else
      Outcome(s, Accepted(order))
  }

  /** The state after the requests, one after the other. */
  function Run(s: LedgerState, reqs: seq<Request>): LedgerState
    decreases |reqs|
  {
    if reqs == [] then s else Run(Execute(s, reqs[0]).state, reqs[1..])
  }

  /** `getAllOrders`: the caller's orders, in log order. */
  function OrdersOf(log: seq<Order>, userId: UserId): (r: seq<Order>)
    ensures |r| <= |log|
    ensures forall i :: 0 <= i < |r| ==> r[i] in log && r[i].userId == userId
  {
    var r := Filter(log, (o: Order) => o.userId == userId);
    FilterMembers(log, (o: Order) => o.userId == userId);
    assert forall i :: 0 <= i < |r| ==> r[i] in r;
    r
  }

  // ---------------------------------------------------------------------
  // BUY

  /** A BUY with nothing held under its key creates exactly one holding:
      quantity and both prices from the request, zero changes. */
  lemma BuyCreatesHolding(s: LedgerState, req: Request)
    requires req.mode == "BUY" && Key(req.name, req.userId) !in s.holdings
    ensures var r := Execute(s, req);
      && r.reply == Accepted(OrderOf(req))
      && r.state.holdings.Keys == s.holdings.Keys + {Key(req.name, req.userId)}
      && r.state.holdings[Key(req.name, req.userId)]
         == Holding(req.name, req.qty, req.price, req.price, "+0.00%", "+0.00%", req.userId)
      && r.state.orders == s.orders + [OrderOf(req)]
  {
  }

  /** A BUY on an existing holding only adds to its quantity: the average
      price, the last price and the change fields stay as they were. */
  lemma BuyAddsToHolding(s: LedgerState, req: Request)
    requires req.mode == "BUY" && Key(req.name, req.userId) in s.holdings
    ensures var k := Key(req.name, req.userId);
      var r := Execute(s, req);
      && r.reply == Accepted(OrderOf(req))
      && r.state.holdings.Keys == s.holdings.Keys
      && r.state.holdings[k].qty == s.holdings[k].qty + req.qty
      && r.state.holdings[k].avg == s.holdings[k].avg
      && r.state.holdings[k].price == s.holdings[k].price
      && r.state.holdings[k].net == s.holdings[k].net
      && r.state.holdings[k].day == s.holdings[k].day
      && r.state.orders == s.orders + [OrderOf(req)]
  {
  }

  // ---------------------------------------------------------------------
  // SELL

  /** A SELL with nothing held is rejected and changes nothing. */
  lemma SellWithoutHolding(s: LedgerState, req: Request)
    requires req.mode == "SELL" && Key(req.name, req.userId) !in s.holdings
    ensures Execute(s, req) == Outcome(s, Rejected("No holdings to sell"))
  {
  }

  /** A SELL of more than is held is rejected and changes nothing. */
  lemma SellTooMuch(s: LedgerState, req: Request)
    requires req.mode == "SELL" && Key(req.name, req.userId) in s.holdings
    requires req.qty > s.holdings[Key(req.name, req.userId)].qty
    ensures Execute(s, req) == Outcome(s, Rejected("Insufficient quantity"))
  {
  }

  /** An accepted SELL lowers the quantity; a holding that reaches zero is
      deleted, any other keeps its other fields. Exactly one order is
      appended. */
  lemma SellLowersHolding(s: LedgerState, req: Request)
    requires req.mode == "SELL" && Key(req.name, req.userId) in s.holdings
    requires req.qty <= s.holdings[Key(req.name, req.userId)].qty
    ensures var k := Key(req.name, req.userId);
      var left := s.holdings[k].qty - req.qty;
      var r := Execute(s, req);
      && r.reply == Accepted(OrderOf(req))
      && r.state.orders == s.orders + [OrderOf(req)]
      && (left == 0 ==> r.state.holdings.Keys == s.holdings.Keys - {k})
      && (left != 0 ==> r.state.holdings.Keys == s.holdings.Keys
                        && r.state.holdings[k] == s.holdings[k].(qty := left))
  {
  }

  /** A mode other than "BUY" and "SELL" stores nothing and still answers
      with success. */
  lemma UnknownModeStoresNothing(s: LedgerState, req: Request)
    requires req.mode != "BUY" && req.mode != "SELL"
    ensures Execute(s, req) == Outcome(s, Accepted(OrderOf(req)))
  {
  }

  // ---------------------------------------------------------------------
  // Every request

  /** A request touches only the holding under its own key, and when it
      appends, it appends one order carrying the request's fields and the
      caller's id. */
  lemma ExecuteIsLocal(s: LedgerState, req: Request)
    ensures var r := Execute(s, req);
      && (forall k :: k != Key(req.name, req.userId) ==>
            (k in r.state.holdings <==> k in s.holdings)
            && (k in s.holdings ==> r.state.holdings[k] == s.holdings[k]))
      && (r.state.orders == s.orders
          || r.state.orders == s.orders + [Order(req.name, req.qty, req.price, req.mode, req.userId)])
  {
  }

  /** The order log only grows, by the accepted BUY and SELL orders. */
  lemma ExecuteAppends(s: LedgerState, req: Request)
    ensures var r := Execute(s, req);
      r.state.orders == s.orders + (if r.state.orders == s.orders then [] else [OrderOf(req)])
    ensures var r := Execute(s, req);
      |r.state.orders| == |s.orders| + 1
      <==> (r.reply.Accepted? && (req.mode == "BUY" || req.mode == "SELL"))
  {
  }

  lemma NetQtyAppend(log: seq<Order>, o: Order, k: Key)
    ensures NetQty(log + [o], k) == NetQty(log, k) + Delta(o, k)
  {
    assert (log + [o])[..|log|] == log;
  }

  /** Every request keeps the holdings reconciled with the order log. */
  lemma ExecuteKeepsConsistent(s: LedgerState, req: Request)
    requires Consistent(s)
    ensures Consistent(Execute(s, req).state)
  {
    var r := Execute(s, req).state;
    var key := Key(req.name, req.userId);
    var o := OrderOf(req);
    if r != s {
      assert r.orders == s.orders + [o];
      forall k ensures HeldQty(r.holdings, k) == NetQty(r.orders, k) {
        NetQtyAppend(s.orders, o, k);
        assert HeldQty(s.holdings, k) == NetQty(s.orders, k);
      }
    }
  }

  /** The holdings stay reconciled over any sequence of requests. */
  lemma {:induction false} RunKeepsConsistent(s: LedgerState, reqs: seq<Request>)
    requires Consistent(s)
    ensures Consistent(Run(s, reqs))
    decreases |reqs|
  {
    if reqs != [] {
      ExecuteKeepsConsistent(s, reqs[0]);
      RunKeepsConsistent(Execute(s, reqs[0]).state, reqs[1..]);
    }
  }

  ghost predicate AllPositive(holdings: map<Key, Holding>)
  {
    forall k :: k in holdings ==> holdings[k].qty > 0
  }

  /** A request whose order is stored only if its quantity is positive
      never leaves a holding at zero or below. A SELL without a holding, a
      SELL above the holding and an unknown mode store nothing, whatever
      their quantity. */
  lemma ExecuteKeepsPositive(s: LedgerState, req: Request)
    requires AllPositive(s.holdings)
    requires Execute(s, req).state.orders != s.orders ==> req.qty > 0
    ensures AllPositive(Execute(s, req).state.holdings)
  {
  }

  /** The log only grows over a sequence of requests. */
  lemma {:induction false} RunExtends(s: LedgerState, reqs: seq<Request>)
    ensures s.orders <= Run(s, reqs).orders
    decreases |reqs|
  {
    if reqs != [] {
      var s1 := Execute(s, reqs[0]).state;
      ExecuteAppends(s, reqs[0]);
      RunExtends(s1, reqs[1..]);
    }
  }

  /** If every order the requests add to the log has a positive quantity,
      every stored holding does. */
  lemma {:induction false} RunKeepsPositive(s: LedgerState, reqs: seq<Request>)
    requires AllPositive(s.holdings)
    requires forall i :: |s.orders| <= i < |Run(s, reqs).orders| ==> Run(s, reqs).orders[i].qty > 0
    ensures AllPositive(Run(s, reqs).holdings)
    decreases |reqs|
  {
    if reqs != [] {
      var s1 := Execute(s, reqs[0]).state;
      var final := Run(s, reqs);
      assert final == Run(s1, reqs[1..]);
      ExecuteAppends(s, reqs[0]);
      RunExtends(s1, reqs[1..]);
      if s1.orders != s.orders {
        assert final.orders[|s.orders|] == s1.orders[|s.orders|] == OrderOf(reqs[0]);
      }
      ExecuteKeepsPositive(s, reqs[0]);
      RunKeepsPositive(s1, reqs[1..]);
    }
  }

  /** In a reconciled ledger of positive holdings, a holding exists exactly
      when the log has bought more than it sold under its key, and holds that
      difference. */
  lemma HeldIffNetPositive(s: LedgerState, k: Key)
    requires Consistent(s) && AllPositive(s.holdings)
    ensures k in s.holdings <==> NetQty(s.orders, k) > 0
    ensures k in s.holdings ==> s.holdings[k].qty == NetQty(s.orders, k)
  {
    assert HeldQty(s.holdings, k) == NetQty(s.orders, k);
  }

  /** `getAllOrders` returns exactly the caller's orders, in log order. */
  lemma OrdersOfSpec(log: seq<Order>, userId: UserId)
    ensures forall o :: o in OrdersOf(log, userId) <==> o in log && o.userId == userId
    ensures forall a, b :: a + b == log ==> OrdersOf(log, userId) == OrdersOf(a, userId) + OrdersOf(b, userId)
  {
    FilterMembers(log, (o: Order) => o.userId == userId);
    forall a, b | a + b == log
      ensures OrdersOf(log, userId) == OrdersOf(a, userId) + OrdersOf(b, userId)
    {
      FilterAppend(a, b, (o: Order) => o.userId == userId);
    }
  }

  /** A request of one user leaves every other user's order list as it was. */
  lemma ExecuteKeepsOthersOrders(s: LedgerState, req: Request, other: UserId)
    requires other != req.userId
    ensures OrdersOf(Execute(s, req).state.orders, other) == OrdersOf(s.orders, other)
  {
    var r := Execute(s, req).state;
    if r.orders != s.orders {
      assert r.orders == s.orders + [OrderOf(req)];
      FilterAppend(s.orders, [OrderOf(req)], (o: Order) => o.userId == other);
      assert OrdersOf([OrderOf(req)], other) == [];
    }
  }

  /** The order of a request is in its user's list after it is accepted. */
  lemma AcceptedOrderListed(s: LedgerState, req: Request)
    requires req.mode == "BUY" || req.mode == "SELL"
    requires Execute(s, req).reply.Accepted?
    ensures OrdersOf(Execute(s, req).state.orders, req.userId)
         == OrdersOf(s.orders, req.userId) + [OrderOf(req)]
  {
    FilterAppend(s.orders, [OrderOf(req)], (o: Order) => o.userId == req.userId);
  }

  /** Four orders on one instrument: a second BUY at a higher price leaves the
      average at the first price, and selling everything deletes the
      holding. */
  lemma FourOrderScenario()
    ensures var a := "A1"; var k := Key("TCS", a);
      var s1 := Execute(LedgerState(map[], []), Request(a, "TCS", 10, 100.0, "BUY")).state;
      var s2 := Execute(s1, Request(a, "TCS", 10, 120.0, "BUY")).state;
      var s3 := Execute(s2, Request(a, "TCS", 5, 130.0, "SELL")).state;
      var s4 := Execute(s3, Request(a, "TCS", 15, 140.0, "SELL")).state;
      && s2.holdings[k].qty == 20 && s2.holdings[k].avg == 100.0 && s2.holdings[k].price == 100.0
      && s3.holdings[k].qty == 15 && s3.holdings[k].avg == 100.0
      && k !in s4.holdings && |s4.orders| == 4
  {
  }

  /** Nothing checks that a quantity is positive: a BUY of 0 stores a
      holding of quantity 0, and a SELL of -5 raises the quantity by 5. */
  lemma UncheckedQuantities()
    ensures var a := "A1"; var k := Key("TCS", a);
      var s1 := Execute(LedgerState(map[], []), Request(a, "TCS", 0, 100.0, "BUY")).state;
      var s2 := Execute(s1, Request(a, "TCS", -5, 100.0, "SELL"));
      && k in s1.holdings && s1.holdings[k].qty == 0
      && s2.reply.Accepted? && s2.state.holdings[k].qty == 5
  {
  }

  // ---------------------------------------------------------------------
  // The stored ledger

  class Ledger {
    var holdings: map<Key, Holding>
    var orders: seq<Order>

    function State(): LedgerState
      reads this
    {
      LedgerState(holdings, orders)
    }

    ghost predicate Valid()
      reads this
    {
      Consistent(State())
    }

    constructor ()
      ensures Valid() && holdings == map[] && orders == []
    {
      holdings := map[];
      orders := [];
    }

    /** `createOrder`. The BUY path saves the order before the holding, the
        SELL path after it; both writes happen in this one step. */
    method CreateOrder(req: Request) returns (reply: Reply)
      requires Valid()
      modifies this
      ensures Valid()
      ensures Outcome(State(), reply) == Execute(old(State()), req)
    {
      ghost var before := State();
      ghost var after := Execute(before, req);
      ExecuteKeepsConsistent(before, req);
      var newOrder := Order(req.name, req.qty, req.price, req.mode, req.userId);
      var key := Key(req.name, req.userId);
      if req.mode == "BUY" {
        orders := orders + [newOrder];
        if key in holdings {
          var existing := holdings[key];
          existing := existing.(qty := existing.qty + req.qty);
          holdings := holdings[key := existing];
        } else {
          var created := Holding(req.name, req.qty, req.price, req.price, NoChange, NoChange, req.userId);
          holdings := holdings[key := created];
        }
        assert State() == after.state;
      }
      if req.mode == "SELL" {
        if key !in holdings {
          return Rejected("No holdings to sell");
        }
        var existing := holdings[key];
        if req.qty > existing.qty {
          return Rejected("Insufficient quantity");
        }
        existing := existing.(qty := existing.qty - req.qty);
        if existing.qty == 0 {
          holdings := holdings - {key};
        } else {
          holdings := holdings[key := existing];
        }
        orders := orders + [newOrder];
        assert State() == after.state;
      }
      reply := Accepted(newOrder);
    }

    /** `getAllOrders`. */
    method GetAllOrders(userId: UserId) returns (r: seq<Order>)
      ensures forall o :: o in r <==> o in orders && o.userId == userId
      ensures r == OrdersOf(orders, userId)
    {
      r := Filter(orders, (o: Order) => o.userId == userId);
      OrdersOfSpec(orders, userId);
    }
  }
}
