/** The portfolio read endpoints: the caller's holdings and positions. Both
    are single `find({ userId })` queries with no writes; the position store
    has the same record shape as holdings and is filled outside the order
    ledger. */
module Portfolio {
  import opened Seqs
  import opened Orders

  /** `getAllHoldings`: the holdings whose `userId` is the caller's. */
  function HoldingsOf(holdings: map<Key, Holding>, userId: UserId): (r: set<Holding>)
    ensures r <= holdings.Values
  {
    set h | h in holdings.Values && h.userId == userId
  }

  /** `getAllPositions`: the positions whose `userId` is the caller's, in
      store order. */
  function PositionsOf(positions: seq<Holding>, userId: UserId): (r: seq<Holding>)
    ensures |r| <= |positions|
    ensures forall i :: 0 <= i < |r| ==> r[i] in positions && r[i].userId == userId
  {
    var r := Filter(positions, (p: Holding) => p.userId == userId);
    FilterMembers(positions, (p: Holding) => p.userId == userId);
    assert forall i :: 0 <= i < |r| ==> r[i] in r;
    r
  }

  /** Every stored holding of the caller is returned, and no other. */
  lemma HoldingsOfSpec(holdings: map<Key, Holding>, userId: UserId)
    requires KeysMatch(holdings)
    ensures forall k :: k in holdings && k.userId == userId ==> holdings[k] in HoldingsOf(holdings, userId)
    ensures forall h :: h in HoldingsOf(holdings, userId) ==>
      h.userId == userId && Key(h.name, h.userId) in holdings && holdings[Key(h.name, h.userId)] == h
  {
  }

  /** Exactly the caller's positions are returned, in store order. */
  lemma PositionsOfSpec(positions: seq<Holding>, userId: UserId)
    ensures forall p :: p in PositionsOf(positions, userId) <==> p in positions && p.userId == userId
    ensures forall a, b :: a + b == positions ==>
      PositionsOf(positions, userId) == PositionsOf(a, userId) + PositionsOf(b, userId)
  {
    FilterMembers(positions, (p: Holding) => p.userId == userId);
    forall a, b | a + b == positions
      ensures PositionsOf(positions, userId) == PositionsOf(a, userId) + PositionsOf(b, userId)
    {
      FilterAppend(a, b, (p: Holding) => p.userId == userId);
    }
  }

  /** An order of one user never changes what another user's holdings read
      returns. */
  lemma OrderKeepsOthersHoldings(s: LedgerState, req: Request, other: UserId)
    requires Consistent(s) && other != req.userId
    ensures HoldingsOf(Execute(s, req).state.holdings, other) == HoldingsOf(s.holdings, other)
  {
    var h1 := Execute(s, req).state.holdings;
    ExecuteKeepsConsistent(s, req);
    ExecuteIsLocal(s, req);
    forall h | h in HoldingsOf(h1, other) ensures h in HoldingsOf(s.holdings, other) {
      var k :| k in h1 && h1[k] == h;
      assert k.userId == other;
    }
    forall h | h in HoldingsOf(s.holdings, other) ensures h in HoldingsOf(h1, other) {
      var k :| k in s.holdings && s.holdings[k] == h;
      assert k.userId == other;
    }
  }
}
