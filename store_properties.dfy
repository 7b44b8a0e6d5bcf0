/** What the Store promises, proved about the specification in StoreModel:
    the outcome of each transaction, the lookups after it, the buy/refund round
    trip and the refund deadline, and invariants of whole transaction traces. */
module StoreProperties {
  import opened StoreModel

  // ---------------------------------------------------------------------------
  // Name lookup

  /** Appending a product only adds a match when no earlier product has the name. */
  lemma FirstIndexByNameAppend(catalog: seq<Product>, p: Product, name: string)
    ensures FirstIndexByName(catalog + [p], name) ==
              match FirstIndexByName(catalog, name)
              case Some(i) => Some(i)
              case None => if p.name == name then Some(|catalog|) else None
  {
    var c := catalog + [p];
    assert forall j :: 0 <= j < |catalog| ==> c[j] == catalog[j];
    assert c[|catalog|] == p;
  }

  /** The name lookup only looks at names: two catalogs with the same names, in the
      same order, find the same index. */
  lemma FirstIndexByNameSameNames(c1: seq<Product>, c2: seq<Product>, name: string)
    requires |c1| == |c2|
    requires forall i :: 0 <= i < |c1| ==> c1[i].name == c2[i].name
    ensures FirstIndexByName(c1, name) == FirstIndexByName(c2, name)
  {
    var r1, r2 := FirstIndexByName(c1, name), FirstIndexByName(c2, name);
    if r1.Some? && r2.Some? {
      assert !(r1.value < r2.value) && !(r2.value < r1.value);
    }
  }

  // ---------------------------------------------------------------------------
  // addProduct

  /** addProduct succeeds exactly for the owner with a non-empty name and a positive
      quantity; the owner check comes first, then the name, then the quantity. */
  lemma AddProductOutcome(s: State, caller: Identity, name: string, quantity: nat)
    ensures AddProduct(s, caller, name, quantity).Ok? <==> caller == s.owner && |name| > 0 && quantity > 0
    ensures caller != s.owner ==> AddProduct(s, caller, name, quantity) == Err(NotOwner)
    ensures caller == s.owner && |name| == 0 ==> AddProduct(s, caller, name, quantity) == Err(EmptyName)
    ensures caller == s.owner && |name| > 0 && quantity == 0 ==>
              AddProduct(s, caller, name, quantity) == Err(ZeroQuantity)
  {
  }

  /** A successful addProduct appends exactly one product, whose id is the old catalog
      length, touches nothing else, and makes the product visible to both lookups. */
  lemma AddProductThenLookup(s: State, name: string, quantity: nat)
    requires |name| > 0 && quantity > 0
    ensures AddProduct(s, s.owner, name, quantity).Ok?
    ensures var t := AddProduct(s, s.owner, name, quantity).value;
            t.owner == s.owner && t.purchases == s.purchases &&
            t.catalog == s.catalog + [Product(name, quantity)] &&
            ProductById(t, |s.catalog|) == Some(Product(name, quantity)) &&
            ProductByName(t, name) ==
              (if ProductByName(s, name).Some? then ProductByName(s, name) else Some(Product(name, quantity)))
  {
    var t := AddProduct(s, s.owner, name, quantity).value;
    FirstIndexByNameAppend(s.catalog, Product(name, quantity), name);
    match FirstIndexByName(s.catalog, name)
    case Some(i) =>
      assert t.catalog[i] == s.catalog[i];
    case None =>
  }

  // ---------------------------------------------------------------------------
  // updateProductQuantity

  /** Only the owner administers the catalog: anyone else gets NotOwner from both
      admin transactions, whatever the arguments, and the store is unchanged. */
  lemma OnlyOwnerAdministers(s: State, caller: Identity, name: string, id: nat, quantity: nat)
    requires caller != s.owner
    ensures AddProduct(s, caller, name, quantity) == Err(NotOwner)
    ensures UpdateProductQuantity(s, caller, id, quantity) == Err(NotOwner)
    ensures After(s, AddProduct(s, caller, name, quantity)) == s
    ensures After(s, UpdateProductQuantity(s, caller, id, quantity)) == s
  {
  }

  /** updateProductQuantity by the owner sets the quantity of an existing product and
      keeps its name and every other record; on a missing id it reverts with
      ProductNotFound. Zero is an accepted new quantity. */
  lemma UpdateProductQuantityOutcome(s: State, id: nat, quantity: nat)
    ensures id >= |s.catalog| ==> UpdateProductQuantity(s, s.owner, id, quantity) == Err(ProductNotFound)
    ensures id < |s.catalog| ==>
              UpdateProductQuantity(s, s.owner, id, quantity).Ok? &&
              var t := UpdateProductQuantity(s, s.owner, id, quantity).value;
              t.owner == s.owner && t.purchases == s.purchases && |t.catalog| == |s.catalog| &&
              t.catalog[id] == Product(s.catalog[id].name, quantity) &&
              (forall j :: 0 <= j < |s.catalog| && j != id ==> t.catalog[j] == s.catalog[j])
  {
  }

  /** After an update the name lookup finds the same product as before, now carrying
      the new quantity when it is the updated one. */
  lemma UpdateThenLookupByName(s: State, id: nat, quantity: nat, name: string)
    requires id < |s.catalog|
    ensures var t := After(s, UpdateProductQuantity(s, s.owner, id, quantity));
            ProductByName(t, name) ==
              match ProductByName(s, name)
              case None => None
              case Some(p) => if FirstIndexByName(s.catalog, name) == Some(id) then Some(p.(quantity := quantity)) else Some(p)
  {
    var t := After(s, UpdateProductQuantity(s, s.owner, id, quantity));
    FirstIndexByNameSameNames(s.catalog, t.catalog, name);
  }

  // ---------------------------------------------------------------------------
  // buyProduct

  /** buyProduct succeeds exactly when the product exists, is in stock and the caller
      holds no active purchase of it; the errors are checked in that order, so an
      exhausted product rejects every caller with OutOfStock, whatever their records. */
  lemma BuyProductOutcome(s: State, caller: Identity, id: nat, now: nat)
    ensures BuyProduct(s, caller, id, now).Ok? <==>
              id < |s.catalog| && s.catalog[id].quantity > 0 && !HasActivePurchase(s, id, caller)
    ensures id >= |s.catalog| ==> BuyProduct(s, caller, id, now) == Err(ProductNotFound)
    ensures id < |s.catalog| && s.catalog[id].quantity == 0 ==> BuyProduct(s, caller, id, now) == Err(OutOfStock)
    ensures id < |s.catalog| && s.catalog[id].quantity > 0 && HasActivePurchase(s, id, caller) ==>
              BuyProduct(s, caller, id, now) == Err(DuplicatePurchase)
  {
  }

  /** A successful purchase takes exactly one unit of that product, keeps its name,
      records an active purchase stamped with the block, and touches nothing else. */
  lemma BuyProductEffect(s: State, caller: Identity, id: nat, now: nat)
    requires BuyProduct(s, caller, id, now).Ok?
    ensures var t := BuyProduct(s, caller, id, now).value;
            t.owner == s.owner && |t.catalog| == |s.catalog| &&
            t.catalog[id] == Product(s.catalog[id].name, s.catalog[id].quantity - 1) &&
            (forall j :: 0 <= j < |s.catalog| && j != id ==> t.catalog[j] == s.catalog[j]) &&
            t.purchases == s.purchases[(id, caller) := Purchase(true, now)] &&
            HasActivePurchase(t, id, caller)
  {
  }

  /** Buying the same product a second time fails and changes nothing: with DuplicatePurchase
      while stock is left, with OutOfStock when the first purchase took the last unit. */
  lemma BuyTwice(s: State, buyer: Identity, id: nat, first: nat, second: nat)
    requires BuyProduct(s, buyer, id, first).Ok?
    ensures var t := BuyProduct(s, buyer, id, first).value;
            BuyProduct(t, buyer, id, second) ==
              Err(if s.catalog[id].quantity > 1 then DuplicatePurchase else OutOfStock)
  {
  }

  // ---------------------------------------------------------------------------
  // refundProduct

  /** refundProduct succeeds exactly when the caller holds an active purchase of the
      product made at most RefundWindow blocks ago; it then gives one unit back to the
      stock and deactivates the record, keeping its block stamp. */
  lemma RefundProductOutcome(s: State, caller: Identity, id: nat, now: nat)
    requires WellFormed(s) && TickOk(s, now)
    ensures !HasActivePurchase(s, id, caller) ==> RefundProduct(s, caller, id, now) == Err(NoActivePurchase)
    ensures HasActivePurchase(s, id, caller) ==>
              (RefundProduct(s, caller, id, now).Ok? <==> now <= s.purchases[(id, caller)].boughtAt + RefundWindow)
    ensures HasActivePurchase(s, id, caller) && now > s.purchases[(id, caller)].boughtAt + RefundWindow ==>
              RefundProduct(s, caller, id, now) == Err(RefundDenied)
    ensures RefundProduct(s, caller, id, now).Ok? ==>
              var t := RefundProduct(s, caller, id, now).value;
              t.owner == s.owner && |t.catalog| == |s.catalog| &&
              t.catalog[id] == Product(s.catalog[id].name, s.catalog[id].quantity + 1) &&
              (forall j :: 0 <= j < |s.catalog| && j != id ==> t.catalog[j] == s.catalog[j]) &&
              t.purchases == s.purchases[(id, caller) := Purchase(false, s.purchases[(id, caller)].boughtAt)]
  {
  }

  /** Buying and then refunding within the window restores the catalog exactly and
      leaves an inactive record, so a second refund fails with NoActivePurchase and
      changes nothing. */
  lemma BuyRefundRoundTrip(s: State, buyer: Identity, id: nat, bought: nat, refunded: nat, again: nat)
    requires WellFormed(s) && TickOk(s, bought)
    requires BuyProduct(s, buyer, id, bought).Ok?
    requires bought <= refunded <= bought + RefundWindow && refunded <= again
    ensures var t := BuyProduct(s, buyer, id, bought).value;
            WellFormed(t) && TickOk(t, refunded) &&
            RefundProduct(t, buyer, id, refunded).Ok? &&
            var u := RefundProduct(t, buyer, id, refunded).value;
            u.catalog == s.catalog &&
            u.purchases == s.purchases[(id, buyer) := Purchase(false, bought)] &&
            !HasActivePurchase(u, id, buyer) &&
            WellFormed(u) && TickOk(u, again) &&
            RefundProduct(u, buyer, id, again) == Err(NoActivePurchase)
  {
    var t := BuyProduct(s, buyer, id, bought).value;
    assert WellFormed(t) && TickOk(t, refunded);
    var u := RefundProduct(t, buyer, id, refunded).value;
    assert u.catalog == s.catalog;
  }

  /** The refund deadline: a refund RefundWindow blocks after the purchase still
      succeeds, one block later it is denied and the product stays sold. */
  lemma RefundDeadline(s: State, buyer: Identity, id: nat, bought: nat)
    requires WellFormed(s) && TickOk(s, bought)
    requires BuyProduct(s, buyer, id, bought).Ok?
    ensures var t := BuyProduct(s, buyer, id, bought).value;
            WellFormed(t) && TickOk(t, bought + RefundWindow) &&
            RefundProduct(t, buyer, id, bought + RefundWindow).Ok? &&
            RefundProduct(t, buyer, id, bought + RefundWindow + 1) == Err(RefundDenied)
  {
    var t := BuyProduct(s, buyer, id, bought).value;
    assert WellFormed(t) && TickOk(t, bought + RefundWindow + 1);
  }

  /** Only an active record blocks a purchase: after a refund the same buyer may buy the
      same product again. */
  lemma RebuyAfterRefund(s: State, buyer: Identity, id: nat, now: nat, later: nat)
    requires WellFormed(s) && TickOk(s, now)
    requires RefundProduct(s, buyer, id, now).Ok?
    ensures BuyProduct(RefundProduct(s, buyer, id, now).value, buyer, id, later).Ok?
  {
  }

  /** A buyer whose active purchase is past its refund window can neither return it nor
      buy that product again. */
  lemma ExpiredBuyerCannotRebuy(s: State, buyer: Identity, id: nat, now: nat)
    requires WellFormed(s) && TickOk(s, now)
    requires HasActivePurchase(s, id, buyer)
    requires s.purchases[(id, buyer)].boughtAt + RefundWindow < now
    ensures RefundProduct(s, buyer, id, now) == Err(RefundDenied)
    ensures BuyProduct(s, buyer, id, now) ==
              Err(if s.catalog[id].quantity > 0 then DuplicatePurchase else OutOfStock)
  {
  }

  // ---------------------------------------------------------------------------
  // Stock accounting

  /** The keys of the active purchases of product `id`. */
  function ActiveKeys(purchases: map<PurchaseKey, Purchase>, id: nat): set<PurchaseKey> {
    set k | k in purchases && k.0 == id && purchases[k].active
  }

  /** The units of product `id` the store accounts for: those in stock plus those held
      by buyers who may still return them. */
  function Units(s: State, id: nat): nat
    requires id < |s.catalog|
  {
    s.catalog[id].quantity + |ActiveKeys(s.purchases, id)|
  }

  /** Setting `key` to a record with the given activity changes only the active keys
      of its own product, by adding or removing `key`. */
  lemma ActiveKeysSet(purchases: map<PurchaseKey, Purchase>, key: PurchaseKey, p: Purchase, id: nat)
    ensures ActiveKeys(purchases[key := p], id) ==
              if key.0 != id then ActiveKeys(purchases, id)
              else if p.active then ActiveKeys(purchases, id) + {key}
              else ActiveKeys(purchases, id) - {key}
  {
  }

  /** Every transaction except updateProductQuantity keeps the units of every existing
      product: a purchase moves one unit from the stock to its buyer, a refund moves it
      back, and adding a product leaves the existing ones alone. */
  lemma ExecutePreservesUnits(s: State, tx: Tx, id: nat)
    requires WellFormed(s) && TickOk(s, tx.block)
    requires id < |s.catalog|
    requires !tx.op.Update?
    ensures id < |After(s, Execute(s, tx)).catalog|
    ensures Units(After(s, Execute(s, tx)), id) == Units(s, id)
  {
    var t := After(s, Execute(s, tx));
    match tx.op
    case Add(_, _) =>
      assert t.catalog[id] == s.catalog[id] && t.purchases == s.purchases;
    case Buy(b) =>
      if t != s {
        var key := (b, tx.sender);
        ActiveKeysSet(s.purchases, key, Purchase(true, tx.block), id);
        if b == id {
          assert key !in ActiveKeys(s.purchases, id);
          assert |ActiveKeys(t.purchases, id)| == |ActiveKeys(s.purchases, id)| + 1;
        }
      }
    case Refund(b) =>
      if t != s {
        var key := (b, tx.sender);
        ActiveKeysSet(s.purchases, key, s.purchases[key].(active := false), id);
        if b == id {
          assert key in ActiveKeys(s.purchases, id);
          assert |ActiveKeys(t.purchases, id)| == |ActiveKeys(s.purchases, id)| - 1;
        }
      }
  }

  /** Over any trace without quantity updates the units of every existing product are
      conserved: quantity changes only by purchases and refunds, one unit at a time. */
  lemma {:induction false} RunPreservesUnits(s: State, txs: seq<Tx>, id: nat)
    requires WellFormed(s) && Chronological(s, txs)
    requires id < |s.catalog|
    requires forall i :: 0 <= i < |txs| ==> !txs[i].op.Update?
    ensures id < |Run(s, txs).catalog|
    ensures Units(Run(s, txs), id) == Units(s, id)
    decreases |txs|
  {
    if txs != [] {
      var next := After(s, Execute(s, txs[0]));
      ExecutePreservesUnits(s, txs[0], id);
      assert Run(s, txs) == Run(next, txs[1..]);
      RunPreservesUnits(next, txs[1..], id);
    }
  }

  // ---------------------------------------------------------------------------
  // Expired refunds

  /** One transaction in a block past the refund window of an active purchase leaves
      that purchase record as it is: buying again is refused, refunding is denied. */
  lemma ExecuteKeepsExpiredPurchase(s: State, tx: Tx, id: nat, buyer: Identity)
    requires WellFormed(s) && TickOk(s, tx.block)
    requires HasActivePurchase(s, id, buyer)
    requires s.purchases[(id, buyer)].boughtAt + RefundWindow < tx.block
    ensures (id, buyer) in After(s, Execute(s, tx)).purchases
    ensures After(s, Execute(s, tx)).purchases[(id, buyer)] == s.purchases[(id, buyer)]
  {
  }

  /** Once the refund window of an active purchase has lapsed, no trace of later
      transactions deactivates it: the buyer keeps the unit and the right to a refund is
      lost for good. */
  lemma {:induction false} ExpiredPurchaseIsPermanent(s: State, txs: seq<Tx>, id: nat, buyer: Identity)
    requires WellFormed(s) && Chronological(s, txs)
    requires HasActivePurchase(s, id, buyer)
    requires |txs| > 0 ==> s.purchases[(id, buyer)].boughtAt + RefundWindow < txs[0].block
    ensures (id, buyer) in Run(s, txs).purchases
    ensures Run(s, txs).purchases[(id, buyer)] == s.purchases[(id, buyer)]
    decreases |txs|
  {
    if txs != [] {
      var next := After(s, Execute(s, txs[0]));
      ExecuteKeepsExpiredPurchase(s, txs[0], id, buyer);
      assert Run(s, txs) == Run(next, txs[1..]);
      if |txs| > 1 {
        assert txs[0].block <= txs[1].block;
      }
      ExpiredPurchaseIsPermanent(next, txs[1..], id, buyer);
    }
  }
}
