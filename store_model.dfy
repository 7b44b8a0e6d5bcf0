/** The Store contract as a state machine on values: its records, the four
    transactions, the two read-only lookups, and whole transaction traces.
    The class in store.dfy is proved to behave exactly like these functions. */
module StoreModel {

  /** An account address. The store only ever compares addresses for equality. */
  type Identity(==)

  /** A purchase may be refunded while at most this many blocks have passed since it. */
  const RefundWindow: nat := 100

  /** The reasons a transaction reverts. */
  datatype StoreError =
    | NotOwner
    | EmptyName
    | ZeroQuantity
    | ProductNotFound
    | OutOfStock
    | DuplicatePurchase
    | NoActivePurchase
    | RefundDenied
  {
    /** The revert reason string reported for this error. Adding a product with quantity 0
        and buying a product with no stock left revert with the same string. */
    function Reason(): (r: string)
      ensures r == "Quantity can't be 0!" <==> this == ZeroQuantity || this == OutOfStock
    {
      match this
      case NotOwner => "Ownable: caller is not the owner"
      case EmptyName => "You have to enter a name!"
      case ZeroQuantity => "Quantity can't be 0!"
      case ProductNotFound => "This product does not exist!"
      case OutOfStock => "Quantity can't be 0!"
      case DuplicatePurchase => "You cannot buy the same product more than once!"
      case NoActivePurchase => "You've already returned your product or didn't even bought it."
      case RefundDenied => "Sorry, your request for refund has been denied."
    }
  }

  datatype Option<T> = None | Some(value: T)

  /** A transaction either succeeds with a value or reverts with an error. */
  datatype Result<T> = Ok(value: T) | Err(error: StoreError)

  datatype Product = Product(name: string, quantity: nat)

  /** The purchase record of one buyer for one product: whether it is still
      unrefunded, and the block it was bought in. */
  datatype Purchase = Purchase(active: bool, boughtAt: nat)

  /** Purchase records are keyed by (product id, buyer). */
  type PurchaseKey = (nat, Identity)

  /** The whole contract storage. A product's id is its index in the catalog. */
  datatype State = State(owner: Identity, catalog: seq<Product>, purchases: map<PurchaseKey, Purchase>)

  /** The store right after deployment by `owner`. */
  function Init(owner: Identity): State {
    State(owner, [], map[])
  }

  /** Every purchase record refers to a product that exists. */
  predicate WellFormed(s: State) {
    forall k :: k in s.purchases ==> k.0 < |s.catalog|
  }

  /** Block `now` is not earlier than any recorded purchase: block numbers never go back. */
  predicate TickOk(s: State, now: nat) {
    forall k :: k in s.purchases ==> s.purchases[k].boughtAt <= now
  }

  predicate HasActivePurchase(s: State, id: nat, buyer: Identity) {
    (id, buyer) in s.purchases && s.purchases[(id, buyer)].active
  }

  /** The state a transaction leaves behind: the new state if it succeeded,
      the old one untouched if it reverted. */
  function After(s: State, r: Result<State>): State {
    if r.Ok? then r.value else s
  }

  /** addProduct: owner only; the name must be non-empty and the quantity positive.
      The new product is appended, so its id is the old catalog length. */
  function AddProduct(s: State, caller: Identity, name: string, quantity: nat): (r: Result<State>)
    ensures r.Ok? <==> caller == s.owner && |name| > 0 && quantity > 0
    ensures r.Ok? ==> |r.value.catalog| == |s.catalog| + 1 && r.value.catalog[|s.catalog|] == Product(name, quantity)
    ensures r.Ok? ==> Extends(s, r.value) && (WellFormed(s) ==> WellFormed(r.value))
  {
    if caller != s.owner then Err(NotOwner)
    else if |name| == 0 then Err(EmptyName)
    else if quantity == 0 then Err(ZeroQuantity)
    else Ok(s.(catalog := s.catalog + [Product(name, quantity)]))
  }

  /** updateProductQuantity: owner only; the product must exist; any quantity, even 0, is accepted. */
  function UpdateProductQuantity(s: State, caller: Identity, id: nat, quantity: nat): (r: Result<State>)
    ensures r.Ok? <==> caller == s.owner && id < |s.catalog|
    ensures r.Ok? ==> |r.value.catalog| == |s.catalog| && r.value.catalog[id].quantity == quantity && r.value.purchases == s.purchases
    ensures r.Ok? ==> Extends(s, r.value) && (WellFormed(s) ==> WellFormed(r.value))
  {
    if caller != s.owner then Err(NotOwner)
    else if id >= |s.catalog| then Err(ProductNotFound)
    else Ok(s.(catalog := s.catalog[id := s.catalog[id].(quantity := quantity)]))
  }

  /** buyProduct: open to anyone. Checked in order: the product exists, it is in stock,
      the caller holds no active purchase of it. Takes one unit and records the purchase. */
  function BuyProduct(s: State, caller: Identity, id: nat, now: nat): (r: Result<State>)
    ensures r.Ok? <==> id < |s.catalog| && s.catalog[id].quantity > 0 && !HasActivePurchase(s, id, caller)
    ensures r.Ok? ==> |r.value.catalog| == |s.catalog| && r.value.catalog[id].quantity + 1 == s.catalog[id].quantity && HasActivePurchase(r.value, id, caller)
    ensures r.Ok? ==> Extends(s, r.value) && (WellFormed(s) ==> WellFormed(r.value))
    ensures r.Ok? && TickOk(s, now) ==> TickOk(r.value, now)
  {
    if id >= |s.catalog| then Err(ProductNotFound)
    else if s.catalog[id].quantity == 0 then Err(OutOfStock)
    else if HasActivePurchase(s, id, caller) then Err(DuplicatePurchase)
    else
      Ok(s.(catalog := s.catalog[id := s.catalog[id].(quantity := s.catalog[id].quantity - 1)],
            purchases := s.purchases[(id, caller) := Purchase(true, now)]))
  }

  /** Blocks passed since the caller's purchase of product `id`. */
  function Elapsed(s: State, id: nat, buyer: Identity, now: nat): nat
    requires TickOk(s, now) && (id, buyer) in s.purchases
  {
    now - s.purchases[(id, buyer)].boughtAt
  }

  /** refundProduct: the caller must hold an active purchase of the product, made at most
      RefundWindow blocks ago. Returns the unit to stock and deactivates the record. */
  function RefundProduct(s: State, caller: Identity, id: nat, now: nat): (r: Result<State>)
    requires WellFormed(s) && TickOk(s, now)
    ensures r.Ok? <==> HasActivePurchase(s, id, caller) && now <= s.purchases[(id, caller)].boughtAt + RefundWindow
    ensures r.Ok? ==> |r.value.catalog| == |s.catalog| && r.value.catalog[id].quantity == s.catalog[id].quantity + 1 && !HasActivePurchase(r.value, id, caller)
    ensures r.Ok? ==> Extends(s, r.value) && WellFormed(r.value) && TickOk(r.value, now)
  {
    if !HasActivePurchase(s, id, caller) then Err(NoActivePurchase)
    else if Elapsed(s, id, caller, now) > RefundWindow then Err(RefundDenied)
    else
      Ok(s.(catalog := s.catalog[id := s.catalog[id].(quantity := s.catalog[id].quantity + 1)],
            purchases := s.purchases[(id, caller) := s.purchases[(id, caller)].(active := false)]))
  }

  /** The index of the first product called `name`, if there is one. */
  function FirstIndexByName(catalog: seq<Product>, name: string): (r: Option<nat>)
    ensures r.Some? ==> r.value < |catalog| && catalog[r.value].name == name
    ensures r.Some? ==> forall j :: 0 <= j < r.value ==> catalog[j].name != name
    ensures r.None? ==> forall j :: 0 <= j < |catalog| ==> catalog[j].name != name
  {
    if catalog == [] then None
    else if catalog[0].name == name then Some(0)
    else
      match FirstIndexByName(catalog[1..], name)
      case None => None
      case Some(i) => Some(i + 1)
  }

  /** getProductById; a missing id gives None. */
  function ProductById(s: State, id: nat): (r: Option<Product>)
    ensures r.Some? <==> id < |s.catalog|
    ensures r.Some? ==> r.value == s.catalog[id]
  {
    if id < |s.catalog| then Some(s.catalog[id]) else None
  }

  /** getProductByName: the first match in catalog order; no match gives None. */
  function ProductByName(s: State, name: string): (r: Option<Product>)
    ensures r.None? <==> forall i :: 0 <= i < |s.catalog| ==> s.catalog[i].name != name
    ensures r.Some? ==> r.value.name == name && r.value in s.catalog
  {
    match FirstIndexByName(s.catalog, name)
    case None => None
    case Some(i) => Some(s.catalog[i])
  }

  /** The four state-changing transactions, without their sender and block. */
  datatype Op =
    | Add(name: string, quantity: nat)
    | Update(id: nat, quantity: nat)
    | Buy(id: nat)
    | Refund(id: nat)

  /** A transaction: who sent it, the block it was mined in, and what it asks for. */
  datatype Tx = Tx(sender: Identity, block: nat, op: Op)

  /** `t` is `s` grown: same owner, no product removed, no product renamed. */
  predicate Extends(s: State, t: State) {
    t.owner == s.owner &&
    |s.catalog| <= |t.catalog| &&
    forall i :: 0 <= i < |s.catalog| ==> t.catalog[i].name == s.catalog[i].name
  }

  function Execute(s: State, tx: Tx): (r: Result<State>)
    requires WellFormed(s) && TickOk(s, tx.block)
    ensures WellFormed(After(s, r)) && TickOk(After(s, r), tx.block)
    ensures Extends(s, After(s, r))
  {
    match tx.op
    case Add(name, quantity) => AddProduct(s, tx.sender, name, quantity)
    case Update(id, quantity) => UpdateProductQuantity(s, tx.sender, id, quantity)
    case Buy(id) => BuyProduct(s, tx.sender, id, tx.block)
    case Refund(id) => RefundProduct(s, tx.sender, id, tx.block)
  }

  /** The transactions come in block order, none before a purchase already recorded in `s`. */
  predicate Chronological(s: State, txs: seq<Tx>) {
    (forall i :: 0 <= i < |txs| ==> TickOk(s, txs[i].block)) &&
    (forall i, j :: 0 <= i < j < |txs| ==> txs[i].block <= txs[j].block)
  }

  /** Applies the transactions one after another; a reverted one leaves the state as it was. */
  function Run(s: State, txs: seq<Tx>): (r: State)
    requires WellFormed(s) && Chronological(s, txs)
    ensures WellFormed(r) && Extends(s, r)
    decreases |txs|
  {
    if txs == [] then s
    else
      var next := After(s, Execute(s, txs[0]));
      assert forall i :: 1 <= i < |txs| ==> TickOk(next, txs[i].block) by {
        forall i | 1 <= i < |txs| ensures TickOk(next, txs[i].block) {
          assert txs[0].block <= txs[i].block;
        }
      }
      Run(next, txs[1..])
  }
}
