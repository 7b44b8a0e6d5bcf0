/** The Store contract as a mutable object: the owner is fixed at deployment, the
    catalog and the purchase records are storage that transactions update in place.
    Every transaction method either commits the whole effect of its specification
    function in StoreModel or reverts and leaves the storage untouched. */
module StoreContract {
  import opened StoreModel

  class Store {
    const owner: Identity
    var catalog: seq<Product>
    var purchases: map<PurchaseKey, Purchase>

    /** The storage as a value of the specification. */
    function Model(): State
      reads this
    {
      State(owner, catalog, purchases)
    }

    ghost predicate Valid()
      reads this
    {
      WellFormed(Model())
    }

    /** Deployment: the deployer becomes the owner of an empty store. */
    constructor (deployer: Identity)
      ensures Valid()
      ensures Model() == Init(deployer)
    {
      owner := deployer;
      catalog := [];
      purchases := map[];
    }

    method AddProduct(caller: Identity, name: string, quantity: nat) returns (r: Result<nat>)
      requires Valid()
      modifies this
      ensures Valid()
      ensures Model() == After(old(Model()), StoreModel.AddProduct(old(Model()), caller, name, quantity))
      ensures StoreModel.AddProduct(old(Model()), caller, name, quantity).Ok? ==> r == Ok(old(|catalog|))
      ensures StoreModel.AddProduct(old(Model()), caller, name, quantity).Err? ==>
                r == Err(StoreModel.AddProduct(old(Model()), caller, name, quantity).error)
    {
      if caller != owner {
        return Err(NotOwner);
      }
      if |name| == 0 {
        return Err(EmptyName);
      }
      if quantity == 0 {
        return Err(ZeroQuantity);
      }
      r := Ok(|catalog|);
      catalog := catalog + [Product(name, quantity)];
    }

    method UpdateProductQuantity(caller: Identity, id: nat, quantity: nat) returns (r: Result<()>)
      requires Valid()
      modifies this
      ensures Valid()
      ensures Model() == After(old(Model()), StoreModel.UpdateProductQuantity(old(Model()), caller, id, quantity))
      ensures StoreModel.UpdateProductQuantity(old(Model()), caller, id, quantity).Ok? ==> r == Ok(())
      ensures StoreModel.UpdateProductQuantity(old(Model()), caller, id, quantity).Err? ==>
                r == Err(StoreModel.UpdateProductQuantity(old(Model()), caller, id, quantity).error)
    {
      if caller != owner {
        return Err(NotOwner);
      }
      if id >= |catalog| {
        return Err(ProductNotFound);
      }
      catalog := catalog[id := catalog[id].(quantity := quantity)];
      r := Ok(());
    }

    method BuyProduct(caller: Identity, id: nat, now: nat) returns (r: Result<()>)
      requires Valid()
      modifies this
      ensures Valid()
      ensures Model() == After(old(Model()), StoreModel.BuyProduct(old(Model()), caller, id, now))
      ensures StoreModel.BuyProduct(old(Model()), caller, id, now).Ok? ==> r == Ok(())
      ensures StoreModel.BuyProduct(old(Model()), caller, id, now).Err? ==>
                r == Err(StoreModel.BuyProduct(old(Model()), caller, id, now).error)
    {
      if id >= |catalog| {
        return Err(ProductNotFound);
      }
      if catalog[id].quantity == 0 {
        return Err(OutOfStock);
      }
      var key := (id, caller);
      if key in purchases && purchases[key].active {
        return Err(DuplicatePurchase);
      }
      catalog := catalog[id := catalog[id].(quantity := catalog[id].quantity - 1)];
      purchases := purchases[key := Purchase(true, now)];
      r := Ok(());
    }

    method RefundProduct(caller: Identity, id: nat, now: nat) returns (r: Result<()>)
      requires Valid() && TickOk(Model(), now)
      modifies this
      ensures Valid()
      ensures Model() == After(old(Model()), StoreModel.RefundProduct(old(Model()), caller, id, now))
      ensures StoreModel.RefundProduct(old(Model()), caller, id, now).Ok? ==> r == Ok(())
      ensures StoreModel.RefundProduct(old(Model()), caller, id, now).Err? ==>
                r == Err(StoreModel.RefundProduct(old(Model()), caller, id, now).error)
    {
      var key := (id, caller);
      if !(key in purchases && purchases[key].active) {
        return Err(NoActivePurchase);
      }
      if now - purchases[key].boughtAt > RefundWindow {
        return Err(RefundDenied);
      }
      catalog := catalog[id := catalog[id].(quantity := catalog[id].quantity + 1)];
      purchases := purchases[key := purchases[key].(active := false)];
      r := Ok(());
    }

    method GetProductById(id: nat) returns (p: Option<Product>)
      ensures p == ProductById(Model(), id)
      // The next clauses follow from the one above; they are spelled out for callers.
      ensures p.Some? <==> id < |catalog|
      ensures p.Some? ==> p.value == catalog[id]
    {
      if id < |catalog| {
        p := Some(catalog[id]);
      } else {
        p := None;
      }
    }

    /** A linear scan of the catalog that stops at the first product called `name`. */
    method GetProductByName(name: string) returns (p: Option<Product>)
      ensures p == ProductByName(Model(), name)
      // The next clauses follow from the one above; they are spelled out for callers.
      ensures p.Some? ==> p.value.name == name && p.value in catalog
      ensures p.None? <==> forall i :: 0 <= i < |catalog| ==> catalog[i].name != name
    {
      var i := 0;
      while i < |catalog|
        invariant i <= |catalog|
        invariant forall j :: 0 <= j < i ==> catalog[j].name != name
      {
        if catalog[i].name == name {
          assert FirstIndexByName(catalog, name) == Some(i);
          return Some(catalog[i]);
        }
        i := i + 1;
      }
      p := None;
    }
  }
}
