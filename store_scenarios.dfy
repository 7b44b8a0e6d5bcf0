/** The behaviour the Hardhat test suite of the Store checks, one method per test case.
    Each method deploys a fresh Store and sends the test's transactions, and its
    postcondition is what the test expects to observe. `block` is the block the first
    timed transaction is mined in; every later transaction goes into the next block.
    In the suite the buyer is the deploying account itself; here it is any account. */
module StoreScenarios {
  import opened StoreModel
  import opened StoreContract

  method OwnerAddsProduct(owner: Identity) returns (product: Option<Product>)
    ensures product == Some(Product("Vodka", 10))
  {
    var store := new Store(owner);
    var added := store.AddProduct(owner, "Vodka", 10);
    product := store.GetProductByName("Vodka");
  }

  method NonOwnerCannotAddProduct(owner: Identity, other: Identity) returns (r: Result<nat>, catalog: seq<Product>)
    requires other != owner
    ensures r == Err(NotOwner) && r.error.Reason() == "Ownable: caller is not the owner"
    ensures catalog == []
  {
    var store := new Store(owner);
    r := store.AddProduct(other, "Vodka", 10);
    catalog := store.catalog;
  }

  method ProductNeedsName(owner: Identity) returns (r: Result<nat>, catalog: seq<Product>)
    ensures r == Err(EmptyName) && r.error.Reason() == "You have to enter a name!"
    ensures catalog == []
  {
    var store := new Store(owner);
    r := store.AddProduct(owner, "", 10);
    catalog := store.catalog;
  }

  method ProductNeedsQuantity(owner: Identity) returns (r: Result<nat>, catalog: seq<Product>)
    ensures r == Err(ZeroQuantity) && r.error.Reason() == "Quantity can't be 0!"
    ensures catalog == []
  {
    var store := new Store(owner);
    r := store.AddProduct(owner, "Vodka", 0);
    catalog := store.catalog;
  }

  method OwnerUpdatesQuantity(owner: Identity) returns (r: Result<()>, product: Option<Product>)
    ensures r == Ok(())
    ensures product == Some(Product("Tequila", 5))
  {
    var store := new Store(owner);
    var added := store.AddProduct(owner, "Tequila", 10);
    r := store.UpdateProductQuantity(owner, 0, 5);
    product := store.GetProductByName("Tequila");
  }

  method NonOwnerCannotUpdateQuantity(owner: Identity, other: Identity) returns (r: Result<()>, product: Option<Product>)
    requires other != owner
    ensures r == Err(NotOwner) && r.error.Reason() == "Ownable: caller is not the owner"
    ensures product == Some(Product("Tequila", 10))
  {
    var store := new Store(owner);
    var added := store.AddProduct(owner, "Tequila", 10);
    r := store.UpdateProductQuantity(other, 0, 5);
    product := store.GetProductById(0);
  }

  method UpdateOfMissingProduct(owner: Identity) returns (r: Result<()>, catalog: seq<Product>)
    ensures r == Err(ProductNotFound) && r.error.Reason() == "This product does not exist!"
    ensures catalog == []
  {
    var store := new Store(owner);
    r := store.UpdateProductQuantity(owner, 0, 5);
    catalog := store.catalog;
  }

  method BuyerBuysProduct(owner: Identity, buyer: Identity, block: nat) returns (r: Result<()>, product: Option<Product>)
    ensures r == Ok(())
    ensures product == Some(Product("Wiskey", 9))
  {
    var store := new Store(owner);
    var added := store.AddProduct(owner, "Wiskey", 10);
    r := store.BuyProduct(buyer, 0, block);
    product := store.GetProductByName("Wiskey");
  }

  method BuyerCannotBuyTwice(owner: Identity, buyer: Identity, block: nat) returns (r: Result<()>, product: Option<Product>)
    ensures r == Err(DuplicatePurchase) && r.error.Reason() == "You cannot buy the same product more than once!"
    ensures product == Some(Product("Wiskey", 9))
  {
    var store := new Store(owner);
    var added := store.AddProduct(owner, "Wiskey", 10);
    var first := store.BuyProduct(buyer, 0, block);
    r := store.BuyProduct(buyer, 0, block + 1);
    product := store.GetProductByName("Wiskey");
  }

  /** The second product gets id 1. Once its single unit is sold, the next purchase is
      refused for lack of stock, whoever sends it: in the suite it is the first buyer
      again, who also holds an active purchase, and stock is checked first. */
  method SoldOutProduct(owner: Identity, buyer: Identity, other: Identity, block: nat)
    returns (id: Result<nat>, r: Result<()>, product: Option<Product>)
    ensures id == Ok(1)
    ensures r == Err(OutOfStock) && r.error.Reason() == "Quantity can't be 0!"
    ensures product == Some(Product("Mastika", 0))
  {
    var store := new Store(owner);
    var added := store.AddProduct(owner, "Wiskey", 10);
    id := store.AddProduct(owner, "Mastika", 1);
    var first := store.BuyProduct(buyer, 1, block);
    r := store.BuyProduct(other, 1, block + 1);
    product := store.GetProductById(1);
  }

  method RefundWithinWindow(owner: Identity, buyer: Identity, block: nat)
    returns (sold: Option<Product>, r: Result<()>, returned: Option<Product>)
    ensures sold == Some(Product("Rakia", 0))
    ensures r == Ok(())
    ensures returned == Some(Product("Rakia", 1))
  {
    var store := new Store(owner);
    var added := store.AddProduct(owner, "Rakia", 1);
    assert store.catalog == [Product("Rakia", 1)] && store.purchases == map[];
    var bought := store.BuyProduct(buyer, 0, block);
    assert store.catalog == [Product("Rakia", 0)] && store.purchases == map[(0, buyer) := Purchase(true, block)];
    sold := store.GetProductById(0);
    r := store.RefundProduct(buyer, 0, block + 1);
    returned := store.GetProductById(0);
  }

  method RefundOnlyOnce(owner: Identity, buyer: Identity, block: nat) returns (r: Result<()>, product: Option<Product>)
    ensures r == Err(NoActivePurchase)
    ensures r.error.Reason() == "You've already returned your product or didn't even bought it."
    ensures product == Some(Product("Djin", 1))
  {
    var store := new Store(owner);
    var added := store.AddProduct(owner, "Djin", 1);
    assert store.catalog == [Product("Djin", 1)] && store.purchases == map[];
    var bought := store.BuyProduct(buyer, 0, block);
    assert store.catalog == [Product("Djin", 0)] && store.purchases == map[(0, buyer) := Purchase(true, block)];
    var refunded := store.RefundProduct(buyer, 0, block + 1);
    assert store.catalog == [Product("Djin", 1)] && store.purchases == map[(0, buyer) := Purchase(false, block)];
    r := store.RefundProduct(buyer, 0, block + 2);
    product := store.GetProductById(0);
  }

  /** 101 empty blocks are mined after the purchase; the refund then goes into the block
      after them, 102 blocks after the purchase. */
  method RefundAfterWindow(owner: Identity, buyer: Identity, block: nat) returns (r: Result<()>, product: Option<Product>)
    ensures r == Err(RefundDenied) && r.error.Reason() == "Sorry, your request for refund has been denied."
    ensures product == Some(Product("Djin", 0))
  {
    var store := new Store(owner);
    var added := store.AddProduct(owner, "Djin", 1);
    var bought := store.BuyProduct(buyer, 0, block);
    var now := block;
    var mined := 0;
    while mined < 101
      invariant mined <= 101
      invariant now == block + mined
    {
      now := now + 1;
      mined := mined + 1;
    }
    r := store.RefundProduct(buyer, 0, now + 1);
    product := store.GetProductById(0);
  }
}
