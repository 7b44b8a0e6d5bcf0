# Store: a verified model of a single-owner inventory contract

The Store is an Ethereum contract with one owner; in this model the owner is fixed at
deployment. The owner keeps a
catalog of named products with stock quantities. Any account may buy one unit of a
product and may return it for a refund within 100 blocks. The contract's Solidity source
is not part of this model. What is modelled is the behaviour its Hardhat test suite,
`test/Store.js`, checks, plus the choices listed under Decisions where the suite is silent.

The project has four modules:

- `StoreModel` (`store_model.dfy`) is the specification, written on values. It defines the
  contract storage `State`, made of the owner, the catalog (a `seq<Product>` whose index is
  the product id) and the purchase records (a map from `(product id, buyer)` to an active
  flag and the block of the purchase). It gives each transaction (`AddProduct`,
  `UpdateProductQuantity`, `BuyProduct`, `RefundProduct`) as a function returning either
  the new state or a `StoreError`. `StoreError.Reason()` gives each error's exact revert
  reason string. The lookups are `ProductById` and `ProductByName`. `Execute` and `Run`
  apply one transaction, or a whole block-ordered trace of them. A reverted transaction
  leaves the state as it was (`After`).
- `StoreContract` (`store.dfy`) is the contract as a class `Store` with an immutable
  `owner` and mutable `catalog` and `purchases` fields. Each transaction method takes the
  caller, and the block number where needed, as explicit parameters. Each is proved to
  leave exactly the state its `StoreModel` function gives, and to return that function's
  outcome. The two lookups are read-only methods; the name lookup is a linear scan.
- `StoreProperties` (`store_properties.dfy`) proves what the contract promises about the
  specification. It covers the outcome and error order of each transaction, the lookups
  after a change, the buy/refund round trip and the refund deadline. It also proves two
  invariants of arbitrary traces. Stock is conserved: units in stock plus units held
  under active purchases stay constant without owner updates. And a purchase whose refund
  window has passed stays active forever.
- `StoreScenarios` (`store_scenarios.dfy`) has one method per test case of the suite.
  Each deploys a fresh `Store`, sends the test's transactions, and promises what the test
  expects to observe.

Decisions:

- Refund window. A refund succeeds while at most `RefundWindow = 100` blocks have passed
  since the purchase (`now - boughtAt <= 100`). The tests fix neither boundary. A refund in
  the block right after the purchase succeeds. A refund sent after 101 further blocks have
  been mined lands 102 blocks after the purchase and is denied. Both hold with either
  choice (`RefundWithinWindow`, `RefundAfterWindow`). `RefundDeadline` pins the chosen
  boundary: 100 blocks succeeds, 101 is denied.
- Block numbers. They are a caller-supplied `nat`. A refund requires `TickOk`: no recorded
  purchase is stamped with a later block than the current one. This is the part of "block
  numbers never decrease" that the elapsed-time computation relies on. `Run` requires the
  trace to be in block order (`Chronological`).
- Check order. `addProduct`: owner, then name, then quantity. `updateProductQuantity`:
  owner, then existence. `buyProduct`: existence, then stock, then duplicate purchase.
  `refundProduct`: active purchase, then window. The suite treats a second purchase of a
  sold-out product by a buyer who already holds it as a stock error, so stock comes before
  the duplicate check.
- Errors. Adding a product with quantity 0 (`ZeroQuantity`) and buying one with no stock
  (`OutOfStock`) are two errors with the same reason string, "Quantity can't be 0!".
- Lookups. A missing id or name gives `None`. The suite never looks up a missing product,
  so it does not show what the contract does on a miss.
- Quantities are `nat`, so no state has a negative quantity. A purchase needs a unit in stock,
  so it never takes a quantity below zero.
- Re-buying. Only an active record blocks a purchase. A refunded record is inactive, so its
  buyer may buy the same product again (`RebuyAfterRefund`). A purchase whose refund window
  lapsed stays active for good (`ExpiredPurchaseIsPermanent`), so from then on its buyer gets
  DuplicatePurchase on that product while stock lasts (`ExpiredBuyerCannotRebuy`). The suite
  tests neither case.
- Accounts. In the suite every buyer is the deploying account. The scenarios take the
  buyer as an arbitrary account, so they also cover the owner buying.

## Model

| member | source | states |
|---|---|---|
| StoreModel.FirstIndexByName | test/Store.js:22-24 | the index found is the first product with the name: it has the name and no earlier product does; no index means no product has the name |
| StoreModel.StoreError.Reason | test/Store.js:28-147 | each error's exact revert reason string; "Quantity can't be 0!" is the reason of exactly the zero-quantity add and the out-of-stock purchase |
| StoreModel.AddProduct | test/Store.js:20-37 | succeeds iff the caller is the owner, the name non-empty and the quantity positive; then appends exactly the new product at id old length and keeps the owner, all names and well-formedness |
| StoreModel.UpdateProductQuantity | test/Store.js:41-56 | succeeds iff the caller is the owner and the product exists; then sets that quantity, keeps the purchase records, the catalog length, the names and well-formedness |
| StoreModel.BuyProduct | test/Store.js:65-89 | succeeds iff the product exists, is in stock and the caller holds no active purchase of it; then takes exactly one unit and leaves an active record for the caller, keeping names, length and well-formedness |
| StoreModel.RefundProduct | test/Store.js:93-153 | succeeds iff the caller holds an active purchase made at most RefundWindow blocks ago; then gives exactly one unit back and leaves the record inactive, keeping names, length and well-formedness |
| StoreModel.ProductById | test/Store.js:100-101 | the product at that id, and None exactly when the id is past the catalog |
| StoreModel.ProductByName | test/Store.js:22-24 | a product carrying the name, taken from the catalog, and None exactly when no product has the name |
| StoreModel.Execute | test/Store.js:4-155 | every transaction, committed or reverted, keeps every purchase record pointing at an existing product, keeps the owner, never removes or renames a product |
| StoreModel.Run | test/Store.js:4-155 | a block-ordered trace of transactions keeps the same invariants: records point at existing products, catalog append-only, names and owner fixed |
| StoreContract.Store.constructor | test/Store.js:11-13 | deployment makes the deployer the owner of an empty catalog with no purchases |
| StoreContract.Store.AddProduct | test/Store.js:20-37 | the storage becomes exactly what `StoreModel.AddProduct` gives (unchanged on a revert); the result is the new product's id, the old catalog length, or the revert error |
| StoreContract.Store.UpdateProductQuantity | test/Store.js:41-56 | the storage becomes exactly what `StoreModel.UpdateProductQuantity` gives, unchanged on a revert; the result is its outcome |
| StoreContract.Store.BuyProduct | test/Store.js:65-89 | the storage becomes exactly what `StoreModel.BuyProduct` gives, unchanged on a revert; the result is its outcome |
| StoreContract.Store.RefundProduct | test/Store.js:93-153 | the storage becomes exactly what `StoreModel.RefundProduct` gives, unchanged on a revert; the result is its outcome |
| StoreContract.Store.GetProductById | test/Store.js:100-101 | returns `StoreModel.ProductById`: the product with that id, or None exactly when the id is past the catalog |
| StoreContract.Store.GetProductByName | test/Store.js:22-24 | the scan returns `StoreModel.ProductByName`: the first product with that name in catalog order, or None exactly when no product has the name |
| StoreProperties.FirstIndexByNameAppend | test/Store.js:21-22 | appending a product changes the name lookup only when no earlier product has the name, and then finds the new product at the old length |
| StoreProperties.AddProductOutcome | test/Store.js:27-37 | addProduct succeeds iff the caller is the owner, the name is non-empty and the quantity positive; otherwise NotOwner, then EmptyName, then ZeroQuantity, in that order of precedence |
| StoreProperties.AddProductThenLookup | test/Store.js:20-25 | a successful addProduct appends exactly the new product at id old length, keeps the purchases, and both lookups then find it (the name lookup unless an earlier product has the same name) |
| StoreProperties.OnlyOwnerAdministers | test/Store.js:27-29 | any caller other than the owner gets NotOwner from addProduct and from updateProductQuantity, for every argument, and the state is unchanged |
| StoreProperties.UpdateProductQuantityOutcome | test/Store.js:41-56 | the owner's update of an existing product sets its quantity (zero included), keeps its name and every other record; on a missing id it reverts with ProductNotFound |
| StoreProperties.UpdateThenLookupByName | test/Store.js:41-47 | after an update the name lookup finds the same product as before, carrying the new quantity when it is the updated one |
| StoreProperties.BuyProductOutcome | test/Store.js:65-89 | buyProduct succeeds iff the product exists, is in stock and the caller holds no active purchase of it; errors ProductNotFound, OutOfStock, DuplicatePurchase in that precedence, so a sold-out product rejects every caller |
| StoreProperties.BuyProductEffect | test/Store.js:65-71 | a purchase takes exactly one unit of that product, keeps its name and the other products, and records an active purchase stamped with the block |
| StoreProperties.BuyTwice | test/Store.js:73-89 | a second purchase by the same buyer fails: DuplicatePurchase while stock is left, OutOfStock when the first took the last unit |
| StoreProperties.RefundProductOutcome | test/Store.js:93-153 | a refund fails with NoActivePurchase without an active purchase; with one it succeeds iff at most RefundWindow blocks have passed, else RefundDenied; success returns one unit and deactivates only that record |
| StoreProperties.BuyRefundRoundTrip | test/Store.js:93-129 | buying then refunding within the window restores the catalog exactly and leaves the record inactive; a further refund fails with NoActivePurchase |
| StoreProperties.RefundDeadline | test/Store.js:131-153 | after a purchase, a refund exactly RefundWindow blocks later succeeds and one block later is denied |
| StoreProperties.RebuyAfterRefund | test/Store.js:93-110 | after a successful refund the same buyer can buy the same product again, in any later block |
| StoreProperties.ExpiredBuyerCannotRebuy | test/Store.js:131-153 | a buyer whose active purchase is past its refund window is refused that product: DuplicatePurchase while stock lasts, OutOfStock otherwise |
| StoreProperties.ExecutePreservesUnits | test/Store.js:65-110 | every transaction except a quantity update keeps stock plus active purchases of each existing product constant |
| StoreProperties.RunPreservesUnits | test/Store.js:65-153 | over any block-ordered trace without quantity updates, stock plus active purchases of each existing product is conserved |
| StoreProperties.ExecuteKeepsExpiredPurchase | test/Store.js:131-153 | a transaction in a block past an active purchase's refund window leaves that purchase record unchanged |
| StoreProperties.ExpiredPurchaseIsPermanent | test/Store.js:131-153 | once an active purchase's refund window has passed, no later trace of transactions deactivates or changes it |
| StoreScenarios.OwnerAddsProduct | test/Store.js:20-25 | after the owner adds Vodka with 10 units the name lookup returns Vodka with quantity 10 |
| StoreScenarios.NonOwnerCannotAddProduct | test/Store.js:27-29 | another account's addProduct reverts with "Ownable: caller is not the owner" and the catalog stays empty |
| StoreScenarios.ProductNeedsName | test/Store.js:31-33 | addProduct with an empty name reverts with "You have to enter a name!" and adds nothing |
| StoreScenarios.ProductNeedsQuantity | test/Store.js:35-37 | addProduct with quantity 0 reverts with "Quantity can't be 0!" and adds nothing |
| StoreScenarios.OwnerUpdatesQuantity | test/Store.js:41-47 | updating product 0 to 5 succeeds and the name lookup returns Tequila with quantity 5 |
| StoreScenarios.NonOwnerCannotUpdateQuantity | test/Store.js:49-52 | another account's update reverts with "Ownable: caller is not the owner" and the product keeps quantity 10 |
| StoreScenarios.UpdateOfMissingProduct | test/Store.js:54-56 | updating a missing product reverts with "This product does not exist!" and the catalog stays empty |
| StoreScenarios.BuyerBuysProduct | test/Store.js:65-71 | a purchase succeeds and takes Wiskey from 10 to 9 |
| StoreScenarios.BuyerCannotBuyTwice | test/Store.js:73-77 | a second purchase by the same buyer reverts with "You cannot buy the same product more than once!" and the quantity stays 9 |
| StoreScenarios.SoldOutProduct | test/Store.js:79-89 | the second product gets id 1; after its only unit is sold, any account's purchase reverts with "Quantity can't be 0!" and the quantity stays 0 |
| StoreScenarios.RefundWithinWindow | test/Store.js:93-110 | buying Rakia takes it to 0 and a refund in the next block succeeds and takes it back to 1 |
| StoreScenarios.RefundOnlyOnce | test/Store.js:112-129 | a second refund reverts with "You've already returned your product or didn't even bought it." and the quantity stays 1 |
| StoreScenarios.RefundAfterWindow | test/Store.js:131-153 | after 101 mined blocks the refund reverts with "Sorry, your request for refund has been denied." and the quantity stays 0 |

## Left out

- The Solidity source of the Store is not part of this model. Its behaviour is what the test suite checks; where the suite is silent, the Decisions above say which choice was made.
- Deployment, signers, `connect`, `wait()` and the async sequencing of the suite (test/Store.js:9-17) are plumbing: accounts are an opaque `Identity` and transactions are plain calls.
- `evm_mine` (test/Store.js:139-141) is not modelled as block production. There is no clock: the block of each timed transaction is a parameter, and `RefundAfterWindow` only counts the mined blocks.
- The "VM Exception while processing transaction: reverted with reason string" wrapper is transport text; only the reason strings are modelled.
- The `try/catch` blocks at test/Store.js:84-88 and 144-148 would also pass if no revert happened. The scenarios state that the revert does happen.
- Gas, EVM storage layout and events are not modelled.
- Quantities are unbounded `nat`, so the `uint256` arithmetic of the contract is not modelled. A refund that would overflow a quantity of 2^256-1 is outside the model.
- StoreContract.Store.RefundProduct: requires `TickOk` (no recorded purchase after the current block) rather than full monotonicity of block numbers, because that is all the elapsed-block computation needs.
- A lookup that finds nothing gives `None`. The suite never exercises a miss, so what the contract returns then is not shown; an explicit signal is the clearer choice.
- Ownership transfer and renunciation (`transferOwnership`, `renounceOwnership` of the Ownable base whose revert reason the owner check uses) are not modelled; the owner is a `const`, and the "keeps the owner" parts of `StoreModel.Execute` and `StoreModel.Run` hold only because those two calls are left out.
