# Paw-mate stores and pet validator in Dafny

Paw-mate is a small mobile storefront for adopting pets. All of its state lives
in two client-side stores, and one schema checks the add-pet form. This project
models those three pieces and proves what they promise:

- **Cart store** (`cart.dfy`, module `Cart`). The cart is an ordered list of
  cart lines. Each line is a snapshot of a pet plus a quantity, keyed by the
  pet's id. The pure functions `Added`, `Increased`, `Decreased` and `Removed`
  compute the list each store action installs. `TotalPrice` is the
  `getTotalPrice` sum. `ItemCount` is the home screen's badge count and
  `InCart` is the pet card's "already in cart" test. The class `CartStore`
  holds `cartItems` and swaps in each new value. Its invariant `Valid()` says
  the ids are pairwise distinct and every quantity is at least 1.
- **Pets store** (`catalog.dfy`, module `Catalog`). The catalog is an ordered
  list of pets that starts as the one seed pet "Buddy" with id "1". `Appended`
  is `addPet`: it appends a copy of the input whose id is replaced by a
  generated one. `Without` is `removePet`: it keeps the pets with another id.
  The class `PetsStore` holds `pets`.
- **Pet validator** (`validation.dfy`, module `Validation`). This is the form
  schema as a pure function, `Validate`. Name and breed are trimmed, then must
  be non-empty, then at least 2 characters long. Age and price are coerced;
  an empty string counts as missing. Then each must be a number and positive,
  and age must also be whole. `Validate` returns either the normalised record
  or a map holding one message for each failing field.

`pets.dfy` holds the shared `Pet` record and `wrappers.dfy` holds
`Option`/`Result`. Prices are exact `real`s and ages are `int`s throughout.
The source keeps them as text on some paths and converts with `Number` when
it sums the cart. Each store's update is a pure function of the old state,
and the store classes apply it, so every class method's postcondition names
the function it applies.

The pets store generates ids from the clock. Here the generated id is the
`newId` parameter of `AddPet`. Nothing in `addPet` rejects an id that is
already in the catalog, so `AppendedUnique` requires a fresh `newId`.

## Model

| member | source | states |
|---|---|---|
| Cart.IndexOf | store/cartStore.js:8-10 | the `find` result: the first position whose line has the id, or none when no line has it |
| Cart.InCart | components/PetCard.js:18 | true exactly when some line carries the id |
| Cart.IndexOfUnique | store/cartStore.js:8-10 | on a cart with distinct ids, the line found for an id is the only line with that id |
| Cart.AddedNew | store/cartStore.js:22-24 | adding a pet that is not in the cart appends exactly one line, the pet with quantity 1, after all earlier lines |
| Cart.AddedExisting | store/cartStore.js:8-19 | adding a pet already in the cart adds 1 to its line, keeps that line's stored snapshot, and leaves length, order and all other lines unchanged |
| Cart.AddedTwice | store/cartStore.js:6-25 | adding a new pet twice yields one line for it with quantity 2 |
| Cart.AddedIds | store/cartStore.js:6-25 | the cart's ids after an add are the old ids plus the pet's id |
| Cart.AddedKeepsOut | components/PetCard.js:20-24 | if callers never add the featured card's id `"random"` (`RandomId`), it never enters the cart |
| Cart.AddedWellFormed | store/cartStore.js:6-25 | adding keeps ids distinct and every quantity at least 1 |
| Cart.IncreasedAt | store/cartStore.js:27-34 | increasing adds 1 to the matching line only and keeps length and order |
| Cart.IncreasedAbsent | store/cartStore.js:27-34 | increasing an unknown id leaves the cart unchanged |
| Cart.IncreasedWellFormed | store/cartStore.js:27-34 | increasing keeps ids distinct and every quantity at least 1 |
| Cart.DecreasedAbove1 | store/cartStore.js:42-49 | a line whose quantity is above 1 loses 1 and stays in place; the others are unchanged |
| Cart.DecreasedAtMost1 | store/cartStore.js:51-56 | a line whose quantity is not above 1 is removed; the others keep their order |
| Cart.DecreasedAbsent | store/cartStore.js:36-57 | decreasing an unknown id leaves the cart unchanged |
| Cart.DecreasedWellFormed | store/cartStore.js:36-57 | decreasing keeps ids distinct and every quantity at least 1 |
| Cart.SliceOutWellFormed | store/cartStore.js:53-55 | dropping one line from a well-formed cart leaves it well-formed |
| Cart.WithoutMembers | store/cartStore.js:61 | the filter keeps exactly the lines whose id differs |
| Cart.WithoutConcat | store/cartStore.js:61 | the filter distributes over concatenation, so the kept lines keep their relative order |
| Cart.WithoutAbsent | store/cartStore.js:61 | filtering out an id no line has changes nothing |
| Cart.WithoutAt | store/cartStore.js:61 | on a cart with distinct ids, filtering out the id of line k gives the lines before k followed by the lines after it |
| Cart.BumpedAt | store/cartStore.js:29-33 | the quantity map on a cart with distinct ids changes line k alone |
| Cart.RemovedAt | store/cartStore.js:59-62 | removing deletes the matching line whatever its quantity; the other lines keep their order |
| Cart.RemovedAbsent | store/cartStore.js:59-62 | removing an unknown id leaves the cart unchanged |
| Cart.RemovedIdempotent | store/cartStore.js:59-62 | removing the same id twice equals removing it once |
| Cart.RemovedIds | store/cartStore.js:59-62 | the ids after removal are the old ids minus the removed one |
| Cart.RemovedWellFormed | store/cartStore.js:59-62 | removing keeps ids distinct and every quantity at least 1 |
| Cart.TimesIsProduct | store/cartStore.js:67 | the repeated-addition line total equals price times quantity for every integer quantity |
| Cart.LineTotalIsProduct | store/cartStore.js:67 | a line contributes exactly price × quantity |
| Cart.TotalConcat | store/cartStore.js:64-70 | the total of two carts laid end to end is the sum of their totals |
| Cart.TotalReplace | store/cartStore.js:64-70 | replacing one line changes the total by the difference of the two line totals |
| Cart.TotalDrop | store/cartStore.js:64-70 | dropping one line lowers the total by that line's price × quantity |
| Cart.TotalExamples | store/cartStore.js:64-70 | the empty cart totals 0, and a single line of price 100 and quantity 3 totals 300 |
| Cart.TotalAddedNew | store/cartStore.js:22-24 | adding a new pet raises the total by its price |
| Cart.TotalAddedExisting | store/cartStore.js:12-19 | adding a pet already present raises the total by the stored snapshot's price, not the new argument's |
| Cart.TotalIncreased | store/cartStore.js:27-34 | increasing a line raises the total by its unit price |
| Cart.TotalDecreased | store/cartStore.js:36-57 | decreasing a line lowers the total by its unit price, whether the line stays or goes |
| Cart.TotalRemoved | store/cartStore.js:59-62 | removing a line lowers the total by its price × quantity |
| Cart.CountConcat | screens/HomeScreen.js:29 | the badge count of two carts laid end to end is the sum of their counts |
| Cart.CountAdded | screens/HomeScreen.js:29 | every add, new pet or not, raises the badge count by exactly 1 |
| Cart.CountDecreased | screens/HomeScreen.js:29 | every decrease of a present line lowers the badge count by exactly 1 |
| Cart.CountRemoved | screens/HomeScreen.js:29 | removing a line lowers the badge count by its quantity |
| Cart.CountAtLeastLines | screens/HomeScreen.js:29 | on a well-formed cart the badge count is at least the number of lines |
| Cart.CartStore.constructor | store/cartStore.js:4 | the cart starts empty, and the empty cart is well-formed |
| Cart.CartStore.AddToCart | store/cartStore.js:6-25 | installs `Added` of the old list and keeps the invariant |
| Cart.CartStore.IncreaseQuantity | store/cartStore.js:27-34 | installs `Increased` of the old list and keeps the invariant |
| Cart.CartStore.DecreaseQuantity | store/cartStore.js:36-57 | installs `Decreased` of the old list and keeps the invariant |
| Cart.CartStore.RemoveFromCart | store/cartStore.js:59-62 | installs `Removed` of the old list and keeps the invariant |
| Cart.CartStore.GetTotalPrice | store/cartStore.js:64-70 | returns the sum of price × quantity over the current lines and changes nothing |
| Catalog.SeedShape | store/petsStore.js:4-14 | the initial catalog is exactly one pet, with id "1" |
| Catalog.SeedPassesValidation | store/petsStore.js:5-13 | the seed pet passes the form schema unchanged |
| Catalog.AppendedShape | store/petsStore.js:16-25 | adding appends exactly one entry: length grows by 1, earlier entries are unchanged, and the new entry copies the input's fields under the generated id |
| Catalog.AppendedUnique | store/petsStore.js:16-25 | when the generated id is not already present, the ids stay unique and gain exactly that id |
| Catalog.AddToSeed | store/petsStore.js:4-25 | adding to the seeded catalog gives two pets: the seed first, then the new pet with a distinct id |
| Catalog.WithoutMembers | store/petsStore.js:27-30 | removal keeps exactly the pets whose id differs |
| Catalog.WithoutConcat | store/petsStore.js:29 | the filter distributes over concatenation, so the kept pets keep their order |
| Catalog.WithoutSingle | store/petsStore.js:29 | on one pet, the filter drops it exactly when its id matches |
| Catalog.WithoutAbsent | store/petsStore.js:27-30 | removing an absent id leaves the catalog unchanged |
| Catalog.WithoutIdempotent | store/petsStore.js:27-30 | removing the same id twice equals removing it once |
| Catalog.WithoutAt | store/petsStore.js:27-30 | with unique ids, removing the pet at k leaves the pets before and after it in order |
| Catalog.WithoutUnique | store/petsStore.js:27-30 | removal keeps ids unique and removes exactly that id from the set of ids |
| Catalog.PetsStore.constructor | store/petsStore.js:4-14 | the store starts as the seed catalog, whose ids are unique |
| Catalog.PetsStore.AddPet | store/petsStore.js:16-25 | installs `Appended` with the generated id; a fresh id keeps ids unique |
| Catalog.PetsStore.RemovePet | store/petsStore.js:27-30 | installs `Without` of the old catalog and keeps ids unique |
| Validation.TrimStartSpec | validation/petSchema.js:6 | leading trim keeps a suffix that starts visibly and drops only white space |
| Validation.TrimEndSpec | validation/petSchema.js:6 | trailing trim keeps a prefix that ends visibly and drops only white space |
| Validation.TrimSpec | validation/petSchema.js:6 | the trim is a slice of the input with visible ends and only white space outside it |
| Validation.TrimCore | validation/petSchema.js:6 | any slice with visible ends and only white space around it is the trim (the trim is unique) |
| Validation.TrimVisibleEnds | validation/petSchema.js:6 | text without white space at either end is unchanged by trimming |
| Validation.TrimIdempotent | validation/petSchema.js:6 | trimming twice equals trimming once |
| Validation.TrimEmptyIff | validation/petSchema.js:6-7 | the trim is empty exactly when every character is white space |
| Validation.TrimAtLeastTwoIff | validation/petSchema.js:6-8 | the trim has at least 2 characters exactly when two distinct positions of the raw text are visible |
| Validation.CheckText | validation/petSchema.js:4-13 | a text field passes exactly when its trim has at least 2 characters, and then yields the trimmed text |
| Validation.NameOutcomes | validation/petSchema.js:4-8 | trimmed name of length 0 is "Pet name is required", length 1 is "Name must be at least 2 characters", longer is valid and normalised to the trim |
| Validation.NameOnRawText | validation/petSchema.js:4-8 | a name is missing exactly when it is all white space, and valid exactly when two of its characters are visible |
| Validation.BreedOutcomes | validation/petSchema.js:9-13 | the same three outcomes for breed, with "Breed is required" and "Breed must be at least 2 characters" |
| Validation.CheckAge | validation/petSchema.js:14-22 | age passes exactly when it is a positive whole number, and then yields that number |
| Validation.AgeOutcomes | validation/petSchema.js:14-22 | an empty age is "Age is required" (not 0), non-numeric text is "Age must be a number", ≤ 0 is "Age must be positive", a positive fraction is "Age must be a whole number" |
| Validation.CheckPrice | validation/petSchema.js:23-30 | price passes exactly when it is a positive number, fractions included, and then yields that number |
| Validation.PriceOutcomes | validation/petSchema.js:23-30 | empty is "Price is required", non-numeric is "Price must be a number", ≤ 0 is "Price must be positive" |
| Validation.Errors | validation/petSchema.js:3-31 | the error map has an entry for exactly the failing fields, each holding that field's own message |
| Validation.Validate | validation/petSchema.js:3-31 | the record is valid exactly when all four fields are valid; it then holds the trimmed name and breed and the numeric age and price, and otherwise the error map of every failing field |
| Validation.FieldIndependence | validation/petSchema.js:3-31 | each field's verdict depends only on that field's input |
| Validation.ShortNameExample | validation/petSchema.js:4-8 | {"A", "Lab", 3, 10} is rejected with the name-length message and no other error |
| Validation.EmptyFormExample | validation/petSchema.js:3-31 | {"", "", empty age, -5} reports name, breed and age as required and price as not positive, all at once |

## Left out

- Rendering, navigation, image picking, toasts and the splash timer
  (`screens/`, `components/`, `App.js`) are not modelled. Only the pet card's
  membership test, the home screen's badge count and the rule that the
  "random" placeholder card is never added are modelled, the last as a caller
  precondition (`AddedKeepsOut`).
- The two HTTP calls in `services/api.js`, and the submit and fetch flows
  that use them, are network I/O. They are not modelled.
- The clock read that generates a pet's id (`Date.now().toString()`) is the
  `newId` parameter. The model does not capture that two adds in the same
  millisecond would collide.
- The state library's subscription and re-render machinery is not modelled.
  Only the state transitions are.
- JavaScript's `Number(...)` string parsing is abstracted into `NumInput`.
  `Blank` stands for the empty string, `NotNumeric` for NaN, and `Num(v)` for
  any other result, including the 0 that white space alone parses to.
- Validation.CheckAge: infinite numbers are not modelled. `Number("Infinity")`
  fails the whole-number rule for age.
- Validation.CheckPrice: infinite numbers are not modelled. The source would
  accept a price of `Infinity`.
- Floating-point rounding in `getTotalPrice` and in `toFixed(2)` display is not
  modelled. Sums and products are exact reals.
- Validation.CheckText: lengths count Unicode code points. JavaScript counts
  UTF-16 code units, so a single astral character such as an emoji passes the
  2-character minimum in the source but not in the model.
- Removing a pet from the catalog does not touch cart lines that hold its
  snapshot. The two stores are independent, in the source and here.
- Cart.CartStore.AddToCart and the other store methods promise the invariant
  only for a store that already satisfies it (`old(Valid()) ==> Valid()`),
  because the source's actions have no precondition. Every store built by the
  constructor satisfies it.
