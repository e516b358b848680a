/**
 * The shopping cart store: an ordered list of cart lines keyed by pet id.
 *
 * Each store operation replaces the whole list with a new value computed from
 * the old one (a `find`, a `map`, a `filter` or an append). Those new values are
 * the pure functions `Added`, `Increased`, `Decreased` and `Removed`; the class
 * `CartStore` holds the list and swaps in the new value, and the lemmas state
 * what each new value is, position by position, on a well-formed cart.
 */
module Cart {
  import opened Wrappers
  import opened Pets

  /** A cart line: the pet as it was when first added, and how many of it. */
  datatype CartLine = CartLine(pet: Pet, quantity: int)

  /** Line ids are pairwise distinct and every quantity is at least 1. */
  ghost predicate WellFormed(items: seq<CartLine>) {
    && (forall i, j :: 0 <= i < j < |items| ==> items[i].pet.id != items[j].pet.id)
    && (forall i :: 0 <= i < |items| ==> items[i].quantity >= 1)
  }

  /** The ids of the lines in the cart. */
  ghost function Ids(items: seq<CartLine>): set<string> {
    set l | l in items :: l.pet.id
  }

  /** The position of the first line with the given id (the store's `find`). */
  function IndexOf(items: seq<CartLine>, id: string): (r: Option<nat>)
    ensures r.Some? ==> r.value < |items| && items[r.value].pet.id == id
    ensures r.Some? ==> forall j :: 0 <= j < r.value ==> items[j].pet.id != id
    ensures r.None? ==> forall j :: 0 <= j < |items| ==> items[j].pet.id != id
  {
    if items == [] then None
    else if items[0].pet.id == id then Some(0)
    else match IndexOf(items[1..], id)
      case None => None
      case Some(k) => Some(k + 1)
  }

  /** Whether some line has the given id (the pet card's "in cart" test). */
  function InCart(items: seq<CartLine>, id: string): (b: bool)
    ensures b <==> exists i :: 0 <= i < |items| && items[i].pet.id == id
    ensures b <==> id in Ids(items)
  {
    var r := IndexOf(items, id);
    assert r.Some? ==> items[r.value] in items;
    r.Some?
  }

  /** Every line with the given id gets `delta` added to its quantity. */
  function Bumped(items: seq<CartLine>, id: string, delta: int): (r: seq<CartLine>) {
    seq(|items|, i requires 0 <= i < |items| =>
      if items[i].pet.id == id then items[i].(quantity := items[i].quantity + delta) else items[i])
  }

  /** The lines whose id differs from `id`, in their original order. */
  function Without(items: seq<CartLine>, id: string): (r: seq<CartLine>) {
    if items == [] then []
    else (if items[0].pet.id == id then [] else [items[0]]) + Without(items[1..], id)
  }

  /** The new cart after `addToCart(pet)`. */
  function Added(items: seq<CartLine>, pet: Pet): seq<CartLine> {
    if InCart(items, pet.id) then Bumped(items, pet.id, 1)
    else items + [CartLine(pet, 1)]
  }

  /** The new cart after `increaseQuantity(id)`. */
  function Increased(items: seq<CartLine>, id: string): seq<CartLine> {
    Bumped(items, id, 1)
  }

  /** The new cart after `decreaseQuantity(id)`. */
  function Decreased(items: seq<CartLine>, id: string): seq<CartLine> {
    match IndexOf(items, id)
    case Some(k) => if items[k].quantity > 1 then Bumped(items, id, -1) else Without(items, id)
    case None => Without(items, id)
  }

  /** The new cart after `removeFromCart(id)`. */
  function Removed(items: seq<CartLine>, id: string): seq<CartLine> {
    Without(items, id)
  }

  /**
   * `price * n`, written as repeated addition so that the sums below stay
   * linear for the prover; `TimesIsProduct` shows it is the product.
   */
  function Times(price: real, n: int): real
    decreases if n < 0 then -n else n
  {
    if n == 0 then 0.0
    else if n > 0 then Times(price, n - 1) + price
    else Times(price, n + 1) - price
  }

  /** What one line contributes to the total: its price times its quantity. */
  function LineTotal(line: CartLine): real {
    Times(line.pet.price, line.quantity)
  }

  /** `getTotalPrice`: a left-to-right sum of price times quantity. */
  function TotalPrice(items: seq<CartLine>): real {
    if items == [] then 0.0
    else TotalPrice(items[..|items| - 1]) + LineTotal(items[|items| - 1])
  }

  /** The cart badge: the sum of the quantities. */
  function ItemCount(items: seq<CartLine>): int {
    if items == [] then 0
    else ItemCount(items[..|items| - 1]) + items[|items| - 1].quantity
  }

  // ---------------------------------------------------------------------------
  // Structure of the helper values

  /** On a well-formed cart the line found for an id is the only line with it. */
  lemma IndexOfUnique(items: seq<CartLine>, id: string, k: nat)
    requires WellFormed(items) && k < |items| && items[k].pet.id == id
    ensures IndexOf(items, id) == Some(k)
  {
  }

  lemma BumpedAt(items: seq<CartLine>, id: string, delta: int, k: nat)
    requires WellFormed(items) && k < |items| && items[k].pet.id == id
    ensures Bumped(items, id, delta)
         == items[..k] + [items[k].(quantity := items[k].quantity + delta)] + items[k + 1..]
  {
    var r := Bumped(items, id, delta);
    var s := items[..k] + [items[k].(quantity := items[k].quantity + delta)] + items[k + 1..];
    assert |r| == |s|;
    forall i | 0 <= i < |r| ensures r[i] == s[i] {
      if i < k {
        assert items[i].pet.id != id;
      } else if i > k {
        assert items[k].pet.id != items[i].pet.id;
      }
    }
  }

  lemma BumpedAbsent(items: seq<CartLine>, id: string, delta: int)
    requires !InCart(items, id)
    ensures Bumped(items, id, delta) == items
  {
  }

  lemma {:induction false} WithoutConcat(a: seq<CartLine>, b: seq<CartLine>, id: string)
    ensures Without(a + b, id) == Without(a, id) + Without(b, id)
  {
    if a == [] {
      assert a + b == b;
    } else {
      assert (a + b)[1..] == a[1..] + b;
      WithoutConcat(a[1..], b, id);
    }
  }

  /** The lines kept are exactly those whose id differs. */
  lemma {:induction false} WithoutMembers(items: seq<CartLine>, id: string)
    ensures forall l :: l in Without(items, id) <==> l in items && l.pet.id != id
  {
    if items != [] {
      WithoutMembers(items[1..], id);
      assert items == [items[0]] + items[1..];
    }
  }

  lemma {:induction false} WithoutAbsent(items: seq<CartLine>, id: string)
    requires forall j :: 0 <= j < |items| ==> items[j].pet.id != id
    ensures Without(items, id) == items
  {
    if items != [] {
      WithoutAbsent(items[1..], id);
      assert items == [items[0]] + items[1..];
    }
  }

  lemma WithoutSingle(line: CartLine)
    ensures Without([line], line.pet.id) == []
  {
    assert [line][1..] == [];
    assert Without([], line.pet.id) == [];
  }

  /** Filtering out the id of a line that stands between two id-free runs leaves the two runs. */
  lemma WithoutAround(pre: seq<CartLine>, line: CartLine, post: seq<CartLine>)
    requires forall j :: 0 <= j < |pre| ==> pre[j].pet.id != line.pet.id
    requires forall j :: 0 <= j < |post| ==> post[j].pet.id != line.pet.id
    ensures Without(pre + [line] + post, line.pet.id) == pre + post
  {
    var id := line.pet.id;
    WithoutConcat(pre + [line], post, id);
    WithoutConcat(pre, [line], id);
    WithoutAbsent(pre, id);
    WithoutAbsent(post, id);
    WithoutSingle(line);
    assert pre + [] == pre;
  }

  lemma WithoutAt(items: seq<CartLine>, id: string, k: nat)
    requires WellFormed(items) && k < |items| && items[k].pet.id == id
    ensures Without(items, id) == items[..k] + items[k + 1..]
  {
    var pre, post := items[..k], items[k + 1..];
    forall j | 0 <= j < |post| ensures post[j].pet.id != id {
      assert post[j] == items[k + 1 + j];
    }
    WithoutAround(pre, items[k], post);
    SplitAt(items, k);
  }

  // ---------------------------------------------------------------------------
  // addToCart

  /** A pet not yet in the cart is appended as a new line of quantity 1. */
  lemma AddedNew(items: seq<CartLine>, pet: Pet)
    requires !InCart(items, pet.id)
    ensures Added(items, pet) == items + [CartLine(pet, 1)]
    ensures |Added(items, pet)| == |items| + 1
  {
  }

  /** A pet already in the cart adds 1 to its line; the line keeps its old snapshot. */
  lemma AddedExisting(items: seq<CartLine>, pet: Pet, k: nat)
    requires WellFormed(items) && k < |items| && items[k].pet.id == pet.id
    ensures Added(items, pet)
         == items[..k] + [CartLine(items[k].pet, items[k].quantity + 1)] + items[k + 1..]
  {
    BumpedAt(items, pet.id, 1, k);
  }

  /** Adding a new pet twice gives one line of quantity 2 at the end. */
  lemma AddedTwice(items: seq<CartLine>, pet: Pet)
    requires !InCart(items, pet.id)
    ensures Added(Added(items, pet), pet) == items + [CartLine(pet, 2)]
  {
    var once := items + [CartLine(pet, 1)];
    assert once[|items|].pet.id == pet.id;
    var twice := Bumped(once, pet.id, 1);
    assert |twice| == |items| + 1;
    forall i | 0 <= i < |twice| ensures twice[i] == (items + [CartLine(pet, 2)])[i] {
      if i < |items| {
        assert items[i].pet.id != pet.id;
      }
    }
  }

  lemma AddedIds(items: seq<CartLine>, pet: Pet)
    ensures Ids(Added(items, pet)) == Ids(items) + {pet.id}
  {
    if InCart(items, pet.id) {
      var r := Bumped(items, pet.id, 1);
      forall x | x in Ids(r) ensures x in Ids(items) {
        var l :| l in r && l.pet.id == x;
        var i :| 0 <= i < |r| && r[i] == l;
        assert items[i] in items;
      }
      forall x | x in Ids(items) ensures x in Ids(r) {
        var l :| l in items && l.pet.id == x;
        var i :| 0 <= i < |items| && items[i] == l;
        assert r[i] in r;
      }
    } else {
      var r := items + [CartLine(pet, 1)];
      assert r[|items|] in r;
      forall x | x in Ids(r) ensures x in Ids(items) + {pet.id} {
        var l :| l in r && l.pet.id == x;
        assert l in items || l == CartLine(pet, 1);
      }
    }
  }

  /**
   * The id of the home screen's featured card, a placeholder built from a fetched
   * image and a quote rather than a catalog pet; its card never calls `addToCart`.
   */
  const RandomId := "random"

  /** The featured card's id never enters the cart when callers never add it. */
  lemma AddedKeepsOut(items: seq<CartLine>, pet: Pet)
    requires !InCart(items, RandomId) && pet.id != RandomId
    ensures !InCart(Added(items, pet), RandomId)
  {
    AddedIds(items, pet);
  }

  lemma AddedWellFormed(items: seq<CartLine>, pet: Pet)
    requires WellFormed(items)
    ensures WellFormed(Added(items, pet))
  {
    if InCart(items, pet.id) {
      var k := IndexOf(items, pet.id).value;
      BumpedAt(items, pet.id, 1, k);
    }
  }

  // ---------------------------------------------------------------------------
  // increaseQuantity

  /** Only the matching line gains 1; length and order are kept. */
  lemma IncreasedAt(items: seq<CartLine>, id: string, k: nat)
    requires WellFormed(items) && k < |items| && items[k].pet.id == id
    ensures Increased(items, id)
         == items[..k] + [items[k].(quantity := items[k].quantity + 1)] + items[k + 1..]
  {
    BumpedAt(items, id, 1, k);
  }

  lemma IncreasedAbsent(items: seq<CartLine>, id: string)
    requires !InCart(items, id)
    ensures Increased(items, id) == items
  {
    BumpedAbsent(items, id, 1);
  }

  lemma IncreasedWellFormed(items: seq<CartLine>, id: string)
    requires WellFormed(items)
    ensures WellFormed(Increased(items, id))
  {
    if InCart(items, id) {
      BumpedAt(items, id, 1, IndexOf(items, id).value);
    } else {
      BumpedAbsent(items, id, 1);
    }
  }

  // ---------------------------------------------------------------------------
  // decreaseQuantity

  /** A line above 1 loses 1 and stays in place. */
  lemma DecreasedAbove1(items: seq<CartLine>, id: string, k: nat)
    requires WellFormed(items) && k < |items| && items[k].pet.id == id
    requires items[k].quantity > 1
    ensures Decreased(items, id)
         == items[..k] + [items[k].(quantity := items[k].quantity - 1)] + items[k + 1..]
  {
    IndexOfUnique(items, id, k);
    BumpedAt(items, id, -1, k);
  }

  /** A line whose quantity is not above 1 is removed. */
  lemma DecreasedAtMost1(items: seq<CartLine>, id: string, k: nat)
    requires WellFormed(items) && k < |items| && items[k].pet.id == id
    requires items[k].quantity <= 1
    ensures Decreased(items, id) == items[..k] + items[k + 1..]
  {
    IndexOfUnique(items, id, k);
    WithoutAt(items, id, k);
  }

  lemma DecreasedAbsent(items: seq<CartLine>, id: string)
    requires !InCart(items, id)
    ensures Decreased(items, id) == items
  {
    WithoutAbsent(items, id);
  }

  lemma DecreasedWellFormed(items: seq<CartLine>, id: string)
    requires WellFormed(items)
    ensures WellFormed(Decreased(items, id))
  {
    match IndexOf(items, id)
    case Some(k) =>
      if items[k].quantity > 1 {
        DecreasedAbove1(items, id, k);
      } else {
        DecreasedAtMost1(items, id, k);
        SliceOutWellFormed(items, k);
      }
    case None =>
      DecreasedAbsent(items, id);
  }

  lemma SliceOutWellFormed(items: seq<CartLine>, k: nat)
    requires WellFormed(items) && k < |items|
    ensures WellFormed(items[..k] + items[k + 1..])
  {
    var r := items[..k] + items[k + 1..];
    forall i, j | 0 <= i < j < |r| ensures r[i].pet.id != r[j].pet.id {
      var i' := if i < k then i else i + 1;
      var j' := if j < k then j else j + 1;
      assert r[i] == items[i'] && r[j] == items[j'];
    }
    forall i | 0 <= i < |r| ensures r[i].quantity >= 1 {
      assert r[i] == items[if i < k then i else i + 1];
    }
  }

  // ---------------------------------------------------------------------------
  // removeFromCart

  /** The matching line goes, whatever its quantity; the rest keep their order. */
  lemma RemovedAt(items: seq<CartLine>, id: string, k: nat)
    requires WellFormed(items) && k < |items| && items[k].pet.id == id
    ensures Removed(items, id) == items[..k] + items[k + 1..]
  {
    WithoutAt(items, id, k);
  }

  lemma RemovedAbsent(items: seq<CartLine>, id: string)
    requires !InCart(items, id)
    ensures Removed(items, id) == items
  {
    WithoutAbsent(items, id);
  }

  /** Removing twice is removing once. */
  lemma RemovedIdempotent(items: seq<CartLine>, id: string)
    ensures Removed(Removed(items, id), id) == Removed(items, id)
  {
    var r := Removed(items, id);
    WithoutMembers(items, id);
    forall j | 0 <= j < |r| ensures r[j].pet.id != id {
      assert r[j] in r;
    }
    WithoutAbsent(r, id);
  }

  lemma RemovedIds(items: seq<CartLine>, id: string)
    ensures Ids(Removed(items, id)) == Ids(items) - {id}
  {
    WithoutMembers(items, id);
  }

  lemma RemovedWellFormed(items: seq<CartLine>, id: string)
    requires WellFormed(items)
    ensures WellFormed(Removed(items, id))
  {
    match IndexOf(items, id)
    case Some(k) =>
      RemovedAt(items, id, k);
      SliceOutWellFormed(items, k);
    case None =>
      RemovedAbsent(items, id);
  }

  // ---------------------------------------------------------------------------
  // getTotalPrice and the badge count

  lemma {:induction false} TotalConcat(a: seq<CartLine>, b: seq<CartLine>)
    ensures TotalPrice(a + b) == TotalPrice(a) + TotalPrice(b)
  {
    if b == [] {
      assert a + b == a;
    } else {
      assert (a + b)[..|a + b| - 1] == a + b[..|b| - 1];
      TotalConcat(a, b[..|b| - 1]);
    }
  }

  lemma TotalSingle(line: CartLine)
    ensures TotalPrice([line]) == LineTotal(line)
  {
    assert [line][..0] == [];
  }

  lemma TotalAround(pre: seq<CartLine>, line: CartLine, post: seq<CartLine>)
    ensures TotalPrice(pre + [line] + post) == TotalPrice(pre) + LineTotal(line) + TotalPrice(post)
  {
    TotalConcat(pre + [line], post);
    TotalConcat(pre, [line]);
    TotalSingle(line);
  }

  /** Replacing line `k` changes the total by the difference of the two line totals. */
  lemma TotalReplace(items: seq<CartLine>, k: nat, line: CartLine)
    requires k < |items|
    ensures TotalPrice(items[..k] + [line] + items[k + 1..])
         == TotalPrice(items) - LineTotal(items[k]) + LineTotal(line)
  {
    var pre, post := items[..k], items[k + 1..];
    calc {
      TotalPrice(items);
      { SplitAt(items, k); }
      TotalPrice(pre + [items[k]] + post);
      { TotalAround(pre, items[k], post); }
      TotalPrice(pre) + LineTotal(items[k]) + TotalPrice(post);
      { TotalAround(pre, line, post); }
      TotalPrice(pre + [line] + post) - LineTotal(line) + LineTotal(items[k]);
    }
  }

  /** Line `k` stands between the lines before it and the lines after it. */
  lemma SplitAt(items: seq<CartLine>, k: nat)
    requires k < |items|
    ensures items == items[..k] + [items[k]] + items[k + 1..]
  {
  }

  /** Dropping line `k` lowers the total by that line's total. */
  lemma TotalDrop(items: seq<CartLine>, k: nat)
    requires k < |items|
    ensures TotalPrice(items[..k] + items[k + 1..]) == TotalPrice(items) - LineTotal(items[k])
  {
    var pre, post := items[..k], items[k + 1..];
    calc {
      TotalPrice(items);
      { SplitAt(items, k); }
      TotalPrice(pre + [items[k]] + post);
      { TotalAround(pre, items[k], post); }
      TotalPrice(pre) + LineTotal(items[k]) + TotalPrice(post);
      { TotalConcat(pre, post); }
      TotalPrice(pre + post) + LineTotal(items[k]);
    }
  }

  lemma {:induction false} TimesIsProduct(price: real, n: int)
    ensures Times(price, n) == price * n as real
    decreases if n < 0 then -n else n
  {
    if n > 0 {
      TimesIsProduct(price, n - 1);
      assert price * (n - 1) as real + price == price * n as real;
    } else if n < 0 {
      TimesIsProduct(price, n + 1);
      assert price * (n + 1) as real - price == price * n as real;
    }
  }

  lemma LineTotalIsProduct(line: CartLine)
    ensures LineTotal(line) == line.pet.price * line.quantity as real
  {
    TimesIsProduct(line.pet.price, line.quantity);
  }

  lemma LineTotalUp(line: CartLine)
    ensures LineTotal(line.(quantity := line.quantity + 1)) == LineTotal(line) + line.pet.price
  {
  }

  lemma LineTotalDown(line: CartLine)
    ensures LineTotal(line.(quantity := line.quantity - 1)) == LineTotal(line) - line.pet.price
  {
  }

  /** One more of line `k` raises the total by its unit price. */
  lemma TotalUp(items: seq<CartLine>, k: nat)
    requires k < |items|
    ensures TotalPrice(items[..k] + [items[k].(quantity := items[k].quantity + 1)] + items[k + 1..])
         == TotalPrice(items) + items[k].pet.price
  {
    TotalReplace(items, k, items[k].(quantity := items[k].quantity + 1));
    LineTotalUp(items[k]);
  }

  /** The empty cart totals 0, and one line of price 100 and quantity 3 totals 300. */
  lemma TotalExamples(pet: Pet)
    requires pet.price == 100.0
    ensures TotalPrice([]) == 0.0
    ensures TotalPrice([CartLine(pet, 3)]) == 300.0
  {
    assert [CartLine(pet, 3)][..0] == [];
  }

  /** Adding a new pet raises the total by its price. */
  lemma TotalAddedNew(items: seq<CartLine>, pet: Pet)
    requires !InCart(items, pet.id)
    ensures TotalPrice(Added(items, pet)) == TotalPrice(items) + pet.price
  {
    assert (items + [CartLine(pet, 1)])[..|items|] == items;
  }

  /** Adding a pet already present raises the total by the price of its stored snapshot. */
  lemma TotalAddedExisting(items: seq<CartLine>, pet: Pet, k: nat)
    requires WellFormed(items) && k < |items| && items[k].pet.id == pet.id
    ensures TotalPrice(Added(items, pet)) == TotalPrice(items) + items[k].pet.price
  {
    TotalUp(items, k);
    AddedExisting(items, pet, k);
    assert CartLine(items[k].pet, items[k].quantity + 1) == items[k].(quantity := items[k].quantity + 1);
  }

  lemma TotalIncreased(items: seq<CartLine>, id: string, k: nat)
    requires WellFormed(items) && k < |items| && items[k].pet.id == id
    ensures TotalPrice(Increased(items, id)) == TotalPrice(items) + items[k].pet.price
  {
    TotalUp(items, k);
    IncreasedAt(items, id, k);
  }

  /** Decreasing always lowers the total by one unit price, whether or not the line goes. */
  lemma TotalDecreased(items: seq<CartLine>, id: string, k: nat)
    requires WellFormed(items) && k < |items| && items[k].pet.id == id
    ensures TotalPrice(Decreased(items, id)) == TotalPrice(items) - items[k].pet.price
  {
    if items[k].quantity > 1 {
      DecreasedAbove1(items, id, k);
      TotalReplace(items, k, items[k].(quantity := items[k].quantity - 1));
      LineTotalDown(items[k]);
    } else {
      DecreasedAtMost1(items, id, k);
      TotalDrop(items, k);
    }
  }

  lemma TotalRemoved(items: seq<CartLine>, id: string, k: nat)
    requires WellFormed(items) && k < |items| && items[k].pet.id == id
    ensures TotalPrice(Removed(items, id)) == TotalPrice(items) - LineTotal(items[k])
  {
    RemovedAt(items, id, k);
    TotalDrop(items, k);
  }

  lemma {:induction false} CountConcat(a: seq<CartLine>, b: seq<CartLine>)
    ensures ItemCount(a + b) == ItemCount(a) + ItemCount(b)
  {
    if b == [] {
      assert a + b == a;
    } else {
      assert (a + b)[..|a + b| - 1] == a + b[..|b| - 1];
      CountConcat(a, b[..|b| - 1]);
    }
  }

  lemma CountAround(pre: seq<CartLine>, line: CartLine, post: seq<CartLine>)
    ensures ItemCount(pre + [line] + post) == ItemCount(pre) + line.quantity + ItemCount(post)
  {
    CountConcat(pre + [line], post);
    CountConcat(pre, [line]);
    assert [line][..0] == [];
  }

  /** Replacing line `k` changes the count by the difference of the two quantities. */
  lemma CountReplace(items: seq<CartLine>, k: nat, line: CartLine)
    requires k < |items|
    ensures ItemCount(items[..k] + [line] + items[k + 1..])
         == ItemCount(items) - items[k].quantity + line.quantity
  {
    var pre, post := items[..k], items[k + 1..];
    calc {
      ItemCount(items);
      { SplitAt(items, k); }
      ItemCount(pre + [items[k]] + post);
      { CountAround(pre, items[k], post); }
      ItemCount(pre) + items[k].quantity + ItemCount(post);
      { CountAround(pre, line, post); }
      ItemCount(pre + [line] + post) - line.quantity + items[k].quantity;
    }
  }

  /** Dropping line `k` lowers the count by its quantity. */
  lemma CountDrop(items: seq<CartLine>, k: nat)
    requires k < |items|
    ensures ItemCount(items[..k] + items[k + 1..]) == ItemCount(items) - items[k].quantity
  {
    var pre, post := items[..k], items[k + 1..];
    calc {
      ItemCount(items);
      { SplitAt(items, k); }
      ItemCount(pre + [items[k]] + post);
      { CountAround(pre, items[k], post); }
      ItemCount(pre) + items[k].quantity + ItemCount(post);
      { CountConcat(pre, post); }
      ItemCount(pre + post) + items[k].quantity;
    }
  }

  /** Every add, new pet or not, raises the badge by exactly 1. */
  lemma CountAdded(items: seq<CartLine>, pet: Pet)
    requires WellFormed(items)
    ensures ItemCount(Added(items, pet)) == ItemCount(items) + 1
  {
    match IndexOf(items, pet.id)
    case Some(k) =>
      AddedExisting(items, pet, k);
      CountReplace(items, k, CartLine(items[k].pet, items[k].quantity + 1));
    case None =>
      assert (items + [CartLine(pet, 1)])[..|items|] == items;
  }

  lemma CountDecreased(items: seq<CartLine>, id: string, k: nat)
    requires WellFormed(items) && k < |items| && items[k].pet.id == id
    ensures ItemCount(Decreased(items, id)) == ItemCount(items) - 1
  {
    if items[k].quantity > 1 {
      DecreasedAbove1(items, id, k);
      CountReplace(items, k, items[k].(quantity := items[k].quantity - 1));
    } else {
      DecreasedAtMost1(items, id, k);
      CountDrop(items, k);
    }
  }

  lemma CountRemoved(items: seq<CartLine>, id: string, k: nat)
    requires WellFormed(items) && k < |items| && items[k].pet.id == id
    ensures ItemCount(Removed(items, id)) == ItemCount(items) - items[k].quantity
  {
    RemovedAt(items, id, k);
    CountDrop(items, k);
  }

  /** On a well-formed cart the badge is at least the number of lines. */
  lemma {:induction false} CountAtLeastLines(items: seq<CartLine>)
    requires WellFormed(items)
    ensures ItemCount(items) >= |items|
  {
    if items != [] {
      var front := items[..|items| - 1];
      assert WellFormed(front) by {
        forall i, j | 0 <= i < j < |front| ensures front[i].pet.id != front[j].pet.id {
          assert front[i] == items[i] && front[j] == items[j];
        }
      }
      CountAtLeastLines(front);
    }
  }

  // ---------------------------------------------------------------------------
  // The store

  /** The cart store; `cartItems` starts empty and each action replaces it. */
  class CartStore {
    var cartItems: seq<CartLine>

    ghost predicate Valid()
      reads this
    {
      WellFormed(cartItems)
    }

    constructor ()
      ensures cartItems == [] && Valid()
    {
      cartItems := [];
    }

    method AddToCart(pet: Pet)
      modifies this
      ensures cartItems == Added(old(cartItems), pet)
      ensures old(Valid()) ==> Valid()
    {
      if Valid() {
        AddedWellFormed(cartItems, pet);
      }
      cartItems := Added(cartItems, pet);
    }

    method IncreaseQuantity(id: string)
      modifies this
      ensures cartItems == Increased(old(cartItems), id)
      ensures old(Valid()) ==> Valid()
    {
      if Valid() {
        IncreasedWellFormed(cartItems, id);
      }
      cartItems := Increased(cartItems, id);
    }

    method DecreaseQuantity(id: string)
      modifies this
      ensures cartItems == Decreased(old(cartItems), id)
      ensures old(Valid()) ==> Valid()
    {
      if Valid() {
        DecreasedWellFormed(cartItems, id);
      }
      cartItems := Decreased(cartItems, id);
    }

    method RemoveFromCart(id: string)
      modifies this
      ensures cartItems == Removed(old(cartItems), id)
      ensures old(Valid()) ==> Valid()
    {
      if Valid() {
        RemovedWellFormed(cartItems, id);
      }
      cartItems := Removed(cartItems, id);
    }

    /** Reads the cart and changes nothing. */
    method GetTotalPrice() returns (total: real)
      ensures total == TotalPrice(cartItems)
    {
      total := TotalPrice(cartItems);
    }
  }
}
