/**
  The client cart of the shop front end: a list of
  `{salable_product_id, quantity, taxes?}` lines kept, as JSON, in the
  `cart_items` cookie. Quantities of stored lines are whole numbers; the
  JSON and cookie layers are modelled by `CookieValue`.
 */
module Cart {
  import opened Wrappers

  /** A line of the cart. */
  datatype CartItem = CartItem(salableId: int, quantity: int, taxes: Option<real>)

  /**
    An element of the parsed cookie array: anything that is not an object,
    or an object whose fields are present as numbers (`Some`) or not.
   */
  datatype RawEntry =
    | NotObject
    | Entry(salableId: Option<int>, quantity: Option<real>, taxes: Option<real>)

  /** What `getCookie` and `JSON.parse` give: no cookie, text that does not parse, a non-array, or an array. */
  datatype CookieValue = NoCookie | Unparsable | NotArray | Array(entries: seq<RawEntry>)

  /** JavaScript `Math.trunc`: drop the fraction, rounding toward zero. */
  function Trunc(x: real): (n: int)
    ensures x >= 0.0 ==> n as real <= x < n as real + 1.0
    ensures x < 0.0 ==> n as real - 1.0 < x <= n as real
  {
    if x >= 0.0 then x.Floor else -((-x).Floor)
  }

  function Max1(n: int): (m: int)
    ensures m >= 1 && m >= n && (n >= 1 ==> m == n)
  {
    if n < 1 then 1 else n
  }

  /** The `map` step of normalisation: quantity `max(1, trunc(q))`, taxes kept when numeric. */
  function Normalise(salableId: int, quantity: real, taxes: Option<real>): CartItem {
    CartItem(salableId, Max1(Trunc(quantity)), taxes)
  }

  predicate WellFormed(e: RawEntry) {
    e.Entry? && e.salableId.Some? && e.quantity.Some?
  }

  /** `readRawCookie`'s `filter` then `map` over the parsed array. */
  function ReadEntries(entries: seq<RawEntry>): (items: seq<CartItem>)
    ensures |items| <= |entries|
  {
    if entries == [] then []
    else
      var e := entries[|entries| - 1];
      ReadEntries(entries[..|entries| - 1])
        + (if WellFormed(e) then [Normalise(e.salableId.value, e.quantity.value, e.taxes)] else [])
  }

  /** `readRawCookie`: anything but a JSON array reads as the empty cart. */
  function ReadRawCookie(c: CookieValue): seq<CartItem> {
    if c.Array? then ReadEntries(c.entries) else []
  }

  function Encode(items: seq<CartItem>): (entries: seq<RawEntry>)
    ensures |entries| == |items|
    ensures forall i :: 0 <= i < |items| ==>
      entries[i] == Entry(Some(items[i].salableId), Some(items[i].quantity as real), items[i].taxes)
  {
    if items == [] then []
    else
      var it := items[|items| - 1];
      Encode(items[..|items| - 1]) + [Entry(Some(it.salableId), Some(it.quantity as real), it.taxes)]
  }

  /** `persist`: an empty list deletes the cookie, any other is written as JSON. */
  function Persist(items: seq<CartItem>): (c: CookieValue)
    ensures items == [] <==> c == NoCookie
  {
    if items == [] then NoCookie else Array(Encode(items))
  }

  predicate Normalised(items: seq<CartItem>) {
    forall i :: 0 <= i < |items| ==> items[i].quantity >= 1
  }

  predicate UniqueIds(items: seq<CartItem>) {
    forall i, j :: 0 <= i < j < |items| ==> items[i].salableId != items[j].salableId
  }

  predicate HasId(items: seq<CartItem>, id: int) {
    exists i :: 0 <= i < |items| && items[i].salableId == id
  }

  /** `items.find(...)`: the index of the first line with the id. */
  function IndexOf(items: seq<CartItem>, id: int): (r: Option<nat>)
    ensures r.Some? ==> r.value < |items| && items[r.value].salableId == id
    ensures r.Some? ==> forall j :: 0 <= j < r.value ==> items[j].salableId != id
    ensures r.None? <==> !HasId(items, id)
  {
    if items == [] then None
    else if items[0].salableId == id then Some(0)
    else
      match IndexOf(items[1..], id)
      case None =>
        assert forall j :: 1 <= j < |items| ==> items[j] == items[1..][j - 1];
        None
      case Some(k) =>
        assert items[k + 1] == items[1..][k];
        assert forall j :: 1 <= j <= k ==> items[j] == items[1..][j - 1];
        Some(k + 1)
  }

  /** The lines after `addItemToCart` with an active session. */
  function Added(items: seq<CartItem>, id: int, quantity: int, taxes: Option<real>): seq<CartItem> {
    match IndexOf(items, id)
    case Some(k) =>
      var line := items[k];
      items[k := CartItem(id, Max1(line.quantity + quantity), if taxes.Some? then taxes else line.taxes)]
    case None =>
      items + [CartItem(id, Max1(quantity), taxes)]
  }

  /** `filter(item => item.salable_product_id !== id)`. */
  function Removed(items: seq<CartItem>, id: int): (r: seq<CartItem>)
    ensures |r| <= |items|
  {
    if items == [] then []
    else
      var it := items[|items| - 1];
      Removed(items[..|items| - 1], id) + (if it.salableId == id then [] else [it])
  }

  /** The lines after `updateCartQuantity` when the id is present. */
  function Updated(items: seq<CartItem>, id: int, quantity: real): seq<CartItem> {
    match IndexOf(items, id)
    case None => items
    case Some(k) =>
      if quantity <= 0.0 then Removed(items, id)
      else items[k := items[k].(quantity := Max1(Trunc(quantity)))]
  }

  /** The `reduce` of `getCartCount`. */
  function SumQuantities(items: seq<CartItem>): int {
    if items == [] then 0 else SumQuantities(items[..|items| - 1]) + items[|items| - 1].quantity
  }

  datatype ItemInput = ItemInput(salableId: int, quantity: real, taxes: Option<real>)

  /** The `map` of `setCartItems`. */
  function NormaliseAll(inputs: seq<ItemInput>): (items: seq<CartItem>)
    ensures |items| == |inputs|
    ensures forall i :: 0 <= i < |inputs| ==>
      items[i] == Normalise(inputs[i].salableId, inputs[i].quantity, inputs[i].taxes)
  {
    if inputs == [] then []
    else
      var x := inputs[|inputs| - 1];
      NormaliseAll(inputs[..|inputs| - 1]) + [Normalise(x.salableId, x.quantity, x.taxes)]
  }

  // Properties of the cart operations.

  /** Every line that reading yields has a quantity of at least 1. */
  lemma {:induction false} ReadIsNormalised(entries: seq<RawEntry>)
    ensures Normalised(ReadEntries(entries))
  {
    if entries != [] {
      ReadIsNormalised(entries[..|entries| - 1]);
    }
  }

  /** Entries with a missing or non-numeric id or quantity, and non-objects, are dropped. */
  lemma {:induction false} ReadDropsMalformed(entries: seq<RawEntry>)
    requires forall i :: 0 <= i < |entries| ==> !WellFormed(entries[i])
    ensures ReadEntries(entries) == []
  {
    if entries != [] {
      ReadDropsMalformed(entries[..|entries| - 1]);
    }
  }

  /** Reading works entry by entry, so the kept lines stay in cookie order. */
  lemma {:induction false} ReadEntriesConcat(a: seq<RawEntry>, b: seq<RawEntry>)
    ensures ReadEntries(a + b) == ReadEntries(a) + ReadEntries(b)
    decreases |b|
  {
    if b == [] {
      assert a + b == a;
    } else {
      var b' := b[..|b| - 1];
      assert (a + b)[..|a + b| - 1] == a + b';
      ReadEntriesConcat(a, b');
    }
  }

  /** Well-formed entries are all kept, each normalised, in their order. */
  lemma {:induction false} ReadKeepsWellFormed(entries: seq<RawEntry>)
    requires forall i :: 0 <= i < |entries| ==> WellFormed(entries[i])
    ensures var items := ReadEntries(entries);
      && |items| == |entries|
      && forall i :: 0 <= i < |entries| ==>
           (WellFormed(entries[i]) &&
            items[i] == Normalise(entries[i].salableId.value, entries[i].quantity.value, entries[i].taxes))
  {
    if entries != [] {
      ReadKeepsWellFormed(entries[..|entries| - 1]);
    }
  }

  /** Normalisation does not change a whole quantity that is already at least 1. */
  lemma NormaliseWhole(id: int, q: int, taxes: Option<real>)
    requires q >= 1
    ensures Normalise(id, q as real, taxes) == CartItem(id, q, taxes)
  {
  }

  /** Reading back what was persisted gives the same lines. */
  lemma PersistRoundTrip(items: seq<CartItem>)
    requires Normalised(items)
    ensures ReadRawCookie(Persist(items)) == items
  {
    if items != [] {
      var entries := Encode(items);
      ReadKeepsWellFormed(entries);
      forall i | 0 <= i < |items| ensures ReadEntries(entries)[i] == items[i] {
        NormaliseWhole(items[i].salableId, items[i].quantity, items[i].taxes);
      }
    }
  }

  /**
    Adding an id already in the cart adds no line: that line's quantity
    becomes max(1, old + q), its taxes are replaced only when a number is
    given, and every other line is kept.
   */
  lemma AddExisting(items: seq<CartItem>, id: int, quantity: int, taxes: Option<real>, k: nat)
    requires IndexOf(items, id) == Some(k)
    ensures var r := Added(items, id, quantity, taxes);
      && |r| == |items|
      && r[k].salableId == id
      && r[k].quantity == Max1(items[k].quantity + quantity)
      && r[k].taxes == (if taxes.Some? then taxes else items[k].taxes)
      && forall j :: 0 <= j < |items| && j != k ==> r[j] == items[j]
  {
  }

  /** Adding a new id appends one line with quantity max(1, q) at the end. */
  lemma AddNew(items: seq<CartItem>, id: int, quantity: int, taxes: Option<real>)
    requires !HasId(items, id)
    ensures Added(items, id, quantity, taxes) == items + [CartItem(id, Max1(quantity), taxes)]
  {
  }

  /** Adding keeps quantities at least 1. */
  lemma AddKeepsNormalised(items: seq<CartItem>, id: int, quantity: int, taxes: Option<real>)
    requires Normalised(items)
    ensures Normalised(Added(items, id, quantity, taxes))
  {
  }

  /** Adding keeps ids unique. */
  lemma AddKeepsUnique(items: seq<CartItem>, id: int, quantity: int, taxes: Option<real>)
    requires UniqueIds(items)
    ensures UniqueIds(Added(items, id, quantity, taxes))
  {
    var r := Added(items, id, quantity, taxes);
    if IndexOf(items, id).None? {
      forall i, j | 0 <= i < j < |r| ensures r[i].salableId != r[j].salableId {
        if j == |items| {
          assert r[i] == items[i];
        }
      }
    }
  }

  /** Removing an id: no line with it is left, and every other line is kept. */
  lemma {:induction false} RemovedMember(items: seq<CartItem>, id: int, x: CartItem)
    ensures x in Removed(items, id) <==> x in items && x.salableId != id
  {
    if items != [] {
      RemovedMember(items[..|items| - 1], id, x);
      assert items == items[..|items| - 1] + [items[|items| - 1]];
    }
  }

  /** Removing works line by line, so the remaining lines stay in their original order. */
  lemma {:induction false} RemovedConcat(a: seq<CartItem>, b: seq<CartItem>, id: int)
    ensures Removed(a + b, id) == Removed(a, id) + Removed(b, id)
    decreases |b|
  {
    if b == [] {
      assert a + b == a;
    } else {
      var b' := b[..|b| - 1];
      assert (a + b)[..|a + b| - 1] == a + b';
      RemovedConcat(a, b', id);
    }
  }

  /** Removing an id that is not in the cart changes nothing. */
  lemma {:induction false} RemovedAbsent(items: seq<CartItem>, id: int)
    requires !HasId(items, id)
    ensures Removed(items, id) == items
  {
    if items != [] {
      var init := items[..|items| - 1];
      assert !HasId(init, id) by {
        forall i | 0 <= i < |init| ensures init[i] == items[i] { }
      }
      RemovedAbsent(init, id);
    }
  }

  /**
    `updateCartQuantity` on a present id: q <= 0 removes the line, otherwise
    its quantity becomes max(1, trunc(q)); every other line is kept.
   */
  lemma UpdatePresent(items: seq<CartItem>, id: int, quantity: real, k: nat)
    requires IndexOf(items, id) == Some(k)
    ensures quantity <= 0.0 ==> !HasId(Updated(items, id, quantity), id)
    ensures quantity > 0.0 ==> var r := Updated(items, id, quantity);
      && |r| == |items|
      && r[k] == items[k].(quantity := Max1(Trunc(quantity)))
      && forall j :: 0 <= j < |items| && j != k ==> r[j] == items[j]
  {
    if quantity <= 0.0 {
      var r := Updated(items, id, quantity);
      forall i | 0 <= i < |r| ensures r[i].salableId != id {
        RemovedMember(items, id, r[i]);
      }
    }
  }

  /** Updating keeps ids unique and quantities at least 1. */
  lemma UpdateKeepsInvariant(items: seq<CartItem>, id: int, quantity: real)
    requires UniqueIds(items) && Normalised(items)
    ensures UniqueIds(Updated(items, id, quantity)) && Normalised(Updated(items, id, quantity))
  {
    if IndexOf(items, id).Some? && quantity <= 0.0 {
      RemovedKeepsNormalised(items, id);
      RemovedKeepsUnique(items, id);
    }
  }

  lemma {:induction false} RemovedKeepsNormalised(items: seq<CartItem>, id: int)
    requires Normalised(items)
    ensures Normalised(Removed(items, id))
  {
    if items != [] {
      RemovedKeepsNormalised(items[..|items| - 1], id);
    }
  }

  lemma {:induction false} RemovedKeepsUnique(items: seq<CartItem>, id: int)
    requires UniqueIds(items)
    ensures UniqueIds(Removed(items, id))
  {
    if items != [] {
      var init := items[..|items| - 1];
      var last := items[|items| - 1];
      assert UniqueIds(init);
      RemovedKeepsUnique(init, id);
      if last.salableId != id {
        var r := Removed(items, id);
        var ri := Removed(init, id);
        forall i | 0 <= i < |ri| ensures ri[i].salableId != last.salableId {
          RemovedMember(init, id, ri[i]);
          var j :| 0 <= j < |init| && init[j] == ri[i];
        }
      }
    }
  }

  /** The cart count is at least the number of lines, since every quantity is at least 1. */
  lemma {:induction false} CountAtLeastLines(items: seq<CartItem>)
    requires Normalised(items)
    ensures SumQuantities(items) >= |items|
  {
    if items != [] {
      CountAtLeastLines(items[..|items| - 1]);
    }
  }

  /** The cookie jar of one browser. */
  class CartCookies {
    var cookie: CookieValue

    constructor (cookie: CookieValue)
      ensures this.cookie == cookie
    {
      this.cookie := cookie;
    }

    /** `getCartItems`: the normalised lines the cookie holds. */
    function Items(): (items: seq<CartItem>)
      reads this
      ensures Normalised(items)
    {
      ReadIsNormalised(if cookie.Array? then cookie.entries else []);
      ReadRawCookie(cookie)
    }

    /** `getCartCount`: the total of the quantities, at least the number of lines. */
    function GetCartCount(): (n: int)
      reads this
      ensures n >= |Items()|
    {
      CountAtLeastLines(Items());
      SumQuantities(Items())
    }

    /** `setCartItems`: the normalised list replaces the cart. */
    method SetCartItems(inputs: seq<ItemInput>)
      modifies this
      ensures cookie == Persist(NormaliseAll(inputs))
      ensures Items() == NormaliseAll(inputs)
    {
      var items := NormaliseAll(inputs);
      cookie := Persist(items);
      PersistRoundTrip(items);
    }

    /**
      `addItemToCart`. `sessionActive` is what `hasActiveSession` finds in
      the `auth_user` cookie; without a session nothing is written.
     */
    method AddItemToCart(sessionActive: bool, salableId: int, quantity: int, taxes: Option<real>)
      returns (added: bool)
      modifies this
      ensures added == sessionActive
      ensures !sessionActive ==> cookie == old(cookie)
      ensures sessionActive ==> cookie == Persist(Added(old(Items()), salableId, quantity, taxes))
      ensures sessionActive ==> Items() == Added(old(Items()), salableId, quantity, taxes)
    {
      if !sessionActive {
        return false;
      }
      var items := Items();
      match IndexOf(items, salableId) {
        case Some(k) =>
          // `existing` is the found element, changed in place
          var existing := items[k];
          var newTaxes := if taxes.Some? then taxes else existing.taxes;
          items := items[k := CartItem(salableId, Max1(existing.quantity + quantity), newTaxes)];
        case None =>
          items := items + [CartItem(salableId, Max1(quantity), taxes)];
      }
      AddKeepsNormalised(Items(), salableId, quantity, taxes);
      assert items == Added(Items(), salableId, quantity, taxes);
      cookie := Persist(items);
      PersistRoundTrip(items);
      added := true;
    }

    /** `updateCartQuantity`: an id not in the cart writes nothing. */
    method UpdateCartQuantity(salableId: int, quantity: real)
      modifies this
      ensures !HasId(old(Items()), salableId) ==> cookie == old(cookie)
      ensures HasId(old(Items()), salableId) ==> cookie == Persist(Updated(old(Items()), salableId, quantity))
      ensures HasId(old(Items()), salableId) ==> Items() == Updated(old(Items()), salableId, quantity)
    {
      var items := Items();
      var found := IndexOf(items, salableId);
      if found.None? {
        return;
      }
      var k := found.value;
      if quantity <= 0.0 {
        RemovedKeepsNormalised(items, salableId);
        items := Removed(items, salableId);
      } else {
        items := items[k := items[k].(quantity := Max1(Trunc(quantity)))];
      }
      cookie := Persist(items);
      PersistRoundTrip(items);
    }

    /** `removeItemFromCart`: every line with the id is dropped, and the rest written back. */
    method RemoveItemFromCart(salableId: int)
      modifies this
      ensures cookie == Persist(Removed(old(Items()), salableId))
      ensures Items() == Removed(old(Items()), salableId)
    {
      RemovedKeepsNormalised(Items(), salableId);
      var items := Removed(Items(), salableId);
      cookie := Persist(items);
      PersistRoundTrip(items);
    }

    /** `clearCart`: the cookie is deleted and the cart reads as empty. */
    method ClearCart()
      modifies this
      ensures cookie == NoCookie && Items() == []
    {
      cookie := Persist([]);
    }
  }
}
