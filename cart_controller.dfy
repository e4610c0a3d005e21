/**
 * The cart handlers. A cart maps an item id to a map from size to quantity; the
 * handlers mutate the signed-in user's cart and write it back whole. Item ids and
 * sizes come from the request body, so an absent one becomes the key "undefined".
 */
module CartController {
  import opened Js
  import opened Mongo
  import opened UserModel

  const UserNotFound := "User not found"
  const ItemNotInCart := "Item not found in cart"

  /** `q += 1` on a truthy value: numbers add, strings concatenate "1", `true` counts as 1. */
  function PlusOne(q: Json): Json {
    match q
    case JNum(n) => JNum(n + 1)
    case JStr(s) => JStr(s + "1")
    case JBool(b) => JNum(if b then 2 else 1)
  }

  /** The cart holds a truthy quantity for this item and size. */
  predicate Holds(cart: Cart, item: string, size: string) {
    item in cart && size in cart[item] && Truthy(cart[item][size])
  }

  /** One size's quantity after an add: incremented when held, otherwise 1. */
  function Bump(entry: map<string, Option<Json>>, size: string): map<string, Option<Json>> {
    entry[size := if size in entry && Truthy(entry[size]) then Some(PlusOne(entry[size].value)) else Some(JNum(1))]
  }

  function EntryOf(cart: Cart, item: string): map<string, Option<Json>> {
    if item in cart then cart[item] else map[]
  }

  /**
   * What `addToCart` makes of a cart: a held quantity is incremented, anything else
   * (no entry for the item, none for the size, or a falsy quantity) becomes 1.
   * Every other entry is kept.
   */
  function AddOne(cart: Cart, item: string, size: string): (r: Cart)
    ensures r.Keys == cart.Keys + {item}
    ensures r[item].Keys == (if item in cart then cart[item].Keys else {}) + {size}
    ensures Holds(cart, item, size) ==> r[item][size] == Some(PlusOne(cart[item][size].value))
    ensures !Holds(cart, item, size) ==> r[item][size] == Some(JNum(1))
  {
    cart[item := Bump(EntryOf(cart, item), size)]
  }

  /** An add leaves every other size of the item, and every other item, as it was. */
  lemma AddOneKeepsOthers(cart: Cart, item: string, size: string)
    ensures var r := AddOne(cart, item, size);
      (forall s :: s in r[item] && s != size ==> r[item][s] == cart[item][s])
      && (forall i :: i in cart && i != item ==> r[i] == cart[i])
  {
  }

  /** The guard of `updateCart`: the item is in the cart with a truthy quantity for the size. */
  predicate Updatable(cart: Cart, item: string, size: string) {
    Holds(cart, item, size)
  }

  /** What `updateCart` makes of an updatable cart: that one quantity replaced, nothing else. */
  function SetQuantity(cart: Cart, item: string, size: string, quantity: Option<Json>): (r: Cart)
    requires Updatable(cart, item, size)
    ensures r.Keys == cart.Keys && r[item].Keys == cart[item].Keys
    ensures r[item][size] == quantity
    ensures forall s :: s in cart[item] && s != size ==> r[item][s] == cart[item][s]
    ensures forall i :: i in cart && i != item ==> r[i] == cart[i]
  {
    cart[item := cart[item][size := quantity]]
  }

  /** `n` consecutive `addToCart` calls for the same item and size. */
  function AddTimes(cart: Cart, item: string, size: string, n: nat): Cart
    decreases n
  {
    if n == 0 then cart else AddOne(AddTimes(cart, item, size, n - 1), item, size)
  }

  /** One add on a numeric quantity `k` (0 standing for "not held") leaves `k + 1`. */
  lemma AddOneCounts(cart: Cart, item: string, size: string, k: int)
    requires k >= 0
    requires if k == 0 then !Holds(cart, item, size)
             else item in cart && size in cart[item] && cart[item][size] == Some(JNum(k))
    ensures var r := AddOne(cart, item, size); item in r && size in r[item] && r[item][size] == Some(JNum(k + 1))
  {
  }

  /** Adding an item and size the cart does not hold `n` times leaves quantity `n`. */
  lemma {:induction false} AddTimesCounts(cart: Cart, item: string, size: string, n: nat)
    requires n >= 1 && !Holds(cart, item, size)
    ensures item in AddTimes(cart, item, size, n) && size in AddTimes(cart, item, size, n)[item]
    ensures AddTimes(cart, item, size, n)[item][size] == Some(JNum(n))
    decreases n
  {
    if n > 1 {
      AddTimesCounts(cart, item, size, n - 1);
    }
    AddOneCounts(AddTimes(cart, item, size, n - 1), item, size, n - 1);
  }

  /** Adding to a held numeric quantity `q`, `n` times, leaves `q + n`. */
  lemma {:induction false} AddTimesIncrements(cart: Cart, item: string, size: string, q: int, n: nat)
    requires q > 0 && item in cart && size in cart[item] && cart[item][size] == Some(JNum(q))
    ensures item in AddTimes(cart, item, size, n) && size in AddTimes(cart, item, size, n)[item]
    ensures AddTimes(cart, item, size, n)[item][size] == Some(JNum(q + n))
    decreases n
  {
    if n > 0 {
      AddTimesIncrements(cart, item, size, q, n - 1);
      AddOneCounts(AddTimes(cart, item, size, n - 1), item, size, q + n - 1);
    }
  }

  lemma BumpCommutes(entry: map<string, Option<Json>>, s: string, t: string)
    requires s != t
    ensures Bump(Bump(entry, s), t) == Bump(Bump(entry, t), s)
  {
  }

  /** Adds for different sizes of one item commute. */
  lemma AddOneCommutesSizes(cart: Cart, a: string, s: string, t: string)
    requires s != t
    ensures AddOne(AddOne(cart, a, s), a, t) == AddOne(AddOne(cart, a, t), a, s)
  {
    var e := EntryOf(cart, a);
    BumpCommutes(e, s, t);
    assert EntryOf(AddOne(cart, a, s), a) == Bump(e, s);
    assert EntryOf(AddOne(cart, a, t), a) == Bump(e, t);
  }

  /** Adds for different items commute. */
  lemma AddOneCommutesItems(cart: Cart, a: string, s: string, b: string, t: string)
    requires a != b
    ensures AddOne(AddOne(cart, a, s), b, t) == AddOne(AddOne(cart, b, t), a, s)
  {
    assert EntryOf(AddOne(cart, a, s), b) == EntryOf(cart, b);
    assert EntryOf(AddOne(cart, b, t), a) == EntryOf(cart, a);
  }

  /** Adds for different item-size pairs commute. */
  lemma AddOneCommutes(cart: Cart, a: string, s: string, b: string, t: string)
    requires a != b || s != t
    ensures AddOne(AddOne(cart, a, s), b, t) == AddOne(AddOne(cart, b, t), a, s)
  {
    if a == b {
      AddOneCommutesSizes(cart, a, s, t);
    } else {
      AddOneCommutesItems(cart, a, s, b, t);
    }
  }

  /**
   * Setting a quantity to 0 takes the entry out of play: `updateCart` no longer finds
   * it, and the next `addToCart` restarts it at 1 instead of incrementing.
   */
  lemma ZeroedEntryRestarts(cart: Cart, item: string, size: string)
    requires Updatable(cart, item, size)
    ensures !Updatable(SetQuantity(cart, item, size, Some(JNum(0))), item, size)
    ensures AddOne(SetQuantity(cart, item, size, Some(JNum(0))), item, size)[item][size] == Some(JNum(1))
  {
  }

  /** `addToCart`: increment or start the item-size quantity in the caller's cart. */
  method AddToCart(users: Collection<User>, userId: string, itemId: Option<string>, size: Option<string>)
    returns (r: Outcome<Cart>)
    modifies users
    ensures userId !in old(users.docs) ==>
      r == Throw(ApiError(404, UserNotFound)) && users.docs == old(users.docs)
    ensures userId in old(users.docs) ==>
      var cart := AddOne(old(users.docs)[userId].cartData, Show(itemId), Show(size));
      r == Reply(200, cart) && users.docs == old(users.docs)[userId := old(users.docs)[userId].(cartData := cart)]
  {
    if userId !in users.docs {
      return Throw(ApiError(404, UserNotFound));
    }
    var cart := users.docs[userId].cartData;
    ghost var stored := cart;
    var item, sz := Show(itemId), Show(size);
    if item in cart {
      var entry := cart[item];
      if sz in entry && Truthy(entry[sz]) {
        entry := entry[sz := Some(PlusOne(entry[sz].value))];
      } else {
        entry := entry[sz := Some(JNum(1))];
      }
      cart := cart[item := entry];
    } else {
      cart := cart[item := map[]];
      cart := cart[item := cart[item][sz := Some(JNum(1))]];
    }
    assert cart == AddOne(stored, item, sz);
    users.docs := users.docs[userId := users.docs[userId].(cartData := cart)];
    r := Reply(200, cart);
  }

  /** `updateCart`: overwrite a held quantity with whatever the client sent. */
  method UpdateCart(users: Collection<User>, userId: string, itemId: Option<string>, size: Option<string>,
                    quantity: Option<Json>)
    returns (r: Outcome<Cart>)
    modifies users
    ensures userId !in old(users.docs) ==>
      r == Throw(ApiError(404, UserNotFound)) && users.docs == old(users.docs)
    ensures userId in old(users.docs) && !Updatable(old(users.docs)[userId].cartData, Show(itemId), Show(size)) ==>
      r == Throw(ApiError(404, ItemNotInCart)) && users.docs == old(users.docs)
    ensures userId in old(users.docs) && Updatable(old(users.docs)[userId].cartData, Show(itemId), Show(size)) ==>
      var cart := SetQuantity(old(users.docs)[userId].cartData, Show(itemId), Show(size), quantity);
      r == Reply(200, cart) && users.docs == old(users.docs)[userId := old(users.docs)[userId].(cartData := cart)]
  {
    if userId !in users.docs {
      return Throw(ApiError(404, UserNotFound));
    }
    var cart := users.docs[userId].cartData;
    var item, sz := Show(itemId), Show(size);
    if !(item in cart && sz in cart[item] && Truthy(cart[item][sz])) {
      return Throw(ApiError(404, ItemNotInCart));
    }
    cart := cart[item := cart[item][sz := quantity]];
    users.docs := users.docs[userId := users.docs[userId].(cartData := cart)];
    r := Reply(200, cart);
  }

  /** `getUserCarts`: the caller's cart as stored. */
  method GetUserCarts(users: Collection<User>, userId: string) returns (r: Outcome<Cart>)
    ensures userId !in users.docs <==> r == Throw(ApiError(404, UserNotFound))
    ensures userId in users.docs ==> r == Reply(200, users.docs[userId].cartData)
  {
    if userId !in users.docs {
      return Throw(ApiError(404, UserNotFound));
    }
    r := Reply(200, users.docs[userId].cartData);
  }
}
