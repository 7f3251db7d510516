/** The client-side shopping cart: a sequence of lines keyed by product id,
    transformed by a pure reducer over five closed action variants, plus
    the two totals the pages display. Prices are integer minor units. */
module Cart {
  import opened Wrappers
  import Seqs

  /** One cart line (`CartItem`). `quantity` is an unconstrained integer
      because a loaded cart is trusted as-is. */
  datatype CartLine = CartLine(id: string, name: string, price: int, imageUrl: string, quantity: int)

  /** The product fields an add action carries. */
  datatype ProductRef = ProductRef(id: string, name: string, price: int, imageUrl: string)

  type Cart = seq<CartLine>

  /** `CartAction`: a closed variant, so there is no fall-through default. */
  datatype CartAction =
    | LoadCart(items: Cart)
    | AddToCart(product: ProductRef)
    | RemoveFromCart(productId: string)
    | UpdateQuantity(productId: string, quantity: int)
    | ClearCart

  predicate HasLine(s: Cart, id: string)
  {
    exists i :: 0 <= i < |s| && s[i].id == id
  }

  /** At most one line per product id. */
  ghost predicate UniqueIds(s: Cart)
  {
    forall i, j :: 0 <= i < j < |s| ==> s[i].id != s[j].id
  }

  /** The cart invariant: unique ids and every quantity at least one. */
  ghost predicate WellFormed(s: Cart)
  {
    UniqueIds(s) && forall i :: 0 <= i < |s| ==> s[i].quantity >= 1
  }

  /** `state.find(item => item.id === id)`: the first line with that id. */
  function FindLine(s: Cart, id: string): (r: Option<CartLine>)
    ensures r.None? <==> !HasLine(s, id)
    ensures r.Some? ==> exists i :: 0 <= i < |s| && s[i] == r.value && r.value.id == id
                                    && forall j :: 0 <= j < i ==> s[j].id != id
  {
    if |s| == 0 then None
    else if s[0].id == id then Some(s[0])
    else
      var r := FindLine(s[1..], id);
      assert forall i :: 1 <= i < |s| ==> s[i] == s[1..][i - 1];
      assert r.Some? ==> exists i :: 1 <= i < |s| && s[i] == r.value && r.value.id == id
                                     && forall j :: 0 <= j < i ==> s[j].id != id;
      r
  }

  /** The line an add creates: the product's fields with quantity one. */
  function NewLine(p: ProductRef): CartLine
  {
    CartLine(p.id, p.name, p.price, p.imageUrl, 1)
  }

  /** Every line with id `id` gets one more unit; the others are untouched. */
  function Increment(s: Cart, id: string): (r: Cart)
    ensures |r| == |s|
    ensures forall i :: 0 <= i < |s| ==> r[i].id == s[i].id
    ensures forall i :: 0 <= i < |s| && s[i].id == id ==> r[i] == s[i].(quantity := s[i].quantity + 1)
    ensures forall i :: 0 <= i < |s| && s[i].id != id ==> r[i] == s[i]
  {
    if |s| == 0 then []
    else
      var head := if s[0].id == id then s[0].(quantity := s[0].quantity + 1) else s[0];
      var r := [head] + Increment(s[1..], id);
      assert forall i :: 1 <= i < |s| ==> r[i] == Increment(s[1..], id)[i - 1] && s[i] == s[1..][i - 1];
      r
  }

  /** Every line with id `id` gets quantity `q`; the others are untouched. */
  function Overwrite(s: Cart, id: string, q: int): (r: Cart)
    ensures |r| == |s|
    ensures forall i :: 0 <= i < |s| ==> r[i].id == s[i].id
    ensures forall i :: 0 <= i < |s| && s[i].id == id ==> r[i] == s[i].(quantity := q)
    ensures forall i :: 0 <= i < |s| && s[i].id != id ==> r[i] == s[i]
  {
    if |s| == 0 then []
    else
      var head := if s[0].id == id then s[0].(quantity := q) else s[0];
      var r := [head] + Overwrite(s[1..], id, q);
      assert forall i :: 1 <= i < |s| ==> r[i] == Overwrite(s[1..], id, q)[i - 1] && s[i] == s[1..][i - 1];
      r
  }

  /** ADD_TO_CART: a product already in the cart gets one more unit in place;
      a new product is appended with quantity one. */
  function AddProduct(s: Cart, p: ProductRef): (r: Cart)
    ensures HasLine(s, p.id) ==>
              && |r| == |s|
              && (forall i :: 0 <= i < |s| && s[i].id == p.id ==> r[i] == s[i].(quantity := s[i].quantity + 1))
              && (forall i :: 0 <= i < |s| && s[i].id != p.id ==> r[i] == s[i])
    ensures !HasLine(s, p.id) ==> |r| == |s| + 1 && r[..|s|] == s && r[|s|] == NewLine(p)
  {
    if FindLine(s, p.id).Some? then Increment(s, p.id) else s + [NewLine(p)]
  }

  /** The filter predicate of a removal: keep lines whose id differs. */
  function KeepOther(id: string): CartLine -> bool
  {
    (l: CartLine) => l.id != id
  }

  /** REMOVE_FROM_CART: the order-preserving filter of the lines whose id
      differs; a missing id leaves the cart as it was. */
  function RemoveProduct(s: Cart, id: string): (r: Cart)
    ensures forall l :: l in r <==> l in s && l.id != id
    ensures forall l :: multiset(r)[l] == if l.id == id then 0 else multiset(s)[l]
    ensures Seqs.IsSubsequence(r, s)
    ensures !HasLine(r, id)
    ensures !HasLine(s, id) ==> r == s
  {
    var keep := KeepOther(id);
    Seqs.FilterIsSubsequence(s, keep);
    Seqs.FilterCounts(s, keep);
    var r := Seqs.Filter(s, keep);
    assert !HasLine(r, id) by {
      forall i | 0 <= i < |r| ensures r[i].id != id {
        assert r[i] in r;
      }
    }
    assert !HasLine(s, id) ==> forall l :: l in s ==> keep(l);
    r
  }

  /** UPDATE_QUANTITY: a quantity of zero or less removes the line; a
      positive one replaces (does not add to) the line's quantity. */
  function SetQuantity(s: Cart, id: string, q: int): (r: Cart)
    ensures q <= 0 ==> forall l :: l in r <==> l in s && l.id != id
    ensures q > 0 ==>
              && |r| == |s|
              && (forall i :: 0 <= i < |s| && s[i].id == id ==> r[i] == s[i].(quantity := q))
              && (forall i :: 0 <= i < |s| && s[i].id != id ==> r[i] == s[i])
    ensures !HasLine(s, id) ==> r == s
  {
    if q <= 0 then RemoveProduct(s, id) else Overwrite(s, id, q)
  }

  /** `cartReducer`. */
  function Reduce(s: Cart, action: CartAction): (r: Cart)
    ensures action.LoadCart? ==> r == action.items
    ensures action.ClearCart? ==> r == []
    ensures !action.LoadCart? && !action.AddToCart? ==> |r| <= |s|
  {
    match action
    case LoadCart(items) => items
    case AddToCart(p) => AddProduct(s, p)
    case RemoveFromCart(id) => RemoveProduct(s, id)
    case UpdateQuantity(id, q) => SetQuantity(s, id, q)
    case ClearCart => []
  }

  /** `getTotalItems`: the sum of the quantities. */
  function TotalItems(s: Cart): (r: int)
    ensures (forall i :: 0 <= i < |s| ==> s[i].quantity >= 1) ==> r >= |s|
  {
    if |s| == 0 then 0 else s[0].quantity + TotalItems(s[1..])
  }

  /** `getTotalPrice`: the sum of price times quantity. */
  function TotalPrice(s: Cart): (r: int)
    ensures (forall i :: 0 <= i < |s| ==> s[i].price >= 0 && s[i].quantity >= 0) ==> r >= 0
  {
    if |s| == 0 then 0 else s[0].price * s[0].quantity + TotalPrice(s[1..])
  }
}
