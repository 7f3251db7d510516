/** Laws of the cart reducer: how each action moves the two totals, the
    invariant the reducer keeps, and how actions relate to one another. */
module CartProperties {
  import opened Cart
  import Seqs

  /** Number of lines carrying id `id`. */
  function LineCount(s: Cart, id: string): nat
  {
    if |s| == 0 then 0 else (if s[0].id == id then 1 else 0) + LineCount(s[1..], id)
  }

  /** Sum of the quantities of the lines carrying id `id`. */
  function QuantityOf(s: Cart, id: string): int
  {
    if |s| == 0 then 0 else (if s[0].id == id then s[0].quantity else 0) + QuantityOf(s[1..], id)
  }

  /** Sum of the unit prices of the lines carrying id `id`. */
  function UnitPriceOf(s: Cart, id: string): int
  {
    if |s| == 0 then 0 else (if s[0].id == id then s[0].price else 0) + UnitPriceOf(s[1..], id)
  }

  /** Sum of price times quantity over the lines carrying id `id`. */
  function AmountOf(s: Cart, id: string): int
  {
    if |s| == 0 then 0
    else (if s[0].id == id then s[0].price * s[0].quantity else 0) + AmountOf(s[1..], id)
  }

  /** Multiplication distributes over a sum of two terms. */
  lemma Distribute(a: int, b: int, c: int)
    ensures a * (b + c) == a * b + a * c
  {
  }

  /** Both totals add up over concatenation. */
  lemma {:induction false} TotalsAppend(a: Cart, b: Cart)
    ensures TotalItems(a + b) == TotalItems(a) + TotalItems(b)
    ensures TotalPrice(a + b) == TotalPrice(a) + TotalPrice(b)
  {
    if |a| == 0 {
      assert a + b == b;
    } else {
      assert (a + b)[1..] == a[1..] + b;
      TotalsAppend(a[1..], b);
    }
  }

  /** In a cart with unique ids, the per-id sums are those of the one line
      that carries the id, and zero when no line does. */
  lemma {:induction false} PerIdSumsOfUniqueCart(s: Cart, id: string)
    requires UniqueIds(s)
    ensures !HasLine(s, id) ==>
              LineCount(s, id) == 0 && QuantityOf(s, id) == 0 && UnitPriceOf(s, id) == 0 && AmountOf(s, id) == 0
    ensures forall i :: 0 <= i < |s| && s[i].id == id ==>
              && LineCount(s, id) == 1
              && QuantityOf(s, id) == s[i].quantity
              && UnitPriceOf(s, id) == s[i].price
              && AmountOf(s, id) == s[i].price * s[i].quantity
  {
    if |s| > 0 {
      var t := s[1..];
      assert forall i :: 1 <= i < |s| ==> s[i] == t[i - 1];
      assert UniqueIds(t);
      PerIdSumsOfUniqueCart(t, id);
      if s[0].id == id {
        assert !HasLine(t, id);
      }
    }
  }

  /** Incrementing the lines of `id` raises the item total by the number of
      such lines. */
  lemma {:induction false} IncrementItems(s: Cart, id: string)
    ensures TotalItems(Increment(s, id)) == TotalItems(s) + LineCount(s, id)
  {
    if |s| > 0 {
      assert Increment(s, id)[1..] == Increment(s[1..], id);
      IncrementItems(s[1..], id);
    }
  }

  /** Incrementing the lines of `id` raises the price total by the sum of
      their unit prices. */
  lemma {:induction false} IncrementPrice(s: Cart, id: string)
    ensures TotalPrice(Increment(s, id)) == TotalPrice(s) + UnitPriceOf(s, id)
  {
    if |s| > 0 {
      assert Increment(s, id)[1..] == Increment(s[1..], id);
      IncrementPrice(s[1..], id);
      if s[0].id == id {
        Distribute(s[0].price, s[0].quantity, 1);
      }
    }
  }

  /** Overwriting the quantity of the lines of `id` leaves the contribution
      of every other line to the item total as it was. */
  lemma {:induction false} OverwriteTotals(s: Cart, id: string, q: int)
    ensures TotalItems(Overwrite(s, id, q)) - QuantityOf(Overwrite(s, id, q), id) == TotalItems(s) - QuantityOf(s, id)
  {
    if |s| > 0 {
      var r := Overwrite(s, id, q);
      var t := Overwrite(s[1..], id, q);
      assert r[1..] == t;
      OverwriteTotals(s[1..], id, q);
    }
  }

  /** The removal filter, unfolded one line at a time. */
  lemma RemoveProductCons(s: Cart, id: string)
    requires |s| > 0
    ensures RemoveProduct(s, id) ==
              if s[0].id == id then RemoveProduct(s[1..], id) else [s[0]] + RemoveProduct(s[1..], id)
  {
    assert s == [s[0]] + s[1..];
    Seqs.FilterConcat([s[0]], s[1..], KeepOther(id));
  }

  /** Removing the lines of `id` subtracts exactly their contribution from
      both totals. */
  lemma {:induction false} RemoveTotals(s: Cart, id: string)
    ensures TotalItems(RemoveProduct(s, id)) == TotalItems(s) - QuantityOf(s, id)
    ensures TotalPrice(RemoveProduct(s, id)) == TotalPrice(s) - AmountOf(s, id)
  {
    if |s| > 0 {
      RemoveProductCons(s, id);
      RemoveTotals(s[1..], id);
      if s[0].id != id {
        var t := RemoveProduct(s[1..], id);
        assert ([s[0]] + t)[1..] == t;
      }
    }
  }

  /** ADD_TO_CART on a cart with unique ids raises the item count by one and
      the price total by one unit price: the existing line's price when the
      product is already there, the product's price otherwise. */
  lemma AddTotals(s: Cart, p: ProductRef)
    requires UniqueIds(s)
    ensures TotalItems(Reduce(s, AddToCart(p))) == TotalItems(s) + 1
    ensures TotalPrice(Reduce(s, AddToCart(p))) ==
              TotalPrice(s) + match FindLine(s, p.id) case Some(l) => l.price case None => p.price
  {
    if HasLine(s, p.id) {
      assert Reduce(s, AddToCart(p)) == Increment(s, p.id);
      AddPresentTotals(s, p);
    } else {
      AddAbsentAppends(s, p);
      AddAbsentTotals(s, p);
    }
  }

  /** Bumping the one line of a product already in a cart with unique ids
      adds one item and that line's unit price. */
  lemma AddPresentTotals(s: Cart, p: ProductRef)
    requires UniqueIds(s) && HasLine(s, p.id)
    ensures TotalItems(Increment(s, p.id)) == TotalItems(s) + 1
    ensures TotalPrice(Increment(s, p.id)) == TotalPrice(s) + FindLine(s, p.id).value.price
  {
    var l := FindLine(s, p.id).value;
    var i :| 0 <= i < |s| && s[i] == l && l.id == p.id;
    PerIdSumsOfUniqueCart(s, p.id);
    assert UnitPriceOf(s, p.id) == l.price && LineCount(s, p.id) == 1;
    IncrementItems(s, p.id);
    IncrementPrice(s, p.id);
  }

  /** Appending a product's new line adds one item and its price. */
  lemma AddAbsentTotals(s: Cart, p: ProductRef)
    ensures TotalItems(s + [NewLine(p)]) == TotalItems(s) + 1
    ensures TotalPrice(s + [NewLine(p)]) == TotalPrice(s) + p.price
  {
    TotalsAppend(s, [NewLine(p)]);
    assert [NewLine(p)][1..] == [];
  }

  /** REMOVE_FROM_CART on a cart with unique ids lowers the totals by the
      removed line's quantity and amount, and leaves them alone when the id
      is absent. */
  lemma RemoveLineTotals(s: Cart, id: string)
    requires UniqueIds(s)
    ensures forall i :: 0 <= i < |s| && s[i].id == id ==>
              && TotalItems(Reduce(s, RemoveFromCart(id))) == TotalItems(s) - s[i].quantity
              && TotalPrice(Reduce(s, RemoveFromCart(id))) == TotalPrice(s) - s[i].price * s[i].quantity
    ensures !HasLine(s, id) ==> Reduce(s, RemoveFromCart(id)) == s
  {
    PerIdSumsOfUniqueCart(s, id);
    RemoveTotals(s, id);
  }

  /** On a cart with unique ids, overwriting the quantity of the line at
      `i` moves the item total from its old quantity to `q`. */
  lemma OverwriteLineTotals(s: Cart, id: string, q: int, i: nat)
    requires UniqueIds(s) && i < |s| && s[i].id == id
    ensures TotalItems(Overwrite(s, id, q)) == TotalItems(s) - s[i].quantity + q
  {
    var r := Overwrite(s, id, q);
    assert UniqueIds(r) by {
      assert forall j :: 0 <= j < |r| ==> r[j].id == s[j].id;
    }
    PerIdSumsOfUniqueCart(s, id);
    PerIdSumsOfUniqueCart(r, id);
    assert r[i].id == id && r[i].quantity == q;
    OverwriteTotals(s, id, q);
  }

  /** UPDATE_QUANTITY with a positive quantity on a cart with unique ids
      moves the item total from the line's old quantity to the new one. */
  lemma UpdateLineTotals(s: Cart, id: string, q: int)
    requires UniqueIds(s) && q > 0
    ensures forall i :: 0 <= i < |s| && s[i].id == id ==>
              TotalItems(Reduce(s, UpdateQuantity(id, q))) == TotalItems(s) - s[i].quantity + q
  {
    assert Reduce(s, UpdateQuantity(id, q)) == Overwrite(s, id, q);
    forall i | 0 <= i < |s| && s[i].id == id
      ensures TotalItems(Overwrite(s, id, q)) == TotalItems(s) - s[i].quantity + q
    {
      OverwriteLineTotals(s, id, q, i);
    }
  }

  /** CLEAR_CART empties the cart, so both totals are zero. */
  lemma ClearTotals(s: Cart)
    ensures Reduce(s, ClearCart) == []
    ensures TotalItems(Reduce(s, ClearCart)) == 0 && TotalPrice(Reduce(s, ClearCart)) == 0
  {
  }

  /** UPDATE_QUANTITY with a quantity of zero or less is REMOVE_FROM_CART. */
  lemma UpdateNonPositiveIsRemove(s: Cart, id: string, q: int)
    requires q <= 0
    ensures Reduce(s, UpdateQuantity(id, q)) == Reduce(s, RemoveFromCart(id))
  {
  }

  /** ADD_TO_CART of a product the cart lacks appends its new line. */
  lemma AddAbsentAppends(s: Cart, p: ProductRef)
    requires !HasLine(s, p.id)
    ensures Reduce(s, AddToCart(p)) == s + [NewLine(p)]
  {
    var added := AddProduct(s, p);
    assert added[..|s|] == s && added[|s|] == NewLine(p);
    assert added == added[..|s|] + [added[|s|]];
  }

  /** Removing the id of a line appended to a cart without that id gives
      the cart back. */
  lemma RemoveAppended(s: Cart, l: CartLine)
    requires !HasLine(s, l.id)
    ensures RemoveProduct(s + [l], l.id) == s
  {
    var keep := KeepOther(l.id);
    Seqs.FilterConcat(s, [l], keep);
    assert Seqs.Filter(s, keep) == s by {
      forall x | x in s ensures keep(x) {
        var i :| 0 <= i < |s| && s[i] == x;
      }
    }
    assert !keep(l);
    Seqs.FilterNone([l], keep);
  }

  /** Removing a product that was just added to a cart without it gives the
      original cart back. */
  lemma RemoveUndoesAdd(s: Cart, p: ProductRef)
    requires !HasLine(s, p.id)
    ensures Reduce(Reduce(s, AddToCart(p)), RemoveFromCart(p.id)) == s
  {
    AddAbsentAppends(s, p);
    RemoveAppended(s, NewLine(p));
    var added := s + [NewLine(p)];
    assert Reduce(added, RemoveFromCart(p.id)) == RemoveProduct(added, NewLine(p).id);
  }

  /** Removal a second time changes nothing. */
  lemma RemoveIdempotent(s: Cart, id: string)
    ensures Reduce(Reduce(s, RemoveFromCart(id)), RemoveFromCart(id)) == Reduce(s, RemoveFromCart(id))
  {
  }

  /** A subsequence of a cart with unique ids has unique ids. */
  lemma {:induction false} SubsequenceKeepsUniqueIds(a: Cart, b: Cart)
    requires Seqs.IsSubsequence(a, b) && UniqueIds(b)
    ensures UniqueIds(a)
  {
    if |a| > 0 {
      var b' := b[1..];
      assert forall i :: 1 <= i < |b| ==> b[i] == b'[i - 1];
      assert UniqueIds(b');
      if a[0] == b[0] && Seqs.IsSubsequence(a[1..], b[1..]) {
        SubsequenceKeepsUniqueIds(a[1..], b');
        Seqs.SubsequenceMembers(a[1..], b');
        forall i, j | 0 <= i < j < |a| ensures a[i].id != a[j].id {
          assert a[j] == a[1..][j - 1];
          assert a[j] in b';
          if i == 0 {
            var k :| 0 <= k < |b'| && b'[k] == a[j];
            assert b[k + 1] == a[j];
          } else {
            assert a[i] == a[1..][i - 1];
          }
        }
      } else {
        SubsequenceKeepsUniqueIds(a, b');
      }
    }
  }

  /** Removal keeps the cart invariant. */
  lemma RemoveKeepsWellFormed(s: Cart, id: string)
    requires WellFormed(s)
    ensures WellFormed(RemoveProduct(s, id))
  {
    var r := RemoveProduct(s, id);
    SubsequenceKeepsUniqueIds(r, s);
    forall i | 0 <= i < |r| ensures r[i].quantity >= 1 {
      assert r[i] in r;
      var j :| 0 <= j < |s| && s[j] == r[i];
    }
  }

  /** ADD_TO_CART keeps the cart invariant. */
  lemma AddKeepsWellFormed(s: Cart, p: ProductRef)
    requires WellFormed(s)
    ensures WellFormed(AddProduct(s, p))
  {
    var r := AddProduct(s, p);
    if HasLine(s, p.id) {
      assert r == Increment(s, p.id);
      assert forall i :: 0 <= i < |r| ==> r[i].id == s[i].id && r[i].quantity >= s[i].quantity;
    } else {
      assert forall i :: 0 <= i < |s| ==> r[i] == s[i];
    }
  }

  /** Overwriting with a positive quantity keeps the cart invariant. */
  lemma OverwriteKeepsWellFormed(s: Cart, id: string, q: int)
    requires WellFormed(s) && q > 0
    ensures WellFormed(Overwrite(s, id, q))
  {
    var r := Overwrite(s, id, q);
    assert forall i :: 0 <= i < |r| ==> r[i].id == s[i].id && r[i].quantity >= 1;
  }

  /** The cart invariant holds after every action except LOAD_CART, which
      trusts its payload. */
  lemma ReducePreservesWellFormed(s: Cart, action: CartAction)
    requires WellFormed(s) && !action.LoadCart?
    ensures WellFormed(Reduce(s, action))
  {
    match action
    case AddToCart(p) =>
      assert Reduce(s, action) == AddProduct(s, p);
      AddKeepsWellFormed(s, p);
    case RemoveFromCart(id) =>
      assert Reduce(s, action) == RemoveProduct(s, id);
      RemoveKeepsWellFormed(s, id);
    case UpdateQuantity(id, q) =>
      if q <= 0 {
        assert Reduce(s, action) == RemoveProduct(s, id);
        RemoveKeepsWellFormed(s, id);
      } else {
        assert Reduce(s, action) == Overwrite(s, id, q);
        OverwriteKeepsWellFormed(s, id, q);
      }
    case ClearCart =>
  }

  /** LOAD_CART does not validate: it can install a cart that breaks the
      invariant, for example a line with quantity zero. */
  lemma LoadCartTrustsPayload(s: Cart)
    ensures !WellFormed(Reduce(s, LoadCart([CartLine("1", "", 0, "", 0)])))
  {
    assert Reduce(s, LoadCart([CartLine("1", "", 0, "", 0)]))[0].quantity == 0;
  }

  /** `n` adds of the same product, starting from a cart without it. */
  function AddTimes(s: Cart, p: ProductRef, n: nat): Cart
  {
    if n == 0 then s else Reduce(AddTimes(s, p, n - 1), AddToCart(p))
  }

  /** Adding a product whose only line is the last one bumps that line and
      leaves the lines in front of it alone. */
  lemma AddToLastLine(s: Cart, l: CartLine, p: ProductRef)
    requires l.id == p.id && !HasLine(s, p.id)
    ensures Reduce(s + [l], AddToCart(p)) == s + [l.(quantity := l.quantity + 1)]
  {
    var prev := s + [l];
    assert prev[|s|] == l;
    assert HasLine(prev, p.id);
    var r := Reduce(prev, AddToCart(p));
    assert forall i :: 0 <= i < |s| ==> prev[i] == s[i];
    assert forall i :: 0 <= i < |s| ==> r[i] == s[i];
  }

  /** Adding the same product `n >= 1` times to a cart that lacks it leaves
      the old lines in front and exactly one line for the product, at the
      end, with quantity `n`. */
  lemma {:induction false} RepeatedAdds(s: Cart, p: ProductRef, n: nat)
    requires n >= 1 && !HasLine(s, p.id)
    ensures AddTimes(s, p, n) == s + [NewLine(p).(quantity := n)]
  {
    if n > 1 {
      RepeatedAdds(s, p, n - 1);
      var last := NewLine(p).(quantity := n - 1);
      assert AddTimes(s, p, n) == Reduce(s + [last], AddToCart(p));
      AddToLastLine(s, last, p);
    } else {
      assert AddTimes(s, p, 1) == AddProduct(s, p);
      assert FindLine(s, p.id).None?;
    }
  }
}
