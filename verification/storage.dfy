/** `MemStorage`: the in-memory catalog and order store. Two insertion-ordered
    maps, one from product id to product and one from order id to order.
    Queries are linear filters over the products in insertion order. The
    fresh id (`randomUUID`) and the clock reading (`new Date()`) are
    parameters; lower-casing (`toLowerCase`) is a parameter too. */
module Storage {
  import opened Wrappers
  import opened Schema
  import Seqs
  import OrderedMap

  datatype MemStorage = MemStorage(
    products: OrderedMap.Assoc<string, Product>,
    orders: OrderedMap.Assoc<string, Order>)

  /** What an insertion returns: the new store and the stored record. */
  datatype Created<T> = Created(store: MemStorage, value: T)

  /** The store's shape: keys are unique and every record sits under its
      own id. */
  ghost predicate Valid(st: MemStorage)
  {
    && OrderedMap.UniqueKeys(st.products)
    && OrderedMap.UniqueKeys(st.orders)
    && Keyed(st.products, ProductId)
    && Keyed(st.orders, OrderId)
  }

  /** Every entry of `m` sits under the id of its record. */
  ghost predicate Keyed<V>(m: OrderedMap.Assoc<string, V>, idOf: V -> string)
  {
    forall i :: 0 <= i < |m| ==> m[i].key == idOf(m[i].value)
  }

  function ProductId(p: Product): string
  {
    p.id
  }

  function OrderId(o: Order): string
  {
    o.id
  }

  /** `sub` occurs in `s` starting at offset `i`. */
  predicate OccursAt(s: string, sub: string, i: int)
  {
    0 <= i && i + |sub| <= |s| && s[i..i + |sub|] == sub
  }

  /** `s.includes(sub)`: `sub` occurs in `s` at some offset. The empty
      string occurs in every string, every string contains itself, and a
      string never contains a longer one. */
  predicate Contains(s: string, sub: string)
    ensures |sub| == 0 ==> Contains(s, sub)
    ensures sub == s ==> Contains(s, sub)
    ensures Contains(s, sub) ==> |sub| <= |s|
  {
    assert |sub| == 0 ==> OccursAt(s, sub, 0);
    assert sub == s ==> OccursAt(s, sub, 0);
    exists i :: 0 <= i <= |s| && OccursAt(s, sub, i)
  }

  /** `getAllProducts`: every stored product, in insertion order. */
  function AllProducts(st: MemStorage): (r: seq<Product>)
    ensures |r| == |st.products|
    ensures forall i :: 0 <= i < |r| ==> r[i] == st.products[i].value
  {
    OrderedMap.Values(st.products)
  }

  /** `getProductById`: the product stored under `id`, or `None`. */
  function GetProductById(st: MemStorage, id: string): (r: Option<Product>)
    ensures r.None? <==> !OrderedMap.HasKey(st.products, id)
    ensures r.Some? ==> OrderedMap.Entry(id, r.value) in st.products
    ensures Valid(st) && r.Some? ==> r.value.id == id && r.value in AllProducts(st)
  {
    var r := OrderedMap.Get(st.products, id);
    assert r.Some? ==> exists i :: 0 <= i < |st.products| && st.products[i] == OrderedMap.Entry(id, r.value);
    r
  }

  /** The category filter: an exact, case-sensitive comparison. */
  function InCategory(c: string): Product -> bool
  {
    (p: Product) => p.category == c
  }

  /** `getProductsByCategory`: the products whose category is exactly `c`
      (case-sensitive), in insertion order. */
  function ProductsByCategory(st: MemStorage, c: string): (r: seq<Product>)
    ensures forall p :: p in r <==> p in AllProducts(st) && p.category == c
    ensures Seqs.IsSubsequence(r, AllProducts(st))
  {
    Seqs.FilterIsSubsequence(AllProducts(st), InCategory(c));
    Seqs.Filter(AllProducts(st), InCategory(c))
  }

  predicate IsFeatured(p: Product)
  {
    p.featured
  }

  /** `getFeaturedProducts`: the products flagged as featured, in insertion
      order. */
  function FeaturedProducts(st: MemStorage): (r: seq<Product>)
    ensures forall p :: p in r <==> p in AllProducts(st) && p.featured
    ensures Seqs.IsSubsequence(r, AllProducts(st))
  {
    Seqs.FilterIsSubsequence(AllProducts(st), IsFeatured);
    Seqs.Filter(AllProducts(st), IsFeatured)
  }

  /** The search predicate: the lower-cased query occurs in the lower-cased
      name or in the lower-cased description. */
  predicate Matches(p: Product, q: string, lower: string -> string)
    ensures |lower(q)| == 0 ==> Matches(p, q, lower)
    ensures lower(q) == lower(p.name) || lower(q) == lower(p.description) ==> Matches(p, q, lower)
    ensures Matches(p, q, lower) ==> |lower(q)| <= |lower(p.name)| || |lower(q)| <= |lower(p.description)|
  {
    Contains(lower(p.name), lower(q)) || Contains(lower(p.description), lower(q))
  }

  /** `searchProducts`: the products matching the query, in insertion order;
      a query that lower-cases to the empty string matches every product. */
  function SearchProducts(st: MemStorage, q: string, lower: string -> string): (r: seq<Product>)
    ensures forall p :: p in r <==> p in AllProducts(st) && Matches(p, q, lower)
    ensures Seqs.IsSubsequence(r, AllProducts(st))
    ensures lower(q) == [] ==> r == AllProducts(st)
  {
    var matching := (p: Product) => Matches(p, q, lower);
    Seqs.FilterIsSubsequence(AllProducts(st), matching);
    assert lower(q) == [] ==> forall p :: p in AllProducts(st) ==> matching(p) by {
      if lower(q) == [] {
        forall p | p in AllProducts(st) ensures matching(p) {
          assert OccursAt(lower(p.name), lower(q), 0);
        }
      }
    }
    Seqs.Filter(AllProducts(st), matching)
  }

  /** `createProduct`: stores the submitted fields under the id `id` with
      creation time `now` and returns the stored product. Every other key
      keeps its product, the orders are untouched, and an id that was not
      yet a key puts the product last in insertion order. */
  function CreateProduct(st: MemStorage, ins: InsertProduct, id: string, now: Timestamp): (r: Created<Product>)
    ensures r.value.id == id && r.value.createdAt == now
    ensures InsertFieldsOfProduct(r.value) == ins
    ensures GetProductById(r.store, id) == Some(r.value)
    ensures forall k :: k != id ==> GetProductById(r.store, k) == GetProductById(st, k)
    ensures r.store.orders == st.orders
    ensures !OrderedMap.HasKey(st.products, id) ==> AllProducts(r.store) == AllProducts(st) + [r.value]
  {
    var p := Product(id, ins.name, ins.description, ins.price, ins.imageUrl, ins.category,
                     ins.inStock, ins.stockQuantity, ins.rating, ins.reviewCount, ins.featured, now);
    var products := OrderedMap.Set(st.products, id, p);
    var st' := st.(products := products);
    OrderedMap.SetFinds(st.products, id, p);
    assert forall k :: k != id ==> GetProductById(st', k) == GetProductById(st, k) by {
      forall k | k != id ensures GetProductById(st', k) == GetProductById(st, k) {
        OrderedMap.SetKeepsOthers(st.products, id, p, k);
      }
    }
    assert !OrderedMap.HasKey(st.products, id) ==> AllProducts(st') == AllProducts(st) + [p] by {
      if !OrderedMap.HasKey(st.products, id) {
        OrderedMap.ValuesAppend(st.products, OrderedMap.Entry(id, p));
      }
    }
    Created(st', p)
  }

  /** `getOrderById`: the order stored under `id`, or `None`. */
  function GetOrderById(st: MemStorage, id: string): (r: Option<Order>)
    ensures r.None? <==> !OrderedMap.HasKey(st.orders, id)
    ensures r.Some? ==> OrderedMap.Entry(id, r.value) in st.orders
    ensures Valid(st) && r.Some? ==> r.value.id == id
  {
    var r := OrderedMap.Get(st.orders, id);
    assert r.Some? ==> exists i :: 0 <= i < |st.orders| && st.orders[i] == OrderedMap.Entry(id, r.value);
    r
  }

  /** `createOrder`: stores the submitted order under `id` with creation
      time `now`, forcing its status to pending. The products, stock
      quantities included, are untouched, as is every other order. */
  function CreateOrder(st: MemStorage, ins: InsertOrder, id: string, now: Timestamp): (r: Created<Order>)
    ensures r.value.id == id && r.value.createdAt == now
    ensures r.value.status == PendingStatus
    ensures InsertFieldsOfOrder(r.value) == ins
    ensures GetOrderById(r.store, id) == Some(r.value)
    ensures forall k :: k != id ==> GetOrderById(r.store, k) == GetOrderById(st, k)
    ensures r.store.products == st.products
  {
    var o := Order(id, ins.customerName, ins.customerEmail, ins.customerPhone, ins.shippingAddress,
                   ins.city, ins.postalCode, ins.paymentMethod, ins.totalAmount, PendingStatus,
                   ins.items, now);
    var st' := st.(orders := OrderedMap.Set(st.orders, id, o));
    OrderedMap.SetFinds(st.orders, id, o);
    assert forall k :: k != id ==> GetOrderById(st', k) == GetOrderById(st, k) by {
      forall k | k != id ensures GetOrderById(st', k) == GetOrderById(st, k) {
        OrderedMap.SetKeepsOthers(st.orders, id, o, k);
      }
    }
    Created(st', o)
  }

  /** Setting a record under its own id keeps a map with unique keys keyed
      by id, whether the id is new or replaces an entry in place. */
  lemma SetKeepsKeyed<V>(m: OrderedMap.Assoc<string, V>, idOf: V -> string, v: V)
    requires OrderedMap.UniqueKeys(m) && Keyed(m, idOf)
    ensures OrderedMap.UniqueKeys(OrderedMap.Set(m, idOf(v), v))
    ensures Keyed(OrderedMap.Set(m, idOf(v), v), idOf)
  {
    var k := idOf(v);
    var r := OrderedMap.Set(m, k, v);
    OrderedMap.SetKeepsKeysUnique(m, k, v);
    if OrderedMap.HasKey(m, k) {
      OrderedMap.SetInPlace(m, k, v);
      forall i | 0 <= i < |r| ensures r[i].key == idOf(r[i].value) {
        assert r[i] == if m[i].key == k then OrderedMap.Entry(k, v) else m[i];
      }
    } else {
      forall i | 0 <= i < |r| ensures r[i].key == idOf(r[i].value) {
        if i < |m| {
          assert r[i] == m[i];
        }
      }
    }
  }

  /** Inserting a product keeps the store's shape, even when the id
      collides with an existing key (the product is then replaced in
      place). */
  lemma CreateProductKeepsValid(st: MemStorage, ins: InsertProduct, id: string, now: Timestamp)
    requires Valid(st)
    ensures Valid(CreateProduct(st, ins, id, now).store)
  {
    var c := CreateProduct(st, ins, id, now);
    SetKeepsKeyed(st.products, ProductId, c.value);
    assert c.store == st.(products := OrderedMap.Set(st.products, ProductId(c.value), c.value));
  }

  /** Inserting an order keeps the store's shape, even when the id collides
      with an existing key. */
  lemma CreateOrderKeepsValid(st: MemStorage, ins: InsertOrder, id: string, now: Timestamp)
    requires Valid(st)
    ensures Valid(CreateOrder(st, ins, id, now).store)
  {
    var c := CreateOrder(st, ins, id, now);
    SetKeepsKeyed(st.orders, OrderId, c.value);
    assert c.store == st.(orders := OrderedMap.Set(st.orders, OrderId(c.value), c.value));
  }

  /** Every query answer is drawn from `getAllProducts` in its order. */
  lemma QueriesAreSubsequences(st: MemStorage, c: string, q: string, lower: string -> string)
    ensures Seqs.IsSubsequence(ProductsByCategory(st, c), AllProducts(st))
    ensures Seqs.IsSubsequence(FeaturedProducts(st), AllProducts(st))
    ensures Seqs.IsSubsequence(SearchProducts(st, q, lower), AllProducts(st))
    ensures GetProductById(st, q).Some? ==> GetProductById(st, q).value in AllProducts(st)
  {
  }
}
