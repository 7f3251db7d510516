/** The store's constructor: an empty store seeded with the eight sample
    products, inserted one by one under their own ids. */
module CatalogSeed {
  import opened Wrappers
  import opened Schema
  import opened Storage
  import OrderedMap
  import Seqs

  /** The sample products of `seedProducts`, in listing order. Prices are
      minor units, ratings tenths; every product gets the same clock
      reading `now`. */
  function SampleProducts(now: Timestamp): (r: seq<Product>)
    ensures |r| == 8
    ensures forall i :: 0 <= i < 8 ==> r[i].id == SampleIds[i] && r[i].createdAt == now
  {
    [ FaceSerum(now), AcaciaHoney(now), LavenderOil(now), HerbalTea(now),
      HerbalSoap(now), CoconutOil(now), ClayMask(now), GreenTea(now) ]
  }

  function FaceSerum(now: Timestamp): Product
  {
    Product("1", FaceSerumName, FaceSerumDescription, 15000, FaceSerumImage,
            "skincare", true, 25, 50, 24, true, now)
  }

  function AcaciaHoney(now: Timestamp): Product
  {
    Product("2", AcaciaHoneyName, AcaciaHoneyDescription, 8500, AcaciaHoneyImage,
            "organic-foods", true, 15, 50, 18, true, now)
  }

  function LavenderOil(now: Timestamp): Product
  {
    Product("3", LavenderOilName, LavenderOilDescription, 12000, LavenderOilImage,
            "essential-oils", true, 30, 50, 32, true, now)
  }

  function HerbalTea(now: Timestamp): Product
  {
    Product("4", HerbalTeaName, HerbalTeaDescription, 6500, HerbalTeaImage,
            "herbal-remedies", true, 20, 40, 15, true, now)
  }

  function HerbalSoap(now: Timestamp): Product
  {
    Product("5", HerbalSoapName, HerbalSoapDescription, 4500, HerbalSoapImage,
            "skincare", true, 40, 50, 28, true, now)
  }

  function CoconutOil(now: Timestamp): Product
  {
    Product("6", CoconutOilName, CoconutOilDescription, 9500, CoconutOilImage,
            "organic-foods", true, 18, 40, 21, false, now)
  }

  function ClayMask(now: Timestamp): Product
  {
    Product("7", ClayMaskName, ClayMaskDescription, 7500, ClayMaskImage,
            "skincare", true, 22, 50, 19, false, now)
  }

  function GreenTea(now: Timestamp): Product
  {
    Product("8", GreenTeaName, GreenTeaDescription, 5500, GreenTeaImage,
            "organic-foods", true, 35, 50, 26, false, now)
  }

  /** The display texts of the sample products, kept apart from the
      products so that the facts about ids, categories and flags do not
      carry them. */
  const FaceSerumName: string := "سيروم الوجه الطبيعي"
  const FaceSerumDescription: string :=
    "سيروم مركز للعناية بالبشرة مصنوع من المكونات الطبيعية"
  const FaceSerumImage: string :=
    "https://images.unsplash.com/photo-1571781926291-c477ebfd024b?ixlib=rb-4.0.3&auto=format&fit=crop&w=800&h=600"

  const AcaciaHoneyName: string := "عسل الأكاسيا النقي"
  const AcaciaHoneyDescription: string :=
    "عسل طبيعي نقي 100% من أزهار الأكاسيا البرية"
  const AcaciaHoneyImage: string :=
    "https://images.unsplash.com/photo-1587049352846-4a222e784d38?ixlib=rb-4.0.3&auto=format&fit=crop&w=800&h=600"

  const LavenderOilName: string := "زيت اللافندر العطري"
  const LavenderOilDescription: string :=
    "زيت عطري نقي من اللافندر للاسترخاء والهدوء"
  const LavenderOilImage: string :=
    "https://images.unsplash.com/photo-1608571423902-eed4a5ad8108?ixlib=rb-4.0.3&auto=format&fit=crop&w=800&h=600"

  const HerbalTeaName: string := "شاي الأعشاب المخلوط"
  const HerbalTeaDescription: string :=
    "خلطة متميزة من الأعشاب الطبيعية للصحة والعافية"
  const HerbalTeaImage: string :=
    "https://images.unsplash.com/photo-1627825296022-d3ce060f72a6?ixlib=rb-4.0.3&auto=format&fit=crop&w=800&h=600"

  const HerbalSoapName: string := "صابون الأعشاب الطبيعي"
  const HerbalSoapDescription: string :=
    "صابون مصنوع يدوياً من المكونات الطبيعية"
  const HerbalSoapImage: string :=
    "https://images.unsplash.com/photo-1556909088-95d5240ac8fd?ixlib=rb-4.0.3&auto=format&fit=crop&w=800&h=600"

  const CoconutOilName: string := "زيت جوز الهند العضوي"
  const CoconutOilDescription: string :=
    "زيت جوز هند بكر مضغوط على البارد"
  const CoconutOilImage: string :=
    "https://images.unsplash.com/photo-1474979266404-7eaacbcd87c5?ixlib=rb-4.0.3&auto=format&fit=crop&w=800&h=600"

  const ClayMaskName: string := "قناع الطين الطبيعي"
  const ClayMaskDescription: string :=
    "قناع منقي للوجه من الطين الطبيعي والعسل"
  const ClayMaskImage: string :=
    "https://images.unsplash.com/photo-1556228720-195a672e8a03?ixlib=rb-4.0.3&auto=format&fit=crop&w=800&h=600"

  const GreenTeaName: string := "الشاي الأخضر العضوي"
  const GreenTeaDescription: string :=
    "شاي أخضر عضوي عالي الجودة غني بمضادات الأكسدة"
  const GreenTeaImage: string :=
    "https://images.unsplash.com/photo-1556228453-efd6c1ff04f6?ixlib=rb-4.0.3&auto=format&fit=crop&w=800&h=600"

  /** `products.forEach(p => map.set(p.id, p))`. */
  function SetAll(m: OrderedMap.Assoc<string, Product>, ps: seq<Product>): (r: OrderedMap.Assoc<string, Product>)
    ensures |m| <= |r| <= |m| + |ps|
    ensures OrderedMap.UniqueKeys(m) ==> OrderedMap.UniqueKeys(r)
    decreases |ps|
  {
    if |ps| == 0 then m
    else
      var m' := OrderedMap.Set(m, ps[0].id, ps[0]);
      assert OrderedMap.UniqueKeys(m) ==> OrderedMap.UniqueKeys(m') by {
        if OrderedMap.UniqueKeys(m) {
          OrderedMap.SetKeepsKeysUnique(m, ps[0].id, ps[0]);
        }
      }
      SetAll(m', ps[1..])
  }

  /** Each product keyed by its own id, in order. */
  function KeyedEntries(ps: seq<Product>): (r: OrderedMap.Assoc<string, Product>)
    ensures |r| == |ps|
    ensures forall i :: 0 <= i < |ps| ==> r[i] == OrderedMap.Entry(ps[i].id, ps[i])
  {
    if |ps| == 0 then []
    else
      var r := [OrderedMap.Entry(ps[0].id, ps[0])] + KeyedEntries(ps[1..]);
      assert forall i :: 1 <= i < |ps| ==> r[i] == KeyedEntries(ps[1..])[i - 1] && ps[i] == ps[1..][i - 1];
      r
  }

  ghost predicate DistinctIds(ps: seq<Product>)
  {
    forall i, j :: 0 <= i < j < |ps| ==> ps[i].id != ps[j].id
  }

  /** `new MemStorage()`: no orders, the sample products as the catalog. */
  function NewMemStorage(now: Timestamp): (r: MemStorage)
    ensures r.orders == []
    ensures AllProducts(r) == SampleProducts(now)
    ensures Valid(r)
  {
    SampleFacts(now);
    SeedFromDistinct(SampleProducts(now));
    MemStorage(SetAll([], SampleProducts(now)), [])
  }

  /** A key absent from `m` and different from `e`'s key is absent from
      `m + [e]`. */
  lemma AbsentAfterAppend(m: OrderedMap.Assoc<string, Product>, e: OrderedMap.Entry<string, Product>, k: string)
    requires !OrderedMap.HasKey(m, k) && e.key != k
    ensures !OrderedMap.HasKey(m + [e], k)
  {
    var m' := m + [e];
    forall j | 0 <= j < |m'| ensures m'[j].key != k {
      if j < |m| {
        assert m'[j] == m[j];
      }
    }
  }

  /** Inserting products with distinct, not yet used ids appends them in
      order. */
  lemma {:induction false} SetAllFresh(m: OrderedMap.Assoc<string, Product>, ps: seq<Product>)
    requires DistinctIds(ps)
    requires forall i :: 0 <= i < |ps| ==> !OrderedMap.HasKey(m, ps[i].id)
    ensures SetAll(m, ps) == m + KeyedEntries(ps)
    decreases |ps|
  {
    if |ps| > 0 {
      var e := OrderedMap.Entry(ps[0].id, ps[0]);
      var m' := m + [e];
      assert OrderedMap.Set(m, ps[0].id, ps[0]) == m';
      var rest := ps[1..];
      forall i | 0 <= i < |rest| ensures !OrderedMap.HasKey(m', rest[i].id) {
        assert rest[i] == ps[i + 1];
        AbsentAfterAppend(m, e, rest[i].id);
      }
      assert DistinctIds(rest) by {
        forall i, j | 0 <= i < j < |rest| ensures rest[i].id != rest[j].id {
          assert rest[i] == ps[i + 1] && rest[j] == ps[j + 1];
        }
      }
      SetAllFresh(m', rest);
      calc {
        SetAll(m, ps);
        SetAll(m', rest);
        m' + KeyedEntries(rest);
        { Seqs.ConcatAssoc(m, [e], KeyedEntries(rest)); }
        m + ([e] + KeyedEntries(rest));
        { assert KeyedEntries(ps) == [e] + KeyedEntries(rest); }
        m + KeyedEntries(ps);
      }
    }
  }

  /** The ids and categories of the sample products, in listing order. */
  const SampleIds: seq<string> := ["1", "2", "3", "4", "5", "6", "7", "8"]
  const SampleCategories: seq<string> :=
    ["skincare", "organic-foods", "essential-oils", "herbal-remedies",
     "skincare", "organic-foods", "skincare", "organic-foods"]

  /** The facts about the sample list the seeded queries depend on. */
  lemma SampleFacts(now: Timestamp)
    ensures |SampleProducts(now)| == 8
    ensures forall i :: 0 <= i < 8 ==> SampleProducts(now)[i].id == SampleIds[i]
    ensures forall i :: 0 <= i < 8 ==> SampleProducts(now)[i].category == SampleCategories[i]
    ensures forall i :: 0 <= i < 8 ==> SampleProducts(now)[i].featured == (i < 5)
    ensures DistinctIds(SampleProducts(now))
  {
  }

  /** A store built by inserting products with distinct ids lists exactly
      those products, in order, and has the store's shape. */
  lemma {:induction false} SeedFromDistinct(ps: seq<Product>)
    requires DistinctIds(ps)
    ensures AllProducts(MemStorage(SetAll([], ps), [])) == ps
    ensures Valid(MemStorage(SetAll([], ps), []))
  {
    SetAllFresh([], ps);
    var st := MemStorage(SetAll([], ps), []);
    assert st.products == KeyedEntries(ps);
    assert AllProducts(st) == ps;
  }

  /** After construction `getAllProducts` lists the sample products in
      order, under the ids "1" to "8", there are no orders, and the store
      has its shape. */
  lemma SeededCatalog(now: Timestamp)
    ensures AllProducts(NewMemStorage(now)) == SampleProducts(now)
    ensures |AllProducts(NewMemStorage(now))| == 8
    ensures forall i :: 0 <= i < 8 ==> AllProducts(NewMemStorage(now))[i].id == SampleIds[i]
    ensures NewMemStorage(now).orders == []
    ensures Valid(NewMemStorage(now))
  {
    SampleFacts(now);
    SeedFromDistinct(SampleProducts(now));
  }

  /** Exactly the first five sample products, ids "1" to "5", are
      featured. */
  lemma SeededFeatured(now: Timestamp)
    ensures |AllProducts(NewMemStorage(now))| == 8
    ensures FeaturedProducts(NewMemStorage(now)) == AllProducts(NewMemStorage(now))[..5]
  {
    SeededFlags(now);
    FeaturedPrefix(AllProducts(NewMemStorage(now)));
  }

  /** The seeded store lists eight products; the first five are featured. */
  lemma SeededFlags(now: Timestamp)
    ensures |AllProducts(NewMemStorage(now))| == 8
    ensures forall i :: 0 <= i < 8 ==> AllProducts(NewMemStorage(now))[i].featured == (i < 5)
  {
    SeededCatalog(now);
    SampleFacts(now);
  }

  /** The featured filter over a list whose first five entries, and only
      those, are featured keeps exactly those five. */
  lemma FeaturedPrefix(ps: seq<Product>)
    requires |ps| == 8
    requires forall i :: 0 <= i < 8 ==> ps[i].featured == (i < 5)
    ensures Seqs.Filter(ps, IsFeatured) == ps[..5]
  {
    forall i | 0 <= i < |ps| ensures IsFeatured(ps[i]) <==> i < 5 {
      assert ps[i].featured == (i < 5);
    }
    Seqs.FilterPrefix(ps, IsFeatured, 5);
  }

  /** Which sample categories are "skincare": positions 0, 4 and 6. */
  lemma SkincareFlags(ps: seq<Product>)
    requires |ps| == 8
    requires forall i :: 0 <= i < 8 ==> ps[i].category == SampleCategories[i]
    ensures forall i :: 0 <= i < 8 ==> (InCategory("skincare")(ps[i]) <==> i == 0 || i == 4 || i == 6)
  {
    forall i | 0 <= i < 8 ensures InCategory("skincare")(ps[i]) <==> i == 0 || i == 4 || i == 6 {
      assert ps[i].category == SampleCategories[i];
      if i != 0 && i != 4 && i != 6 {
        assert SampleCategories[i][0] != 's';
      }
    }
  }

  /** The last four of the sample categories contribute positions 4 and 6. */
  lemma SkincareBack(ps: seq<Product>)
    requires |ps| == 8
    requires forall i :: 0 <= i < 8 ==> (InCategory("skincare")(ps[i]) <==> i == 0 || i == 4 || i == 6)
    ensures Seqs.Filter(ps[4..], InCategory("skincare")) == [ps[4], ps[6]]
  {
    var f := InCategory("skincare");
    var t7 := ps[7..];
    Seqs.FilterCons(t7, f);
    assert t7[1..] == [];
    var t6 := ps[6..];
    Seqs.FilterCons(t6, f);
    assert t6[1..] == t7;
    var t5 := ps[5..];
    Seqs.FilterCons(t5, f);
    assert t5[1..] == t6;
    var t4 := ps[4..];
    Seqs.FilterCons(t4, f);
    assert t4[1..] == t5;
  }

  /** Positions 1 to 3 hold no "skincare" entry. */
  lemma SkincareGap(ps: seq<Product>)
    requires |ps| == 8
    requires forall i :: 0 <= i < 8 ==> (InCategory("skincare")(ps[i]) <==> i == 0 || i == 4 || i == 6)
    ensures Seqs.Filter(ps[1..], InCategory("skincare")) == Seqs.Filter(ps[4..], InCategory("skincare"))
  {
    var f := InCategory("skincare");
    var tail := ps[1..];
    forall i | 0 <= i < 3 ensures !f(tail[i]) {
      assert tail[i] == ps[i + 1];
    }
    Seqs.FilterSkip(tail, f, 3);
    assert tail[3..] == ps[4..];
  }

  /** The category filter over a list whose "skincare" entries sit at
      positions 0, 4 and 6 picks exactly those, in order. */
  lemma SkincarePositions(ps: seq<Product>)
    requires |ps| == 8
    requires forall i :: 0 <= i < 8 ==> (InCategory("skincare")(ps[i]) <==> i == 0 || i == 4 || i == 6)
    ensures Seqs.Filter(ps, InCategory("skincare")) == [ps[0], ps[4], ps[6]]
  {
    SkincareBack(ps);
    SkincareGap(ps);
    Seqs.FilterCons(ps, InCategory("skincare"));
  }

  /** Category "skincare" yields the products with ids "1", "5" and "7", in
      that order. */
  lemma SeededSkincare(now: Timestamp)
    ensures ProductsByCategory(NewMemStorage(now), "skincare") ==
              [SampleProducts(now)[0], SampleProducts(now)[4], SampleProducts(now)[6]]
    ensures SampleProducts(now)[0].id == "1" && SampleProducts(now)[4].id == "5" && SampleProducts(now)[6].id == "7"
  {
    SeededCatalog(now);
    SampleFacts(now);
    SkincareFlags(SampleProducts(now));
    SkincarePositions(SampleProducts(now));
  }
}
