/** The filter engine: the predicate that decides which products the table
    shows, given the name, shop, category and status filters. */
module FilterEngine {
  import opened Lists
  import opened Products

  /** The option texts of the two filter selects that stand for "any". */
  const AllShops: string := "All Shops"
  const AllCategories: string := "All Categories"

  /** The four filter fields of the application state. */
  datatype Criteria = Criteria(name: string, shop: string, category: string, status: string)

  /** The filters as the application starts. */
  const Defaults: Criteria := Criteria("", "", "", "all")

  // ---------------------------------------------------------------- case and substrings

  /** ASCII lower-casing of one character. */
  function Lower(c: char): char {
    if 'A' <= c <= 'Z' then (c as int + 32) as char else c
  }

  function LowerStr(s: string): (r: string)
    ensures |r| == |s| && forall i :: 0 <= i < |s| ==> r[i] == Lower(s[i])
    decreases |s|
  {
    if s == [] then [] else [Lower(s[0])] + LowerStr(s[1..])
  }

  /** `t` occurs in `s` starting at position `i`. */
  ghost predicate OccursAt(s: string, t: string, i: int) {
    0 <= i && i + |t| <= |s| && s[i..i + |t|] == t
  }

  /** JavaScript's `String.prototype.includes`: `t` is a substring of `s`. */
  function Includes(s: string, t: string): bool
    decreases |s|
  {
    if |t| > |s| then false
    else if s[..|t|] == t then true
    else Includes(s[1..], t)
  }

  /** `Includes` holds exactly when `t` occurs somewhere in `s`. */
  lemma {:induction false} IncludesIff(s: string, t: string)
    ensures Includes(s, t) <==> exists i :: OccursAt(s, t, i)
    decreases |s|
  {
    if |t| > |s| {
      assert forall i :: !OccursAt(s, t, i);
    } else if s[..|t|] == t {
      assert OccursAt(s, t, 0);
    } else {
      IncludesIff(s[1..], t);
      if Includes(s[1..], t) {
        var i :| OccursAt(s[1..], t, i);
        assert s[i + 1..i + 1 + |t|] == s[1..][i..i + |t|];
        assert OccursAt(s, t, i + 1);
      } else {
        forall i | OccursAt(s, t, i)
          ensures false
        {
          if i != 0 {
            assert s[1..][i - 1..i - 1 + |t|] == s[i..i + |t|];
            assert OccursAt(s[1..], t, i - 1);
          }
        }
      }
    }
  }

  // ---------------------------------------------------------------- the four tests

  /** The name test: case-insensitive substring. */
  predicate NameMatch(p: Product, name: string) {
    Includes(LowerStr(p.name), LowerStr(name))
  }

  /** The shop test: exact match, or one of the two wildcards. */
  predicate ShopMatch(p: Product, shop: string) {
    p.shop == shop || shop == "" || shop == AllShops
  }

  /** The category test: exact match, or one of the two wildcards. */
  predicate CategoryMatch(p: Product, category: string) {
    p.category == category || category == "" || category == AllCategories
  }

  /** The status test: "all" and "" let everything through. */
  predicate StatusMatch(p: Product, status: string) {
    status == "all" || status == "" || (status == "bought" && p.isBought) || (status == "not-bought" && !p.isBought)
  }

  predicate Passes(p: Product, c: Criteria) {
    NameMatch(p, c.name) && ShopMatch(p, c.shop) && CategoryMatch(p, c.category) && StatusMatch(p, c.status)
  }

  function Matches(c: Criteria): Product -> bool {
    (p: Product) => Passes(p, c)
  }

  /** The rows the table shows: the products passing all four tests, in list order. */
  function FilterProducts(ps: seq<Product>, c: Criteria): (r: seq<Product>)
    ensures |r| <= |ps|
    ensures IsSubseq(r, ps)
    ensures forall p :: p in r <==> p in ps && NameMatch(p, c.name) && ShopMatch(p, c.shop)
                                    && CategoryMatch(p, c.category) && StatusMatch(p, c.status)
  {
    Filter(Matches(c), ps)
  }

  // ---------------------------------------------------------------- properties

  /** The empty name filter matches every name. */
  lemma EmptyNameMatches(p: Product)
    ensures NameMatch(p, "")
  {
    assert LowerStr("") == "";
    assert LowerStr(p.name)[..0] == "";
  }

  /** A filter whose name is empty, whose shop and category are wildcards and
      whose status is "all" or "" shows the whole list. */
  lemma {:induction false} WildcardsShowAll(ps: seq<Product>, c: Criteria)
    requires c.name == ""
    requires c.shop == "" || c.shop == AllShops
    requires c.category == "" || c.category == AllCategories
    requires c.status == "all" || c.status == ""
    ensures FilterProducts(ps, c) == ps
  {
    forall i | 0 <= i < |ps|
      ensures Matches(c)(ps[i])
    {
      EmptyNameMatches(ps[i]);
    }
    FilterKeepsAll(Matches(c), ps);
  }

  /** With the initial filters the table shows every product. */
  lemma DefaultsShowAll(ps: seq<Product>)
    ensures FilterProducts(ps, Defaults) == ps
  {
    WildcardsShowAll(ps, Defaults);
  }

  /** For any name, shop and category filters, the "bought" rows and the
      "not-bought" rows split the "all" rows between them. */
  lemma {:induction false} StatusPartition(ps: seq<Product>, c: Criteria)
    ensures |FilterProducts(ps, c.(status := "bought"))| + |FilterProducts(ps, c.(status := "not-bought"))|
         == |FilterProducts(ps, c.(status := "all"))|
    decreases |ps|
  {
    if ps != [] {
      var cb, cn, ca := c.(status := "bought"), c.(status := "not-bought"), c.(status := "all");
      assert FilterProducts(ps, cb) == (if Passes(ps[0], cb) then [ps[0]] else []) + FilterProducts(ps[1..], cb);
      assert FilterProducts(ps, cn) == (if Passes(ps[0], cn) then [ps[0]] else []) + FilterProducts(ps[1..], cn);
      assert FilterProducts(ps, ca) == (if Passes(ps[0], ca) then [ps[0]] else []) + FilterProducts(ps[1..], ca);
      StatusPartition(ps[1..], c);
    }
  }

  /** The "Shopping Completed!" condition: the list is non-empty and the
      "not-bought" view with no other filter is empty. */
  lemma AllBoughtIffNothingOutstanding(ps: seq<Product>)
    ensures AllBought(ps) <==> |ps| > 0 && FilterProducts(ps, Defaults.(status := "not-bought")) == []
  {
    var c := Defaults.(status := "not-bought");
    if AllBought(ps) {
      FilterDropsAll(Matches(c), ps);
    } else if |ps| > 0 {
      var k :| 0 <= k < |ps| && !ps[k].isBought;
      EmptyNameMatches(ps[k]);
      assert ps[k] in FilterProducts(ps, c);
    }
  }

  /** "mi" finds "Milk" whatever the case, and not "Bread". */
  lemma NameExample(milk: Product, bread: Product)
    requires milk.name == "Milk" && bread.name == "Bread"
    ensures NameMatch(milk, "mi") && !NameMatch(bread, "mi")
  {
    assert LowerStr("Milk") == "milk";
    assert LowerStr("mi") == "mi";
    assert LowerStr("Bread") == "bread";
    assert "milk"[..2] == "mi";
    assert "bread"[..2] != "mi";
    assert "read"[..2] != "mi";
    assert "ead"[..2] != "mi";
    assert "ad"[..2] != "mi";
  }

  /** The examples of a two-product list: "mi" finds Milk, "bought" finds
      Bread, and the shop Ethos, where neither is sold, finds nothing. */
  lemma TwoProductExample(milk: Product, bread: Product)
    requires milk == Product(milk.id, "Milk", "Lidl", "Fruit", false)
    requires bread == Product(bread.id, "Bread", "Jumbo", "Bakery", true)
    ensures FilterProducts([milk, bread], Criteria("mi", AllShops, AllCategories, "all")) == [milk]
    ensures FilterProducts([milk, bread], Criteria("", AllShops, AllCategories, "bought")) == [bread]
    ensures FilterProducts([milk, bread], Criteria("", "Ethos", AllCategories, "all")) == []
  {
    NameExample(milk, bread);
    EmptyNameMatches(milk);
    EmptyNameMatches(bread);
    var ps := [milk, bread];
    assert ps[1..] == [bread];
    var byName := Criteria("mi", AllShops, AllCategories, "all");
    assert Passes(milk, byName) && !Passes(bread, byName);
    FilterDropsAll(Matches(byName), [bread]);
    FilterDropsAll(Matches(Criteria("", "Ethos", AllCategories, "all")), ps);
  }
}
