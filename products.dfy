/** The product store of the shopping list: what a product is, and the new
    product lists that adding, toggling "bought" and deleting produce. */
module Products {
  import opened Lists

  /** A product id; the application draws it from a random string generator. */
  type Id = string

  datatype Product = Product(id: Id, name: string, shop: string, category: string, isBought: bool)

  /** The product the add handler builds from the draft fields: not yet bought. */
  function NewProduct(id: Id, name: string, shop: string, category: string): Product {
    Product(id, name, shop, category, false)
  }

  /** No two products in the list share an id. */
  ghost predicate UniqueIds(ps: seq<Product>) {
    forall i, j :: 0 <= i < |ps| && 0 <= j < |ps| && ps[i].id == ps[j].id ==> i == j
  }

  /** No product in the list has id `id`. */
  ghost predicate Fresh(id: Id, ps: seq<Product>) {
    forall i :: 0 <= i < |ps| ==> ps[i].id != id
  }

  /** Appending a product with a fresh id keeps the ids unique. */
  lemma AppendKeepsUniqueIds(ps: seq<Product>, p: Product)
    requires UniqueIds(ps) && Fresh(p.id, ps)
    ensures UniqueIds(ps + [p])
  {
  }

  /** A successful add appends one product after the old ones, left in
      order; the new product has the draft values, is not bought, keeps the
      ids unique and switches the completion condition off. */
  lemma AppendNewProduct(ps: seq<Product>, id: Id, name: string, shop: string, category: string)
    requires UniqueIds(ps) && Fresh(id, ps)
    ensures var r := ps + [NewProduct(id, name, shop, category)];
            && |r| == |ps| + 1 && r[..|ps|] == ps
            && r[|ps|].id == id && r[|ps|].name == name && r[|ps|].shop == shop
            && r[|ps|].category == category && !r[|ps|].isBought
            && UniqueIds(r) && !AllBought(r)
  {
    var p := NewProduct(id, name, shop, category);
    AppendKeepsUniqueIds(ps, p);
    AddClearsAllBought(ps, p);
    assert (ps + [p])[..|ps|] == ps;
  }

  // ---------------------------------------------------------------- toggle

  function Flip(p: Product): Product {
    p.(isBought := !p.isBought)
  }

  function FlipIfMatches(p: Product, id: Id): Product {
    if p.id == id then Flip(p) else p
  }

  /** The list after the "bought" button of product `id` is pressed: every
      product with that id has its flag flipped, every other one is kept. */
  function Toggle(ps: seq<Product>, id: Id): (r: seq<Product>)
    ensures |r| == |ps|
    ensures forall i :: 0 <= i < |ps| ==> r[i] == if ps[i].id == id then Flip(ps[i]) else ps[i]
    decreases |ps|
  {
    if ps == [] then [] else [FlipIfMatches(ps[0], id)] + Toggle(ps[1..], id)
  }

  /** Toggling changes nothing but `isBought`: ids, names, shops and categories stay in place. */
  lemma ToggleKeepsFields(ps: seq<Product>, id: Id, i: int)
    requires 0 <= i < |ps|
    ensures Toggle(ps, id)[i].id == ps[i].id
    ensures Toggle(ps, id)[i].name == ps[i].name
    ensures Toggle(ps, id)[i].shop == ps[i].shop
    ensures Toggle(ps, id)[i].category == ps[i].category
    ensures Toggle(ps, id)[i].isBought == (ps[i].isBought != (ps[i].id == id))
  {
  }

  lemma ToggleKeepsUniqueIds(ps: seq<Product>, id: Id)
    requires UniqueIds(ps)
    ensures UniqueIds(Toggle(ps, id))
  {
  }

  /** Toggling an id that is not in the list is a no-op. */
  lemma ToggleAbsent(ps: seq<Product>, id: Id)
    requires Fresh(id, ps)
    ensures Toggle(ps, id) == ps
  {
  }

  /** Toggling the same id twice restores the list. */
  lemma ToggleTwice(ps: seq<Product>, id: Id)
    ensures Toggle(Toggle(ps, id), id) == ps
  {
  }

  // ---------------------------------------------------------------- delete

  /** The test the delete handler filters with. */
  function OtherThan(id: Id): Product -> bool {
    (p: Product) => p.id != id
  }

  /** The list after the delete button of product `id` is pressed. */
  function Delete(ps: seq<Product>, id: Id): (r: seq<Product>)
    ensures IsSubseq(r, ps)
    ensures forall p :: p in r <==> p in ps && p.id != id
    ensures Fresh(id, r)
  {
    Filter(OtherThan(id), ps)
  }

  /** Deleting an id that is not in the list is a no-op. */
  lemma DeleteAbsent(ps: seq<Product>, id: Id)
    requires Fresh(id, ps)
    ensures Delete(ps, id) == ps
  {
    FilterKeepsAll(OtherThan(id), ps);
  }

  /** The products on either side of the one at `k` carry other ids. */
  lemma NeighboursHaveOtherIds(ps: seq<Product>, k: int)
    requires UniqueIds(ps)
    requires 0 <= k < |ps|
    ensures Fresh(ps[k].id, ps[..k]) && Fresh(ps[k].id, ps[k + 1..])
  {
    forall i | 0 <= i < |ps[..k]|
      ensures ps[..k][i].id != ps[k].id
    {
      assert ps[..k][i] == ps[i];
    }
    var after := ps[k + 1..];
    forall i | 0 <= i < |after|
      ensures after[i].id != ps[k].id
    {
      assert after[i] == ps[k + 1 + i];
    }
  }

  /** Deleting `x.id` from a list where only `x` carries it removes `x` alone. */
  lemma DeleteSplit(before: seq<Product>, x: Product, after: seq<Product>)
    requires Fresh(x.id, before) && Fresh(x.id, after)
    ensures Delete(before + [x] + after, x.id) == before + after
  {
    var keep := OtherThan(x.id);
    assert !keep(x);
    assert Filter(keep, [x]) == [];
    FilterConcat(keep, before, [x]);
    DeleteAbsent(before, x.id);
    assert Filter(keep, before + [x]) == before;
    FilterConcat(keep, before + [x], after);
    DeleteAbsent(after, x.id);
  }

  /** With unique ids, deleting the id of the product at position `k`
      removes exactly that product and keeps the others in order. */
  lemma DeleteExactlyOne(ps: seq<Product>, id: Id, k: int)
    requires UniqueIds(ps)
    requires 0 <= k < |ps| && ps[k].id == id
    ensures Delete(ps, id) == ps[..k] + ps[k + 1..]
    ensures |Delete(ps, id)| == |ps| - 1
  {
    NeighboursHaveOtherIds(ps, k);
    assert ps == ps[..k] + [ps[k]] + ps[k + 1..];
    DeleteSplit(ps[..k], ps[k], ps[k + 1..]);
  }

  /** Any subsequence of a list with unique ids has unique ids. */
  lemma {:induction false} SubseqKeepsUniqueIds(r: seq<Product>, s: seq<Product>)
    requires IsSubseq(r, s) && UniqueIds(s)
    ensures UniqueIds(r)
    ensures forall x :: x in r ==> x in s
    decreases |s|
  {
    if r != [] {
      assert s == [s[0]] + s[1..];
      assert UniqueIds(s[1..]) by {
        forall i, j | 0 <= i < |s[1..]| && 0 <= j < |s[1..]| && s[1..][i].id == s[1..][j].id
          ensures i == j
        {
          assert s[i + 1].id == s[j + 1].id;
        }
      }
      if r[0] == s[0] && IsSubseq(r[1..], s[1..]) {
        SubseqKeepsUniqueIds(r[1..], s[1..]);
        assert r == [r[0]] + r[1..];
        forall j | 0 <= j < |r[1..]|
          ensures r[1..][j].id != s[0].id
        {
          assert r[1..][j] in s[1..];
          var m :| 0 <= m < |s[1..]| && s[1..][m] == r[1..][j];
          assert s[m + 1].id != s[0].id;
        }
        forall i, j | 0 <= i < |r| && 0 <= j < |r| && r[i].id == r[j].id
          ensures i == j
        {
          if i > 0 && j > 0 {
            assert r[1..][i - 1].id == r[1..][j - 1].id;
          }
        }
      } else {
        SubseqKeepsUniqueIds(r, s[1..]);
      }
    }
  }

  lemma DeleteKeepsUniqueIds(ps: seq<Product>, id: Id)
    requires UniqueIds(ps)
    ensures UniqueIds(Delete(ps, id))
  {
    SubseqKeepsUniqueIds(Delete(ps, id), ps);
  }

  // ---------------------------------------------------------------- all bought

  /** The condition of the "Shopping Completed!" banner: the list is
      non-empty and every product in it is bought. */
  function AllBought(ps: seq<Product>): (b: bool)
    ensures b <==> |ps| > 0 && forall i :: 0 <= i < |ps| ==> ps[i].isBought
  {
    |ps| > 0 && Every((p: Product) => p.isBought, ps)
  }

  /** A newly added product is never bought, so the banner goes off. */
  lemma AddClearsAllBought(ps: seq<Product>, p: Product)
    requires !p.isBought
    ensures !AllBought(ps + [p])
  {
    assert (ps + [p])[|ps|] == p;
  }

  /** In a completed list, toggling any product that is present un-buys it. */
  lemma ToggleBreaksAllBought(ps: seq<Product>, id: Id, k: int)
    requires AllBought(ps)
    requires 0 <= k < |ps| && ps[k].id == id
    ensures !AllBought(Toggle(ps, id))
  {
    assert !Toggle(ps, id)[k].isBought;
  }

  /** Toggling the only products not yet bought completes the list. */
  lemma ToggleLastCompletes(ps: seq<Product>, id: Id)
    requires |ps| > 0
    requires forall i :: 0 <= i < |ps| ==> (ps[i].isBought <==> ps[i].id != id)
    ensures AllBought(Toggle(ps, id))
  {
  }
}
