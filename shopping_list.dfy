/** The state of the shopping-list component: the product list, the three
    draft fields of the add form, the four filter fields and the completion
    flag, with the handlers that change them. */
module ShoppingList {
  import opened Products
  import opened FilterEngine

  /** The fixed shop and category lists offered by the selects. */
  const Shops: seq<string> := ["Ethos", "Jumbo", "Kruidvat", "Lidl"]
  const Categories: seq<string> := ["Bakery", "Butcher", "Fruit", "Vegetable"]

  /** The first options of the add form's selects. They carry no value of
      their own, so choosing one hands its text to the change handler. */
  const SelectShop: string := "Select Shop"
  const SelectCategory: string := "Select Category"

  /** What the shop select of the add form can pass to its change handler. */
  predicate ShopOption(s: string) {
    s == SelectShop || s in Shops
  }

  predicate CategoryOption(s: string) {
    s == SelectCategory || s in Categories
  }

  /** What the shop select of the filter form can pass to its change handler. */
  predicate ShopFilterOption(s: string) {
    s == AllShops || s in Shops
  }

  predicate CategoryFilterOption(s: string) {
    s == AllCategories || s in Categories
  }

  /** What the three status radios set. */
  predicate StatusOption(s: string) {
    s == "all" || s == "bought" || s == "not-bought"
  }

  /** The add handler only stores non-empty draft values, and the drafts only
      ever hold select options. */
  ghost predicate Storable(p: Product) {
    p.name != "" && ShopOption(p.shop) && CategoryOption(p.category)
  }

  ghost predicate AllStorable(ps: seq<Product>) {
    forall i :: 0 <= i < |ps| ==> Storable(ps[i])
  }

  lemma ToggleKeepsStorable(ps: seq<Product>, id: Id)
    requires AllStorable(ps)
    ensures AllStorable(Toggle(ps, id))
  {
    forall i | 0 <= i < |ps|
      ensures Storable(Toggle(ps, id)[i])
    {
      ToggleKeepsFields(ps, id, i);
    }
  }

  lemma DeleteKeepsStorable(ps: seq<Product>, id: Id)
    requires AllStorable(ps)
    ensures AllStorable(Delete(ps, id))
  {
    var r := Delete(ps, id);
    forall i | 0 <= i < |r|
      ensures Storable(r[i])
    {
      assert r[i] in ps;
    }
  }

  class App {
    var products: seq<Product>
    var productName: string
    var productShop: string
    var productCategory: string
    var filteredName: string
    var filteredShop: string
    var filteredCategory: string
    var filterStatus: string
    var showAlert: bool

    /** The invariant every handler keeps. The last conjunct is the effect
        that recomputes the completion flag whenever the list changes. */
    ghost predicate Valid()
      reads this
    {
      && UniqueIds(products)
      && AllStorable(products)
      && (productShop == "" || ShopOption(productShop))
      && (productCategory == "" || CategoryOption(productCategory))
      && (filteredShop == "" || ShopFilterOption(filteredShop))
      && (filteredCategory == "" || CategoryFilterOption(filteredCategory))
      && StatusOption(filterStatus)
      && showAlert == AllBought(products)
    }

    function CurrentCriteria(): (c: Criteria)
      reads this
    {
      Criteria(filteredName, filteredShop, filteredCategory, filterStatus)
    }

    constructor ()
      ensures Valid()
      ensures products == []
      ensures productName == "" && productShop == "" && productCategory == ""
      ensures filteredName == "" && filteredShop == "" && filteredCategory == "" && filterStatus == "all"
      ensures !showAlert
    {
      products := [];
      productName, productShop, productCategory := "", "", "";
      filteredName, filteredShop, filteredCategory := "", "", "";
      filterStatus := "all";
      showAlert := false;
    }

    /** The effect that keeps the completion flag in step with the list; it
        re-establishes the last conjunct of `Valid()`. */
    method RefreshAlert()
      modifies this`showAlert
      ensures showAlert == AllBought(products)
      ensures showAlert <==> |products| > 0 && forall i :: 0 <= i < |products| ==> products[i].isBought
    {
      showAlert := AllBought(products);
    }

    // ------------------------------------------------------------ form inputs

    method SetProductName(s: string)
      requires Valid()
      modifies this`productName
      ensures Valid() && productName == s
    {
      productName := s;
    }

    method SetProductShop(s: string)
      requires Valid() && ShopOption(s)
      modifies this`productShop
      ensures Valid() && productShop == s
    {
      productShop := s;
    }

    method SetProductCategory(s: string)
      requires Valid() && CategoryOption(s)
      modifies this`productCategory
      ensures Valid() && productCategory == s
    {
      productCategory := s;
    }

    method SetFilteredName(s: string)
      requires Valid()
      modifies this`filteredName
      ensures Valid() && filteredName == s
    {
      filteredName := s;
    }

    method SetFilteredShop(s: string)
      requires Valid() && ShopFilterOption(s)
      modifies this`filteredShop
      ensures Valid() && filteredShop == s
    {
      filteredShop := s;
    }

    method SetFilteredCategory(s: string)
      requires Valid() && CategoryFilterOption(s)
      modifies this`filteredCategory
      ensures Valid() && filteredCategory == s
    {
      filteredCategory := s;
    }

    method SetFilterStatus(s: string)
      requires Valid() && StatusOption(s)
      modifies this`filterStatus
      ensures Valid() && filterStatus == s
    {
      filterStatus := s;
    }

    // ------------------------------------------------------------ handlers

    /** The "Add Product" button. `id` stands for the generated id, which
        no product in the list carries. With a draft field empty nothing
        changes (the user is alerted); otherwise the product is appended, not
        bought, and the three draft fields are cleared. */
    method HandleAddProduct(id: Id) returns (added: bool)
      requires Valid() && Fresh(id, products)
      modifies this`products, this`productName, this`productShop, this`productCategory, this`showAlert
      ensures Valid()
      ensures added <==> old(productName) != "" && old(productShop) != "" && old(productCategory) != ""
      ensures added ==> products == old(products) + [NewProduct(id, old(productName), old(productShop), old(productCategory))]
      ensures added ==> productName == "" && productShop == "" && productCategory == "" && !showAlert
      ensures !added ==> products == old(products) && showAlert == old(showAlert)
      ensures !added ==> productName == old(productName) && productShop == old(productShop)
                         && productCategory == old(productCategory)
    {
      if productName == "" || productShop == "" || productCategory == "" {
        return false;
      }
      var p := NewProduct(id, productName, productShop, productCategory);
      AppendNewProduct(products, id, productName, productShop, productCategory);
      products := products + [p];
      productName, productShop, productCategory := "", "", "";
      RefreshAlert();
      added := true;
    }

    /** The "bought" button of a row: flips `isBought` of the products with id `id`. */
    method HandleBought(id: Id)
      requires Valid()
      modifies this`products, this`showAlert
      ensures Valid()
      ensures products == Toggle(old(products), id)
    {
      ToggleKeepsUniqueIds(products, id);
      ToggleKeepsStorable(products, id);
      products := Toggle(products, id);
      RefreshAlert();
    }

    /** The delete button of a row: drops the products with id `id`. */
    method HandleDelete(id: Id)
      requires Valid()
      modifies this`products, this`showAlert
      ensures Valid()
      ensures products == Delete(old(products), id)
      ensures forall k :: 0 <= k < |old(products)| && old(products)[k].id == id ==>
                products == old(products)[..k] + old(products)[k + 1..]
    {
      forall k | 0 <= k < |products| && products[k].id == id
        ensures Delete(products, id) == products[..k] + products[k + 1..]
      {
        DeleteExactlyOne(products, id, k);
      }
      DeleteKeepsUniqueIds(products, id);
      DeleteKeepsStorable(products, id);
      products := Delete(products, id);
      RefreshAlert();
    }

    /** The "Reset Filters" button: clears the name, shop and category filters;
        the status filter is left as it is. */
    method ResetFilters()
      requires Valid()
      modifies this`filteredName, this`filteredShop, this`filteredCategory
      ensures Valid()
      ensures filteredName == "" && filteredShop == "" && filteredCategory == ""
    {
      filteredName, filteredShop, filteredCategory := "", "", "";
    }

    /** The rows of the table under the current filters. */
    function FilteredProducts(): (r: seq<Product>)
      reads this
      requires Valid()
      ensures UniqueIds(r)
      ensures forall p :: p in r <==> p in products && Passes(p, CurrentCriteria())
    {
      SubseqKeepsUniqueIds(FilterProducts(products, CurrentCriteria()), products);
      FilterProducts(products, CurrentCriteria())
    }
  }

  /** The add form accepts its own placeholder: after choosing another shop
      and then "Select Shop" again, that text is stored as the shop. */
  method PlaceholderShopIsStored(id: Id) returns (shop: string)
    ensures shop == SelectShop
  {
    var app := new App();
    app.SetProductName("Milk");
    app.SetProductShop("Lidl");
    app.SetProductShop(SelectShop);
    app.SetProductCategory("Fruit");
    var added := app.HandleAddProduct(id);
    assert added;
    shop := app.products[0].shop;
  }
}
