/** The product catalogue of `backend/routes/products.js`: creation with its
    defaults, the partial update, the soft delete and the active-only listing
    and search. */
module Products {
  import opened Common
  import opened ProductModel

  /** `Product.findOne({ _id, userId })`. */
  function OwnedProduct(ps: seq<Product>, id: nat, u: nat): Option<nat>
  {
    FirstIndex(ps, (p: Product) => p.id == id && p.userId == u)
  }

  /** `unit || 'Pcs'`, checked against the enum. */
  function UnitOrDefault(unit: Option<string>): (r: Option<Unit>)
    ensures !Truthy(unit) ==> r == Some(DefaultUnit)
    ensures Truthy(unit) ==> (r.Some? <==> unit.value in {"Pcs", "Mtr", "Kg", "Box", "Set", "Ltr"})
  {
    if Truthy(unit) then ParseUnit(unit.value) else Some(Pcs)
  }

  /** The fields of a PUT. `unit` is already checked: `None` when absent or
      empty, so that it is left alone. */
  datatype ProductPatch = ProductPatch(
    name: Option<string>,
    unit: Option<Unit>,
    defaultPrice: Option<real>,
    gstRate: Option<real>,
    description: Option<Option<string>>,
    isActive: Option<bool>)

  const NoChange := ProductPatch(None, None, None, None, None, None)

  /** PUT /products/:id: `name` changes only when truthy, every other field
      whenever it is given. */
  function Patched(p: Product, f: ProductPatch): (r: Product)
    ensures r.id == p.id && r.userId == p.userId && r.companyId == p.companyId
    ensures r.name == IfTruthy(f.name, p.name)
    ensures r.unit == IfDefined(f.unit, p.unit)
    ensures r.defaultPrice == IfDefined(f.defaultPrice, p.defaultPrice)
    ensures r.gstRate == IfDefined(f.gstRate, p.gstRate)
    ensures r.description == IfDefined(f.description, p.description)
    ensures r.isActive == IfDefined(f.isActive, p.isActive)
  {
    p.(name := IfTruthy(f.name, p.name),
       unit := IfDefined(f.unit, p.unit),
       defaultPrice := IfDefined(f.defaultPrice, p.defaultPrice),
       gstRate := IfDefined(f.gstRate, p.gstRate),
       description := IfDefined(f.description, p.description),
       isActive := IfDefined(f.isActive, p.isActive))
  }

  /** A PUT naming no field leaves the product as it was; sending the same
      PUT twice has the effect of sending it once. */
  lemma PatchedIdentityAndIdempotence(p: Product, f: ProductPatch)
    ensures Patched(p, NoChange) == p
    ensures Patched(Patched(p, f), f) == Patched(p, f)
  {
  }

  /** The soft delete: the record stays, marked inactive. */
  function Deactivated(p: Product): (r: Product)
    ensures !r.isActive
    ensures r == p.(isActive := false)
  {
    p.(isActive := false)
  }

  /** Deleting twice is deleting once, and the deleted record keeps every
      other field, so a PUT with `isActive: true` brings it back whole. */
  lemma DeactivatedIdempotentAndReversible(p: Product)
    ensures Deactivated(Deactivated(p)) == Deactivated(p)
    ensures Patched(Deactivated(p), NoChange.(isActive := Some(true))) == p.(isActive := true)
  {
  }

  /** The `active` query parameter, which defaults to `'true'`, restricts
      the listing to active products only when it is exactly `'true'`. */
  predicate ActiveOnly(active: Option<string>)
  {
    active.None? || active.value == "true"
  }

  /** The search match: the text occurs in the name or the description. */
  predicate ProductMatches(p: Product, q: string)
  {
    Contains(p.name, q) || (p.description.Some? && Contains(p.description.value, q))
  }

  /** GET /products, without its order and its pages: the tenant's products,
      only the active ones unless `active` says otherwise, matching `search`
      when it is truthy. */
  function Listing(ps: seq<Product>, u: nat, active: Option<string>, search: Option<string>): (r: seq<Product>)
    ensures forall x :: x in r <==>
              x in ps && x.userId == u && (ActiveOnly(active) ==> x.isActive)
              && (Truthy(search) ==> ProductMatches(x, search.value))
  {
    Filter(ps, (p: Product) => p.userId == u && (ActiveOnly(active) ==> p.isActive)
                               && (Truthy(search) ==> ProductMatches(p, search.value)))
  }

  /** The search filter of tenant `u` for query `q`: active and matching. */
  function SearchHit(u: nat, q: string): Product -> bool
  {
    (p: Product) => p.userId == u && p.isActive && ProductMatches(p, q)
  }

  /** GET /products/search: nothing for an absent or one-character query;
      otherwise the first ten active matching products of the tenant, so
      every one of them when there are at most ten. */
  function SearchProducts(ps: seq<Product>, u: nat, q: Option<string>): (r: seq<Product>)
    ensures !Truthy(q) || |q.value| < 2 ==> r == []
    ensures |r| <= 10
    ensures forall x :: x in r ==> x in ps && x.userId == u && x.isActive && ProductMatches(x, q.value)
    ensures Truthy(q) && |q.value| >= 2 ==>
              var n := CountBy(ps, SearchHit(u, q.value));
              && |r| == (if n <= 10 then n else 10)
              && (n <= 10 ==> forall x :: x in ps && x.userId == u && x.isActive && ProductMatches(x, q.value) ==> x in r)
  {
    if !Truthy(q) || |q.value| < 2 then []
    else
      var hits := Filter(ps, SearchHit(u, q.value));
      FilterCount(ps, SearchHit(u, q.value));
      var r := Take(hits, 10);
      assert forall x :: x in r ==> x in hits;
      r
  }

  /** A product deactivated in the store shows up neither in the default
      listing nor in a search, though it is still stored. */
  lemma DeactivatedHidden(ps: seq<Product>, i: nat, u: nat, search: Option<string>, q: Option<string>)
    requires i < |ps|
    ensures Deactivated(ps[i]) in ps[i := Deactivated(ps[i])]
    ensures Deactivated(ps[i]) !in Listing(ps[i := Deactivated(ps[i])], u, None, search)
    ensures Deactivated(ps[i]) !in SearchProducts(ps[i := Deactivated(ps[i])], u, q)
  {
    assert ps[i := Deactivated(ps[i])][i] == Deactivated(ps[i]);
  }

  class Catalog {
    var products: seq<Product>
    var nextId: nat

    /** Ids are fresh below `nextId` and every stored product passes its schema. */
    ghost predicate Valid()
      reads this
    {
      forall k :: 0 <= k < |products| ==> products[k].id < nextId && ValidProduct(products[k])
    }

    constructor ()
      ensures Valid() && products == [] && nextId == 0
    {
      products, nextId := [], 0;
    }

    /** GET /products/:id. */
    method GetProduct(u: nat, id: nat) returns (r: Option<Product>)
      ensures r.None? <==> OwnedProduct(products, id, u).None?
      ensures r.Some? ==> r.value in products && r.value.id == id && r.value.userId == u
      ensures r.Some? ==> r.value == products[OwnedProduct(products, id, u).value]
    {
      var i := OwnedProduct(products, id, u);
      if i.None? {
        return None;
      }
      r := Some(products[i.value]);
    }

    /** POST /products. A price of 0 is a price; only an absent one is refused. */
    method CreateProduct(
      u: nat, name: Option<string>, unit: Option<string>, defaultPrice: Option<real>,
      gstRate: Option<real>, description: Option<string>, companyId: Option<nat>) returns (r: Status)
      requires Valid()
      modifies this
      ensures Valid()
      ensures r.BadRequest? || r.Created? || r.SchemaError?
      ensures r.BadRequest? <==> !Truthy(name) || defaultPrice.None?
      ensures r.SchemaError? <==> Truthy(name) && defaultPrice.Some?
                                  && (UnitOrDefault(unit).None? || defaultPrice.value < 0.0
                                      || !(0.0 <= NumberOr(gstRate, 0.0) <= 100.0))
      ensures r.Created? ==>
                && r.id == old(nextId)
                && products == old(products) + [Product(old(nextId), name.value, UnitOrDefault(unit).value,
                                                        defaultPrice.value, NumberOr(gstRate, 0.0), description,
                                                        companyId, u, true)]
      ensures !r.Created? ==> products == old(products)
    {
      if !Truthy(name) || defaultPrice.None? {
        return BadRequest;
      }
      var kind := UnitOrDefault(unit);
      if kind.None? {
        return SchemaError;
      }
      var p := Product(nextId, name.value, kind.value, defaultPrice.value, NumberOr(gstRate, 0.0),
                       description, companyId, u, true);
      if !ValidProduct(p) {
        return SchemaError;
      }
      products := products + [p];
      r := Created(nextId);
      nextId := nextId + 1;
    }

    /** PUT /products/:id. A non-empty `unit` outside the enum, or a price or
      rate out of range, fails validation and nothing is saved. */
    method UpdateProduct(
      u: nat, id: nat, name: Option<string>, unit: Option<string>, defaultPrice: Option<real>,
      gstRate: Option<real>, description: Option<Option<string>>, isActive: Option<bool>) returns (r: Status)
      requires Valid()
      modifies this
      ensures Valid()
      ensures r.Ok? || r.NotFound? || r.SchemaError?
      ensures r.NotFound? <==> OwnedProduct(old(products), id, u).None?
      ensures !r.NotFound? ==>
                var i := OwnedProduct(old(products), id, u).value;
                var f := ProductPatch(name, if Truthy(unit) then ParseUnit(unit.value) else None,
                                      defaultPrice, gstRate, description, isActive);
                && (r.SchemaError? <==> (Truthy(unit) && ParseUnit(unit.value).None?)
                                        || !ValidProduct(Patched(old(products)[i], f)))
                && (r.Ok? ==> products == old(products)[i := Patched(old(products)[i], f)])
      ensures !r.Ok? ==> products == old(products)
      ensures nextId == old(nextId)
    {
      var i := OwnedProduct(products, id, u);
      if i.None? {
        return NotFound;
      }
      var kind: Option<Unit> := None;
      if Truthy(unit) {
        kind := ParseUnit(unit.value);
        if kind.None? {
          return SchemaError;
        }
      }
      var p := Patched(products[i.value], ProductPatch(name, kind, defaultPrice, gstRate, description, isActive));
      if !ValidProduct(p) {
        return SchemaError;
      }
      products := products[i.value := p];
      r := Ok;
    }

    /** DELETE /products/:id: the soft delete. */
    method DeleteProduct(u: nat, id: nat) returns (r: Status)
      requires Valid()
      modifies this
      ensures Valid()
      ensures r.Ok? || r.NotFound?
      ensures r.NotFound? <==> OwnedProduct(old(products), id, u).None?
      ensures r.Ok? ==> var i := OwnedProduct(old(products), id, u).value;
                        products == old(products)[i := Deactivated(old(products)[i])]
      ensures r.NotFound? ==> products == old(products)
      ensures |products| == |old(products)| && nextId == old(nextId)
    {
      var i := OwnedProduct(products, id, u);
      if i.None? {
        return NotFound;
      }
      var p := products[i.value];
      p := p.(isActive := false);
      products := products[i.value := p];
      r := Ok;
    }
  }
}
