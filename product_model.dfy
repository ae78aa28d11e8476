/** The Product document of `backend/models/Product.js`. */
module ProductModel {
  import opened Common

  datatype Unit = Pcs | Mtr | Kg | Box | Set | Ltr

  /** The schema default of `unit`. */
  const DefaultUnit: Unit := Pcs

  function UnitName(u: Unit): string
  {
    match u
    case Pcs => "Pcs"
    case Mtr => "Mtr"
    case Kg => "Kg"
    case Box => "Box"
    case Set => "Set"
    case Ltr => "Ltr"
  }

  /** The `enum` validator on `unit`. */
  function ParseUnit(s: string): (r: Option<Unit>)
    ensures r.Some? <==> s in {"Pcs", "Mtr", "Kg", "Box", "Set", "Ltr"}
  {
    if s == "Pcs" then Some(Pcs)
    else if s == "Mtr" then Some(Mtr)
    else if s == "Kg" then Some(Kg)
    else if s == "Box" then Some(Box)
    else if s == "Set" then Some(Set)
    else if s == "Ltr" then Some(Ltr)
    else None
  }

  /** The validator accepts exactly the six names, each for its own unit. */
  lemma UnitNames(u: Unit, s: string)
    ensures ParseUnit(UnitName(u)) == Some(u)
    ensures ParseUnit(s) == Some(u) ==> s == UnitName(u)
  {
  }

  /** A catalogue entry. Deleting one only clears `isActive`. */
  datatype Product = Product(
    id: nat,
    name: string,
    unit: Unit,
    defaultPrice: real,
    gstRate: real,
    description: Option<string>,
    companyId: Option<nat>,
    userId: nat,
    isActive: bool)

  /** What the schema demands: a non-empty `name`, `defaultPrice` at least 0
      and `gstRate` between 0 and 100. */
  predicate ValidProduct(p: Product)
  {
    && p.name != ""
    && p.defaultPrice >= 0.0
    && 0.0 <= p.gstRate <= 100.0
  }
}
