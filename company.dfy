/** The company profile of `backend/routes/company.js`: one record per
    tenant, created by the first save and merged into by every later one, plus
    the logo and signature images. */
module CompanyProfile {
  import opened Common

  /** The Company document. Images are kept as their base64 text. */
  datatype Company = Company(
    id: nat,
    name: string,
    address: Option<string>,
    city: Option<string>,
    state: Option<string>,
    pincode: Option<string>,
    phone: Option<string>,
    email: Option<string>,
    logo: Option<string>,
    logoMimeType: Option<string>,
    gstNumber: Option<string>,
    gstEnabled: bool,
    termsAndConditions: seq<string>,
    signature: Option<string>,
    userId: nat)

  /** The body of POST /company; `None` is a field the request leaves out. */
  datatype CompanyRequest = CompanyRequest(
    name: Option<string>,
    address: Option<string>,
    city: Option<string>,
    state: Option<string>,
    pincode: Option<string>,
    phone: Option<string>,
    email: Option<string>,
    gstNumber: Option<string>,
    gstEnabled: Option<bool>,
    termsAndConditions: Option<seq<string>>)

  const EmptyRequest := CompanyRequest(None, None, None, None, None, None, None, None, None, None)

  /** An uploaded image: its base64 text and its MIME type. */
  datatype Upload = Upload(content: string, mimeType: string)

  /** The schema requires a name. */
  predicate ValidCompany(c: Company)
  {
    c.name != ""
  }

  /** `x !== undefined ? x : current` on a field that may itself be unset. */
  function Given<T>(x: Option<T>, current: Option<T>): (r: Option<T>)
    ensures x.Some? ==> r == x
    ensures x.None? ==> r == current
  {
    if x.Some? then x else current
  }

  /** POST /company on an existing record: `name` replaces the old one only
      when truthy, the terms whenever given (an array is truthy even when
      empty), every other field whenever it is given; images, id and owner
      stay. */
  function Merged(c: Company, req: CompanyRequest): (r: Company)
    ensures r.id == c.id && r.userId == c.userId
    ensures r.logo == c.logo && r.logoMimeType == c.logoMimeType && r.signature == c.signature
    ensures r.name == IfTruthy(req.name, c.name)
    ensures r.address == Given(req.address, c.address) && r.city == Given(req.city, c.city)
    ensures r.state == Given(req.state, c.state) && r.pincode == Given(req.pincode, c.pincode)
    ensures r.phone == Given(req.phone, c.phone) && r.email == Given(req.email, c.email)
    ensures r.gstNumber == Given(req.gstNumber, c.gstNumber)
    ensures r.gstEnabled == IfDefined(req.gstEnabled, c.gstEnabled)
    ensures r.termsAndConditions == IfDefined(req.termsAndConditions, c.termsAndConditions)
    ensures ValidCompany(c) ==> ValidCompany(r)
  {
    c.(name := IfTruthy(req.name, c.name),
       address := Given(req.address, c.address),
       city := Given(req.city, c.city),
       state := Given(req.state, c.state),
       pincode := Given(req.pincode, c.pincode),
       phone := Given(req.phone, c.phone),
       email := Given(req.email, c.email),
       gstNumber := Given(req.gstNumber, c.gstNumber),
       gstEnabled := IfDefined(req.gstEnabled, c.gstEnabled),
       termsAndConditions := IfDefined(req.termsAndConditions, c.termsAndConditions))
  }

  /** A request naming nothing changes nothing, and saving the same request
      twice is saving it once. */
  lemma MergedIdentityAndIdempotence(c: Company, req: CompanyRequest)
    ensures Merged(c, EmptyRequest) == c
    ensures Merged(Merged(c, req), req) == Merged(c, req)
  {
  }

  /** POST /company with no record yet: the contact fields are stored as
      sent, `gstEnabled` defaults to false and the terms to the empty list;
      no images. */
  function NewCompany(id: nat, req: CompanyRequest, u: nat): (r: Company)
    ensures r.id == id && r.userId == u
    ensures r.name == (if req.name.Some? then req.name.value else "")
    ensures r.address == req.address && r.city == req.city && r.state == req.state && r.pincode == req.pincode
    ensures r.phone == req.phone && r.email == req.email && r.gstNumber == req.gstNumber
    ensures r.gstEnabled == (req.gstEnabled == Some(true))
    ensures r.termsAndConditions == (if req.termsAndConditions.Some? then req.termsAndConditions.value else [])
    ensures r.logo.None? && r.logoMimeType.None? && r.signature.None?
    ensures ValidCompany(r) <==> Truthy(req.name)
  {
    Company(id, if req.name.Some? then req.name.value else "", req.address, req.city, req.state,
            req.pincode, req.phone, req.email, None, None, req.gstNumber,
            req.gstEnabled == Some(true), IfDefined(req.termsAndConditions, []), None, u)
  }

  /** Saving a request on a fresh record and then saving it again leaves the
      record as the first save made it. */
  lemma CreateThenMergeStable(id: nat, req: CompanyRequest, u: nat)
    requires Truthy(req.name)
    ensures Merged(NewCompany(id, req, u), req) == NewCompany(id, req, u)
  {
  }

  /** `Company.findOne({ userId })`. */
  function CompanyOf(cs: seq<Company>, u: nat): Option<nat>
  {
    FirstIndex(cs, (c: Company) => c.userId == u)
  }

  /** No tenant owns two records. */
  predicate OnePerTenant(cs: seq<Company>)
  {
    forall i, j :: 0 <= i < j < |cs| ==> cs[i].userId != cs[j].userId
  }

  class CompanyBook {
    var companies: seq<Company>
    var nextId: nat

    ghost predicate Valid()
      reads this
    {
      && (forall k :: 0 <= k < |companies| ==> companies[k].id < nextId && ValidCompany(companies[k]))
      && OnePerTenant(companies)
    }

    constructor ()
      ensures Valid() && companies == [] && nextId == 0
    {
      companies, nextId := [], 0;
    }

    /** GET /company. */
    method GetCompany(u: nat) returns (r: Option<Company>)
      ensures r.None? <==> forall k :: 0 <= k < |companies| ==> companies[k].userId != u
      ensures r.Some? ==> r.value in companies && r.value.userId == u
      ensures r.Some? ==> r.value == companies[CompanyOf(companies, u).value]
    {
      var i := CompanyOf(companies, u);
      if i.None? {
        return None;
      }
      r := Some(companies[i.value]);
    }

    /** POST /company: merge into the tenant's record, or create it. A
      tenant never gets a second record this way. */
    method SaveCompany(u: nat, req: CompanyRequest) returns (r: Status)
      requires Valid()
      modifies this
      ensures Valid()
      ensures r.Ok? || r.Created? || r.SchemaError?
      ensures r.Ok? <==> CompanyOf(old(companies), u).Some?
      ensures r.Ok? ==> var i := CompanyOf(old(companies), u).value;
                        companies == old(companies)[i := Merged(old(companies)[i], req)]
      ensures r.SchemaError? <==> CompanyOf(old(companies), u).None? && !Truthy(req.name)
      ensures r.Created? ==> r.id == old(nextId) && companies == old(companies) + [NewCompany(old(nextId), req, u)]
      ensures r.SchemaError? ==> companies == old(companies)
    {
      var i := CompanyOf(companies, u);
      if i.Some? {
        var c := Merged(companies[i.value], req);
        companies := companies[i.value := c];
        return Ok;
      }
      var c := NewCompany(nextId, req, u);
      if !ValidCompany(c) {
        return SchemaError;
      }
      companies := companies + [c];
      r := Created(nextId);
      nextId := nextId + 1;
    }

    /** POST /company/logo. */
    method UploadLogo(u: nat, file: Option<Upload>) returns (r: Status)
      requires Valid()
      modifies this
      ensures Valid()
      ensures r.Ok? || r.BadRequest? || r.NotFound?
      ensures r.BadRequest? <==> file.None?
      ensures r.NotFound? <==> file.Some? && CompanyOf(old(companies), u).None?
      ensures r.Ok? ==> var i := CompanyOf(old(companies), u).value;
                        companies == old(companies)[i := old(companies)[i].(logo := Some(file.value.content),
                                                                              logoMimeType := Some(file.value.mimeType))]
      ensures !r.Ok? ==> companies == old(companies)
      ensures nextId == old(nextId)
    {
      if file.None? {
        return BadRequest;
      }
      var i := CompanyOf(companies, u);
      if i.None? {
        return NotFound;
      }
      var c := companies[i.value];
      c := c.(logo := Some(file.value.content));
      c := c.(logoMimeType := Some(file.value.mimeType));
      companies := companies[i.value := c];
      r := Ok;
    }

    /** DELETE /company/logo: the image and its type go together. */
    method RemoveLogo(u: nat) returns (r: Status)
      requires Valid()
      modifies this
      ensures Valid()
      ensures r.Ok? || r.NotFound?
      ensures r.NotFound? <==> CompanyOf(old(companies), u).None?
      ensures r.Ok? ==> var i := CompanyOf(old(companies), u).value;
                        && companies == old(companies)[i := old(companies)[i].(logo := None, logoMimeType := None)]
                        && companies[i].logo.None? && companies[i].logoMimeType.None?
      ensures !r.Ok? ==> companies == old(companies)
      ensures nextId == old(nextId)
    {
      var i := CompanyOf(companies, u);
      if i.None? {
        return NotFound;
      }
      var c := companies[i.value];
      c := c.(logo := None);
      c := c.(logoMimeType := None);
      companies := companies[i.value := c];
      r := Ok;
    }

    /** POST /company/signature. */
    method UploadSignature(u: nat, file: Option<Upload>) returns (r: Status)
      requires Valid()
      modifies this
      ensures Valid()
      ensures r.Ok? || r.BadRequest? || r.NotFound?
      ensures r.BadRequest? <==> file.None?
      ensures r.NotFound? <==> file.Some? && CompanyOf(old(companies), u).None?
      ensures r.Ok? ==> var i := CompanyOf(old(companies), u).value;
                        companies == old(companies)[i := old(companies)[i].(signature := Some(file.value.content))]
      ensures !r.Ok? ==> companies == old(companies)
      ensures nextId == old(nextId)
    {
      if file.None? {
        return BadRequest;
      }
      var i := CompanyOf(companies, u);
      if i.None? {
        return NotFound;
      }
      var c := companies[i.value];
      c := c.(signature := Some(file.value.content));
      companies := companies[i.value := c];
      r := Ok;
    }
  }
}
