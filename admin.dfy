/** The admin record updates of backend/controllers/adminController.js: editing an
    insurance's status and pricing, merging an edit into a product, and seeding the
    three-tier catalogue. Each handler loads a document, changes a local copy step by
    step and saves it; the database is an in-memory collection and the HTTP response is
    the returned `Result`. */
module Admin {
  import opened Wrappers
  import opened Models
  import Premium

  /** The error replies of the handlers. */
  datatype AdminError =
    | InvalidId           // the id is not an ObjectId: the lookup throws, 500
    | NotFound            // no document with this id: 404
    | AlreadyInitialized  // products exist already: 400
    | ValidationFailed    // the schema rejects the edited document on save: 500

  /** The HTTP status code a handler answers with. */
  function StatusCode(r: Result<int, AdminError>): (code: int)
    ensures r.Success? ==> code == r.value
    ensures r.Failure? ==> code in {400, 404, 500}
    ensures r == Failure(NotFound) ==> code == 404
    ensures r == Failure(AlreadyInitialized) ==> code == 400
    ensures r == Failure(InvalidId) || r == Failure(ValidationFailed) ==> code == 500
  {
    match r
    case Success(c) => c
    case Failure(InvalidId) => 500
    case Failure(NotFound) => 404
    case Failure(AlreadyInitialized) => 400
    case Failure(ValidationFailed) => 500
  }

  // ---------------------------------------------------------------------------------
  // updateInsurance
  // ---------------------------------------------------------------------------------

  /** The `pricing` object of an insurance edit: each field may be left out. */
  datatype QuotePatch = QuotePatch(discounts: Option<int>, basePrice: Option<int>)

  /** The pricing after an edit: each supplied field replaces the old one, and the total is
      recomputed from the new parts whenever any field was supplied. */
  function PatchedQuote(q: Quote, patch: QuotePatch): (r: Quote)
    ensures r.additionalServicesPrice == q.additionalServicesPrice
    ensures r.discounts == patch.discounts.GetOr(q.discounts)
    ensures r.basePrice == patch.basePrice.GetOr(q.basePrice)
    ensures patch.discounts.Some? || patch.basePrice.Some? ==> Balanced(r)
    ensures patch.discounts.None? && patch.basePrice.None? ==> r == q
  {
    var d := patch.discounts.GetOr(q.discounts);
    var b := patch.basePrice.GetOr(q.basePrice);
    if patch.discounts.Some? || patch.basePrice.Some? then
      Quote(b, q.additionalServicesPrice, d, b + q.additionalServicesPrice - d)
    else q
  }

  /** The insurance after an edit: a truthy status replaces the old one, a pricing object
      is applied as a patch, and nothing else changes. */
  function EditedInsurance(ins: Insurance, status: Option<string>, pricing: Option<QuotePatch>): (r: Insurance)
    ensures r.id == ins.id && r.vehicle == ins.vehicle && r.customerInfo == ins.customerInfo
    ensures r.selectedPackage == ins.selectedPackage && r.additionalServices == ins.additionalServices
    ensures r.status == (if TruthyString(status) then status.value else ins.status)
    ensures pricing.None? ==> r.pricing == ins.pricing
    ensures pricing.Some? ==> r.pricing == PatchedQuote(ins.pricing, pricing.value)
  {
    ins.(status := if TruthyString(status) then status.value else ins.status,
         pricing := if pricing.Some? then PatchedQuote(ins.pricing, pricing.value) else ins.pricing)
  }

  /** `Insurance.findById`. */
  function FindInsurance(docs: seq<Insurance>, id: string): (r: Option<nat>) {
    FindFirst(docs, (i: Insurance) => i.id == id)
  }

  /** updateInsurance: load, overwrite the status when a truthy one is given, apply the
      pricing fields one after the other (discounts first, then the base price, each
      recomputing the total), then save, which the schema refuses for an unknown status.
      `idValid` is the verdict of Mongoose's ObjectId cast on `id`. */
  method UpdateInsurance(db: InsuranceCollection, idValid: bool, id: string,
                         status: Option<string>, pricing: Option<QuotePatch>)
    returns (r: Result<Insurance, AdminError>)
    requires db.Valid()
    modifies db
    ensures db.Valid()
    ensures !idValid ==> r == Failure(InvalidId)
    ensures idValid && FindInsurance(old(db.docs), id).None? ==> r == Failure(NotFound)
    ensures r.Failure? ==> StatusCode(Failure(r.error)) in {404, 500}
    ensures r.Failure? ==> db.docs == old(db.docs)
    ensures r.Success? ==>
              && FindInsurance(old(db.docs), id).Some?
              && var i := FindInsurance(old(db.docs), id).value;
                 && r.value == EditedInsurance(old(db.docs)[i], status, pricing)
                 && r.value.status in Statuses
                 && db.docs == old(db.docs)[i := r.value]
    ensures idValid && FindInsurance(old(db.docs), id).Some?
            ==> (r.Success? <==> EditedInsurance(old(db.docs)[FindInsurance(old(db.docs), id).value], status, pricing).status in Statuses)
  {
    if !idValid {
      return Failure(InvalidId);
    }
    var found := FindInsurance(db.docs, id);
    if found.None? {
      return Failure(NotFound);
    }
    var i := found.value;
    var insurance := db.docs[i];

    if status.Some? && status.value != "" {
      insurance := insurance.(status := status.value);
    }

    if pricing.Some? {
      if pricing.value.discounts.Some? {
        var q := insurance.pricing;
        var d := pricing.value.discounts.value;
        insurance := insurance.(pricing := q.(discounts := d, totalPrice := q.basePrice + q.additionalServicesPrice - d));
      }
      if pricing.value.basePrice.Some? {
        var q := insurance.pricing;
        var b := pricing.value.basePrice.value;
        insurance := insurance.(pricing := q.(basePrice := b, totalPrice := b + q.additionalServicesPrice - q.discounts));
      }
    }

    if insurance.status !in Statuses {
      return Failure(ValidationFailed);
    }
    assert insurance == EditedInsurance(db.docs[i], status, pricing);
    DistinctAfterReplace(db.docs, (x: Insurance) => x.id, i, insurance);
    db.docs := db.docs[i := insurance];
    r := Success(insurance);
  }

  /** An edit leaves a balanced quote balanced, whatever fields it supplies. */
  lemma PatchKeepsBalanced(q: Quote, patch: QuotePatch)
    requires Balanced(q)
    ensures Balanced(PatchedQuote(q, patch))
  {
  }

  /** Applying the same pricing edit twice is the same as once. */
  lemma PatchIdempotent(q: Quote, patch: QuotePatch)
    ensures PatchedQuote(PatchedQuote(q, patch), patch) == PatchedQuote(q, patch)
  {
  }

  /** Supplying discounts and base price together gives the same total in either order of
      application: the base price as given plus the riders minus the discounts as given. */
  lemma PatchBothFields(q: Quote, d: int, b: int)
    ensures PatchedQuote(q, QuotePatch(Some(d), Some(b)))
         == PatchedQuote(PatchedQuote(q, QuotePatch(None, Some(b))), QuotePatch(Some(d), None))
    ensures PatchedQuote(q, QuotePatch(Some(d), Some(b))).totalPrice == b + q.additionalServicesPrice - d
  {
  }

  // ---------------------------------------------------------------------------------
  // updateProduct
  // ---------------------------------------------------------------------------------

  /** The `features` object of a product edit: each key may be left out. */
  datatype FeaturesPatch = FeaturesPatch(
    propertyDamageLimit: Option<real>,
    healthDamageLimit: Option<real>,
    driverInsuranceAmount: Option<real>,
    personalItemsAmount: Option<real>,
    assistanceServices: Option<bool>,
    ownVehicleDamage: Option<bool>,
    replacementVehicle: Option<bool>)

  /** The `pricing` object of a product edit: each key may be left out. */
  datatype PricingPatch = PricingPatch(
    basePrice: Option<real>,
    weightMultiplier: Option<real>,
    engineVolumeMultiplier: Option<real>,
    vehicleAgeMultiplier: Option<real>,
    ownershipCountMultiplier: Option<real>,
    electricVehicleDiscount: Option<real>)

  /** A product edit. There is no `type`: the handler never reads one. */
  datatype ProductPatch = ProductPatch(
    name: Option<string>,
    description: Option<string>,
    features: Option<FeaturesPatch>,
    pricing: Option<PricingPatch>,
    active: Option<bool>)

  /** `{ ...features, ...patch }`: the keys the patch carries win. */
  function SpreadFeatures(f: Features, patch: FeaturesPatch): (r: Features) {
    Features(patch.propertyDamageLimit.GetOr(f.propertyDamageLimit),
             patch.healthDamageLimit.GetOr(f.healthDamageLimit),
             patch.driverInsuranceAmount.GetOr(f.driverInsuranceAmount),
             patch.personalItemsAmount.GetOr(f.personalItemsAmount),
             patch.assistanceServices.GetOr(f.assistanceServices),
             patch.ownVehicleDamage.GetOr(f.ownVehicleDamage),
             patch.replacementVehicle.GetOr(f.replacementVehicle))
  }

  /** `{ ...pricing, ...patch }`: the keys the patch carries win. */
  function SpreadPricing(p: Pricing, patch: PricingPatch): (r: Pricing) {
    Pricing(patch.basePrice.GetOr(p.basePrice),
            patch.weightMultiplier.GetOr(p.weightMultiplier),
            patch.engineVolumeMultiplier.GetOr(p.engineVolumeMultiplier),
            patch.vehicleAgeMultiplier.GetOr(p.vehicleAgeMultiplier),
            patch.ownershipCountMultiplier.GetOr(p.ownershipCountMultiplier),
            patch.electricVehicleDiscount.GetOr(p.electricVehicleDiscount))
  }

  /** No keys in a patch. */
  const NoFeatures := FeaturesPatch(None, None, None, None, None, None, None)
  const NoPricing := PricingPatch(None, None, None, None, None, None)

  /** The product after an edit: name and description replaced only by a non-empty
      value, features and pricing merged key by key, `active` replaced whenever given,
      the id and the type never touched. */
  function MergedProduct(p: Product, patch: ProductPatch): (r: Product)
    ensures r.id == p.id && r.productType == p.productType
    ensures r.name == (if TruthyString(patch.name) then patch.name.value else p.name)
    ensures r.description == (if TruthyString(patch.description) then patch.description else p.description)
    ensures r.active == patch.active.GetOr(p.active)
    ensures patch.features.None? ==> r.features == p.features
    ensures patch.features.Some? ==> r.features == SpreadFeatures(p.features, patch.features.value)
    ensures patch.pricing.None? ==> r.pricing == p.pricing
    ensures patch.pricing.Some? ==> r.pricing == SpreadPricing(p.pricing, patch.pricing.value)
  {
    p.(name := if TruthyString(patch.name) then patch.name.value else p.name,
       description := if TruthyString(patch.description) then patch.description else p.description,
       features := if patch.features.Some? then SpreadFeatures(p.features, patch.features.value) else p.features,
       pricing := if patch.pricing.Some? then SpreadPricing(p.pricing, patch.pricing.value) else p.pricing,
       active := patch.active.GetOr(p.active))
  }

  /** The product the handler builds by its conditional updates, one field after another. */
  lemma MergeBySteps(p: Product, patch: ProductPatch)
    ensures var p1 := if patch.name.Some? && patch.name.value != "" then p.(name := patch.name.value) else p;
            var p2 := if patch.description.Some? && patch.description.value != "" then p1.(description := patch.description) else p1;
            var p3 := if patch.features.Some? then p2.(features := SpreadFeatures(p2.features, patch.features.value)) else p2;
            var p4 := if patch.pricing.Some? then p3.(pricing := SpreadPricing(p3.pricing, patch.pricing.value)) else p3;
            var p5 := if patch.active.Some? then p4.(active := patch.active.value) else p4;
            p5 == MergedProduct(p, patch)
  {
  }

  /** `Product.findById`. */
  function FindProduct(docs: seq<Product>, id: string): (r: Option<nat>) {
    FindFirst(docs, (p: Product) => p.id == id)
  }

  /** updateProduct: load, apply each supplied field in turn, save. */
  method UpdateProduct(db: ProductCollection, idValid: bool, id: string, patch: ProductPatch)
    returns (r: Result<Product, AdminError>)
    requires db.Valid()
    modifies db
    ensures db.Valid()
    ensures !idValid ==> r == Failure(InvalidId)
    ensures idValid && FindProduct(old(db.docs), id).None? ==> r == Failure(NotFound)
    ensures r.Failure? ==> StatusCode(Failure(r.error)) in {404, 500}
    ensures r.Failure? ==> db.docs == old(db.docs)
    ensures idValid && FindProduct(old(db.docs), id).Some? ==>
              && r.Success?
              && var i := FindProduct(old(db.docs), id).value;
                 && r.value == MergedProduct(old(db.docs)[i], patch)
                 && db.docs == old(db.docs)[i := r.value]
  {
    if !idValid {
      return Failure(InvalidId);
    }
    var found := FindProduct(db.docs, id);
    if found.None? {
      return Failure(NotFound);
    }
    var i := found.value;
    var product := db.docs[i];

    product := if patch.name.Some? && patch.name.value != "" then product.(name := patch.name.value) else product;
    product := if patch.description.Some? && patch.description.value != "" then product.(description := patch.description) else product;
    product := if patch.features.Some? then product.(features := SpreadFeatures(product.features, patch.features.value)) else product;
    product := if patch.pricing.Some? then product.(pricing := SpreadPricing(product.pricing, patch.pricing.value)) else product;
    product := if patch.active.Some? then product.(active := patch.active.value) else product;
    MergeBySteps(db.docs[i], patch);
    DistinctAfterReplace(db.docs, (p: Product) => p.id, i, product);

    db.docs := db.docs[i := product];
    r := Success(product);
  }

  /** Spreading is idempotent and an empty object leaves the record as it was. */
  lemma SpreadLaws(f: Features, fp: FeaturesPatch, p: Pricing, pp: PricingPatch)
    ensures SpreadFeatures(SpreadFeatures(f, fp), fp) == SpreadFeatures(f, fp)
    ensures SpreadPricing(SpreadPricing(p, pp), pp) == SpreadPricing(p, pp)
    ensures SpreadFeatures(f, NoFeatures) == f
    ensures SpreadPricing(p, NoPricing) == p
  {
  }

  /** Each pricing key takes the supplied value if present and keeps the old one otherwise. */
  lemma SpreadPricingKeys(p: Pricing, pp: PricingPatch)
    ensures SpreadPricing(p, pp).basePrice == (if pp.basePrice.Some? then pp.basePrice.value else p.basePrice)
    ensures SpreadPricing(p, pp).weightMultiplier
         == (if pp.weightMultiplier.Some? then pp.weightMultiplier.value else p.weightMultiplier)
    ensures SpreadPricing(p, pp).engineVolumeMultiplier
         == (if pp.engineVolumeMultiplier.Some? then pp.engineVolumeMultiplier.value else p.engineVolumeMultiplier)
    ensures SpreadPricing(p, pp).vehicleAgeMultiplier
         == (if pp.vehicleAgeMultiplier.Some? then pp.vehicleAgeMultiplier.value else p.vehicleAgeMultiplier)
    ensures SpreadPricing(p, pp).ownershipCountMultiplier
         == (if pp.ownershipCountMultiplier.Some? then pp.ownershipCountMultiplier.value else p.ownershipCountMultiplier)
    ensures SpreadPricing(p, pp).electricVehicleDiscount
         == (if pp.electricVehicleDiscount.Some? then pp.electricVehicleDiscount.value else p.electricVehicleDiscount)
  {
  }

  /** Each features key takes the supplied value if present and keeps the old one otherwise. */
  lemma SpreadFeaturesKeys(f: Features, fp: FeaturesPatch)
    ensures SpreadFeatures(f, fp).propertyDamageLimit
         == (if fp.propertyDamageLimit.Some? then fp.propertyDamageLimit.value else f.propertyDamageLimit)
    ensures SpreadFeatures(f, fp).healthDamageLimit
         == (if fp.healthDamageLimit.Some? then fp.healthDamageLimit.value else f.healthDamageLimit)
    ensures SpreadFeatures(f, fp).driverInsuranceAmount
         == (if fp.driverInsuranceAmount.Some? then fp.driverInsuranceAmount.value else f.driverInsuranceAmount)
    ensures SpreadFeatures(f, fp).personalItemsAmount
         == (if fp.personalItemsAmount.Some? then fp.personalItemsAmount.value else f.personalItemsAmount)
    ensures SpreadFeatures(f, fp).assistanceServices
         == (if fp.assistanceServices.Some? then fp.assistanceServices.value else f.assistanceServices)
    ensures SpreadFeatures(f, fp).ownVehicleDamage
         == (if fp.ownVehicleDamage.Some? then fp.ownVehicleDamage.value else f.ownVehicleDamage)
    ensures SpreadFeatures(f, fp).replacementVehicle
         == (if fp.replacementVehicle.Some? then fp.replacementVehicle.value else f.replacementVehicle)
  {
  }

  /** Applying the same product edit twice is the same as once, and an edit supplying
      nothing leaves the product as it was. */
  lemma MergeLaws(p: Product, patch: ProductPatch)
    ensures MergedProduct(MergedProduct(p, patch), patch) == MergedProduct(p, patch)
    ensures MergedProduct(p, ProductPatch(None, None, None, None, None)) == p
  {
    if patch.features.Some? {
      SpreadLaws(p.features, patch.features.value, p.pricing, NoPricing);
    }
    if patch.pricing.Some? {
      SpreadLaws(p.features, NoFeatures, p.pricing, patch.pricing.value);
    }
  }

  /** Raising only the product's base price (with positive inputs) never lowers a quote's
      base price. */
  lemma RaisingBasePriceRaisesQuote(v: Vehicle, p: Pricing, c: Option<Customer>, y: int, b: real)
    requires Premium.Plausible(v, p, c, y) && b >= p.basePrice
    ensures Premium.BasePrice(v, p, c, y)
         <= Premium.BasePrice(v, SpreadPricing(p, NoPricing.(basePrice := Some(b))), c, y)
  {
    Premium.BasePriceMonotone(v, p, SpreadPricing(p, NoPricing.(basePrice := Some(b))), c, y);
  }

  // ---------------------------------------------------------------------------------
  // initializeProducts and the catalogue
  // ---------------------------------------------------------------------------------

  function StandardProduct(id: string): (r: Product) {
    Product(id, "standard", "Standard", Some("Базовый пакет страхования"),
            Features(50000000.0, 50000000.0, 100000.0, 5000.0, true, false, false),
            Pricing(19229.0, 1.0, 1.0, 1.0, 1.0, 10.0),
            true)
  }

  function DominantProduct(id: string): (r: Product) {
    Product(id, "dominant", "Dominant", Some("Расширенный пакет страхования"),
            Features(100000000.0, 100000000.0, 200000.0, 10000.0, true, false, false),
            Pricing(20189.0, 1.02, 1.05, 1.02, 1.02, 15.0),
            true)
  }

  function PremiantProduct(id: string): (r: Product) {
    Product(id, "premiant", "Premiant", Some("Премиальный пакет страхования"),
            Features(200000000.0, 200000000.0, 300000.0, 15000.0, true, true, true),
            Pricing(22305.0, 1.05, 1.1, 1.05, 1.05, 20.0),
            true)
  }

  /** The three seeded products, in insertion order, under the ids the database assigns. */
  function Catalogue(ids: seq<string>): (c: seq<Product>)
    requires |ids| == 3
    ensures |c| == 3
    ensures forall k :: 0 <= k < 3 ==> c[k].id == ids[k] && c[k].active && c[k].productType in Tiers
  {
    [StandardProduct(ids[0]), DominantProduct(ids[1]), PremiantProduct(ids[2])]
  }

  /** initializeProducts: refuse when any product exists; otherwise insert the three tiers
      and answer 201. `ids` are the ids the database assigns to the new documents. */
  method InitializeProducts(db: ProductCollection, ids: seq<string>) returns (r: Result<int, AdminError>)
    requires db.Valid()
    requires |ids| == 3 && ids[0] != ids[1] && ids[0] != ids[2] && ids[1] != ids[2]
    modifies db
    ensures db.Valid()
    ensures |old(db.docs)| > 0 ==> r == Failure(AlreadyInitialized) && db.docs == old(db.docs)
    ensures |old(db.docs)| == 0 ==> r == Success(201) && db.docs == Catalogue(ids)
  {
    var productsCount := |db.docs|;
    if productsCount > 0 {
      return Failure(AlreadyInitialized);
    }
    var products := [StandardProduct(ids[0]), DominantProduct(ids[1]), PremiantProduct(ids[2])];
    db.docs := db.docs + products;
    r := Success(201);
  }

  /** After seeding, each tier has exactly one product, it is active, and the quote
      calculation finds it. */
  lemma CatalogueFindsEveryTier(ids: seq<string>, t: string)
    requires |ids| == 3 && t in Tiers
    ensures Premium.FindActiveProduct(Catalogue(ids), t).Some?
    ensures Catalogue(ids)[Premium.FindActiveProduct(Catalogue(ids), t).value].productType == t
    ensures forall k :: 0 <= k < 3 && Catalogue(ids)[k].productType == t ==> k == Premium.FindActiveProduct(Catalogue(ids), t).value
  {
    var c := Catalogue(ids);
    assert c[0].productType == "standard" && c[1].productType == "dominant" && c[2].productType == "premiant";
    var k := if t == "standard" then 0 else if t == "dominant" then 1 else 2;
    assert c[k].productType == t && c[k].active;
  }

  /** The tiers are ordered: each one's base price and multipliers are at least the
      previous one's, and it covers at least as much. */
  lemma TiersAreOrdered(a: string, b: string, c: string)
    ensures Premium.PricingAtMost(StandardProduct(a).pricing, DominantProduct(b).pricing)
    ensures Premium.PricingAtMost(DominantProduct(b).pricing, PremiantProduct(c).pricing)
    ensures StandardProduct(a).features.propertyDamageLimit < DominantProduct(b).features.propertyDamageLimit
                                                           < PremiantProduct(c).features.propertyDamageLimit
  {
  }

  /** For a plausible vehicle and customer, a higher tier never quotes a lower base price. */
  lemma TierBasePricesOrdered(v: Vehicle, cust: Option<Customer>, y: int, a: string, b: string, c: string)
    requires Premium.Plausible(v, StandardProduct(a).pricing, cust, y)
    ensures Premium.BasePrice(v, StandardProduct(a).pricing, cust, y) <= Premium.BasePrice(v, DominantProduct(b).pricing, cust, y)
    ensures Premium.BasePrice(v, DominantProduct(b).pricing, cust, y) <= Premium.BasePrice(v, PremiantProduct(c).pricing, cust, y)
  {
    var ps, pd, pp := StandardProduct(a).pricing, DominantProduct(b).pricing, PremiantProduct(c).pricing;
    TiersAreOrdered(a, b, c);
    Premium.BasePriceMonotone(v, ps, pd, cust, y);
    assert Premium.Plausible(v, pd, cust, y);
    Premium.BasePriceMonotone(v, pd, pp, cust, y);
  }
}
