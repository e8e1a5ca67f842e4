/** The records the services work on (the Mongoose schemas in backend/models/) and the
    three document collections, kept as sequences in their natural (insertion) order. */
module Models {
  import opened Wrappers

  /** JavaScript truthiness of an optional number or string: present and not 0 / "". */
  predicate TruthyInt(o: Option<int>) { o.Some? && o.value != 0 }
  predicate TruthyReal(o: Option<real>) { o.Some? && o.value != 0.0 }
  predicate TruthyString(o: Option<string>) { o.Some? && o.value != "" }

  /** The `type` enum of the Vehicle schema. */
  datatype VehicleType = Car | Motorcycle | Trailer

  /** The `Data` object of a vehicle-registry answer, with the fields the services read.
      `datumPrvniRegistraceYear` is what `new Date(DatumPrvniRegistrace).getFullYear()` gives:
      the year, or `None` for NaN (a missing or unparseable date). */
  datatype RegistryData = RegistryData(
    druhVozidla: Option<string>,
    tovarniZnacka: Option<string>,
    obchodniOznaceni: Option<string>,
    datumPrvniRegistraceYear: Option<int>,
    motorZdvihObjem: Option<real>,
    hmotnostiProvozni: Option<real>,
    pocetVlastniku: Option<int>)

  /** A stored vehicle (backend/models/Vehicle.js). */
  datatype Vehicle = Vehicle(
    id: string,
    vin: string,
    vehicleType: VehicleType,
    isElectric: bool,
    brand: Option<string>,
    model: Option<string>,
    year: Option<int>,
    engineVolume: Option<real>,
    weight: Option<real>,
    ownersCount: Option<int>,
    apiData: Option<RegistryData>)

  /** The `features` object of a product. */
  datatype Features = Features(
    propertyDamageLimit: real,
    healthDamageLimit: real,
    driverInsuranceAmount: real,
    personalItemsAmount: real,
    assistanceServices: bool,
    ownVehicleDamage: bool,
    replacementVehicle: bool)

  /** The `pricing` object of a product: base price and multipliers. */
  datatype Pricing = Pricing(
    basePrice: real,
    weightMultiplier: real,
    engineVolumeMultiplier: real,
    vehicleAgeMultiplier: real,
    ownershipCountMultiplier: real,
    electricVehicleDiscount: real)

  /** A stored insurance product (backend/models/Product.js). */
  datatype Product = Product(
    id: string,
    productType: string,
    name: string,
    description: Option<string>,
    features: Features,
    pricing: Pricing,
    active: bool)

  /** The `type` enum of the Product schema and `selectedPackage` of the Insurance schema. */
  const Tiers: set<string> := {"standard", "dominant", "premiant"}

  /** The customer snapshot (`customerInfo` of backend/models/Insurance.js). */
  datatype Customer = Customer(
    name: string,
    surname: string,
    birthYear: Option<int>,
    phone: string,
    email: string,
    address: string,
    customerType: string,
    drivingExperience: Option<int>,
    accidentsCount: Option<int>)

  /** A rider that is only switched on or off. */
  datatype Toggle = Toggle(enabled: bool)

  /** The KASKO (comprehensive) rider, priced from the vehicle's price. */
  datatype Kasko = Kasko(enabled: bool, vehiclePrice: Option<real>)

  /** `additionalServices`: KASKO, theft, natural disaster and animal collision, each of
      which may be missing from the request. */
  datatype Riders = Riders(
    havarijniPojisteni: Option<Kasko>,
    pojisteniOdcizeni: Option<Toggle>,
    zivelniPojisteni: Option<Toggle>,
    stetSeZveri: Option<Toggle>)

  /** A rider object that is present and enabled. */
  predicate On(t: Option<Toggle>) { t.Some? && t.value.enabled }

  /** A price breakdown (`pricing` of an insurance, the result of a calculation). */
  datatype Quote = Quote(basePrice: int, additionalServicesPrice: int, discounts: int, totalPrice: int)

  /** The total is the base price plus riders minus discounts. */
  predicate Balanced(q: Quote) {
    q.totalPrice == q.basePrice + q.additionalServicesPrice - q.discounts
  }

  /** A stored insurance (backend/models/Insurance.js). */
  datatype Insurance = Insurance(
    id: string,
    vehicle: string,
    customerInfo: Option<Customer>,
    selectedPackage: string,
    additionalServices: Option<Riders>,
    pricing: Quote,
    status: string)

  /** The `status` enum of the Insurance schema. */
  const Statuses: set<string> := {"draft", "pending", "active", "expired", "cancelled"}

  /** The index of the first element satisfying `p`: how `findOne`/`findById` pick a document. */
  function FindFirst<T>(s: seq<T>, p: T -> bool): (r: Option<nat>)
    ensures r.Some? ==> r.value < |s| && p(s[r.value])
    ensures r.Some? ==> forall j :: 0 <= j < r.value ==> !p(s[j])
    ensures r.None? <==> forall j :: 0 <= j < |s| ==> !p(s[j])
  {
    if s == [] then None
    else if p(s[0]) then Some(0)
    else match FindFirst(s[1..], p)
      case None => None
      case Some(k) => Some(k + 1)
  }

  /** No two elements share a key (a unique index of the collection). */
  predicate Distinct<T, K(==)>(s: seq<T>, key: T -> K) {
    forall i, j :: 0 <= i < j < |s| ==> key(s[i]) != key(s[j])
  }

  /** Replacing an element by one with the same key keeps the keys distinct. */
  lemma DistinctAfterReplace<T, K>(s: seq<T>, key: T -> K, i: nat, x: T)
    requires Distinct(s, key) && i < |s| && key(x) == key(s[i])
    ensures Distinct(s[i := x], key)
  {
    var t := s[i := x];
    forall a, b | 0 <= a < b < |t|
      ensures key(t[a]) != key(t[b])
    {
      assert key(t[a]) == key(s[a]) && key(t[b]) == key(s[b]);
    }
  }

  /** The vehicles collection: `_id` and `vin` are both unique. */
  class VehicleCollection {
    var docs: seq<Vehicle>

    predicate Valid()
      reads this
    {
      Distinct(docs, (v: Vehicle) => v.id) && Distinct(docs, (v: Vehicle) => v.vin)
    }

    constructor ()
      ensures docs == [] && Valid()
    {
      docs := [];
    }
  }

  /** The products collection: `_id` is unique. */
  class ProductCollection {
    var docs: seq<Product>

    predicate Valid()
      reads this
    {
      Distinct(docs, (p: Product) => p.id)
    }

    constructor ()
      ensures docs == [] && Valid()
    {
      docs := [];
    }
  }

  /** The insurances collection: `_id` is unique. */
  class InsuranceCollection {
    var docs: seq<Insurance>

    predicate Valid()
      reads this
    {
      Distinct(docs, (i: Insurance) => i.id)
    }

    constructor ()
      ensures docs == [] && Valid()
    {
      docs := [];
    }
  }
}
