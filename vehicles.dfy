/** The vehicle service of backend/services/vehicleService.js: the mapping of the
    registry's vehicle kinds onto the Vehicle schema's `type` enum, the VIN-keyed upsert of
    a registry answer, and the lookup that answers from the stored vehicles before asking
    the registry. The registry's answer is a parameter (the HTTP call is not modelled). */
module Vehicles {
  import opened Wrappers
  import opened Models

  // ---------------------------------------------------------------------------------
  // determineVehicleType
  // ---------------------------------------------------------------------------------

  const PassengerCar: string := "OSOBNÍ AUTOMOBIL"
  const Motorbike: string := "MOTOCYKL"
  const TrailerKind: string := "PŘÍPOJNÉ VOZIDLO"

  /** The three kinds the mapping table names. */
  const MappedKinds: set<string> := {PassengerCar, Motorbike, TrailerKind}

  /** The property names every plain JavaScript object inherits from `Object.prototype`. */
  const InheritedNames: set<string> := {
    "constructor", "hasOwnProperty", "isPrototypeOf", "propertyIsEnumerable",
    "toLocaleString", "toString", "valueOf", "__proto__",
    "__defineGetter__", "__defineSetter__", "__lookupGetter__", "__lookupSetter__"
  }

  /** What `typeMapping[kind] || 'car'` evaluates to: one of the table's strings, or,
      for a name the object inherits, that inherited (truthy, non-string) member. */
  datatype MappedValue = TypeName(t: VehicleType) | InheritedMember(name: string)

  /** The lookup as written: a plain object literal indexed by the kind, so an inherited
      name finds the prototype's member, which is truthy and wins over the fallback.
      A missing kind is looked up as the key "undefined", which the table lacks. */
  function DetermineVehicleTypeAsWritten(kind: Option<string>): (r: MappedValue)
    ensures kind.Some? && kind.value in InheritedNames ==> r == InheritedMember(kind.value)
    ensures kind.None? ==> r == TypeName(Car)
  {
    match kind
    case None => TypeName(Car)
    case Some(k) =>
      if k == PassengerCar then TypeName(Car)
      else if k == Motorbike then TypeName(Motorcycle)
      else if k == TrailerKind then TypeName(Trailer)
      else if k in InheritedNames then InheritedMember(k)
      else TypeName(Car)
  }

  /** A registry kind of "toString" maps to a value outside the `type` enum. */
  lemma InheritedKindEscapesEnum()
    ensures DetermineVehicleTypeAsWritten(Some("toString")).InheritedMember?
  {
  }

  /** determineVehicleType, reading only the table's own entries: the three listed kinds
      map to their types and every other kind, or none, to a car. */
  function DetermineVehicleType(kind: Option<string>): (t: VehicleType)
    ensures kind == Some(PassengerCar) ==> t == Car
    ensures kind == Some(Motorbike) ==> t == Motorcycle
    ensures kind == Some(TrailerKind) ==> t == Trailer
    ensures (kind.None? || kind.value !in MappedKinds) ==> t == Car
  {
    match kind
    case None => Car
    case Some(k) =>
      if k == Motorbike then Motorcycle
      else if k == TrailerKind then Trailer
      else Car
  }

  /** The two agree on every kind that is not an inherited name. */
  lemma DetermineVehicleTypeAgrees(kind: Option<string>)
    requires kind.None? || kind.value !in InheritedNames
    ensures DetermineVehicleTypeAsWritten(kind) == TypeName(DetermineVehicleType(kind))
  {
  }

  /** Motorcycle and trailer come only from their own registry kinds. */
  lemma OnlyListedKindsLeaveCar(kind: Option<string>)
    ensures DetermineVehicleType(kind) == Motorcycle <==> kind == Some(Motorbike)
    ensures DetermineVehicleType(kind) == Trailer <==> kind == Some(TrailerKind)
  {
  }

  // ---------------------------------------------------------------------------------
  // saveVehicleData
  // ---------------------------------------------------------------------------------

  /** The stored vehicle refreshed from a registry answer: the registry record is kept
      verbatim and the searchable fields are copied from it; the id, the VIN and the
      electric flag stay as they were. */
  function Refreshed(v: Vehicle, data: RegistryData): (r: Vehicle)
    ensures r.id == v.id && r.vin == v.vin && r.isElectric == v.isElectric
    ensures r.apiData == Some(data)
    ensures r.vehicleType == DetermineVehicleType(data.druhVozidla)
    ensures r.brand == data.tovarniZnacka && r.model == data.obchodniOznaceni
    ensures r.year == data.datumPrvniRegistraceYear
    ensures r.engineVolume == data.motorZdvihObjem && r.weight == data.hmotnostiProvozni
    ensures r.ownersCount == data.pocetVlastniku
  {
    v.(apiData := Some(data),
       vehicleType := DetermineVehicleType(data.druhVozidla),
       brand := data.tovarniZnacka,
       model := data.obchodniOznaceni,
       year := data.datumPrvniRegistraceYear,
       engineVolume := data.motorZdvihObjem,
       weight := data.hmotnostiProvozni,
       ownersCount := data.pocetVlastniku)
  }

  /** A new document before the update is applied: the id the database assigns, the VIN
      and the schema defaults. */
  function Blank(id: string, vin: string): (r: Vehicle) {
    Vehicle(id, vin, Car, false, None, None, None, None, None, None, None)
  }

  /** `Vehicle.findOne({ vin })`. */
  function FindByVin(docs: seq<Vehicle>, vin: string): (r: Option<nat>) {
    FindFirst(docs, (v: Vehicle) => v.vin == vin)
  }

  /** No stored vehicle has this id. */
  predicate FreshId(docs: seq<Vehicle>, id: string) {
    forall j :: 0 <= j < |docs| ==> docs[j].id != id
  }

  /** The collection after the upsert: the vehicle with this VIN is refreshed in place, or a
      new one is appended; afterwards exactly one vehicle has the VIN, it carries the
      registry data, and every other vehicle is as it was. */
  function Upserted(docs: seq<Vehicle>, vin: string, data: RegistryData, newId: string): (r: seq<Vehicle>)
    requires Distinct(docs, (v: Vehicle) => v.id) && Distinct(docs, (v: Vehicle) => v.vin)
    requires FreshId(docs, newId)
    ensures Distinct(r, (v: Vehicle) => v.id) && Distinct(r, (v: Vehicle) => v.vin)
    ensures |r| == |docs| + (if FindByVin(docs, vin).Some? then 0 else 1)
    ensures FindByVin(r, vin).Some?
    ensures forall j :: 0 <= j < |r| && r[j].vin == vin ==> j == FindByVin(r, vin).value
    ensures r[FindByVin(r, vin).value]
         == Refreshed(if FindByVin(docs, vin).Some? then docs[FindByVin(docs, vin).value] else Blank(newId, vin), data)
    ensures forall j :: 0 <= j < |docs| && docs[j].vin != vin ==> r[j] == docs[j]
  {
    match FindByVin(docs, vin)
    case Some(i) =>
      var r := docs[i := Refreshed(docs[i], data)];
      assert r[i].vin == vin;
      r
    case None =>
      var r := docs + [Refreshed(Blank(newId, vin), data)];
      assert r[|docs|].vin == vin;
      r
  }

  /** saveVehicleData: build the update from the registry answer and apply it as an upsert
      keyed by the VIN. `newId` is the id the database assigns when it inserts. A year that
      is NaN fails the update's Number cast, so nothing is stored and the error is rethrown. */
  method SaveVehicleData(db: VehicleCollection, vin: string, data: RegistryData, newId: string)
    returns (r: Result<Vehicle, VehicleError>)
    requires db.Valid() && FreshId(db.docs, newId)
    modifies db
    ensures db.Valid()
    ensures r.Failure? <==> data.datumPrvniRegistraceYear.None?
    ensures r.Failure? ==> r.error == CastFailed && db.docs == old(db.docs)
    ensures r.Success? ==> db.docs == Upserted(old(db.docs), vin, data, newId)
    ensures r.Success? ==> r.value == db.docs[FindByVin(db.docs, vin).value]
  {
    if data.datumPrvniRegistraceYear.None? {
      return Failure(CastFailed);
    }
    var existing := FindByVin(db.docs, vin);
    var vehicle;
    if existing.Some? {
      vehicle := Refreshed(db.docs[existing.value], data);
      db.docs := db.docs[existing.value := vehicle];
    } else {
      vehicle := Refreshed(Blank(newId, vin), data);
      db.docs := db.docs + [vehicle];
    }
    r := Success(vehicle);
  }

  // ---------------------------------------------------------------------------------
  // getVehicleInfoByVin
  // ---------------------------------------------------------------------------------

  /** A registry answer with the fields the service reads: `Status` and `Data`. */
  datatype ApiReply = ApiReply(status: Option<int>, data: Option<RegistryData>)

  datatype VehicleError =
    | RequestFailed   // the HTTP request itself failed
    | BadReply        // the answer is not `Status: 1` with `Data`
    | CastFailed      // the update's `year` is NaN, which the Number cast refuses

  /** The service accepts an answer only with `Status === 1` and `Data` present. */
  predicate Accepted(reply: ApiReply) {
    reply.status == Some(1) && reply.data.Some?
  }

  /** An accepted answer whose date of first registration gives a year, so that saving it
      succeeds. */
  predicate Storable(reply: ApiReply) {
    Accepted(reply) && reply.data.value.datumPrvniRegistraceYear.Some?
  }

  /** getVehicleInfoByVin: a VIN already stored is answered from the store with `Status: 1`
      and no request; otherwise the registry is asked (its answer is `registry`, `None`
      when the request fails), and an accepted answer is saved and returned. */
  method GetVehicleInfoByVin(db: VehicleCollection, vin: string, registry: Option<ApiReply>, newId: string)
    returns (r: Result<ApiReply, VehicleError>, requested: bool)
    requires db.Valid() && FreshId(db.docs, newId)
    modifies db
    ensures db.Valid()
    ensures FindByVin(old(db.docs), vin).Some? ==>
              && !requested && db.docs == old(db.docs)
              && r == Success(ApiReply(Some(1), old(db.docs)[FindByVin(old(db.docs), vin).value].apiData))
    ensures FindByVin(old(db.docs), vin).None? ==> requested
    ensures FindByVin(old(db.docs), vin).None? ==>
              (r.Success? <==> registry.Some? && Storable(registry.value))
    ensures FindByVin(old(db.docs), vin).None? && registry.None? ==> r == Failure(RequestFailed)
    ensures FindByVin(old(db.docs), vin).None? && registry.Some? && !Accepted(registry.value)
            ==> r == Failure(BadReply)
    ensures FindByVin(old(db.docs), vin).None? && registry.Some? && Accepted(registry.value) && !Storable(registry.value)
            ==> r == Failure(CastFailed)
    ensures r.Failure? ==> db.docs == old(db.docs)
    ensures requested && r.Success? ==>
              r.value == registry.value
              && db.docs == Upserted(old(db.docs), vin, registry.value.data.value, newId)
  {
    var existing := FindByVin(db.docs, vin);
    if existing.Some? {
      return Success(ApiReply(Some(1), db.docs[existing.value].apiData)), false;
    }
    requested := true;
    if registry.None? {
      return Failure(RequestFailed), requested;
    }
    var response := registry.value;
    if response.status == Some(1) && response.data.Some? {
      var saved := SaveVehicleData(db, vin, response.data.value, newId);
      if saved.Failure? {
        return Failure(saved.error), requested;
      }
      r := Success(response);
    } else {
      r := Failure(BadReply);
    }
  }

  /** Once a registry answer is saved, the VIN is found in the store and its stored record
      is that answer's data, so a repeated lookup is served from the store. */
  lemma SavedAnswerIsServedFromStore(docs: seq<Vehicle>, vin: string, data: RegistryData, newId: string)
    requires Distinct(docs, (v: Vehicle) => v.id) && Distinct(docs, (v: Vehicle) => v.vin)
    requires FreshId(docs, newId)
    ensures FindByVin(Upserted(docs, vin, data, newId), vin).Some?
    ensures Upserted(docs, vin, data, newId)[FindByVin(Upserted(docs, vin, data, newId), vin).value].apiData == Some(data)
  {
  }
}
