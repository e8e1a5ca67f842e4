/** The client side of the quote calculation (frontend/src/services/insuranceService.js):
    a memo table of calculation results keyed by the request, the call to the server
    (whose answer is a parameter, `None` when the request fails) and the fallback quote
    the client makes up when the server cannot be reached. */
module QuoteCache {
  import opened Wrappers
  import opened Models
  import Premium
  import Admin

  // ---------------------------------------------------------------------------------
  // _generateCacheKey
  // ---------------------------------------------------------------------------------

  /** The key of a request: vehicle id, package type and the JSON texts of the customer
      and of the riders, joined by underscores. */
  function GenerateCacheKey(vehicleId: string, packageType: string, customerJson: string, ridersJson: string): (k: string)
    ensures |k| == |vehicleId| + |packageType| + |customerJson| + |ridersJson| + 3
    ensures k[..|vehicleId|] == vehicleId && k[|vehicleId|] == '_'
    ensures k[|k| - |ridersJson|..] == ridersJson && k[|k| - |ridersJson| - 1] == '_'
  {
    vehicleId + "_" + packageType + "_" + customerJson + "_" + ridersJson
  }

  /** In a text without an underscore, followed by one, the first underscore is that one. */
  lemma FirstUnderscore(a: string, r: string)
    requires '_' !in a
    ensures (a + "_" + r)[|a|] == '_'
    ensures forall i :: 0 <= i < |a| ==> (a + "_" + r)[i] != '_'
  {
  }

  /** Two texts without an underscore, each followed by one, split a joined text the same way. */
  lemma SplitAtUnderscore(a1: string, r1: string, a2: string, r2: string)
    requires '_' !in a1 && '_' !in a2
    requires a1 + "_" + r1 == a2 + "_" + r2
    ensures a1 == a2 && r1 == r2
  {
    var s1, s2 := a1 + "_" + r1, a2 + "_" + r2;
    FirstUnderscore(a1, r1);
    FirstUnderscore(a2, r2);
    assert |a1| == |a2|;
    assert a1 == s1[..|a1|] == s2[..|a2|] == a2;
    assert r1 == s1[|a1| + 1..] == s2[|a2| + 1..] == r2;
  }

  /** Keys are equal exactly when the inputs are, as far as the vehicle id and package type
      go (an ObjectId and a package name hold no underscore): equal keys mean the same
      vehicle, the same package and the same serialised customer-and-riders text. */
  lemma CacheKeyDeterminesRequest(v1: string, p1: string, c1: string, r1: string,
                                  v2: string, p2: string, c2: string, r2: string)
    requires '_' !in v1 && '_' !in v2 && '_' !in p1 && '_' !in p2
    ensures GenerateCacheKey(v1, p1, c1, r1) == GenerateCacheKey(v2, p2, c2, r2)
        <==> v1 == v2 && p1 == p2 && c1 + "_" + r1 == c2 + "_" + r2
  {
    var t1, t2 := c1 + "_" + r1, c2 + "_" + r2;
    assert GenerateCacheKey(v1, p1, c1, r1) == v1 + "_" + (p1 + "_" + t1);
    assert GenerateCacheKey(v2, p2, c2, r2) == v2 + "_" + (p2 + "_" + t2);
    if GenerateCacheKey(v1, p1, c1, r1) == GenerateCacheKey(v2, p2, c2, r2) {
      SplitAtUnderscore(v1, p1 + "_" + t1, v2, p2 + "_" + t2);
      SplitAtUnderscore(p1, t1, p2, t2);
    }
  }

  // ---------------------------------------------------------------------------------
  // The fallback quote
  // ---------------------------------------------------------------------------------

  /** The fallback base price of a package. */
  function MockBasePrice(packageType: string): (b: int)
    ensures b in {15500, 17800, 19900, 18000}
    ensures b == 18000 <==> packageType !in Tiers
  {
    match packageType
    case "standard" => 15500
    case "dominant" => 17800
    case "premiant" => 19900
    case _ => 18000
  }

  /** An enabled KASKO rider carries a vehicle price (the form always sends one). */
  predicate KaskoPriced(riders: Option<Riders>) {
    (riders.Some? && riders.value.havarijniPojisteni.Some? && riders.value.havarijniPojisteni.value.enabled)
    ==> riders.value.havarijniPojisteni.value.vehiclePrice.Some?
  }

  /** The unrounded fallback rider price: 5% of the vehicle price for KASKO, then flat 1200,
      400 and 900 for theft, natural disaster and animal collision. */
  function MockRidersSum(riders: Option<Riders>): (r: real) {
    match riders
    case None => 0.0
    case Some(rs) =>
      (match rs.havarijniPojisteni
       case Some(k) => if k.enabled then k.vehiclePrice.GetOr(0.0) * 0.05 else 0.0
       case None => 0.0)
      + (if On(rs.pojisteniOdcizeni) then 1200.0 else 0.0)
      + (if On(rs.zivelniPojisteni) then 400.0 else 0.0)
      + (if On(rs.stetSeZveri) then 900.0 else 0.0)
  }

  /** The fallback rider price against the server's: KASKO is priced alike, natural
      disaster and animal collision are 44 and 20 dearer on the server, and theft is a flat
      1200 here instead of half the vehicle's weight. */
  lemma MockRidersAgainstServer(rs: Riders, weight: real)
    ensures MockRidersSum(Some(rs))
         == Premium.RidersSum(rs, weight)
            + (if On(rs.pojisteniOdcizeni) then 1200.0 - weight * 0.5 else 0.0)
            - (if On(rs.zivelniPojisteni) then 44.0 else 0.0)
            - (if On(rs.stetSeZveri) then 20.0 else 0.0)
  {
  }

  /** The fallback discount: 800 for more than five years of driving experience. */
  function MockDiscount(customerInfo: Option<Customer>): (d: int)
    ensures d in {0, 800}
    ensures d == 800 <==> customerInfo.Some? && customerInfo.value.drivingExperience.Some?
                          && customerInfo.value.drivingExperience.value > 5
  {
    if customerInfo.Some? && customerInfo.value.drivingExperience.Some?
       && customerInfo.value.drivingExperience.value > 5 then 800 else 0
  }

  /** The fallback quote: the rider price is rounded once and the total is rounded from the
      unrounded rider price. */
  function MockQuote(packageType: string, customerInfo: Option<Customer>, riders: Option<Riders>): (q: Quote)
    ensures q.basePrice == MockBasePrice(packageType)
    ensures q.additionalServicesPrice == Premium.Round(MockRidersSum(riders))
    ensures q.discounts == MockDiscount(customerInfo)
  {
    var b := MockBasePrice(packageType);
    var s := MockRidersSum(riders);
    var d := MockDiscount(customerInfo);
    Quote(b, Premium.Round(s), d, Premium.Round(b as real + s - d as real))
  }

  /** Although the total is rounded from the unrounded rider price, it is exactly the base
      price plus the rounded rider price minus the discount. */
  lemma MockQuoteBalanced(packageType: string, customerInfo: Option<Customer>, riders: Option<Riders>)
    ensures Balanced(MockQuote(packageType, customerInfo, riders))
  {
    var b, s, d := MockBasePrice(packageType), MockRidersSum(riders), MockDiscount(customerInfo);
    assert b as real + s - d as real == (b - d) as real + s;
    Premium.RoundShift(b - d, s);
  }

  /** The fallback base prices lie below the base prices of the seeded catalogue. */
  lemma MockBaseBelowCatalogue(a: string, b: string, c: string)
    ensures (MockBasePrice("standard") as real) < Admin.StandardProduct(a).pricing.basePrice
    ensures (MockBasePrice("dominant") as real) < Admin.DominantProduct(b).pricing.basePrice
    ensures (MockBasePrice("premiant") as real) < Admin.PremiantProduct(c).pricing.basePrice
  {
  }

  /** The catch branch of calculateInsurance: the running rider price, increased rider by
      rider, and the quote built from it. */
  method CalculateMock(packageType: string, customerInfo: Option<Customer>, additionalServices: Option<Riders>)
    returns (mockResult: Quote)
    requires KaskoPriced(additionalServices)
    ensures mockResult == MockQuote(packageType, customerInfo, additionalServices)
  {
    var basePrice := 0;
    if packageType == "standard" {
      basePrice := 15500;
    } else if packageType == "dominant" {
      basePrice := 17800;
    } else if packageType == "premiant" {
      basePrice := 19900;
    } else {
      basePrice := 18000;
    }
    assert basePrice == MockBasePrice(packageType);

    var additionalServicesPrice := 0.0;
    if additionalServices.Some? {
      var rs := additionalServices.value;
      if rs.havarijniPojisteni.Some? && rs.havarijniPojisteni.value.enabled {
        additionalServicesPrice := additionalServicesPrice + rs.havarijniPojisteni.value.vehiclePrice.value * 0.05;
      }
      if rs.pojisteniOdcizeni.Some? && rs.pojisteniOdcizeni.value.enabled {
        additionalServicesPrice := additionalServicesPrice + 1200.0;
      }
      if rs.zivelniPojisteni.Some? && rs.zivelniPojisteni.value.enabled {
        additionalServicesPrice := additionalServicesPrice + 400.0;
      }
      if rs.stetSeZveri.Some? && rs.stetSeZveri.value.enabled {
        additionalServicesPrice := additionalServicesPrice + 900.0;
      }
    }
    assert additionalServicesPrice == MockRidersSum(additionalServices);

    var discounts := if customerInfo.Some? && customerInfo.value.drivingExperience.Some?
                        && customerInfo.value.drivingExperience.value > 5 then 800 else 0;

    mockResult := Quote(basePrice, Premium.Round(additionalServicesPrice), discounts,
                        Premium.Round(basePrice as real + additionalServicesPrice - discounts as real));
  }

  // ---------------------------------------------------------------------------------
  // The memo table (calculateInsurance, clearCalculationCache)
  // ---------------------------------------------------------------------------------

  /** The JSON body of a server answer; `data` may be missing. */
  datatype ServerBody = ServerBody(success: bool, data: Option<Quote>)

  /** A calculation result as the client keeps it: a quote, or `undefined`. */
  datatype CachedResult = Quoted(quote: Quote) | NoResult

  /** The result read from an answer. The response interceptor of the api client
      (frontend/src/services/api.js) already returns the body, so `response.data` is the
      body's `data`: the quote, which has no `data` of its own, or `undefined` when the body
      carries none. */
  function Unwrap(body: ServerBody): (r: CachedResult)
    ensures body.data.Some? <==> r.Quoted?
    ensures body.data.None? <==> r.NoResult?
    ensures r.Quoted? ==> r.quote == body.data.value
  {
    if body.data.Some? then Quoted(body.data.value) else NoResult
  }

  /** The result a cache miss produces: the server's answer, or the fallback quote when
      the request fails. */
  function Fetched(server: Option<ServerBody>, packageType: string, customerInfo: Option<Customer>,
                   riders: Option<Riders>): (r: CachedResult) {
    match server
    case Some(body) => Unwrap(body)
    case None => Quoted(MockQuote(packageType, customerInfo, riders))
  }

  /** The outcome of one lookup: the result, the table afterwards and whether the server
      was asked. */
  datatype CacheOutcome = CacheOutcome(result: CachedResult, entries: map<string, CachedResult>, requested: bool)

  /** One memoised lookup: a stored key answers from the table without a request; a new key
      is answered by `answer`, which is stored under it. */
  function Memo(entries: map<string, CachedResult>, key: string, answer: CachedResult): (o: CacheOutcome)
    ensures key in o.entries && o.entries[key] == o.result
    ensures o.requested <==> key !in entries
    ensures !o.requested ==> o.entries == entries && o.result == entries[key]
    ensures o.requested ==> o.result == answer
    ensures o.entries.Keys == entries.Keys + {key}
    ensures forall k :: k in entries && k != key ==> o.entries[k] == entries[k]
  {
    if key in entries then CacheOutcome(entries[key], entries, false)
    else CacheOutcome(answer, entries[key := answer], true)
  }

  /** A repeated identical lookup is served from the table with the first result, makes no
      request and leaves the table alone, whatever the server would answer the second time. */
  lemma RepeatedLookupHits(entries: map<string, CachedResult>, key: string, first: CachedResult, second: CachedResult)
    ensures var o := Memo(entries, key, first);
            Memo(o.entries, key, second) == CacheOutcome(o.result, o.entries, false)
  {
  }

  /** A failed request stores the fallback quote, so later identical lookups return it. */
  lemma FailureMemoisesMock(entries: map<string, CachedResult>, key: string, packageType: string,
                            customerInfo: Option<Customer>, riders: Option<Riders>, later: Option<ServerBody>)
    requires key !in entries
    ensures var o := Memo(entries, key, Fetched(None, packageType, customerInfo, riders));
            && o.result == Quoted(MockQuote(packageType, customerInfo, riders))
            && Memo(o.entries, key, Fetched(later, packageType, customerInfo, riders)).result
               == Quoted(MockQuote(packageType, customerInfo, riders))
  {
  }

  /** An answer without `data` stores `undefined`, and every later identical lookup returns
      `undefined` without asking the server again, whatever it would answer then. */
  lemma BodyWithoutDataMemoisesNothing(entries: map<string, CachedResult>, key: string, body: ServerBody,
                                       packageType: string, customerInfo: Option<Customer>,
                                       riders: Option<Riders>, later: Option<ServerBody>)
    requires key !in entries && body.data.None?
    ensures var o := Memo(entries, key, Fetched(Some(body), packageType, customerInfo, riders));
            && o.result == NoResult && o.entries[key] == NoResult
            && Memo(o.entries, key, Fetched(later, packageType, customerInfo, riders))
               == CacheOutcome(NoResult, o.entries, false)
  {
  }

  /** The module-level `calculationCache`. */
  class CalculationCache {
    var entries: map<string, CachedResult>

    constructor ()
      ensures entries == map[]
    {
      entries := map[];
    }

    /** calculateInsurance: answer from the table when the key is stored; otherwise ask the
        server (`server` is its answer, `None` when the request fails), fall back to the
        made-up quote on failure, and store what is returned under the key. */
    method Calculate(vehicleId: string, packageType: string, customerJson: string, ridersJson: string,
                     customerInfo: Option<Customer>, additionalServices: Option<Riders>,
                     server: Option<ServerBody>)
      returns (result: CachedResult, requested: bool)
      requires KaskoPriced(additionalServices)
      modifies this
      ensures var o := Memo(old(entries), GenerateCacheKey(vehicleId, packageType, customerJson, ridersJson),
                            Fetched(server, packageType, customerInfo, additionalServices));
              result == o.result && entries == o.entries && requested == o.requested
    {
      var cacheKey := GenerateCacheKey(vehicleId, packageType, customerJson, ridersJson);
      if cacheKey in entries {
        return entries[cacheKey], false;
      }
      requested := true;
      if server.Some? {
        result := Unwrap(server.value);
        entries := entries[cacheKey := result];
      } else {
        var mockResult := CalculateMock(packageType, customerInfo, additionalServices);
        var mockCacheKey := GenerateCacheKey(vehicleId, packageType, customerJson, ridersJson);
        result := Quoted(mockResult);
        entries := entries[mockCacheKey := result];
      }
    }

    /** clearCalculationCache: the table is empty afterwards. */
    method Clear()
      modifies this
      ensures entries == map[]
    {
      entries := map[];
    }
  }
}
