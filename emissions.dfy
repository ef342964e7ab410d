/** Supply-chain route and transport emissions: default locations, emission
    factors per transport mode, and the route builder that chains four
    locations into three legs and totals their distance and emissions.

    Great-circle distances are not computed here: every operation takes the
    distance function as a parameter, of which only non-negativity is known. */
module Emissions {
  import opened Wrappers
  import opened JsRuntime

  /** A point of the route; `country` is empty when it is not known. */
  datatype Location = Location(lat: real, lng: real, name: string, country: string)

  const SYDNEY_WAREHOUSE := Location(-33.8688, 151.2093, "Kadwood Atelier, Sydney", "Australia")
  const PRODUCTION_CZ := Location(49.4719, 17.1128, "Prostějov, Czechia", "Czechia")
  const WOOL_AU := Location(-32.2569, 148.6011, "Dubbo, NSW (Wool)", "Australia")
  const COTTON_AU := Location(-30.3251, 149.7835, "Narrabri, NSW (Cotton)", "Australia")
  const COTTON_IN := Location(22.2587, 71.1924, "Gujarat, India (Cotton)", "India")
  const SILK_IT := Location(45.8080, 9.0852, "Como, Italy (Silk)", "Italy")
  const LINEN_FR := Location(49.1829, -0.3707, "Normandy, France (Linen)", "France")

  /** Emission factors in kg CO2e per tonne-km, and the assumed garment weight. */
  const AIR: real := 0.60
  const ROAD: real := 0.10
  const SEA: real := 0.05
  const SUIT_WEIGHT_TONNES: real := 0.0015

  /** The great-circle distance in km between two locations, left abstract. */
  type DistanceFn = f: (Location, Location) -> real | forall a, b :: f(a, b) >= 0.0
    witness (a: Location, b: Location) => 0.0

  datatype Mode = Sea | Road | Air

  function ModeName(m: Mode): string {
    match m
    case Sea => "Sea"
    case Road => "Road"
    case Air => "Air"
  }

  /** kg CO2e per km for the garment: the factor of the named mode times the
      garment weight; without a recognised mode, air beyond 1000 km, else road. */
  function EmissionFactor(distance: real, mode: string): (r: real)
    ensures r > 0.0
  {
    if mode == "Air" then AIR * SUIT_WEIGHT_TONNES
    else if mode == "Road" then ROAD * SUIT_WEIGHT_TONNES
    else if mode == "Sea" then SEA * SUIT_WEIGHT_TONNES
    else (if distance > 1000.0 then AIR else ROAD) * SUIT_WEIGHT_TONNES
  }

  /** The three modes' factors, worked out. */
  lemma ModeFactors(distance: real)
    ensures EmissionFactor(distance, "Air") == 0.0009
    ensures EmissionFactor(distance, "Road") == 0.00015
    ensures EmissionFactor(distance, "Sea") == 0.000075
  {
  }

  /** A recognised mode decides the factor whatever the distance. */
  lemma ExplicitModeWins(d1: real, d2: real, m: Mode)
    ensures EmissionFactor(d1, ModeName(m)) == EmissionFactor(d2, ModeName(m))
  {
  }

  /** Without a recognised mode the factor is air's exactly when the distance
      exceeds 1000 km, and road's otherwise (1000 km itself is road). */
  lemma FallbackByDistance(distance: real, mode: string)
    requires mode != "Air" && mode != "Road" && mode != "Sea"
    ensures EmissionFactor(distance, mode) == EmissionFactor(distance, "Air") <==> distance > 1000.0
    ensures distance <= 1000.0 ==> EmissionFactor(distance, mode) == EmissionFactor(distance, "Road")
  {
  }

  // ---------------------------------------------------------------------------
  // Route inputs

  /** A supplier record; `lat`/`lng` are `None` when the record has none, and
      `millLocation`/`country` are empty when missing. `id` is `String(id)`. */
  datatype Supplier = Supplier(id: string, name: string, kind: string, country: string,
                               millLocation: string, lat: Option<real>, lng: Option<real>,
                               woolmark: bool, rws: bool, sustainability: map<string, Value>)

  /** Locations the user chose, each overriding its default. */
  datatype CustomLocations = CustomLocations(primary: Option<Location>, mill: Option<Location>,
                                             production: Option<Location>, warehouse: Option<Location>)

  datatype RouteLocations = RouteLocations(primary: Location, mill: Location,
                                           production: Location, warehouse: Location)

  /** One leg as reported: rounded distance, mode and unrounded emissions. */
  datatype Leg = Leg(title: string, from: string, to: string, distance: int, mode: Mode, emissions: real)

  datatype EmissionsSummary = EmissionsSummary(locations: RouteLocations, legs: seq<Leg>,
                                               totalDistance: int, emissionsKg: real)

  const LABEL_TO_MILL := "Primary Production → Milling"
  const LABEL_TO_CONSTRUCTION := "Milling → Garment Construction"
  const LABEL_TO_CLIENT := "Garment Construction → Ready for Client"

  /** The default origin by material: a case-insensitive substring test in which
      linen wins over silk, silk over cotton, and wool is the fallback. */
  function DefaultPrimary(material: string): Location {
    var m := ToLower(material);
    if Includes(m, "linen") then LINEN_FR
    else if Includes(m, "silk") then SILK_IT
    else if Includes(m, "cotton") then COTTON_AU
    else WOOL_AU
  }

  /** The default origin does not depend on the material's letter case. */
  lemma DefaultPrimaryIgnoresCase(material: string)
    ensures DefaultPrimary(ToLower(material)) == DefaultPrimary(material)
  {
    ToLowerIdempotent(material);
  }

  /** The origin checks run one after the other, each match replacing the last. */
  method ChooseDefaultPrimary(material: string) returns (defaultPrimary: Location)
    ensures defaultPrimary == DefaultPrimary(material)
  {
    defaultPrimary := WOOL_AU;
    if Includes(ToLower(material), "cotton") { defaultPrimary := COTTON_AU; }
    if Includes(ToLower(material), "silk") { defaultPrimary := SILK_IT; }
    if Includes(ToLower(material), "linen") { defaultPrimary := LINEN_FR; }
  }

  /** The mill, when the user chose none: the supplier's position (0 where it
      has none) and its mill location, or its country when that is missing. */
  function MillFromSupplier(s: Supplier): Location {
    Location(s.lat.GetOr(0.0), s.lng.GetOr(0.0),
             if s.millLocation != "" then s.millLocation else s.country, s.country)
  }

  /** The four locations of the route: each custom location, else its default. */
  function ResolveLocations(material: string, supplier: Supplier, custom: CustomLocations): (r: RouteLocations)
    ensures custom.primary.Some? ==> r.primary == custom.primary.value
    ensures custom.primary.None? ==> r.primary == DefaultPrimary(material)
    ensures custom.mill.Some? ==> r.mill == custom.mill.value
    ensures custom.mill.None? ==> r.mill == MillFromSupplier(supplier)
    ensures r.production == custom.production.GetOr(PRODUCTION_CZ)
    ensures r.warehouse == custom.warehouse.GetOr(SYDNEY_WAREHOUSE)
  {
    RouteLocations(custom.primary.GetOr(DefaultPrimary(material)),
                   custom.mill.GetOr(MillFromSupplier(supplier)),
                   custom.production.GetOr(PRODUCTION_CZ),
                   custom.warehouse.GetOr(SYDNEY_WAREHOUSE))
  }

  datatype PlannedLeg = PlannedLeg(from: Location, to: Location, title: string)

  /** The three legs between consecutive locations, with their fixed labels. */
  function Plan(l: RouteLocations): (r: seq<PlannedLeg>)
    ensures |r| == 3
    ensures r[0].from == l.primary && r[2].to == l.warehouse
    ensures forall k :: 0 <= k < 2 ==> r[k].to == r[k + 1].from
  {
    [PlannedLeg(l.primary, l.mill, LABEL_TO_MILL),
     PlannedLeg(l.mill, l.production, LABEL_TO_CONSTRUCTION),
     PlannedLeg(l.production, l.warehouse, LABEL_TO_CLIENT)]
  }

  // ---------------------------------------------------------------------------
  // Country-based mode policy

  /** The country of a leg end: its own, else the last ", "-separated part of its name. */
  function LegCountry(l: Location): string {
    if l.country != "" then l.country else LastSegment(l.name, ", ")
  }

  function NormalisedCountry(l: Location): string {
    ToLower(Trim(LegCountry(l)))
  }

  predicate IsInternational(from: Location, to: Location) {
    NormalisedCountry(from) != NormalisedCountry(to)
  }

  /** Emissions of carrying one suit `d` kilometres at `factor` kg CO2e per tonne-km. */
  function Emitted(d: real, factor: real): real {
    d * SUIT_WEIGHT_TONNES * factor
  }

  /** A leg priced by the country policy: international legs fly at the air
      factor, domestic ones go by road. */
  function PricedLeg(p: PlannedLeg, d: real, international: bool): (r: Leg)
    ensures r.mode == (if international then Air else Road)
  {
    var mode := if international then Air else Road;
    var factor := if international then AIR else ROAD;
    Leg(p.title, p.from.name, p.to.name, MathRound(d), mode, Emitted(d, factor))
  }

  /** A leg's emissions are its unrounded distance times the emission factor of
      its mode, so the two places that price a leg agree; they are never
      negative for a non-negative distance. */
  lemma PricedLegEmissions(p: PlannedLeg, d: real, international: bool, l: Leg)
    requires l == PricedLeg(p, d, international)
    ensures l.emissions == d * EmissionFactor(d, ModeName(l.mode))
    ensures d >= 0.0 ==> l.emissions >= 0.0
  {
  }

  /** One leg of the route builder, between the two ends of a planned leg. */
  function RouteLeg(p: PlannedLeg, dist: DistanceFn): Leg {
    PricedLeg(p, dist(p.from, p.to), IsInternational(p.from, p.to))
  }

  /** A route leg flies exactly when its ends lie in different countries and
      otherwise goes by road, never by sea; it keeps the planned leg's label and
      end names and shows the distance rounded to whole kilometres. */
  lemma RouteLegShape(p: PlannedLeg, dist: DistanceFn)
    ensures RouteLeg(p, dist).mode == Air <==> IsInternational(p.from, p.to)
    ensures RouteLeg(p, dist).mode == Road <==> !IsInternational(p.from, p.to)
    ensures RouteLeg(p, dist).mode != Sea
    ensures RouteLeg(p, dist).from == p.from.name && RouteLeg(p, dist).to == p.to.name
    ensures RouteLeg(p, dist).title == p.title
    ensures RouteLeg(p, dist).distance == MathRound(dist(p.from, p.to))
  {
  }

  /** A route leg's emissions are its distance times the factor of its mode,
      and never negative. */
  lemma RouteLegEmissions(p: PlannedLeg, dist: DistanceFn)
    ensures RouteLeg(p, dist).emissions
            == dist(p.from, p.to) * EmissionFactor(dist(p.from, p.to), ModeName(RouteLeg(p, dist).mode))
    ensures RouteLeg(p, dist).emissions >= 0.0
  {
    PricedLegEmissions(p, dist(p.from, p.to), IsInternational(p.from, p.to), RouteLeg(p, dist));
  }

  /** The legs of a plan, priced one by one. */
  function RouteLegs(plan: seq<PlannedLeg>, dist: DistanceFn): (r: seq<Leg>)
    ensures |r| == |plan|
  {
    if plan == [] then []
    else RouteLegs(plan[..|plan| - 1], dist) + [RouteLeg(plan[|plan| - 1], dist)]
  }

  /** Each priced leg is the route leg of the planned leg at its position. */
  lemma {:induction false} RouteLegsAt(plan: seq<PlannedLeg>, dist: DistanceFn, k: nat)
    requires k < |plan|
    ensures RouteLegs(plan, dist)[k] == RouteLeg(plan[k], dist)
  {
    if k < |plan| - 1 {
      RouteLegsAt(plan[..|plan| - 1], dist, k);
    }
  }

  /** Sum of the unrounded leg distances. */
  function TotalDistance(plan: seq<PlannedLeg>, dist: DistanceFn): (r: real)
    ensures r >= 0.0
  {
    if plan == [] then 0.0
    else TotalDistance(plan[..|plan| - 1], dist) + dist(plan[|plan| - 1].from, plan[|plan| - 1].to)
  }

  /** Sum of the unrounded leg emissions of `calculateRoute`. */
  function TotalEmissions(plan: seq<PlannedLeg>, dist: DistanceFn): real
  {
    if plan == [] then 0.0
    else TotalEmissions(plan[..|plan| - 1], dist) + RouteLeg(plan[|plan| - 1], dist).emissions
  }

  /** The error `calculateRoute` raises: its loop calls a function defined nowhere. */
  const UNDEFINED_DISTANCE := "ReferenceError: getDistanceFromLatLonInKm is not defined"

  /** `calculateRoute` as written: it resolves the locations and plans the legs,
      then the first leg's distance call names an identifier that is bound
      nowhere, so every call ends in a ReferenceError. */
  method CalculateRouteAsWritten(material: string, supplier: Supplier, custom: CustomLocations)
    returns (r: Result<EmissionsSummary, string>)
    ensures r == Failure(UNDEFINED_DISTANCE)
  {
    var defaultPrimary := ChooseDefaultPrimary(material);
    var locations := RouteLocations(custom.primary.GetOr(defaultPrimary),
                                    custom.mill.GetOr(MillFromSupplier(supplier)),
                                    custom.production.GetOr(PRODUCTION_CZ),
                                    custom.warehouse.GetOr(SYDNEY_WAREHOUSE));
    var legs := Plan(locations);
    // First iteration, first statement: the unbound call throws.
    r := Failure(UNDEFINED_DISTANCE);
  }

  /** The loop of `calculateRoute`: prices each planned leg in turn and keeps
      running totals of distance and emissions. */
  method PriceLegs(legs: seq<PlannedLeg>, dist: DistanceFn)
    returns (legDetails: seq<Leg>, totalDistance: real, totalEmissions: real)
    ensures |legDetails| == |legs|
    ensures legDetails == RouteLegs(legs, dist)
    ensures totalDistance == TotalDistance(legs, dist)
    ensures totalEmissions == TotalEmissions(legs, dist)
  {
    totalDistance := 0.0;
    totalEmissions := 0.0;
    legDetails := [];
    for i := 0 to |legs|
      invariant |legDetails| == i
      invariant legDetails == RouteLegs(legs[..i], dist)
      invariant totalDistance == TotalDistance(legs[..i], dist)
      invariant totalEmissions == TotalEmissions(legs[..i], dist)
    {
      var leg := legs[i];
      var d := dist(leg.from, leg.to);
      var international := IsInternational(leg.from, leg.to);
      var detail := PricedLeg(leg, d, international);
      assert detail == RouteLeg(leg, dist);
      PriceStep(legs, i, dist);
      totalDistance := totalDistance + d;
      totalEmissions := totalEmissions + detail.emissions;
      legDetails := legDetails + [detail];
    }
    assert legs[..|legs|] == legs;
  }

  /** One turn of the pricing loop: the priced leg extends the route legs, and
      the running totals grow by its distance and emissions. */
  lemma PriceStep(legs: seq<PlannedLeg>, i: nat, dist: DistanceFn)
    requires i < |legs|
    ensures RouteLegs(legs[..i + 1], dist) == RouteLegs(legs[..i], dist) + [RouteLeg(legs[i], dist)]
    ensures TotalDistance(legs[..i + 1], dist) == TotalDistance(legs[..i], dist) + dist(legs[i].from, legs[i].to)
    ensures TotalEmissions(legs[..i + 1], dist) == TotalEmissions(legs[..i], dist) + RouteLeg(legs[i], dist).emissions
  {
    PrefixStep(legs, i);
  }

  lemma PrefixStep<T>(s: seq<T>, i: nat)
    requires i < |s|
    ensures s[..i + 1][..i] == s[..i] && s[..i + 1][i] == s[i] && |s[..i + 1]| == i + 1
  {
  }

  /** `calculateRoute` with the distance taken from the great-circle distance
      function, as the module's own `haversineDistance` evidently intends. */
  method CalculateRoute(material: string, supplier: Supplier, custom: CustomLocations, dist: DistanceFn)
    returns (r: EmissionsSummary)
    ensures r.locations == ResolveLocations(material, supplier, custom)
    ensures |r.legs| == 3
    ensures r.legs == RouteLegs(Plan(r.locations), dist)
    ensures r.totalDistance == MathRound(TotalDistance(Plan(r.locations), dist))
    ensures r.emissionsKg == TotalEmissions(Plan(r.locations), dist)
  {
    var defaultPrimary := ChooseDefaultPrimary(material);
    var primary := custom.primary.GetOr(defaultPrimary);
    var mill := custom.mill.GetOr(MillFromSupplier(supplier));
    var production := custom.production.GetOr(PRODUCTION_CZ);
    var warehouse := custom.warehouse.GetOr(SYDNEY_WAREHOUSE);
    var locations := RouteLocations(primary, mill, production, warehouse);
    var legs := Plan(locations);
    var legDetails, totalDistance, totalEmissions := PriceLegs(legs, dist);
    r := EmissionsSummary(locations, legDetails, MathRound(totalDistance), totalEmissions);
  }

  /** The legs of a route between four locations: consecutive legs share their
      end points, the route runs from the origin to the warehouse under the
      three fixed labels, and each leg flies exactly when its ends lie in
      different countries. */
  lemma RouteLegsChain(l: RouteLocations, dist: DistanceFn)
    ensures |RouteLegs(Plan(l), dist)| == 3
    ensures forall k :: 0 <= k < 2 ==> RouteLegs(Plan(l), dist)[k].to == RouteLegs(Plan(l), dist)[k + 1].from
    ensures RouteLegs(Plan(l), dist)[0].from == l.primary.name
    ensures RouteLegs(Plan(l), dist)[2].to == l.warehouse.name
    ensures RouteLegs(Plan(l), dist)[0].title == LABEL_TO_MILL
    ensures RouteLegs(Plan(l), dist)[1].title == LABEL_TO_CONSTRUCTION
    ensures RouteLegs(Plan(l), dist)[2].title == LABEL_TO_CLIENT
    ensures RouteLegs(Plan(l), dist)[0].mode == Air <==> IsInternational(l.primary, l.mill)
    ensures RouteLegs(Plan(l), dist)[1].mode == Air <==> IsInternational(l.mill, l.production)
    ensures RouteLegs(Plan(l), dist)[2].mode == Air <==> IsInternational(l.production, l.warehouse)
    ensures forall k :: 0 <= k < 3 ==> RouteLegs(Plan(l), dist)[k].mode != Sea
  {
    var plan := Plan(l);
    var legs := RouteLegs(plan, dist);
    RouteLegsAt(plan, dist, 0);
    RouteLegsAt(plan, dist, 1);
    RouteLegsAt(plan, dist, 2);
    RouteLegShape(plan[0], dist);
    RouteLegShape(plan[1], dist);
    RouteLegShape(plan[2], dist);
  }
}
