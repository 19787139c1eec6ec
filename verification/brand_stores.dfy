/** The store drawer and brand form of the brand management page
    (src/pages/BrandManagement.tsx): the client-side store filter
    `filterStores`, the filter-state handlers fed by the region selector and
    the search box, and the province/city field clearing of the brand form.

    `filterStores` computes a filtered list, but the drawer's table renders
    the unfiltered store list; the model states what the function computes
    and nothing about the table. */
module BrandStores {
  import opened Js
  import opened Seqs
  import opened Text
  import RegionSelector

  datatype Named = Named(id: string, name: string)

  datatype BrandStore = BrandStore(
    id: string,
    brand: Named,
    mall: Named,
    province: Named,
    city: Named,
    district: Option<Named>,
    storeName: Option<string>,
    storeAddress: Option<string>)

  /** The drawer's filter state. */
  datatype StoreFilters = StoreFilters(
    provinceId: Option<string>,
    cityId: Option<string>,
    districtId: Option<string>,
    search: string)

  const EmptyFilters: StoreFilters := StoreFilters(None, None, None, "")

  // ---------------------------------------------------------------------
  // filterStores

  /** `s?.toLowerCase().includes(q)` on an optional field: an absent field
      never matches. */
  predicate FieldIncludes(s: Option<string>, q: string, lower: string -> string) {
    s.Some? && Includes(lower(s.value), q)
  }

  /** The text test: the lowercased query occurs in the lowercased mall
      name, store name or store address. */
  predicate TextMatches(s: BrandStore, search: string, lower: string -> string) {
    var q := lower(search);
    Includes(lower(s.mall.name), q) || FieldIncludes(s.storeName, q, lower) || FieldIncludes(s.storeAddress, q, lower)
  }

  /** A store passes the filters: every set region id is matched exactly (a
      set district excludes stores with no district) and a non-empty search
      is matched as text; unset fields impose nothing. */
  predicate StoreMatches(f: StoreFilters, lower: string -> string, s: BrandStore) {
    && (Truthy(f.provinceId) ==> s.province.id == f.provinceId.value)
    && (Truthy(f.cityId) ==> s.city.id == f.cityId.value)
    && (Truthy(f.districtId) ==> s.district.Some? && s.district.value.id == f.districtId.value)
    && (f.search != "" ==> TextMatches(s, f.search, lower))
  }

  function ProvinceIs(id: string): BrandStore -> bool {
    (s: BrandStore) => s.province.id == id
  }

  function CityIs(id: string): BrandStore -> bool {
    (s: BrandStore) => s.city.id == id
  }

  /** `store.district?._id === id`. */
  function DistrictIs(id: string): BrandStore -> bool {
    (s: BrandStore) => s.district.Some? && s.district.value.id == id
  }

  function TextIs(search: string, lower: string -> string): BrandStore -> bool {
    (s: BrandStore) => TextMatches(s, search, lower)
  }

  /** `filterStores`, step by step as written: one guarded filter per
      filter field. `lower` stands for `toLowerCase`. */
  function FilterStores(stores: seq<BrandStore>, f: StoreFilters, lower: string -> string): seq<BrandStore> {
    var byProvince := if Truthy(f.provinceId) then Filter(stores, ProvinceIs(f.provinceId.value)) else stores;
    var byCity := if Truthy(f.cityId) then Filter(byProvince, CityIs(f.cityId.value)) else byProvince;
    var byDistrict := if Truthy(f.districtId) then Filter(byCity, DistrictIs(f.districtId.value)) else byCity;
    if f.search != "" then Filter(byDistrict, TextIs(f.search, lower)) else byDistrict
  }

  // The per-field tests with their guards folded in.

  function ProvinceTest(f: StoreFilters): BrandStore -> bool {
    (s: BrandStore) => Truthy(f.provinceId) ==> s.province.id == f.provinceId.value
  }

  function CityTest(f: StoreFilters): BrandStore -> bool {
    (s: BrandStore) => Truthy(f.cityId) ==> s.city.id == f.cityId.value
  }

  function DistrictTest(f: StoreFilters): BrandStore -> bool {
    (s: BrandStore) => Truthy(f.districtId) ==> s.district.Some? && s.district.value.id == f.districtId.value
  }

  function SearchTest(f: StoreFilters, lower: string -> string): BrandStore -> bool {
    (s: BrandStore) => f.search != "" ==> TextMatches(s, f.search, lower)
  }

  function Matching(f: StoreFilters, lower: string -> string): BrandStore -> bool {
    (s: BrandStore) => StoreMatches(f, lower, s)
  }

  lemma ProvinceStep(xs: seq<BrandStore>, f: StoreFilters)
    ensures (if Truthy(f.provinceId) then Filter(xs, ProvinceIs(f.provinceId.value)) else xs)
         == Filter(xs, ProvinceTest(f))
  {
    GuardedFilter(xs, Truthy(f.provinceId), ProvinceIs(f.provinceId.GetOr("")), ProvinceTest(f));
  }

  lemma CityStep(xs: seq<BrandStore>, f: StoreFilters)
    ensures (if Truthy(f.cityId) then Filter(xs, CityIs(f.cityId.value)) else xs) == Filter(xs, CityTest(f))
  {
    GuardedFilter(xs, Truthy(f.cityId), CityIs(f.cityId.GetOr("")), CityTest(f));
  }

  lemma DistrictStep(xs: seq<BrandStore>, f: StoreFilters)
    ensures (if Truthy(f.districtId) then Filter(xs, DistrictIs(f.districtId.value)) else xs)
         == Filter(xs, DistrictTest(f))
  {
    GuardedFilter(xs, Truthy(f.districtId), DistrictIs(f.districtId.GetOr("")), DistrictTest(f));
  }

  lemma SearchStep(xs: seq<BrandStore>, f: StoreFilters, lower: string -> string)
    ensures (if f.search != "" then Filter(xs, TextIs(f.search, lower)) else xs) == Filter(xs, SearchTest(f, lower))
  {
    GuardedFilter(xs, f.search != "", TextIs(f.search, lower), SearchTest(f, lower));
  }

  lemma ConjunctionIsMatching(xs: seq<BrandStore>, f: StoreFilters, lower: string -> string)
    ensures Filter(xs, And(And(And(ProvinceTest(f), CityTest(f)), DistrictTest(f)), SearchTest(f, lower)))
         == Filter(xs, Matching(f, lower))
  {
    FilterExtensional(xs, And(And(And(ProvinceTest(f), CityTest(f)), DistrictTest(f)), SearchTest(f, lower)),
      Matching(f, lower));
  }

  /** The four guarded steps are one filter on the conjunction of the
      per-field tests. */
  lemma FilterStoresIsOneFilter(stores: seq<BrandStore>, f: StoreFilters, lower: string -> string)
    ensures FilterStores(stores, f, lower) == Filter(stores, Matching(f, lower))
  {
    var t1, t2, t3, t4 := ProvinceTest(f), CityTest(f), DistrictTest(f), SearchTest(f, lower);
    var a := if Truthy(f.provinceId) then Filter(stores, ProvinceIs(f.provinceId.value)) else stores;
    ProvinceStep(stores, f);
    var b := if Truthy(f.cityId) then Filter(a, CityIs(f.cityId.value)) else a;
    CityStep(a, f);
    var c := if Truthy(f.districtId) then Filter(b, DistrictIs(f.districtId.value)) else b;
    DistrictStep(b, f);
    var d := if f.search != "" then Filter(c, TextIs(f.search, lower)) else c;
    SearchStep(c, f, lower);
    assert FilterStores(stores, f, lower) == d;
    FilterFilter(stores, t1, t2);
    FilterFilter(stores, And(t1, t2), t3);
    FilterFilter(stores, And(And(t1, t2), t3), t4);
    ConjunctionIsMatching(stores, f, lower);
  }

  /** What `filterStores` computes: an order-preserving subsequence of the
      stores holding exactly the stores that pass the filters, each as often
      as in the input. */
  lemma FilterStoresSpec(stores: seq<BrandStore>, f: StoreFilters, lower: string -> string)
    ensures SubsequenceOf(FilterStores(stores, f, lower), stores)
    ensures forall s :: s in FilterStores(stores, f, lower) <==> s in stores && StoreMatches(f, lower, s)
    ensures forall s :: multiset(FilterStores(stores, f, lower))[s] ==
                         if StoreMatches(f, lower, s) then multiset(stores)[s] else 0
  {
    var p := Matching(f, lower);
    FilterStoresIsOneFilter(stores, f, lower);
    FilterIsSubsequence(stores, p);
    forall s
      ensures s in FilterStores(stores, f, lower) <==> s in stores && StoreMatches(f, lower, s)
      ensures multiset(FilterStores(stores, f, lower))[s] ==
        if StoreMatches(f, lower, s) then multiset(stores)[s] else 0
    {
      FilterMembership(stores, p, s);
      FilterMultiset(stores, p, s);
    }
  }

  /** With no filter set the list comes back unchanged. */
  lemma EmptyFiltersKeepAll(stores: seq<BrandStore>, lower: string -> string)
    ensures FilterStores(stores, EmptyFilters, lower) == stores
  {
  }

  // ---------------------------------------------------------------------
  // Filter-state handlers

  /** The object a `{...filters, ...value}` spread merges in: each region
      key may be supplied (possibly with `undefined`) or absent. */
  datatype RegionPatch = RegionPatch(
    provinceId: Option<Option<string>>,
    cityId: Option<Option<string>>,
    districtId: Option<Option<string>>)

  /** The region selector always emits all three keys. */
  function PatchOf(s: RegionSelector.Selection): RegionPatch {
    RegionPatch(Some(s.provinceId), Some(s.cityId), Some(s.districtId))
  }

  /** The parameters of the store request: the current brand plus the
      filters, spread as they are. */
  datatype StoreQuery = StoreQuery(brand: Option<string>, filters: StoreFilters)

  /** `handleRegionChange`: the supplied region keys overwrite, the others
      and the search text stay; the request is issued with the new filters
      immediately. */
  function HandleRegionChange(f: StoreFilters, patch: RegionPatch, currentBrand: Option<string>)
    : (r: (StoreFilters, StoreQuery))
    ensures patch.provinceId.Some? ==> r.0.provinceId == patch.provinceId.value
    ensures patch.provinceId.None? ==> r.0.provinceId == f.provinceId
    ensures patch.cityId.Some? ==> r.0.cityId == patch.cityId.value
    ensures patch.cityId.None? ==> r.0.cityId == f.cityId
    ensures patch.districtId.Some? ==> r.0.districtId == patch.districtId.value
    ensures patch.districtId.None? ==> r.0.districtId == f.districtId
    ensures r.0.search == f.search
    ensures r.1 == StoreQuery(currentBrand, r.0)
  {
    var merged := StoreFilters(
      patch.provinceId.GetOr(f.provinceId),
      patch.cityId.GetOr(f.cityId),
      patch.districtId.GetOr(f.districtId),
      f.search);
    (merged, StoreQuery(currentBrand, merged))
  }

  /** A selection emitted by the region selector replaces the three region
      fields and keeps the search; a province pick therefore clears city and
      district in the filters too. */
  lemma RegionSelectionReplacesRegion(f: StoreFilters, v: RegionSelector.Selection,
                                      p: Option<string>, brand: Option<string>)
    ensures var r := HandleRegionChange(f, PatchOf(v), brand).0;
      r.provinceId == v.provinceId && r.cityId == v.cityId && r.districtId == v.districtId && r.search == f.search
    ensures var r := HandleRegionChange(f, PatchOf(RegionSelector.OnProvinceChange(v, p)), brand).0;
      r.provinceId == p && r.cityId.None? && r.districtId.None? && r.search == f.search
  {
  }

  /** `handleSearchChange`: only the search text changes. */
  function HandleSearchChange(f: StoreFilters, text: string): (r: StoreFilters)
    ensures r.search == text
    ensures r.provinceId == f.provinceId && r.cityId == f.cityId && r.districtId == f.districtId
  {
    f.(search := text)
  }

  /** A search text narrows what the region filters let through to the
      stores whose mall name, store name or address contains it; clearing
      it brings back everything the region filters pass. */
  lemma SearchChangeNarrowsByText(stores: seq<BrandStore>, f: StoreFilters, text: string,
                                  lower: string -> string)
    requires text != ""
    ensures forall s :: s in FilterStores(stores, HandleSearchChange(f, text), lower) <==>
      s in FilterStores(stores, HandleSearchChange(f, ""), lower) && TextMatches(s, text, lower)
  {
    FilterStoresSpec(stores, HandleSearchChange(f, text), lower);
    FilterStoresSpec(stores, HandleSearchChange(f, ""), lower);
  }

  /** `resetFilters`: every id unset and the search empty, whatever came
      before; the result filters nothing out. */
  function ResetFilters(f: StoreFilters): (r: StoreFilters)
    ensures r.provinceId.None? && r.cityId.None? && r.districtId.None? && r.search == ""
    ensures forall lower: string -> string, s :: StoreMatches(r, lower, s)
  {
    EmptyFilters
  }

  /** `fetchBrandStores` as it settles: a resolved request replaces the store
      list (a missing list reads as empty); a failed one keeps the old list. */
  function StoresFetched(current: seq<BrandStore>, outcome: Outcome<Option<seq<BrandStore>>>)
    : (r: seq<BrandStore>)
    ensures outcome.Ok? ==> r == OrEmpty(outcome.value)
    ensures outcome.Failed? ==> r == current
  {
    match outcome
    case Ok(stores) => OrEmpty(stores)
    case Failed => current
  }

  /** After a resolved fetch and a reset, the computed list is every fetched
      store; a failure settling afterwards keeps the fetched list. */
  lemma FetchedThenResetShowsAll(current: seq<BrandStore>, fetched: Option<seq<BrandStore>>,
                                 f: StoreFilters, lower: string -> string)
    ensures FilterStores(StoresFetched(current, Ok(fetched)), ResetFilters(f), lower) == OrEmpty(fetched)
    ensures StoresFetched(StoresFetched(current, Ok(fetched)), Failed) == OrEmpty(fetched)
  {
    EmptyFiltersKeepAll(OrEmpty(fetched), lower);
  }

  // ---------------------------------------------------------------------
  // Brand form: province and city fields

  /** The region fields of the brand form and the option lists behind them. */
  datatype BrandForm = BrandForm(
    province: Option<string>,
    city: Option<string>,
    district: Option<string>,
    cities: seq<RegionSelector.Region>,
    districts: seq<RegionSelector.Region>)

  /** `handleProvinceChange` of the form (the province field itself is bound
      to the select): city and district are cleared; a chosen province loads
      its cities (a failed load only shows an error), while clearing the
      province empties both option lists. */
  function FormProvinceChange(form: BrandForm, provinceId: Option<string>,
                              outcome: Outcome<seq<RegionSelector.Region>>): (r: BrandForm)
    ensures r.province == provinceId && r.city.None? && r.district.None?
    ensures !Truthy(provinceId) ==> r.cities == [] && r.districts == []
    ensures Truthy(provinceId) && outcome.Ok? ==> r.cities == outcome.value
    ensures Truthy(provinceId) && outcome.Failed? ==> r.cities == form.cities
    ensures Truthy(provinceId) ==> r.districts == form.districts
  {
    var cleared := form.(province := provinceId, city := None, district := None);
    if Truthy(provinceId) then
      (match outcome
       case Ok(cs) => cleared.(cities := cs)
       case Failed => cleared)
    else cleared.(cities := [], districts := [])
  }

  /** `handleCityChange` of the form: the district is cleared; a chosen city
      loads its districts, clearing the city empties the district list. */
  function FormCityChange(form: BrandForm, cityId: Option<string>,
                          outcome: Outcome<seq<RegionSelector.Region>>): (r: BrandForm)
    ensures r.province == form.province && r.city == cityId && r.district.None?
    ensures r.cities == form.cities
    ensures !Truthy(cityId) ==> r.districts == []
    ensures Truthy(cityId) && outcome.Ok? ==> r.districts == outcome.value
    ensures Truthy(cityId) && outcome.Failed? ==> r.districts == form.districts
  {
    var cleared := form.(city := cityId, district := None);
    if Truthy(cityId) then
      (match outcome
       case Ok(ds) => cleared.(districts := ds)
       case Failed => cleared)
    else cleared.(districts := [])
  }

  /** No form field is set without the field above it. */
  predicate FieldsCascaded(form: BrandForm) {
    && (Truthy(form.city) ==> Truthy(form.province))
    && (Truthy(form.district) ==> Truthy(form.city))
  }

  /** The form handlers keep the fields cascaded, the city handler when it
      is used with a province chosen; clearing the province and then the
      city leaves no option to choose from. */
  lemma FormHandlersKeepCascade(form: BrandForm, id: Option<string>,
                                o1: Outcome<seq<RegionSelector.Region>>, o2: Outcome<seq<RegionSelector.Region>>)
    requires FieldsCascaded(form)
    ensures FieldsCascaded(FormProvinceChange(form, id, o1))
    ensures Truthy(form.province) ==> FieldsCascaded(FormCityChange(form, id, o2))
    ensures var r := FormCityChange(FormProvinceChange(form, None, o1), None, o2);
      r.cities == [] && r.districts == [] && r.province.None? && r.city.None? && r.district.None?
  {
  }

  /** The cities a province loaded stay the city options while a city is
      chosen, and that city's districts become the district options. */
  lemma ProvinceThenCityLoads(form: BrandForm, provinceId: string, cityId: string,
                              cs: seq<RegionSelector.Region>, ds: seq<RegionSelector.Region>)
    requires provinceId != "" && cityId != ""
    ensures var r := FormCityChange(FormProvinceChange(form, Some(provinceId), Ok(cs)), Some(cityId), Ok(ds));
      r.province == Some(provinceId) && r.city == Some(cityId) && r.district.None?
      && r.cities == cs && r.districts == ds
  {
  }
}
