/** The search panel of the district page (src/pages/DistrictManagement.tsx):
    the client-side district filter and the province select that narrows the
    city select. */
module Districts {
  import opened Js
  import opened Seqs
  import opened Text

  datatype Named = Named(id: string, name: string)

  datatype District = District(id: string, name: string, city: Named, province: Named)

  /** A city's province as the city endpoint sends it: an id string, an
      object with (perhaps) an `_id`, or nothing. */
  datatype ProvinceField = ProvinceIdString(id: string) | ProvinceObject(oid: Option<string>) | NoProvince

  datatype CityOption = CityOption(id: string, name: string, province: ProvinceField)

  /** The search panel state. */
  datatype SearchPanel = SearchPanel(
    search: string,
    selectedCityId: Option<string>,
    selectedProvinceId: Option<string>,
    allCities: seq<CityOption>,
    filteredCities: seq<CityOption>)

  // ---------------------------------------------------------------------
  // filteredDistricts

  /** A district is shown when its name contains the search text
      (case-insensitively) or the search is empty, and it lies in the
      selected city and province, or none is selected. */
  predicate DistrictMatches(p: SearchPanel, lower: string -> string, d: District) {
    && (p.search == "" || Includes(lower(d.name), lower(p.search)))
    && (!Truthy(p.selectedCityId) || d.city.id == p.selectedCityId.value)
    && (!Truthy(p.selectedProvinceId) || d.province.id == p.selectedProvinceId.value)
  }

  function Shown(p: SearchPanel, lower: string -> string): District -> bool {
    (d: District) => DistrictMatches(p, lower, d)
  }

  /** The memoised `filteredDistricts`. `lower` stands for `toLowerCase`. */
  function FilteredDistricts(ds: seq<District>, p: SearchPanel, lower: string -> string): seq<District> {
    Filter(ds, Shown(p, lower))
  }

  /** The visible districts are an order-preserving subsequence of the
      loaded ones, holding exactly the loaded districts that match, each as
      often as it was loaded. */
  lemma FilteredDistrictsSpec(ds: seq<District>, p: SearchPanel, lower: string -> string)
    ensures SubsequenceOf(FilteredDistricts(ds, p, lower), ds)
    ensures forall d :: d in FilteredDistricts(ds, p, lower) <==> d in ds && DistrictMatches(p, lower, d)
    ensures forall d :: multiset(FilteredDistricts(ds, p, lower))[d] ==
                         if DistrictMatches(p, lower, d) then multiset(ds)[d] else 0
  {
    FilterIsSubsequence(ds, Shown(p, lower));
    forall d
      ensures d in FilteredDistricts(ds, p, lower) <==> d in ds && DistrictMatches(p, lower, d)
      ensures multiset(FilteredDistricts(ds, p, lower))[d] ==
                if DistrictMatches(p, lower, d) then multiset(ds)[d] else 0
    {
      FilterMembership(ds, Shown(p, lower), d);
      FilterMultiset(ds, Shown(p, lower), d);
    }
  }

  /** With an empty search and nothing selected every district is shown,
      in order. */
  lemma NoCriteriaShowsAll(ds: seq<District>, p: SearchPanel, lower: string -> string)
    requires p.search == "" && !Truthy(p.selectedCityId) && !Truthy(p.selectedProvinceId)
    ensures FilteredDistricts(ds, p, lower) == ds
  {
    FilterAllAccepted(ds, Shown(p, lower));
  }

  // ---------------------------------------------------------------------
  // Province select

  /** The province id of a city: the string itself, or the object's `_id`. */
  function CityProvinceId(c: CityOption): Option<string> {
    match c.province
    case ProvinceIdString(id) => Some(id)
    case ProvinceObject(oid) => oid
    case NoProvince => None
  }

  function InProvince(provinceId: string): CityOption -> bool {
    (c: CityOption) => CityProvinceId(c) == Some(provinceId)
  }

  /** `handleProvinceSelectChange`: the province is stored and the city
      selection cleared in every case; a chosen province narrows the city
      options to its cities, no province restores the full list. */
  function HandleProvinceSelectChange(p: SearchPanel, provinceId: Option<string>): (r: SearchPanel)
    ensures r.selectedProvinceId == provinceId && r.selectedCityId.None?
    ensures r.search == p.search && r.allCities == p.allCities
    ensures !Truthy(provinceId) ==> r.filteredCities == p.allCities
  {
    var narrowed := if Truthy(provinceId) then Filter(p.allCities, InProvince(provinceId.value)) else p.allCities;
    p.(selectedProvinceId := provinceId, selectedCityId := None, filteredCities := narrowed)
  }

  /** With a province chosen, the city options are exactly the cities whose
      province (as a string or as an object's id) is that province, in their
      original order, each as often as in the full list. */
  lemma ProvinceSelectNarrowsCities(p: SearchPanel, provinceId: string)
    requires provinceId != ""
    ensures var r := HandleProvinceSelectChange(p, Some(provinceId));
      && SubsequenceOf(r.filteredCities, p.allCities)
      && (forall c :: c in r.filteredCities <==> c in p.allCities && CityProvinceId(c) == Some(provinceId))
      && (forall c :: multiset(r.filteredCities)[c] ==
            if CityProvinceId(c) == Some(provinceId) then multiset(p.allCities)[c] else 0)
  {
    FilterIsSubsequence(p.allCities, InProvince(provinceId));
    forall c
      ensures c in HandleProvinceSelectChange(p, Some(provinceId)).filteredCities
              <==> c in p.allCities && CityProvinceId(c) == Some(provinceId)
      ensures multiset(HandleProvinceSelectChange(p, Some(provinceId)).filteredCities)[c] ==
                if CityProvinceId(c) == Some(provinceId) then multiset(p.allCities)[c] else 0
    {
      FilterMembership(p.allCities, InProvince(provinceId), c);
      FilterMultiset(p.allCities, InProvince(provinceId), c);
    }
  }

  /** Choosing a province and then clearing it brings back every city and
      leaves no city selected. */
  lemma ClearingProvinceRestoresCities(p: SearchPanel, provinceId: Option<string>)
    ensures var r := HandleProvinceSelectChange(HandleProvinceSelectChange(p, provinceId), None);
      r.filteredCities == p.allCities && r.selectedCityId.None? && r.selectedProvinceId.None?
  {
  }

  /** `fetchAllCities` as it settles: a resolved request sets both the full
      and the shown city lists; a failure leaves both. */
  function AllCitiesLoaded(p: SearchPanel, outcome: Outcome<seq<CityOption>>): (r: SearchPanel)
    ensures outcome.Ok? ==> r.allCities == outcome.value && r.filteredCities == outcome.value
    ensures outcome.Failed? ==> r == p
    ensures r.search == p.search && r.selectedCityId == p.selectedCityId
    ensures r.selectedProvinceId == p.selectedProvinceId
  {
    match outcome
    case Ok(cs) => p.(allCities := cs, filteredCities := cs)
    case Failed => p
  }

  /** A loaded city list is what the province select works on: clearing the
      province shows all of it, and choosing one shows exactly the loaded
      cities of that province, each as often as loaded. */
  lemma LoadedCitiesFeedProvinceSelect(p: SearchPanel, cs: seq<CityOption>, provinceId: string)
    requires provinceId != ""
    ensures HandleProvinceSelectChange(AllCitiesLoaded(p, Ok(cs)), None).filteredCities == cs
    ensures var r := HandleProvinceSelectChange(AllCitiesLoaded(p, Ok(cs)), Some(provinceId));
      && (forall c :: c in r.filteredCities <==> c in cs && CityProvinceId(c) == Some(provinceId))
      && (forall c :: multiset(r.filteredCities)[c] ==
            if CityProvinceId(c) == Some(provinceId) then multiset(cs)[c] else 0)
  {
    ProvinceSelectNarrowsCities(AllCitiesLoaded(p, Ok(cs)), provinceId);
  }
}
