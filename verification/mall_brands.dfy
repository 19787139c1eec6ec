/** The mall list of the mall-brand page (src/pages/MallBrandManagement.tsx):
    its filter state and cascading region handlers, the parameters of the
    mall request, the location column and the effect of deleting a mall on
    the selected mall. */
module MallBrands {
  import opened Js
  import opened Text
  import RegionSelector

  datatype MallFilters = MallFilters(
    search: string,
    provinceId: Option<string>,
    cityId: Option<string>,
    districtId: Option<string>)

  const EmptyMallFilters: MallFilters := MallFilters("", None, None, None)

  /** The filter state together with the city and district option lists
      the filter selects show. */
  datatype FilterPanel = FilterPanel(
    filters: MallFilters,
    cities: seq<RegionSelector.Region>,
    districts: seq<RegionSelector.Region>)

  /** `fetchCities` / `fetchDistricts` after the list was emptied: a
      resolved request with `success` fills it, anything else leaves it
      empty. */
  function LoadInto(outcome: Outcome<seq<RegionSelector.Region>>): (r: seq<RegionSelector.Region>)
    ensures outcome.Ok? ==> r == outcome.value
    ensures outcome.Failed? ==> r == []
  {
    match outcome
    case Ok(xs) => xs
    case Failed => []
  }

  /** `handleProvinceChange`: the province is set, city and district are
      cleared, the search stays; both option lists are emptied and a chosen
      province then loads its cities. */
  function HandleProvinceChange(p: FilterPanel, value: Option<string>,
                                outcome: Outcome<seq<RegionSelector.Region>>): (r: FilterPanel)
    ensures r.filters == MallFilters(p.filters.search, value, None, None)
    ensures r.districts == []
    ensures !Truthy(value) ==> r.cities == []
    ensures Truthy(value) ==> r.cities == LoadInto(outcome)
  {
    var filters := p.filters.(provinceId := value, cityId := None, districtId := None);
    FilterPanel(filters, if Truthy(value) then LoadInto(outcome) else [], [])
  }

  /** `handleCityChange`: the city is set and the district cleared, province
      and search stay; the district list is emptied and a chosen city then
      loads its districts; the city list is untouched. */
  function HandleCityChange(p: FilterPanel, value: Option<string>,
                            outcome: Outcome<seq<RegionSelector.Region>>): (r: FilterPanel)
    ensures r.filters == MallFilters(p.filters.search, p.filters.provinceId, value, None)
    ensures r.cities == p.cities
    ensures !Truthy(value) ==> r.districts == []
    ensures Truthy(value) ==> r.districts == LoadInto(outcome)
  {
    var filters := p.filters.(cityId := value, districtId := None);
    FilterPanel(filters, p.cities, if Truthy(value) then LoadInto(outcome) else [])
  }

  /** `handleDistrictChange`: only the district changes. */
  function HandleDistrictChange(p: FilterPanel, value: Option<string>): (r: FilterPanel)
    ensures r.filters.districtId == value
    ensures r.filters.search == p.filters.search
    ensures r.filters.provinceId == p.filters.provinceId && r.filters.cityId == p.filters.cityId
    ensures r.cities == p.cities && r.districts == p.districts
  {
    p.(filters := p.filters.(districtId := value))
  }

  /** `resetMallFilters`: everything back to empty, whatever came before. */
  function ResetMallFilters(p: FilterPanel): (r: FilterPanel)
    ensures r.filters.search == "" && r.filters.provinceId.None?
    ensures r.filters.cityId.None? && r.filters.districtId.None?
    ensures r.cities == [] && r.districts == []
  {
    FilterPanel(EmptyMallFilters, [], [])
  }

  /** Along the handlers a set district always sits under a set city, and a
      set city under a set province, when each select is used only while
      its parent is set (as the page's selects are). */
  predicate Cascaded(f: MallFilters) {
    && (Truthy(f.cityId) ==> Truthy(f.provinceId))
    && (Truthy(f.districtId) ==> Truthy(f.cityId))
  }

  lemma HandlersKeepCascade(p: FilterPanel, value: Option<string>,
                            outcome: Outcome<seq<RegionSelector.Region>>)
    requires Cascaded(p.filters)
    ensures Cascaded(HandleProvinceChange(p, value, outcome).filters)
    ensures Truthy(p.filters.provinceId) ==> Cascaded(HandleCityChange(p, value, outcome).filters)
    ensures Truthy(p.filters.cityId) ==> Cascaded(HandleDistrictChange(p, value).filters)
    ensures Cascaded(ResetMallFilters(p).filters)
  {
  }

  // ---------------------------------------------------------------------
  // The mall request

  datatype MallQuery = MallQuery(
    page: int,
    limit: int,
    search: Option<string>,
    provinceId: Option<string>,
    cityId: Option<string>,
    districtId: Option<string>)

  /** The parameters `fetchMalls` sends: page and limit always, each filter
      only when it is non-empty (`|| undefined`). */
  function MallQueryParams(page: int, pageSize: int, f: MallFilters): (q: MallQuery)
    ensures q.page == page && q.limit == pageSize
    ensures q.search.Some? <==> f.search != ""
    ensures q.search.Some? ==> q.search.value == f.search
    ensures q.provinceId.Some? <==> Truthy(f.provinceId)
    ensures q.cityId.Some? <==> Truthy(f.cityId)
    ensures q.districtId.Some? <==> Truthy(f.districtId)
    ensures q.provinceId.Some? ==> q.provinceId == f.provinceId
    ensures q.cityId.Some? ==> q.cityId == f.cityId
    ensures q.districtId.Some? ==> q.districtId == f.districtId
  {
    MallQuery(page, pageSize, StringOrUndefined(f.search),
      OrUndefined(f.provinceId), OrUndefined(f.cityId), OrUndefined(f.districtId))
  }

  /** Two filter states that differ only in '' versus undefined send the
      same request, and a request never carries an empty string. */
  lemma EquivalentFiltersSameQuery(page: int, pageSize: int, f: MallFilters, g: MallFilters)
    requires f.search == g.search
    requires Truthy(f.provinceId) == Truthy(g.provinceId) && (Truthy(f.provinceId) ==> f.provinceId == g.provinceId)
    requires Truthy(f.cityId) == Truthy(g.cityId) && (Truthy(f.cityId) ==> f.cityId == g.cityId)
    requires Truthy(f.districtId) == Truthy(g.districtId) && (Truthy(f.districtId) ==> f.districtId == g.districtId)
    ensures MallQueryParams(page, pageSize, f) == MallQueryParams(page, pageSize, g)
    ensures var q := MallQueryParams(page, pageSize, f);
      q.search != Some("") && q.provinceId != Some("") && q.cityId != Some("") && q.districtId != Some("")
  {
  }

  // ---------------------------------------------------------------------
  // Location column

  datatype NamedRef = NamedRef(id: string, name: string)

  datatype Mall = Mall(
    id: string,
    name: string,
    province: Option<NamedRef>,
    city: Option<NamedRef>,
    district: Option<NamedRef>)

  /** The names of the levels the mall carries, province first. */
  function LocationParts(m: Mall): (parts: seq<string>)
    ensures |parts| <= 3
  {
    (if m.province.Some? then [m.province.value.name] else [])
    + (if m.city.Some? then [m.city.value.name] else [])
    + (if m.district.Some? then [m.district.value.name] else [])
  }

  /** The location cell: the present level names joined with " / ". */
  function LocationLabel(m: Mall): (loc: string)
    ensures m.province.None? && m.city.None? && m.district.None? ==> loc == ""
    ensures m.province.Some? && m.city.None? && m.district.None? ==> loc == m.province.value.name
    ensures m.province.None? && m.city.Some? && m.district.None? ==> loc == m.city.value.name
    ensures m.province.None? && m.city.None? && m.district.Some? ==> loc == m.district.value.name
  {
    Join(LocationParts(m), " / ")
  }

  /** With two or three levels present, the names appear in province, city,
      district order with " / " between them; an absent level leaves no
      trace. */
  lemma LocationLabelOrder(m: Mall)
    ensures m.province.Some? && m.city.Some? && m.district.Some? ==>
      LocationLabel(m) == m.province.value.name + " / " + m.city.value.name + " / " + m.district.value.name
    ensures m.province.Some? && m.city.Some? && m.district.None? ==>
      LocationLabel(m) == m.province.value.name + " / " + m.city.value.name
    ensures m.province.Some? && m.city.None? && m.district.Some? ==>
      LocationLabel(m) == m.province.value.name + " / " + m.district.value.name
    ensures m.province.None? && m.city.Some? && m.district.Some? ==>
      LocationLabel(m) == m.city.value.name + " / " + m.district.value.name
  {
    var parts := LocationParts(m);
    if |parts| == 2 {
      assert parts[1..] == [parts[1]];
    } else if |parts| == 3 {
      var rest := parts[1..];
      assert rest == [parts[1], parts[2]];
      assert rest[1..] == [parts[2]];
      assert Join(rest, " / ") == parts[1] + " / " + parts[2];
      assert Join(parts, " / ") == parts[0] + " / " + (parts[1] + " / " + parts[2]);
    }
  }

  /** The label holds each present name once and a " / " between
      neighbours: its length is fixed by the names alone. */
  lemma LocationLabelLength(m: Mall)
    requires m.province.Some? || m.city.Some? || m.district.Some?
    ensures |LocationLabel(m)| == TotalLength(LocationParts(m)) + 3 * (|LocationParts(m)| - 1)
  {
    JoinLength(LocationParts(m), " / ");
  }

  // ---------------------------------------------------------------------
  // Deleting a mall

  datatype MallBrand = MallBrand(id: string, name: string)

  /** The mall opened in the brands tab and the brands loaded for it. */
  datatype SelectedMall = SelectedMall(selected: Option<Mall>, brands: seq<MallBrand>)

  /** `handleDelete` once the delete request settles: when it succeeded and
      the deleted mall is the selected one, the selection and its brand list
      are cleared; otherwise both stay. The outcome carries the response's
      `success` flag. */
  function HandleDelete(s: SelectedMall, id: string, outcome: Outcome<bool>): (r: SelectedMall)
    ensures outcome == Ok(true) && s.selected.Some? && s.selected.value.id == id ==>
      r.selected.None? && r.brands == []
    ensures !(outcome == Ok(true) && s.selected.Some? && s.selected.value.id == id) ==> r == s
  {
    if outcome == Ok(true) && s.selected.Some? && s.selected.value.id == id then SelectedMall(None, [])
    else s
  }

  /** After a successful delete the deleted mall is never the one shown;
      deleting another mall leaves the selection and its brands alone; and
      repeating a delete with the same outcome changes nothing more. */
  lemma DeleteNeverLeavesDeletedMallSelected(s: SelectedMall, id: string, other: string, outcome: Outcome<bool>)
    ensures outcome == Ok(true) ==>
      var r := HandleDelete(s, id, outcome); !(r.selected.Some? && r.selected.value.id == id)
    ensures s.selected.Some? && s.selected.value.id != other ==> HandleDelete(s, other, outcome) == s
    ensures HandleDelete(HandleDelete(s, id, outcome), id, outcome) == HandleDelete(s, id, outcome)
  {
  }
}
