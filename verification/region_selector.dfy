/** The three-level province / city / district selector
    (src/components/RegionSelector.tsx). The selection is owned by the
    caller and arrives as a prop; the component emits a whole new selection
    on every change and caches the option list of each level. */
module RegionSelector {
  import opened Js

  /** A province, city or district as the option lists hold it. */
  datatype Region = Region(id: string, name: string)

  /** The value the selector shows and emits; every level may be unset. */
  datatype Selection = Selection(provinceId: Option<string>, cityId: Option<string>, districtId: Option<string>)

  const Unselected: Selection := Selection(None, None, None)

  /** No level is set without the level above it. */
  predicate Cascaded(s: Selection) {
    && (Truthy(s.cityId) ==> Truthy(s.provinceId))
    && (Truthy(s.districtId) ==> Truthy(s.cityId))
  }

  // ---------------------------------------------------------------------
  // Change handlers: each returns the selection passed to `onChange`

  /** Picking (or clearing) a province discards the previous city and
      district, whatever they were. */
  function OnProvinceChange(value: Selection, provinceId: Option<string>): (emitted: Selection)
    ensures emitted.provinceId == provinceId
    ensures emitted.cityId.None? && emitted.districtId.None?
    ensures Cascaded(emitted)
  {
    Selection(provinceId, None, None)
  }

  /** Picking a city keeps the province and clears the district. */
  function OnCityChange(value: Selection, cityId: Option<string>): (emitted: Selection)
    ensures emitted.provinceId == value.provinceId
    ensures emitted.cityId == cityId
    ensures emitted.districtId.None?
    ensures Truthy(value.provinceId) ==> Cascaded(emitted)
  {
    value.(cityId := cityId, districtId := None)
  }

  /** Picking a district keeps province and city. */
  function OnDistrictChange(value: Selection, districtId: Option<string>): (emitted: Selection)
    ensures emitted.provinceId == value.provinceId && emitted.cityId == value.cityId
    ensures emitted.districtId == districtId
    ensures Cascaded(value) && Truthy(value.cityId) ==> Cascaded(emitted)
  {
    value.(districtId := districtId)
  }

  // ---------------------------------------------------------------------
  // Which selectors are enabled

  /** The city selector is disabled when the whole component is, or while
      no province is chosen (unset or ''). */
  function CityDisabled(disabled: bool, value: Selection): (off: bool)
    ensures disabled ==> off
    ensures !disabled ==> (off <==> value.provinceId.None? || value.provinceId.value == "")
  {
    disabled || !Truthy(value.provinceId)
  }

  /** The district selector is disabled when the whole component is, or
      while no city is chosen (unset or ''). */
  function DistrictDisabled(disabled: bool, value: Selection): (off: bool)
    ensures disabled ==> off
    ensures !disabled ==> (off <==> value.cityId.None? || value.cityId.value == "")
  {
    disabled || !Truthy(value.cityId)
  }

  /** Through the enabled selectors a user can only reach cascaded
      selections: each handler is reachable only when its selector is
      enabled, and each keeps the cascade. */
  lemma EnabledHandlersKeepCascade(disabled: bool, value: Selection, id: Option<string>)
    requires Cascaded(value)
    ensures !disabled ==> Cascaded(OnProvinceChange(value, id))
    ensures !CityDisabled(disabled, value) ==> Cascaded(OnCityChange(value, id))
    ensures !DistrictDisabled(disabled, value) ==> Cascaded(OnDistrictChange(value, id))
  {
  }

  /** Right after a province is picked in an enabled selector, the city
      selector is open and the district selector is closed. */
  lemma AfterProvincePick(disabled: bool, value: Selection, provinceId: Option<string>)
    requires !disabled && Truthy(provinceId)
    ensures !CityDisabled(disabled, OnProvinceChange(value, provinceId))
    ensures DistrictDisabled(disabled, OnProvinceChange(value, provinceId))
  {
  }

  // ---------------------------------------------------------------------
  // Option lists and loading flags

  datatype Level = ProvinceLevel | CityLevel | DistrictLevel

  datatype Options = Options(
    provinces: seq<Region>,
    cities: seq<Region>,
    districts: seq<Region>,
    provinceLoading: bool,
    cityLoading: bool,
    districtLoading: bool)

  const Initial: Options := Options([], [], [], false, false, false)

  function List(o: Options, level: Level): seq<Region> {
    match level
    case ProvinceLevel => o.provinces
    case CityLevel => o.cities
    case DistrictLevel => o.districts
  }

  function Loading(o: Options, level: Level): bool {
    match level
    case ProvinceLevel => o.provinceLoading
    case CityLevel => o.cityLoading
    case DistrictLevel => o.districtLoading
  }

  function SetLoading(o: Options, level: Level, b: bool): (r: Options)
    ensures Loading(r, level) == b
    ensures forall l :: l != level ==> Loading(r, l) == Loading(o, l)
    ensures forall l :: List(r, l) == List(o, l)
  {
    match level
    case ProvinceLevel => o.(provinceLoading := b)
    case CityLevel => o.(cityLoading := b)
    case DistrictLevel => o.(districtLoading := b)
  }

  function SetList(o: Options, level: Level, xs: seq<Region>): (r: Options)
    ensures List(r, level) == xs
    ensures forall l :: l != level ==> List(r, l) == List(o, l)
    ensures forall l :: Loading(r, l) == Loading(o, l)
  {
    match level
    case ProvinceLevel => o.(provinces := xs)
    case CityLevel => o.(cities := xs)
    case DistrictLevel => o.(districts := xs)
  }

  /** A fetch of one level's options as it settles: the loading flag is
      raised, the list is replaced only when the request resolved (a failure
      is only logged), and the flag is lowered again in `finally`. Nothing of
      the other levels changes. */
  function Fetch(o: Options, level: Level, outcome: Outcome<seq<Region>>): (r: Options)
    ensures outcome.Ok? ==> List(r, level) == outcome.value
    ensures outcome.Failed? ==> List(r, level) == List(o, level)
    ensures !Loading(r, level)
    ensures forall l :: l != level ==> List(r, l) == List(o, l) && Loading(r, l) == Loading(o, l)
  {
    var started := SetLoading(o, level, true);
    var loaded := if outcome.Ok? then SetList(started, level, outcome.value) else started;
    SetLoading(loaded, level, false)
  }

  /** Fetches of different levels touch disjoint parts of the state, so
      the order in which they settle does not matter. */
  lemma FetchesOfDifferentLevelsCommute(o: Options, l1: Level, l2: Level,
                                        a: Outcome<seq<Region>>, b: Outcome<seq<Region>>)
    requires l1 != l2
    ensures Fetch(Fetch(o, l1, a), l2, b) == Fetch(Fetch(o, l2, b), l1, a)
  {
  }

  /** For one level the last resolved fetch decides the list; a failure
      settling after a success keeps what the success loaded. */
  lemma LastResolvedFetchWins(o: Options, level: Level, a: Outcome<seq<Region>>, xs: seq<Region>)
    ensures List(Fetch(Fetch(o, level, a), level, Ok(xs)), level) == xs
    ensures Fetch(Fetch(o, level, Ok(xs)), level, Failed) == Fetch(o, level, Ok(xs))
  {
  }

  /** The effect run when the province prop changes: a chosen province
      fetches its cities; no province empties both the city and the district
      lists. */
  function OnProvinceValue(o: Options, provinceId: Option<string>, outcome: Outcome<seq<Region>>): (r: Options)
    ensures !Truthy(provinceId) ==> r.cities == [] && r.districts == [] && r.provinces == o.provinces
    ensures Truthy(provinceId) ==> r == Fetch(o, CityLevel, outcome)
  {
    if Truthy(provinceId) then Fetch(o, CityLevel, outcome)
    else o.(cities := [], districts := [])
  }

  /** The effect run when the city prop changes: a chosen city fetches its
      districts; no city empties the district list. */
  function OnCityValue(o: Options, cityId: Option<string>, outcome: Outcome<seq<Region>>): (r: Options)
    ensures !Truthy(cityId) ==> r.districts == [] && r.provinces == o.provinces && r.cities == o.cities
    ensures Truthy(cityId) ==> r == Fetch(o, DistrictLevel, outcome)
  {
    if Truthy(cityId) then Fetch(o, DistrictLevel, outcome)
    else o.(districts := [])
  }

  /** A chosen province whose city list comes back empty still leaves the
      city selector enabled: being enabled depends on the selection only. */
  lemma EmptyCityListStaysEnabled(o: Options, value: Selection)
    requires Truthy(value.provinceId)
    ensures OnProvinceValue(o, value.provinceId, Ok([])).cities == []
    ensures !CityDisabled(false, value)
  {
  }
}
