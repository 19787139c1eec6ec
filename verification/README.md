# dcd-manage console core, modelled in Dafny

dcd-manage is a React admin console for a brand / mall / store directory.
Most of it sends requests and renders tables. Its pages also hold a small set
of deterministic data-shaping rules, and this project models those rules as
pure functions over immutable records:

- the brand distribution tree built from the province → city → district /
  mall → brand payload, with its synthetic keys (`BrandTree`);
- the store drawer's client-side filter and its filter-state handlers
  (`BrandStores`);
- the cascading region selection of the shared region selector
  (`RegionSelector`) and of the mall-brand page (`MallBrands`), including the
  mall query parameters, the location label and the delete-selection rule;
- the district page's search filter and province-driven city options
  (`Districts`);
- the comparison pivot table: the brand union across locations, one cell per
  location with a zero default, its columns and the page handlers
  (`Comparison`);
- the report list's single-item status update, the status-select guard and
  the report query with its response fallbacks (`ReportList`);
- the HTTP client's token header and error classification (`Auth`);
- the blog service's query strings (`BlogService`);
- the feedback form's attachment list, upload size check and defaults
  (`FeedbackForm`);
- the image upload validator and delete guard (`ImageUpload`);
- the feedback administration tables, batch mark-as-read and filter
  selects (`FeedbackManagement`);
- the comment list's content search and search-mode switching
  (`CommentList`).

Shared modules:

- `Js` holds JavaScript truthiness, the `x || fallback` idioms, the
  `Outcome` of a request, and the exact upload-size test.
- `Seqs` holds an order-preserving `Filter` and its laws.
- `Text` holds `includes`, `startsWith`, `join`, and decimal rendering with
  its round trip.

Every API response is an input value, so a request that settles is an
`Outcome` (`Ok(value)` or `Failed`) given to the handler. Page state is a
plain record, and a handler is a function that returns the new record. Two
platform functions are parameters rather than definitions:

- `toLowerCase` is an arbitrary function `lower: string -> string`;
- `toISOString` is an arbitrary function `iso`.

Where the written code and the intended design read differently, the model
follows the code:

- The region selector keeps its previous option list when a fetch fails.
- The mall-brand page empties a list before fetching it again, so a failed
  fetch leaves that list empty.
- Searching comments by id makes the handler reload the blog's comments
  itself, and that reload is stored without the text filter. The new id
  also re-runs the data effect, which does apply the text filter; the list
  shown is whichever of the two settles last (`CommentList.IdSearchRace`).
- `filterStores` computes a filtered list, but the drawer's table renders
  the unfiltered store list (src/pages/BrandManagement.tsx:1000). The model
  states what the function computes and claims nothing about the table.

## Model

| member | source | states |
|---|---|---|
| BrandTree.BuildTree | src/pages/BrandManagement.tsx:216-246 | exactly one top-level node per province, in payload order, keyed and titled by the province; a missing province list gives an empty tree |
| BrandTree.ProvinceNode | src/pages/BrandManagement.tsx:217-221 | a province node has one child per city of the province, in order; a missing city list gives no children |
| BrandTree.CityNode | src/pages/BrandManagement.tsx:220-245 | a city node lists all its district nodes first, then one node per mall attached directly to the city, each group in input order; missing arrays count as empty |
| BrandTree.DistrictNode | src/pages/BrandManagement.tsx:224-235 | a district node is keyed by its id when present, else `cityId-nodistrict`; its title falls back to （无区县）; its children are its malls' nodes |
| BrandTree.MallNode | src/pages/BrandManagement.tsx:227-242 | a mall node is kept even with no brands; it has one leaf per brand, keyed `mallId-brandId`, titled with the brand name and childless |
| BrandTree.TreeMirrorsPayload | src/pages/BrandManagement.tsx:216-246 | the tree has exactly as many nodes as the payload has province, city, district, mall and brand records, so no level is pruned or duplicated |
| BrandTree.BrandKeysCollideWithoutHypothesis | src/pages/BrandManagement.tsx:231 | without a restriction on ids, two different (mall, brand) pairs get the same leaf key |
| BrandTree.IdlessDistrictsShareKey | src/pages/BrandManagement.tsx:225 | all id-less district groupings of one city get the same key |
| BrandTree.BrandKeyInjective | src/pages/BrandManagement.tsx:231 | if mall ids contain no '-', equal leaf keys mean equal mall and brand ids, and conversely |
| BrandTree.SyntheticKeysAvoidRealIds | src/pages/BrandManagement.tsx:225-231 | if real ids contain no '-', no synthetic key equals a real id |
| BrandTree.MallLeafKeysDistinct | src/pages/BrandManagement.tsx:230-233 | if the mall id contains no '-', two sibling leaves have different keys exactly when their brands have different ids |
| BrandTree.WorkedExample | src/pages/BrandManagement.tsx:216-246 | a concrete payload with a district mall and a direct mall yields the expected nested tree and keys |
| BrandStores.FilterStoresIsOneFilter | src/pages/BrandManagement.tsx:148-177 | the four guarded filter passes equal one filter by the conjunction of the set criteria |
| BrandStores.FilterStoresSpec | src/pages/BrandManagement.tsx:148-174 | the result is an order-preserving subsequence; a store is kept iff every set region id matches exactly (no district never matches a set district) and a non-empty search occurs in the lowercased mall name, store name or address; kept stores keep their multiplicity |
| BrandStores.EmptyFiltersKeepAll | src/pages/BrandManagement.tsx:148-174 | with no id set and an empty search the store list is returned unchanged |
| BrandStores.HandleRegionChange | src/pages/BrandManagement.tsx:180-190 | the supplied region fields overwrite, the absent ones and the search stay, and the store request carries the new filters |
| BrandStores.RegionSelectionReplacesRegion | src/pages/BrandManagement.tsx:180-186 | a selection from the region selector replaces all three ids and keeps the search; a province pick therefore clears city and district |
| BrandStores.HandleSearchChange | src/pages/BrandManagement.tsx:193-199 | only the search text changes |
| BrandStores.SearchChangeNarrowsByText | src/pages/BrandManagement.tsx:148-199 | with a search text set, a store is in the computed list iff the region filters pass it and its mall name, store name or address contains the text |
| BrandStores.ResetFilters | src/pages/BrandManagement.tsx:201-208 | all three ids unset and the search empty; afterwards every store passes the filter |
| BrandStores.StoresFetched | src/pages/BrandManagement.tsx:358-371 | a settled store request replaces the list (missing list as empty); a failed one leaves it |
| BrandStores.FetchedThenResetShowsAll | src/pages/BrandManagement.tsx:148-209 | after a resolved fetch and a reset the computed list is every fetched store, and a later failure keeps the fetched list |
| BrandStores.FormProvinceChange | src/pages/BrandManagement.tsx:282-290 | a province change clears city and district; clearing the province empties both option lists; a chosen province loads cities, a failed load keeps the old list |
| BrandStores.FormCityChange | src/pages/BrandManagement.tsx:292-299 | a city change clears the district; clearing the city empties the district list; a chosen city loads districts |
| BrandStores.FormHandlersKeepCascade | src/pages/BrandManagement.tsx:282-299 | no form field is set without the one above it after either handler, and clearing province then city leaves no options |
| BrandStores.ProvinceThenCityLoads | src/pages/BrandManagement.tsx:264-299 | choosing a province then a city shows the province's loaded cities and the city's loaded districts, with the district field cleared |
| RegionSelector.OnProvinceChange | src/components/RegionSelector.tsx:113-120 | the emitted value has the new province and no city or district, whatever was selected before |
| RegionSelector.OnCityChange | src/components/RegionSelector.tsx:122-129 | the emitted value keeps the province, sets the city and clears the district |
| RegionSelector.OnDistrictChange | src/components/RegionSelector.tsx:131-137 | the emitted value keeps province and city and sets only the district |
| RegionSelector.CityDisabled | src/components/RegionSelector.tsx:166 | the city selector is disabled whenever the component is, and otherwise exactly while no province is chosen (unset or '') |
| RegionSelector.DistrictDisabled | src/components/RegionSelector.tsx:184 | the district selector is disabled whenever the component is, and otherwise exactly while no city is chosen (unset or '') |
| RegionSelector.EnabledHandlersKeepCascade | src/components/RegionSelector.tsx:159-186 | through enabled selectors (city needs a province, district needs a city) a cascaded selection stays cascaded |
| RegionSelector.AfterProvincePick | src/components/RegionSelector.tsx:159-186 | right after a province pick the city selector is enabled and the district selector disabled |
| RegionSelector.Fetch | src/components/RegionSelector.tsx:89-111 | a settled fetch replaces its level's list, a failed one keeps it; either way that level's loading flag ends false and the other levels are untouched |
| RegionSelector.FetchesOfDifferentLevelsCommute | src/components/RegionSelector.tsx:77-111 | fetches of different levels give the same state whichever settles first |
| RegionSelector.LastResolvedFetchWins | src/components/RegionSelector.tsx:89-111 | for one level the last resolved fetch decides the list, and a failure after a success keeps the loaded list |
| RegionSelector.OnProvinceValue | src/components/RegionSelector.tsx:60-67 | an unset province empties the city and district lists; a set one fetches the cities |
| RegionSelector.OnCityValue | src/components/RegionSelector.tsx:69-75 | an unset city empties the district list; a set one fetches the districts |
| RegionSelector.EmptyCityListStaysEnabled | src/components/RegionSelector.tsx:159-170 | with a province set, an empty city list does not disable the city selector |
| MallBrands.LoadInto | src/pages/MallBrandManagement.tsx:202-231 | a list emptied before its fetch holds the fetched list on success and stays empty on failure |
| MallBrands.HandleProvinceChange | src/pages/MallBrandManagement.tsx:281-293 | province set, city and district cleared, search kept, district list emptied; the city list is emptied when no province is chosen and reloaded otherwise |
| MallBrands.HandleCityChange | src/pages/MallBrandManagement.tsx:296-306 | city set, district cleared, province and search kept, city list kept; the district list is emptied or reloaded |
| MallBrands.HandleDistrictChange | src/pages/MallBrandManagement.tsx:309-314 | only the district changes |
| MallBrands.ResetMallFilters | src/pages/MallBrandManagement.tsx:257-266 | empty search, all ids unset, empty city and district lists |
| MallBrands.HandlersKeepCascade | src/pages/MallBrandManagement.tsx:257-314 | the handlers, each used where its level is enabled, never leave a district without a city or a city without a province |
| MallBrands.MallQueryParams | src/pages/MallBrandManagement.tsx:138-145 | page and limit always; search and each id only when non-empty, with their values |
| MallBrands.EquivalentFiltersSameQuery | src/pages/MallBrandManagement.tsx:138-145 | filters that differ only in '' versus undefined send the same query |
| MallBrands.LocationLabel | src/pages/MallBrandManagement.tsx:383-389 | with no level the label is empty; with one level it is that level's name |
| MallBrands.LocationLabelOrder | src/pages/MallBrandManagement.tsx:384-388 | present names appear in province, city, district order, separated by " / ", absent levels skipped |
| MallBrands.LocationLabelLength | src/pages/MallBrandManagement.tsx:388 | the label holds each present name once and one separator between neighbours |
| MallBrands.HandleDelete | src/pages/MallBrandManagement.tsx:317-332 | a successful delete of the selected mall clears the selection and its brand list; any other delete leaves both alone |
| MallBrands.DeleteNeverLeavesDeletedMallSelected | src/pages/MallBrandManagement.tsx:317-332 | after a successful delete the deleted mall is not the selected one; deleting another mall changes nothing; repeating a delete changes nothing more |
| Districts.FilteredDistrictsSpec | src/pages/DistrictManagement.tsx:245-258 | the visible districts are an order-preserving subsequence; a district is kept iff its lowercased name contains the lowercased search (or the search is empty) and its city and province match the selected ones (or none is selected) |
| Districts.NoCriteriaShowsAll | src/pages/DistrictManagement.tsx:245-258 | with an empty search and no selection every district is shown |
| Districts.HandleProvinceSelectChange | src/pages/DistrictManagement.tsx:104-121 | the province is stored and the city always cleared; no province restores the full city list |
| Districts.ProvinceSelectNarrowsCities | src/pages/DistrictManagement.tsx:108-115 | with a province chosen, the city options are exactly the cities whose province id or province object `_id` equals it, in their original order, each as often as in the full list |
| Districts.ClearingProvinceRestoresCities | src/pages/DistrictManagement.tsx:104-121 | choosing then clearing a province brings back every city with no city selected |
| Districts.AllCitiesLoaded | src/pages/DistrictManagement.tsx:94-102 | a settled load sets both the full and the shown city list; a failed one changes nothing |
| Districts.LoadedCitiesFeedProvinceSelect | src/pages/DistrictManagement.tsx:94-119 | after a settled load, clearing the province shows the loaded list and choosing one shows exactly its loaded cities, with their multiplicities |
| Comparison.Collect | src/pages/ComparisonPage.tsx:179-184 | the brand map is a valid insertion-ordered map whose keys are exactly the ids mentioned, each bound to a brand with that id |
| Comparison.CollectKeepsLast | src/pages/ComparisonPage.tsx:179-184 | each id is bound to the last brand carrying it, as a later `set` overwrites |
| Comparison.CollectFirstAppearanceOrder | src/pages/ComparisonPage.tsx:179-187 | the map lists ids in the order of their first appearance |
| Comparison.FlattenMentions | src/pages/ComparisonPage.tsx:180-184 | the nested `forEach` visits exactly the ids the results mention |
| Comparison.FindBrand | src/pages/ComparisonPage.tsx:197 | the result is the first entry with the id, and none iff no entry has it |
| Comparison.LocationKeyInjective | src/pages/ComparisonPage.tsx:198 | different location indices give different `location_i` keys |
| Comparison.LocationCells | src/pages/ComparisonPage.tsx:196-202 | one field per location, `location_j` holding cell j |
| Comparison.LocationCellsOnlyLocations | src/pages/ComparisonPage.tsx:196-202 | a row has no field besides its `location_j` ones |
| Comparison.TableSize | src/pages/ComparisonPage.tsx:175-206 | no results give no rows; otherwise there is one row per map key |
| Comparison.RowAt | src/pages/ComparisonPage.tsx:187-204 | row i is built from the brand the map binds to its i-th key, and carries that key |
| Comparison.TableRows | src/pages/ComparisonPage.tsx:175-187 | row keys are distinct, every row's brand is mentioned by some result, and rows are ordered by first appearance |
| Comparison.EveryMentionedBrandHasRow | src/pages/ComparisonPage.tsx:179-187 | every brand id mentioned by a result has a row |
| Comparison.RowLabelsFromLastEntry | src/pages/ComparisonPage.tsx:187-193 | a row's name, category and code are those of the last entry with its id |
| Comparison.RowCells | src/pages/ComparisonPage.tsx:196-202 | each row has exactly one `location_j` per result; it carries the first matching entry's store count and average score, or (0, '0') when the brand is absent |
| Comparison.BuildTableColumns | src/pages/ComparisonPage.tsx:209-262 | brand name and code columns, then one column per result in order, titled with its location name and keyed `location_j` |
| Comparison.ColumnKeysDistinct | src/pages/ComparisonPage.tsx:209-231 | all column keys differ |
| Comparison.ColumnsMatchCells | src/pages/ComparisonPage.tsx:227-233 | each location column's key is a field of every row |
| Comparison.CellDisplay | src/pages/ComparisonPage.tsx:232-256 | a cell shows "no stores" iff its store count is 0, and its figures otherwise |
| Comparison.AbsentBrandShowsNoStores | src/pages/ComparisonPage.tsx:197-235 | a brand absent from a location shows no stores there |
| Comparison.CompareRequestFor | src/pages/ComparisonPage.tsx:121-133 | no request with fewer than two locations; otherwise type and ids as selected, the brand filter only when some brand is selected |
| Comparison.HandleCompare | src/pages/ComparisonPage.tsx:121-146 | too few locations only warn; a successful reply replaces the results; a refusal shows its message or 对比失败; a failure keeps the results; selections never change |
| Comparison.HandleReset | src/pages/ComparisonPage.tsx:149-153 | ids, brand selection and results cleared, type kept, so the table is empty with only the two fixed columns |
| Comparison.HandleTypeChange | src/pages/ComparisonPage.tsx:156-160 | type switched, ids and results cleared, brand selection kept |
| Comparison.ClearedPageCannotCompare | src/pages/ComparisonPage.tsx:121-160 | after a type change or reset no comparison request can be sent |
| ReportList.MarkStatus | src/pages/ReportList.tsx:117 | same length and order; items with the record's id get the new status and nothing else changes; other items are untouched |
| ReportList.MarkStatusIdempotent | src/pages/ReportList.tsx:117 | applying the same update twice equals applying it once |
| ReportList.MarkStatusCommutes | src/pages/ReportList.tsx:117 | updates of different records commute; for the same record the later one wins |
| ReportList.MarkStatusAbsentId | src/pages/ReportList.tsx:117 | a list without the record's id is unchanged |
| ReportList.HandleUpdateStatus | src/pages/ReportList.tsx:112-121 | the list changes only after the update succeeds; a failure keeps it and shows the server message or 更新状态失败 |
| ReportList.OnStatusSelect | src/pages/ReportList.tsx:139-144 | only 'pending' and 'resolved' reach the update; any other value only warns |
| ReportList.StatusSelectTouchesOnlyRecord | src/pages/ReportList.tsx:139-144 | whatever the select reports, every other item keeps its place and value |
| ReportList.BuildReportQuery | src/pages/ReportList.tsx:48-55 | page and limit always; status, target type and search only when set; both date bounds only when the range has both ends, rendered by the given formatter |
| ReportList.FetchReports | src/pages/ReportList.tsx:45-67 | a failure keeps the page and shows the server message or 获取举报列表失败; a response sets list, total, page and limit with fallbacks [] / 0 / requested page / requested limit |
| ReportList.FetchReportsFallbacks | src/pages/ReportList.tsx:57-61 | a complete response is taken as is; an empty one gives [] / 0 / requested page and limit |
| Auth.AttachToken | src/services/auth.ts:14-21 | with a token the Authorization header is "Bearer " + token; without one the headers pass unchanged; other headers are untouched |
| Auth.TokenReadBack | src/services/auth.ts:15-20 | the token is recovered from the header it produced, so different tokens give different headers |
| Auth.ResponseText | src/services/auth.ts:42-62 | 400 shows the server message or 请求参数错误; 401, 403, 404 and 500 show fixed texts; any other status shows the server message or 请求失败 (status) |
| Auth.HandleError | src/services/auth.ts:32-73 | the original error is always rejected; logout happens iff the status is 401; no response gives the network text; neither gives the error message or 未知错误 |
| Auth.ShownMessageNonEmpty | src/services/auth.ts:36-71 | the user is always shown a non-empty message |
| Auth.FixedStatusesIgnoreBody | src/services/auth.ts:46-59 | for 401, 403, 404 and 500 the outcome does not depend on the body |
| Auth.StatusTextDistinguishes | src/services/auth.ts:61 | different statuses give different fallback texts |
| Auth.AnswerIsNotNetworkFailure | src/services/auth.ts:38-65 | an error carrying a server answer shows that answer's text, and without 401 does not log out |
| BlogService.BuildQueryKeysInOrder | src/services/blog.service.ts:68-74 | the query's keys are a subsequence of the append lines' keys, in line order |
| BlogService.BuildQueryLookup | src/services/blog.service.ts:68-74 | with distinct keys, a line's key reads its text when its value was truthy and is absent otherwise |
| BlogService.KeyPresence | src/services/blog.service.ts:68-74 | a line's key is in the query iff its value was truthy |
| BlogService.BlogsQueryOrder | src/services/blog.service.ts:69-74 | keys follow the order page, limit, sortByLatest, search, userId, _id, each at most once |
| BlogService.BlogsQueryPresence | src/services/blog.service.ts:69-74 | each key is present iff its value is truthy, so page 0 and an empty search are omitted; sortByLatest is the text 'true' |
| BlogService.BlogsQueryRoundTrip | src/services/blog.service.ts:68-74 | reading the query back gives every truthy parameter unchanged and loses exactly the falsy ones |
| BlogService.CommentsQueryShape | src/services/blog.service.ts:109-111 | only page then limit, each when truthy, each reading back as its number |
| Text.IntRoundTrip | src/services/blog.service.ts:69 | the decimal text of an integer reads back as the same integer |
| FeedbackForm.FileUrl | src/components/FeedbackForm.tsx:62 | a file offers its upload response's URL when truthy, else its own URL |
| FeedbackForm.AttachmentsAreFilteredUrls | src/components/FeedbackForm.tsx:62 | the attachments are the offered URLs with the empty ones filtered out |
| FeedbackForm.AttachmentsSpec | src/components/FeedbackForm.tsx:62 | attachments keep the files' order, contain no empty URL, and hold each non-empty URL as often as files offer it |
| FeedbackForm.ResponseUrlWins | src/components/FeedbackForm.tsx:62 | a file with a response URL contributes that URL even when it has its own |
| FeedbackForm.BeforeUpload | src/components/FeedbackForm.tsx:94-101 | a file is accepted iff its size is strictly below 10 MB, else refused with 文件大小不能超过 10MB! |
| FeedbackForm.TenMegabytesRejected | src/components/FeedbackForm.tsx:95 | exactly 10 MB is refused and one byte less accepted |
| Js.UnderMegabytesIsDivision | src/components/FeedbackForm.tsx:95 | the integer test size < limit·1048576 equals size/1024/1024 < limit over the reals |
| FeedbackForm.HandleSubmit | src/components/FeedbackForm.tsx:36-78 | the request carries the form values and the attachments of the upload list; success resets the fields, empties the list and closes the form; failure keeps all; each shows its message |
| FeedbackForm.ResubmitAfterOutcome | src/components/FeedbackForm.tsx:60-71 | after a success the next request has the initial values and no attachment; after a failure a retry sends the same request |
| FeedbackForm.InitialValuesAreOptions | src/components/FeedbackForm.tsx:117-120 | the defaults are 'improvement' and 'medium', both options of their selects |
| ImageUpload.BeforeUpload | src/components/ImageUpload.tsx:29-41 | a non-image is refused first whatever its size; an image is accepted iff strictly below maxSize MB |
| ImageUpload.BeforeUploadBoundaries | src/components/ImageUpload.tsx:17-41 | a non-image gets the same verdict at any size; with the default 5 MB, exactly 5 MB is refused and one byte less accepted |
| ImageUpload.BeforeUploadMonotone | src/components/ImageUpload.tsx:35 | raising the limit never refuses an image a lower limit accepted |
| ImageUpload.HandleDelete | src/components/ImageUpload.tsx:79-103 | with no image nothing happens; otherwise the stored URL is sent, and only an ok answer clears the image and tells the form |
| ImageUpload.DeleteThenDeleteIsNoop | src/components/ImageUpload.tsx:79-93 | after a successful delete a second delete sends nothing and changes nothing |
| FeedbackManagement.StatusColor | src/pages/FeedbackManagement.tsx:140-148 | 'default' iff the status is not one of the four known ones |
| FeedbackManagement.PriorityColor | src/pages/FeedbackManagement.tsx:150-158 | 'default' iff the priority is not one of the four known ones |
| FeedbackManagement.ColoursDistinguishKnownValues | src/pages/FeedbackManagement.tsx:140-158 | the fixed colours of each known value, pairwise different within statuses and within priorities |
| FeedbackManagement.TypeText | src/pages/FeedbackManagement.tsx:160-170 | a known type shows its label; an unknown type is returned unchanged |
| FeedbackManagement.TypeLabelsCoverKnownTypes | src/pages/FeedbackManagement.tsx:161-168 | the label table covers exactly the six types of the form |
| FeedbackManagement.TypeTextOfKnownTypes | src/pages/FeedbackManagement.tsx:160-170 | each known type shows its own label, and the six labels are pairwise different |
| FeedbackManagement.BatchMarkAsRead | src/pages/FeedbackManagement.tsx:124-138 | an empty selection only warns; otherwise the selection is sent; success clears it and refetches, failure keeps it |
| FeedbackManagement.BatchRequestIffSelection | src/pages/FeedbackManagement.tsx:124-138 | a request is sent iff something is selected; after a success a second click sends nothing |
| FeedbackManagement.SetFilter | src/pages/FeedbackManagement.tsx:335 | a select stores its value, or '' when cleared, and leaves the other filters unchanged |
| FeedbackManagement.FilterSelectRoundTrip | src/pages/FeedbackManagement.tsx:330-383 | a select shows back what was chosen, a cleared one shows the placeholder, and the other selects are unaffected |
| FeedbackManagement.ClearingAllFilters | src/pages/FeedbackManagement.tsx:330-383 | clearing every select gives the initial empty filters |
| CommentList.CommentsShown | src/pages/CommentList.tsx:55-62 | an empty search leaves the fetched list (missing as empty) unchanged |
| CommentList.CommentsShownSpec | src/pages/CommentList.tsx:57-62 | the shown comments are an order-preserving subsequence; with a search, exactly those whose lowercased content contains the lowercased query, each as often as fetched |
| CommentList.FetchData | src/pages/CommentList.tsx:43-75 | with a blog selected and an answer the shown list replaces the comments; otherwise they stay |
| CommentList.HandleSearch | src/pages/CommentList.tsx:83-86 | the text search is set and the id search cleared |
| CommentList.HandleSearchByCommentId | src/pages/CommentList.tsx:89-97 | the id search is set; with no blog the list is emptied; with one it is reloaded unfiltered, and a failed reload keeps it |
| CommentList.TextSearchShowsMatches | src/pages/CommentList.tsx:43-86 | a text search that changes the search text or clears an id search re-runs the data effect; once it settles with a blog selected, the id search is cleared and the comments are exactly the fetched ones whose content matches, in order and with their multiplicities |
| CommentList.RepeatedSearchChangesNothing | src/pages/CommentList.tsx:75-86 | repeating the current text search with no id search leaves the page state, comments included, unchanged, so the effect does not re-run |
| CommentList.IdSearchRace | src/pages/CommentList.tsx:43-97 | an id search that changes the id shows the unfiltered reload if its own request settles last, and the text-filtered refetch if the data effect settles last |

## Left out

- Network calls, the axios instance and `fetch` are not modelled. Every
  response or failure is an input value.
- React state, effects, rendering, antd components and
  `form.setFieldsValue` are not modelled. Page state is a record, and each
  handler returns the new record.
- Async interleaving is not modelled in general; each request is modelled
  as settling on its own. This leaves out the stale-response race between
  overlapping region fetches (src/components/RegionSelector.tsx:89-111) and
  the race between the comment-id handler's reload and the data effect it
  re-triggers (src/pages/CommentList.tsx:54-64, 89-97). For the latter,
  CommentList.IdSearchRace states the result of each settlement order, not
  which order occurs.
- RegionSelector.Fetch, BrandStores.FormProvinceChange,
  BrandStores.FormCityChange, Districts.AllCitiesLoaded and
  MallBrands.LoadInto: a resolved answer is assumed to carry its list. The
  source stores `response.data.data.cities` / `.districts` without a `|| []`
  fallback (src/components/RegionSelector.tsx:93, 104;
  src/pages/BrandManagement.tsx:267, 276;
  src/pages/DistrictManagement.tsx:96-97;
  src/pages/MallBrandManagement.tsx:210, 226). So an answer without the list
  stores `undefined`, and the next render that maps over it would throw.
  That path is not modelled.
- Comparison.HandleCompare: a successful reply is assumed to carry its
  results. The source stores `response.data.data.results` without a
  `|| []` fallback (src/pages/ComparisonPage.tsx:136), so a success reply
  without results stores `undefined`. The next render then reads its
  `length` and throws. That path is not modelled.
- `localStorage`, routing and `window.location` are left out. The 401
  logout is a boolean flag, and the token reaches the header rule as a
  parameter.
- `toLowerCase` and `toISOString` are parameters, not definitions, so
  Unicode case folding and date formatting are not modelled. Other date
  and number formatting is not modelled either.
- Numbers are integers. NaN, fractions and exponent notation are not
  modelled in `toString`, in the `|| fallback` idioms, or in a non-integer
  `maxSize`.
- FeedbackManagement.TypeText: inherited property names such as
  "constructor" are not modelled. On a plain JS object these return a
  prototype member rather than the input.
- URL encoding by `URLSearchParams.toString()` is not modelled. A query is
  its list of key/value pairs.
- The thin CRUD and presentational pages are not modelled. They only forward
  truthy parameters to endpoints or render static content.
- BrandTree.BrandKeyInjective and BrandTree.SyntheticKeysAvoidRealIds: key
  uniqueness is proved only under the hypothesis that ids contain no '-'.
  The source does not guard against collisions, and
  BrandTree.BrandKeysCollideWithoutHypothesis exhibits one.
- FeedbackForm.HandleSubmit: the request's free-text fields, `relatedPage`
  and `browserInfo` (read from `window` and `navigator`) are not modelled,
  and neither is the optional `onSuccess` callback.
- Auth.HandleError: the initial default message is not modelled, because
  every branch overwrites it. The console logging is not modelled either.
- Only the computed list of `filterStores` is modelled. The drawer table
  that displays the store list is rendering, which is not modelled.
- Loading flags other than the region selector's, and the success and
  error toasts of the CRUD forms, are not modelled.
