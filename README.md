# Thai address select — a Dafny model

This project models the core of `thai-address-select-lib`: the address data store
(province → district → sub-district, with postal codes) and the cascading selector
controller `ThaiAddressSelect` that keeps three `<select>` widgets consistent with it
and dispatches `provinceChange`, `districtChange`, `subDistrictChange` and
`selectChange` events.

Modules:

- `Collation` (`collation.dfy`): the `sort((a, b) => a.localeCompare(b, "th"))` that
  `getProvinces`, `getDistricts` and `getSubDistricts` use (and `findProvinceByName`
  through `getProvinces`); `getzip_code` does not sort. Thai collation is an abstract comparator `le` (`le(a, b)` stands for
  `a.localeCompare(b, "th") <= 0`), assumed only to be a total preorder. The sort is an
  insertion sort, proved to return a sorted permutation.
- `Text` (`text.dfy`): `String.prototype.trim` (ECMAScript white space and line
  terminators), `String.prototype.includes`, and the `filter` of the province search.
- `FilterAddress` (`filter_address.dfy`): the store of `src/utils/filterAddress.ts`, over
  the nested keyed mapping `ThaiAddressData`. A JavaScript object is modelled as a
  `Dict`: its keys in `Object.keys` order plus a map of entries. The model does not
  fix that order (integer-like keys first in ascending order, then insertion order);
  `keys` is any duplicate-free sequence of the entries' keys.
- `FilterAddressRecords` (`filter_address_records.dfy`): the store of
  `dist/src/utils/filterAddress.js`, over a list of province records nesting district
  and sub-district records. It is the only store that defines `getzip_code`. `find` is
  modelled as the first position of a name.
- `AddressSelect` (`address_select.dfy`): the controller. Each widget is a
  `SelectElement` object holding its options `(value, text, disabled, selected)` and the
  value it shows. Appending a selected option makes it the shown one, and clearing a
  widget shows "". The controller holds the three widgets, the resolved placeholders,
  the optional `data` override, an event log and three listener flags. One class serves
  both files: `Build.Source` is the TypeScript class, and `Build.Compiled` is the
  compiled JavaScript. The compiled build has no override and marks an option selected
  when `selected !== undefined` rather than when `selected` is truthy. The browser
  delivering a "change" event is modelled by `ProvinceWidgetChanged` and its two
  siblings, which run the handler only while its listener is attached.

Behaviour of the source that is easy to miss (the model follows the code):

- `src/components/ThaiAddressSelect.ts:7` imports `getzip_code`, which only
  `dist/src/utils/filterAddress.js:38` defines. Both controller builds are therefore bound
  to the list-of-records store for their lookups and postal codes.
- The postal code in `getValue()` always comes from the store, even when a `data`
  override is active (`src/components/ThaiAddressSelect.ts:180-182`).
- The list-of-records `getProvinces` does not remove repeated names.
  `FilterAddressRecords.ProvincesNoDuplicates` shows the list is duplicate-free if and
  only if no two province records share a name.
- A province change repopulates the district list for the new province and shows its
  placeholder. Only the sub-district list goes back to placeholder-only.
- A query made only of white space is not empty, and it trims to "", which every name
  includes. `findProvinceByName` then returns every province
  (`FilterAddress.BlankQueryListsAll`).

## Model

| member | source | states |
|---|---|---|
| `Collation.SortBy` | src/utils/filterAddress.ts:20 | the result is a permutation of the input (same multiset, same length) and is sorted under any total preorder `le` |
| `Collation.InsertSorted` | src/utils/filterAddress.ts:20 | inserting a name into a sorted list keeps it sorted |
| `Collation.NoDuplicatesByCount` | src/utils/filterAddress.ts:20 | a list is duplicate-free exactly when every name occurs at most once in its multiset, so sorting keeps duplicate-freedom |
| `Text.Trim` | src/utils/filterAddress.ts:46 | `q.trim()` is a contiguous middle part of `q`; only white space is cut off at each end, and the result neither starts nor ends with white space |
| `Text.ContainsIsSubstring` | src/utils/filterAddress.ts:47 | `p.includes(q)` holds exactly when `q` occurs at some position of `p` |
| `Text.FilterContaining` | src/utils/filterAddress.ts:47 | the filter keeps exactly the names that include the query, every copy of each: each name occurs in the result as often as in the input if it includes the query, and otherwise not at all |
| `Text.FilterIsSubsequence` | src/utils/filterAddress.ts:47 | the filter keeps the order of the names it keeps |
| `Text.FilterEmptyQuery` | src/utils/filterAddress.ts:47 | filtering with "" keeps every name |
| `FilterAddress.GetProvinces` | src/utils/filterAddress.ts:19-21 | the result is exactly the dataset's keys, sorted and duplicate-free |
| `FilterAddress.GetDistricts` | src/utils/filterAddress.ts:26-29 | "" or an unknown province gives []; otherwise the result is exactly that province's district keys, sorted and duplicate-free |
| `FilterAddress.GetSubDistricts` | src/utils/filterAddress.ts:34-39 | "" in either argument, an unknown province or an absent district gives []; otherwise the result is a sorted permutation of the stored list |
| `FilterAddress.FindProvinceByName` | src/utils/filterAddress.ts:44-48 | "" gives []; otherwise the result holds exactly the provinces that include the trimmed query, in the order of `getProvinces()`, without repeats |
| `FilterAddress.BlankQueryListsAll` | src/utils/filterAddress.ts:45-47 | a non-empty query that trims to "" returns every province |
| `FilterAddress.EmptyDataAnswersNothing` | src/utils/filterAddress.ts:6 | before loading (`data = {}`) every query returns [] |
| `FilterAddressRecords.FirstIndex` | dist/src/utils/filterAddress.js:21 | `find` by name: it misses exactly when no record has the name, and otherwise returns the first record with it |
| `FilterAddressRecords.GetProvinces` | dist/src/utils/filterAddress.js:14-16 | the result is a sorted permutation of every record's name, one entry per record, repeats kept |
| `FilterAddressRecords.ProvincesNoDuplicates` | dist/src/utils/filterAddress.js:14-16 | the province list has no repeats if and only if no two province records share a name |
| `FilterAddressRecords.GetDistricts` | dist/src/utils/filterAddress.js:20-25 | an unknown province gives []; otherwise the result is a sorted permutation of the district names of the first record with that name |
| `FilterAddressRecords.GetSubDistricts` | dist/src/utils/filterAddress.js:29-37 | an unresolved province or district gives []; otherwise the result is a sorted permutation of the sub-district names of the first matching district of the first matching province |
| `FilterAddressRecords.GetZipCode` | dist/src/utils/filterAddress.js:38-47 | undefined when any of the three names fails to match exactly; otherwise the `zip_code` of the first matching sub-district under the first matching district of the first matching province |
| `FilterAddressRecords.ZipCodeIsOnPath` | dist/src/utils/filterAddress.js:38-47 | a postal code that is returned belongs to a sub-district record whose province, district and sub-district names are the three asked for |
| `FilterAddressRecords.ZipCodeOfWellFormed` | dist/src/utils/filterAddress.js:38-47 | with unique names, every valid province/district/sub-district path returns the postal code of its own record |
| `FilterAddressRecords.FindProvinceByName` | dist/src/utils/filterAddress.js:51-56 | "" gives []; otherwise the result holds exactly the record names that include the trimmed query, each as many times as records carry it, in the order of `getProvinces()` |
| `AddressSelect.OrUndefined` | src/components/ThaiAddressSelect.ts:136 | `value \|\| undefined` is missing exactly for "" and is the value otherwise |
| `AddressSelect.ResolvePlaceholders` | src/components/ThaiAddressSelect.ts:51-55 | each placeholder text is the one given, or its fixed Thai default when it is missing, independently of the other two |
| `AddressSelect.Marks` | src/components/ThaiAddressSelect.ts:98 | an option is marked only if its name is the one asked for; the source build also needs that name to be non-empty |
| `AddressSelect.BuildsMarkAlike` | dist/src/components/ThaiAddressSelect.js:72-73 | the compiled `selected !== undefined` test differs from the source's truthiness test only when "" is asked for and a name is "" |
| `AddressSelect.OptionList` | src/components/ThaiAddressSelect.ts:91-101 | a populated list is the placeholder (value "", disabled, selected) followed by one enabled option per name, in order, with value and text equal to the name, marked only if it is the asked-for name |
| `AddressSelect.OptionListValue` | src/components/ThaiAddressSelect.ts:98-99 | a populated widget shows the asked-for name when the list holds it, and the placeholder otherwise |
| `AddressSelect.ThaiAddressSelect.constructor` | src/components/ThaiAddressSelect.ts:46-58 | keeps the elements, placeholders and override, populates the widgets as `init` does, starts with no events and all three listeners attached |
| `AddressSelect.ThaiAddressSelect.Create` | src/components/ThaiAddressSelect.ts:40-59 | fails with the fixed message exactly when the options or any of the three elements is missing; otherwise returns a fresh controller built from those options, showing the initial value, with the sub-district widget untouched when a province is given without a district |
| `AddressSelect.ThaiAddressSelect.CreateCompiled` | dist/src/components/ThaiAddressSelect.js:4-40 | the same check and set-up, driving the given widgets over the given store, with no override whatever `options.data` holds, and leaving the sub-district widget untouched when a province is given without a district |
| `AddressSelect.ThaiAddressSelect.AllProvinces` | src/components/ThaiAddressSelect.ts:61-64 | with an override it returns the override's keys, in their own order and unsorted; without one it returns the store's names, sorted |
| `AddressSelect.ThaiAddressSelect.DistrictsFor` | src/components/ThaiAddressSelect.ts:66-70 | "" or a province unknown to the override gives []; an override gives that province's keys in their own order; otherwise the store's sorted districts |
| `AddressSelect.ThaiAddressSelect.SubDistrictsFor` | src/components/ThaiAddressSelect.ts:72-76 | "" in either argument gives []; an override gives the stored list, or [] when either key is missing; otherwise the store's sorted sub-districts |
| `AddressSelect.ThaiAddressSelect.CompiledLookupsUseStore` | dist/src/components/ThaiAddressSelect.js:41-53 | in the compiled build every lookup goes to the store |
| `AddressSelect.ThaiAddressSelect.Reset` | src/components/ThaiAddressSelect.ts:78-89 | clearing and adding the placeholder leaves the placeholder as the only option, shown |
| `AddressSelect.ThaiAddressSelect.AppendNames` | src/components/ThaiAddressSelect.ts:94-100 | the loop appends one option per name after the old ones, and the widget shows its last selected option |
| `AddressSelect.ThaiAddressSelect.PopulateProvinces` | src/components/ThaiAddressSelect.ts:91-101 | the old options are gone; the widget holds the placeholder then every province, and shows the asked-for province when listed |
| `AddressSelect.ThaiAddressSelect.PopulateDistricts` | src/components/ThaiAddressSelect.ts:103-114 | without a province only the placeholder is left; otherwise the placeholder then the province's districts, showing the asked-for one when listed |
| `AddressSelect.ThaiAddressSelect.PopulateSubDistricts` | src/components/ThaiAddressSelect.ts:116-127 | without a province or district only the placeholder is left; otherwise the placeholder then the district's sub-districts, showing the asked-for one when listed |
| `AddressSelect.ThaiAddressSelect.AttachListeners` | src/components/ThaiAddressSelect.ts:129-133 | all three change listeners are attached |
| `AddressSelect.ThaiAddressSelect.Destroy` | src/components/ThaiAddressSelect.ts:227-231 | exactly the three listeners are detached, nothing else changes, and a second call leaves the same state |
| `AddressSelect.ThaiAddressSelect.GetValue` | src/components/ThaiAddressSelect.ts:176-184 | each empty widget value reads as missing; the postal code is missing unless all three are set, and is then the store's `getzip_code` of the triple |
| `AddressSelect.ThaiAddressSelect.EmitSelectIfComplete` | src/components/ThaiAddressSelect.ts:166-171 | `selectChange`, carrying `getValue()`, is logged exactly when all three values are non-empty |
| `AddressSelect.ThaiAddressSelect.OnProvinceChange` | src/components/ThaiAddressSelect.ts:135-144 | the province widget is untouched; districts are scoped to the new province and show the placeholder; sub-districts go back to placeholder-only; exactly one `provinceChange` is logged and never a `selectChange` |
| `AddressSelect.ThaiAddressSelect.OnDistrictChange` | src/components/ThaiAddressSelect.ts:146-154 | province and district widgets are untouched; sub-districts are scoped to both values and show the placeholder; exactly one `districtChange` is logged and never a `selectChange` |
| `AddressSelect.ThaiAddressSelect.OnSubDistrictChange` | src/components/ThaiAddressSelect.ts:156-164 | no widget changes; `subDistrictChange` is logged, followed by `selectChange` exactly when all three values are non-empty |
| `AddressSelect.ThaiAddressSelect.ProvinceWidgetChanged` | src/components/ThaiAddressSelect.ts:130 | a province "change" does nothing once the listener is detached; while attached, it repopulates the district widget for the chosen province, resets the sub-district widget and logs one `provinceChange` |
| `AddressSelect.ThaiAddressSelect.DistrictWidgetChanged` | src/components/ThaiAddressSelect.ts:131 | a district "change" does nothing once the listener is detached; while attached, it repopulates the sub-district widget for the chosen province and district (placeholder only if either is empty) and logs one `districtChange` |
| `AddressSelect.ThaiAddressSelect.SubDistrictWidgetChanged` | src/components/ThaiAddressSelect.ts:132 | a sub-district "change" does nothing once the listener is detached; while attached, it runs the sub-district handler |
| `AddressSelect.ThaiAddressSelect.SetValue` | src/components/ThaiAddressSelect.ts:189-203 | rebuilds the province list always; districts are scoped to the province or placeholder-only without one; sub-districts are scoped to both or placeholder-only without either; no event is dispatched; a triple listed at every level reads back from `getValue()` with its postal code |
| `AddressSelect.ThaiAddressSelect.Init` | src/components/ThaiAddressSelect.ts:208-222 | as `setValue`, except that a province without a district leaves the sub-district widget untouched |

## Left out

- `loadData` in both store files: a network `fetch` and JSON parsing. The dataset is a
  parameter of every query, and a constant of each controller, so a load that happens
  while a controller is live is not modelled.
- Thai collation: `localeCompare(b, "th")` is the abstract total preorder `le`. The
  actual order of Thai names is not modelled.
- DOM and event mechanics: `document.createElement`, `innerHTML`, `CustomEvent` and
  `EventTarget` listeners. They are abstracted as option lists, a shown value, an event
  log and three listener flags. Outside listeners registered on the controller are not
  modelled. Neither is a user choosing an option, which is the host's action before a
  "change" event.
- Collation.SortBy: JavaScript's `sort` is stable. The contract states a sorted
  permutation only, so the relative order of distinct names that compare equal is not
  promised.
- The `data` override is kept by reference in the source (`this.data = options.data`),
  so a caller who mutates that object after construction changes later lookups. The
  model holds the override as an immutable value of the controller, so later mutation
  by the caller is not modelled.
- AddressSelect.ThaiAddressSelect.Create: requires the three widgets to be distinct
  objects. Passing the same element twice (aliasing) is not modelled.
- AddressSelect.ThaiAddressSelect.CreateCompiled: requires the three widgets to be
  distinct objects. Passing the same element twice (aliasing) is not modelled.
- AddressSelect.ThaiAddressSelect.constructor: requires the three widgets to be
  distinct objects. Passing the same element twice (aliasing) is not modelled.
- Prototype-chain lookups: a province or district named after an `Object.prototype`
  member (such as "constructor") is treated as absent.
- Strings are sequences of Unicode code points rather than UTF-16 code units.
- Postal codes are normalised to strings. A numeric `zip_code` in the JSON is not
  distinguished.
- `test.ts` (a demo needing a browser), `src/index.ts` (re-exports) and the `.d.ts`
  declaration files (no behaviour).
