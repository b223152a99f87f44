/**
 * The cascading selector controller `ThaiAddressSelect` of
 * `src/components/ThaiAddressSelect.ts` and of its compiled form
 * `dist/src/components/ThaiAddressSelect.js` (`Build`): three select widgets
 * kept consistent with the address hierarchy, and the events it dispatches.
 */
module AddressSelect {
  import opened Wrappers
  import opened Collation
  import FilterAddress
  import Records = FilterAddressRecords

  const DefaultProvincePlaceholder: string := "เลือกจังหวัด"
  const DefaultDistrictPlaceholder: string := "เลือกอำเภอ/เขต"
  const DefaultSubDistrictPlaceholder: string := "เลือกตำบล/แขวง"
  const MissingElementsMessage: string := "provinceEl, districtEl and subDistrictEl are required"

  /** The TypeScript source, or the compiled JavaScript (no `data` override). */
  datatype Build = Source | Compiled

  /** One `<option>`: `(value, text, disabled, selected)`. */
  datatype OptionEntry = OptionEntry(value: string, text: string, disabled: bool, selected: bool)

  /** `ThaiAddressValue`: the triple, each part optional. */
  datatype AddressValue = AddressValue(province: Option<string>, district: Option<string>, subDistrict: Option<string>)

  /** `value || {}` for a missing value. */
  const NoValue := AddressValue(None, None, None)

  /** What `getValue()` returns. */
  datatype CurrentValue = CurrentValue(province: Option<string>, district: Option<string>, subDistrict: Option<string>, zipCode: Option<string>)

  /** `options.placeholder`: each text optional. */
  datatype PlaceholderConfig = PlaceholderConfig(province: Option<string>, district: Option<string>, subDistrict: Option<string>)

  datatype Placeholders = Placeholders(province: string, district: string, subDistrict: string)

  /** The `CustomEvent`s dispatched on the controller, with their `detail`. */
  datatype Event =
    | ProvinceChange(province: Option<string>)
    | DistrictChange(province: Option<string>, district: Option<string>)
    | SubDistrictChange(province: Option<string>, district: Option<string>, subDistrict: Option<string>)
    | SelectChange(detail: CurrentValue)

  /** `ThaiAddressSelectOptions`; a missing element is `null`. */
  datatype SelectOptions = SelectOptions(
    provinceEl: SelectElement?,
    districtEl: SelectElement?,
    subDistrictEl: SelectElement?,
    data: Option<FilterAddress.ThaiAddressData>,
    placeholder: Option<PlaceholderConfig>,
    initialValue: Option<AddressValue>)

  /** `s || undefined` */
  function OrUndefined(s: string): (r: Option<string>)
    ensures r.None? <==> s == ""
    ensures r.Some? ==> r.value == s
  {
    if s == "" then None else Some(s)
  }

  /** JavaScript truthiness of an optional string. */
  predicate Truthy(o: Option<string>) {
    o.Some? && o.value != ""
  }

  /** `options.placeholder?.x ?? default` for each of the three texts. */
  function ResolvePlaceholders(cfg: Option<PlaceholderConfig>): (r: Placeholders)
    ensures cfg.Some? && cfg.value.province.Some? ==> r.province == cfg.value.province.value
    ensures cfg.Some? && cfg.value.district.Some? ==> r.district == cfg.value.district.value
    ensures cfg.Some? && cfg.value.subDistrict.Some? ==> r.subDistrict == cfg.value.subDistrict.value
    ensures (cfg.None? || cfg.value.province.None?) ==> r.province == DefaultProvincePlaceholder
    ensures (cfg.None? || cfg.value.district.None?) ==> r.district == DefaultDistrictPlaceholder
    ensures (cfg.None? || cfg.value.subDistrict.None?) ==> r.subDistrict == DefaultSubDistrictPlaceholder
  {
    match cfg
    case None => Placeholders(DefaultProvincePlaceholder, DefaultDistrictPlaceholder, DefaultSubDistrictPlaceholder)
    case Some(c) =>
      Placeholders(c.province.GetOr(DefaultProvincePlaceholder),
                   c.district.GetOr(DefaultDistrictPlaceholder),
                   c.subDistrict.GetOr(DefaultSubDistrictPlaceholder))
  }

  /** Whether the option for `name` is marked selected when `selected` was asked for. */
  function Marks(build: Build, selected: Option<string>, name: string): (r: bool)
    ensures r ==> selected == Some(name)
    ensures build == Source ==> (r <==> selected == Some(name) && name != "")
    ensures build == Compiled ==> (r <==> selected == Some(name))
  {
    match build
    case Source => Truthy(selected) && selected.value == name
    case Compiled => selected.Some? && selected.value == name
  }

  /** The two builds mark the same options, except the empty name asked for as "". */
  lemma BuildsMarkAlike(selected: Option<string>, name: string)
    ensures Marks(Source, selected, name) != Marks(Compiled, selected, name) <==> selected == Some("") && name == ""
  {
  }

  /** `addPlaceholder`: value "", disabled, selected. */
  function PlaceholderEntry(text: string): (r: OptionEntry) {
    OptionEntry("", text, true, true)
  }

  /** The options appended for `names`, one per name, in order. */
  function NameEntries(build: Build, names: seq<string>, selected: Option<string>): (r: seq<OptionEntry>)
    ensures |r| == |names|
    ensures forall i :: 0 <= i < |names| ==> r[i] == OptionEntry(names[i], names[i], false, Marks(build, selected, names[i]))
  {
    seq(|names|, i requires 0 <= i < |names| => OptionEntry(names[i], names[i], false, Marks(build, selected, names[i])))
  }

  /** The options of a freshly populated widget: the placeholder, then one per name. */
  function OptionList(build: Build, text: string, names: seq<string>, selected: Option<string>): (r: seq<OptionEntry>)
    ensures |r| == |names| + 1 && r[0] == PlaceholderEntry(text)
    ensures forall i :: 0 <= i < |names| ==>
              && r[i + 1].value == names[i] && r[i + 1].text == names[i] && !r[i + 1].disabled
              && (r[i + 1].selected ==> selected == Some(names[i]))
  {
    var entries := NameEntries(build, names, selected);
    var r := [PlaceholderEntry(text)] + entries;
    assert forall i :: 0 <= i < |names| ==> r[i + 1] == entries[i];
    r
  }

  /** The value a select shows: that of its last selected option, "" if none is. */
  function SelectedValue(options: seq<OptionEntry>): (r: string) {
    if options == [] then ""
    else if options[|options| - 1].selected then options[|options| - 1].value
    else SelectedValue(options[..|options| - 1])
  }

  /** The value a populated widget ends up with: the asked-for name if it is listed. */
  function ChosenValue(names: seq<string>, selected: Option<string>): (r: string) {
    if selected.Some? && selected.value in names then selected.value else ""
  }

  /** Adding a name at the end of the list adds its entry at the end. */
  lemma NameEntriesSnoc(build: Build, names: seq<string>, name: string, selected: Option<string>)
    ensures NameEntries(build, names + [name], selected)
            == NameEntries(build, names, selected) + [OptionEntry(name, name, false, Marks(build, selected, name))]
  {
  }

  /** The entries for one more name of `names` add that name's entry. */
  lemma NameEntriesPrefix(build: Build, names: seq<string>, i: nat, selected: Option<string>)
    requires i < |names|
    ensures NameEntries(build, names[..i + 1], selected)
            == NameEntries(build, names[..i], selected) + [OptionEntry(names[i], names[i], false, Marks(build, selected, names[i]))]
  {
    assert names[..i + 1] == names[..i] + [names[i]];
    NameEntriesSnoc(build, names[..i], names[i], selected);
  }

  /** Adding a name at the end of the list adds its option at the end. */
  lemma OptionListSnoc(build: Build, text: string, names: seq<string>, name: string, selected: Option<string>)
    ensures OptionList(build, text, names + [name], selected)
            == OptionList(build, text, names, selected) + [OptionEntry(name, name, false, Marks(build, selected, name))]
  {
    NameEntriesSnoc(build, names, name, selected);
  }

  /** Appending an option changes the shown value only when that option is selected. */
  lemma SelectedValueSnoc(options: seq<OptionEntry>, e: OptionEntry)
    ensures SelectedValue(options + [e]) == if e.selected then e.value else SelectedValue(options)
  {
    assert (options + [e])[..|options|] == options;
  }

  /** Listing one more name makes it the chosen value exactly when it was asked for. */
  lemma ChosenValueSnoc(names: seq<string>, name: string, selected: Option<string>)
    ensures ChosenValue(names + [name], selected) == if selected == Some(name) then name else ChosenValue(names, selected)
  {
    if selected.Some? {
      assert selected.value in names + [name] <==> selected.value in names || selected.value == name;
    }
  }

  /** With no names listed, the widget shows the placeholder's value "". */
  lemma OptionListValueEmpty(build: Build, text: string, selected: Option<string>)
    ensures SelectedValue(OptionList(build, text, [], selected)) == ChosenValue([], selected)
  {
    assert OptionList(build, text, [], selected) == [] + [PlaceholderEntry(text)];
    SelectedValueSnoc([], PlaceholderEntry(text));
  }

  /** One more listed name keeps the shown value equal to the chosen one. */
  lemma OptionListValueSnoc(build: Build, text: string, front: seq<string>, last: string, selected: Option<string>)
    requires SelectedValue(OptionList(build, text, front, selected)) == ChosenValue(front, selected)
    ensures SelectedValue(OptionList(build, text, front + [last], selected)) == ChosenValue(front + [last], selected)
  {
    var e := OptionEntry(last, last, false, Marks(build, selected, last));
    OptionListSnoc(build, text, front, last, selected);
    SelectedValueSnoc(OptionList(build, text, front, selected), e);
    ChosenValueSnoc(front, last, selected);
  }

  /** A non-empty sequence is its front followed by its last element. */
  lemma SplitLast<T>(s: seq<T>)
    requires s != []
    ensures s == s[..|s| - 1] + [s[|s| - 1]]
  {
  }

  /** A populated widget shows the asked-for name when listed, otherwise the placeholder. */
  lemma {:induction false} OptionListValue(build: Build, text: string, names: seq<string>, selected: Option<string>)
    ensures SelectedValue(OptionList(build, text, names, selected)) == ChosenValue(names, selected)
  {
    if names == [] {
      OptionListValueEmpty(build, text, selected);
    } else {
      var front, last := names[..|names| - 1], names[|names| - 1];
      OptionListValue(build, text, front, selected);
      OptionListValueSnoc(build, text, front, last, selected);
      SplitLast(names);
    }
  }

  /** A `<select>` element: its options and the value it currently shows. */
  class SelectElement {
    var options: seq<OptionEntry>
    var value: string

    constructor (options: seq<OptionEntry>, value: string)
      ensures this.options == options && this.value == value
    {
      this.options := options;
      this.value := value;
    }

    /** `el.innerHTML = ""` */
    method Clear()
      modifies this
      ensures options == [] && value == ""
    {
      options := [];
      value := "";
    }

    /** `el.appendChild(opt)`: an appended option that is selected becomes the shown one. */
    method AppendChild(opt: OptionEntry)
      modifies this
      ensures options == old(options) + [opt]
      ensures value == if opt.selected then opt.value else old(value)
    {
      options := options + [opt];
      if opt.selected {
        value := opt.value;
      }
    }
  }

  predicate HasElements(options: Option<SelectOptions>) {
    options.Some? && options.value.provinceEl != null && options.value.districtEl != null
    && options.value.subDistrictEl != null
  }

  ghost function Elements(options: Option<SelectOptions>): set<object> {
    if HasElements(options) then {options.value.provinceEl, options.value.districtEl, options.value.subDistrictEl}
    else {}
  }

  ghost predicate DistinctElements(options: Option<SelectOptions>) {
    HasElements(options) ==>
      && options.value.provinceEl != options.value.districtEl
      && options.value.provinceEl != options.value.subDistrictEl
      && options.value.districtEl != options.value.subDistrictEl
  }

  /** All three parts of a value are set. */
  predicate IsComplete(v: CurrentValue) {
    v.province.Some? && v.district.Some? && v.subDistrict.Some?
  }

  class ThaiAddressSelect {
    const provinceEl: SelectElement
    const districtEl: SelectElement
    const subDistrictEl: SelectElement
    const placeholder: Placeholders
    const dataOverride: Option<FilterAddress.ThaiAddressData>
    const build: Build
    /** The records store's dataset, which the store functions read. */
    const store: seq<Records.Province>
    /** Thai collation, as used by the store's sorts. */
    const le: (string, string) -> bool
    /** Every event dispatched on the controller, oldest first. */
    var log: seq<Event>
    /** Whether the controller's "change" listener is attached to each widget. */
    var provinceListening: bool
    var districtListening: bool
    var subDistrictListening: bool

    ghost predicate Valid() {
      && provinceEl != districtEl && provinceEl != subDistrictEl && districtEl != subDistrictEl
      && TotalPreorder(le)
      && (build == Compiled ==> dataOverride.None?)
    }

    /** `el` holds the placeholder alone, shown. */
    ghost predicate ShowsOnlyPlaceholder(el: SelectElement, text: string)
      reads el
    {
      el.options == [PlaceholderEntry(text)] && el.value == ""
    }

    /** `el` holds the placeholder and one option per name, showing the chosen one. */
    ghost predicate Shows(el: SelectElement, text: string, names: seq<string>, selected: Option<string>)
      reads el
    {
      el.options == OptionList(build, text, names, selected) && el.value == ChosenValue(names, selected)
    }

    /**
     * The widgets show `v` as `setValue` and `init` both leave them, apart from the
     * sub-district widget when a province but no district is given.
     */
    ghost predicate ShowsValue(v: AddressValue)
      requires Valid()
      reads provinceEl, districtEl, subDistrictEl
    {
      && Shows(provinceEl, placeholder.province, AllProvinces(), v.province)
      && (Truthy(v.province) ==> Shows(districtEl, placeholder.district, DistrictsFor(v.province.value), v.district))
      && (!Truthy(v.province) ==> ShowsOnlyPlaceholder(districtEl, placeholder.district))
      && (Truthy(v.province) && Truthy(v.district) ==>
            Shows(subDistrictEl, placeholder.subDistrict, SubDistrictsFor(v.province.value, v.district.value), v.subDistrict))
      && (!Truthy(v.province) ==> ShowsOnlyPlaceholder(subDistrictEl, placeholder.subDistrict))
    }

    /** `new ThaiAddressSelect(options)` once the elements are known to be present. */
    constructor (provinceEl: SelectElement, districtEl: SelectElement, subDistrictEl: SelectElement,
                 placeholder: Placeholders, dataOverride: Option<FilterAddress.ThaiAddressData>, build: Build,
                 store: seq<Records.Province>, le: (string, string) -> bool, initialValue: Option<AddressValue>)
      requires provinceEl != districtEl && provinceEl != subDistrictEl && districtEl != subDistrictEl
      requires TotalPreorder(le)
      requires build == Compiled ==> dataOverride.None?
      modifies provinceEl, districtEl, subDistrictEl
      ensures Valid()
      ensures this.provinceEl == provinceEl && this.districtEl == districtEl && this.subDistrictEl == subDistrictEl
      ensures this.placeholder == placeholder && this.dataOverride == dataOverride && this.build == build
      ensures this.store == store && this.le == le
      ensures log == [] && provinceListening && districtListening && subDistrictListening
      ensures ShowsValue(initialValue.GetOr(NoValue))
      ensures var v := initialValue.GetOr(NoValue);
              Truthy(v.province) && !Truthy(v.district) ==>
                unchanged(subDistrictEl)
    {
      this.provinceEl := provinceEl;
      this.districtEl := districtEl;
      this.subDistrictEl := subDistrictEl;
      this.placeholder := placeholder;
      this.dataOverride := dataOverride;
      this.build := build;
      this.store := store;
      this.le := le;
      log := [];
      provinceListening, districtListening, subDistrictListening := false, false, false;
      new;
      ghost var v := initialValue.GetOr(NoValue);
      Init(initialValue);
      ghost var shown := ShowsValue(v);
      assert shown;
      AttachListeners();
      assert shown == ShowsValue(v);
    }

    /**
     * The TypeScript constructor: throws unless the options and all three elements
     * are given, then resolves the placeholders, populates the widgets and listens.
     */
    static method Create(options: Option<SelectOptions>, build: Build, store: seq<Records.Province>,
                         le: (string, string) -> bool) returns (r: Result<ThaiAddressSelect, string>)
      requires TotalPreorder(le)
      requires DistinctElements(options)
      modifies Elements(options)
      ensures r.Failure? <==> !HasElements(options)
      ensures r.Failure? ==> r.error == MissingElementsMessage
      ensures r.Success? ==>
                var c, o := r.value, options.value;
                && fresh(c) && c.Valid()
                && c.provinceEl == o.provinceEl && c.districtEl == o.districtEl && c.subDistrictEl == o.subDistrictEl
                && c.placeholder == ResolvePlaceholders(o.placeholder)
                && c.dataOverride == (if build == Source then o.data else None)
                && c.build == build && c.store == store && c.le == le
                && c.log == [] && c.provinceListening && c.districtListening && c.subDistrictListening
                && c.ShowsValue(o.initialValue.GetOr(NoValue))
      ensures r.Success? ==>
                var o, v := options.value, options.value.initialValue.GetOr(NoValue);
                Truthy(v.province) && !Truthy(v.district) ==> unchanged(o.subDistrictEl)
    {
      if !HasElements(options) {
        return Failure(MissingElementsMessage);
      }
      var o := options.value;
      var c := new ThaiAddressSelect(o.provinceEl, o.districtEl, o.subDistrictEl, ResolvePlaceholders(o.placeholder),
                                     if build == Source then o.data else None, build, store, le, o.initialValue);
      ghost var v := o.initialValue.GetOr(NoValue);
      assert Truthy(v.province) && !Truthy(v.district) ==> unchanged(o.subDistrictEl);
      r := Success(c);
    }

    /** The compiled constructor: the same checks, and `options.data` is not read. */
    static method CreateCompiled(options: Option<SelectOptions>, store: seq<Records.Province>,
                                 le: (string, string) -> bool) returns (r: Result<ThaiAddressSelect, string>)
      requires TotalPreorder(le)
      requires DistinctElements(options)
      modifies Elements(options)
      ensures r.Failure? <==> !HasElements(options)
      ensures r.Failure? ==> r.error == MissingElementsMessage
      ensures r.Success? ==>
                var c, o := r.value, options.value;
                && fresh(c) && c.Valid() && c.build == Compiled && c.dataOverride == None
                && c.provinceEl == o.provinceEl && c.districtEl == o.districtEl && c.subDistrictEl == o.subDistrictEl
                && c.placeholder == ResolvePlaceholders(o.placeholder)
                && c.store == store && c.le == le
                && c.log == [] && c.provinceListening && c.districtListening && c.subDistrictListening
                && c.ShowsValue(o.initialValue.GetOr(NoValue))
      ensures r.Success? ==>
                var o, v := options.value, options.value.initialValue.GetOr(NoValue);
                Truthy(v.province) && !Truthy(v.district) ==> unchanged(o.subDistrictEl)
    {
      r := Create(options, Compiled, store, le);
    }

    /** `allProvinces()`: the override's keys as they stand, or the store's sorted list. */
    function AllProvinces(): (r: seq<string>)
      requires Valid()
      ensures dataOverride.Some? ==> r == dataOverride.value.keys && NoDuplicates(r)
      ensures dataOverride.Some? ==> forall p :: p in r <==> p in dataOverride.value.entries
      ensures dataOverride.None? ==> Sorted(le, r) && multiset(r) == multiset(Records.ProvinceNames(store))
    {
      match dataOverride
      case Some(d) => d.keys
      case None => Records.GetProvinces(le, store)
    }

    /** `districtsFor(province)` */
    function DistrictsFor(province: string): (r: seq<string>)
      requires Valid()
      ensures province == "" ==> r == []
      ensures province != "" && dataOverride.Some? && province !in dataOverride.value.entries ==> r == []
      ensures province != "" && dataOverride.Some? && province in dataOverride.value.entries ==>
                r == dataOverride.value.entries[province].keys && NoDuplicates(r)
      ensures province != "" && dataOverride.None? ==>
                Sorted(le, r) && r == Records.GetDistricts(le, store, province)
    {
      if province == "" then []
      else match dataOverride
        case Some(d) => if province in d.entries then d.entries[province].keys else []
        case None => Records.GetDistricts(le, store, province)
    }

    /** `subDistrictsFor(province, district)` */
    function SubDistrictsFor(province: string, district: string): (r: seq<string>)
      requires Valid()
      ensures province == "" || district == "" ==> r == []
      ensures province != "" && district != "" && dataOverride.Some? ==>
                r == (if province in dataOverride.value.entries && district in dataOverride.value.entries[province].entries
                      then dataOverride.value.entries[province].entries[district] else [])
      ensures province != "" && district != "" && dataOverride.None? ==>
                Sorted(le, r) && r == Records.GetSubDistricts(le, store, province, district)
    {
      if province == "" || district == "" then []
      else match dataOverride
        case Some(d) =>
          if province in d.entries && district in d.entries[province].entries then d.entries[province].entries[district]
          else []
        case None => Records.GetSubDistricts(le, store, province, district)
    }

    /** In the compiled build every lookup goes to the store. */
    lemma CompiledLookupsUseStore(province: string, district: string)
      requires Valid() && build == Compiled
      ensures AllProvinces() == Records.GetProvinces(le, store)
      ensures province != "" ==> DistrictsFor(province) == Records.GetDistricts(le, store, province)
      ensures province != "" && district != "" ==>
                SubDistrictsFor(province, district) == Records.GetSubDistricts(le, store, province, district)
    {
    }

    /** The `forEach` loop of the `populate*` methods: one option per name, in order. */
    method AppendNames(el: SelectElement, names: seq<string>, selected: Option<string>)
      requires el.value == SelectedValue(el.options)
      modifies el
      ensures el.options == old(el.options) + NameEntries(build, names, selected)
      ensures el.value == SelectedValue(el.options)
    {
      var i := 0;
      while i < |names|
        invariant 0 <= i <= |names|
        invariant el.options == old(el.options) + NameEntries(build, names[..i], selected)
        invariant el.value == SelectedValue(el.options)
      {
        var opt := OptionEntry(names[i], names[i], false, Marks(build, selected, names[i]));
        ghost var before := el.options;
        el.AppendChild(opt);
        SelectedValueSnoc(before, opt);
        NameEntriesPrefix(build, names, i, selected);
        i := i + 1;
      }
      assert names[..|names|] == names;
    }

    /** `clearSelect` then `addPlaceholder` on `el`. */
    method Reset(el: SelectElement, text: string)
      modifies el
      ensures ShowsOnlyPlaceholder(el, text)
    {
      el.Clear();
      el.AppendChild(PlaceholderEntry(text));
    }

    /** `populateProvinces(selected)` */
    method PopulateProvinces(selected: Option<string>)
      requires Valid()
      modifies provinceEl
      ensures Shows(provinceEl, placeholder.province, AllProvinces(), selected)
    {
      Reset(provinceEl, placeholder.province);
      AppendNames(provinceEl, AllProvinces(), selected);
      OptionListValue(build, placeholder.province, AllProvinces(), selected);
    }

    /** `populateDistricts(province, selected)` */
    method PopulateDistricts(province: Option<string>, selected: Option<string>)
      requires Valid()
      modifies districtEl
      ensures Truthy(province) ==> Shows(districtEl, placeholder.district, DistrictsFor(province.value), selected)
      ensures !Truthy(province) ==> ShowsOnlyPlaceholder(districtEl, placeholder.district)
    {
      Reset(districtEl, placeholder.district);
      if !Truthy(province) {
        return;
      }
      AppendNames(districtEl, DistrictsFor(province.value), selected);
      OptionListValue(build, placeholder.district, DistrictsFor(province.value), selected);
    }

    /** `populateSubDistricts(province, district, selected)` */
    method PopulateSubDistricts(province: Option<string>, district: Option<string>, selected: Option<string>)
      requires Valid()
      modifies subDistrictEl
      ensures Truthy(province) && Truthy(district) ==>
                Shows(subDistrictEl, placeholder.subDistrict, SubDistrictsFor(province.value, district.value), selected)
      ensures !(Truthy(province) && Truthy(district)) ==> ShowsOnlyPlaceholder(subDistrictEl, placeholder.subDistrict)
    {
      Reset(subDistrictEl, placeholder.subDistrict);
      if !Truthy(province) || !Truthy(district) {
        return;
      }
      var names := SubDistrictsFor(province.value, district.value);
      AppendNames(subDistrictEl, names, selected);
      OptionListValue(build, placeholder.subDistrict, names, selected);
    }

    /** `attachListeners()` */
    method AttachListeners()
      modifies this`provinceListening, this`districtListening, this`subDistrictListening
      ensures provinceListening && districtListening && subDistrictListening
    {
      provinceListening, districtListening, subDistrictListening := true, true, true;
    }

    /** `destroy()`: detaches exactly the three listeners; calling it again changes nothing. */
    method Destroy()
      modifies this`provinceListening, this`districtListening, this`subDistrictListening
      ensures !provinceListening && !districtListening && !subDistrictListening
    {
      provinceListening, districtListening, subDistrictListening := false, false, false;
    }

    /** `getValue()`: empty widget values read as missing; the postal code needs all three. */
    function GetValue(): (r: CurrentValue)
      reads provinceEl, districtEl, subDistrictEl
      ensures r.province == OrUndefined(provinceEl.value)
      ensures r.district == OrUndefined(districtEl.value)
      ensures r.subDistrict == OrUndefined(subDistrictEl.value)
      ensures !IsComplete(r) ==> r.zipCode == None
      ensures IsComplete(r) ==>
                r.zipCode == Records.GetZipCode(store, provinceEl.value, districtEl.value, subDistrictEl.value)
    {
      var province := OrUndefined(provinceEl.value);
      var district := OrUndefined(districtEl.value);
      var subDistrict := OrUndefined(subDistrictEl.value);
      var zipCode :=
        if province.Some? && district.Some? && subDistrict.Some?
        then Records.GetZipCode(store, province.value, district.value, subDistrict.value)
        else None;
      CurrentValue(province, district, subDistrict, zipCode)
    }

    /** `emitSelectIfComplete()`: `selectChange` exactly when all three values are set. */
    method EmitSelectIfComplete()
      modifies this`log
      ensures log == old(log) + (if IsComplete(GetValue()) then [SelectChange(GetValue())] else [])
    {
      var value := GetValue();
      if value.province.Some? && value.district.Some? && value.subDistrict.Some? {
        log := log + [SelectChange(value)];
      }
    }

    /**
     * `onProvinceChange`: districts scoped to the new province, sub-districts back to
     * the placeholder, one `provinceChange` and never a `selectChange`.
     */
    method OnProvinceChange()
      requires Valid()
      modifies districtEl, subDistrictEl, this`log
      ensures unchanged(provinceEl)
      ensures provinceEl.value != "" ==> Shows(districtEl, placeholder.district, DistrictsFor(provinceEl.value), None)
      ensures provinceEl.value == "" ==> ShowsOnlyPlaceholder(districtEl, placeholder.district)
      ensures ShowsOnlyPlaceholder(subDistrictEl, placeholder.subDistrict)
      ensures log == old(log) + [ProvinceChange(OrUndefined(provinceEl.value))]
    {
      var province := OrUndefined(provinceEl.value);
      PopulateDistricts(province, None);
      PopulateSubDistricts(None, None, None);
      log := log + [ProvinceChange(province)];
      EmitSelectIfComplete();
    }

    /**
     * `onDistrictChange`: sub-districts scoped to the province and the new district,
     * one `districtChange` and never a `selectChange`.
     */
    method OnDistrictChange()
      requires Valid()
      modifies subDistrictEl, this`log
      ensures unchanged(provinceEl, districtEl)
      ensures provinceEl.value != "" && districtEl.value != "" ==>
                Shows(subDistrictEl, placeholder.subDistrict, SubDistrictsFor(provinceEl.value, districtEl.value), None)
      ensures provinceEl.value == "" || districtEl.value == "" ==>
                ShowsOnlyPlaceholder(subDistrictEl, placeholder.subDistrict)
      ensures log == old(log) + [DistrictChange(OrUndefined(provinceEl.value), OrUndefined(districtEl.value))]
    {
      var district := OrUndefined(districtEl.value);
      var province := OrUndefined(provinceEl.value);
      PopulateSubDistricts(province, district, None);
      log := log + [DistrictChange(province, district)];
      EmitSelectIfComplete();
    }

    /** `onSubDistrictChange`: no widget changes; `selectChange` follows when all three are set. */
    method OnSubDistrictChange()
      requires Valid()
      modifies this`log
      ensures log == old(log)
                     + [SubDistrictChange(OrUndefined(provinceEl.value), OrUndefined(districtEl.value),
                                          OrUndefined(subDistrictEl.value))]
                     + (if provinceEl.value != "" && districtEl.value != "" && subDistrictEl.value != ""
                        then [SelectChange(GetValue())] else [])
    {
      var subDistrict := OrUndefined(subDistrictEl.value);
      var province := OrUndefined(provinceEl.value);
      var district := OrUndefined(districtEl.value);
      log := log + [SubDistrictChange(province, district, subDistrict)];
      EmitSelectIfComplete();
    }

    /** The province widget fires "change": the controller reacts only while listening. */
    method ProvinceWidgetChanged()
      requires Valid()
      modifies districtEl, subDistrictEl, this`log
      ensures !provinceListening ==> unchanged(districtEl, subDistrictEl) && log == old(log)
      ensures provinceListening ==>
                && (provinceEl.value != "" ==> Shows(districtEl, placeholder.district, DistrictsFor(provinceEl.value), None))
                && (provinceEl.value == "" ==> ShowsOnlyPlaceholder(districtEl, placeholder.district))
                && ShowsOnlyPlaceholder(subDistrictEl, placeholder.subDistrict)
                && log == old(log) + [ProvinceChange(OrUndefined(provinceEl.value))]
    {
      if provinceListening {
        OnProvinceChange();
      }
    }

    /** The district widget fires "change". */
    method DistrictWidgetChanged()
      requires Valid()
      modifies subDistrictEl, this`log
      ensures !districtListening ==> unchanged(subDistrictEl) && log == old(log)
      ensures districtListening ==>
                && (provinceEl.value != "" && districtEl.value != "" ==>
                      Shows(subDistrictEl, placeholder.subDistrict, SubDistrictsFor(provinceEl.value, districtEl.value), None))
                && (provinceEl.value == "" || districtEl.value == "" ==>
                      ShowsOnlyPlaceholder(subDistrictEl, placeholder.subDistrict))
                && log == old(log) + [DistrictChange(OrUndefined(provinceEl.value), OrUndefined(districtEl.value))]
    {
      if districtListening {
        OnDistrictChange();
      }
    }

    /** The sub-district widget fires "change". */
    method SubDistrictWidgetChanged()
      requires Valid()
      modifies this`log
      ensures !subDistrictListening ==> log == old(log)
      ensures subDistrictListening ==>
                log == old(log)
                       + [SubDistrictChange(OrUndefined(provinceEl.value), OrUndefined(districtEl.value),
                                            OrUndefined(subDistrictEl.value))]
                       + (if IsComplete(GetValue()) then [SelectChange(GetValue())] else [])
    {
      if subDistrictListening {
        OnSubDistrictChange();
      }
    }

    /**
     * `setValue(value)`: repopulates all three widgets for the triple and dispatches
     * nothing; a triple that is listed at every level reads back from `getValue()`.
     */
    method SetValue(value: Option<AddressValue>)
      requires Valid()
      modifies provinceEl, districtEl, subDistrictEl
      ensures ShowsValue(value.GetOr(NoValue))
      ensures var v := value.GetOr(NoValue);
              Truthy(v.province) && !Truthy(v.district) ==> ShowsOnlyPlaceholder(subDistrictEl, placeholder.subDistrict)
      ensures log == old(log)
      ensures var v := value.GetOr(NoValue);
              && Truthy(v.province) && v.province.value in AllProvinces()
              && Truthy(v.district) && v.district.value in DistrictsFor(v.province.value)
              && Truthy(v.subDistrict) && v.subDistrict.value in SubDistrictsFor(v.province.value, v.district.value)
              ==> GetValue() == CurrentValue(v.province, v.district, v.subDistrict,
                                             Records.GetZipCode(store, v.province.value, v.district.value, v.subDistrict.value))
    {
      var v := value.GetOr(NoValue);
      PopulateProvinces(v.province);
      if Truthy(v.province) {
        PopulateDistricts(v.province, v.district);
        if Truthy(v.district) {
          PopulateSubDistricts(v.province, v.district, v.subDistrict);
        } else {
          PopulateSubDistricts(None, None, None);
        }
      } else {
        PopulateDistricts(None, None);
        PopulateSubDistricts(None, None, None);
      }
    }

    /** `init(initial)`: as `setValue`, but a province without a district leaves the sub-district widget alone. */
    method Init(initial: Option<AddressValue>)
      requires Valid()
      modifies provinceEl, districtEl, subDistrictEl
      ensures ShowsValue(initial.GetOr(NoValue))
      ensures var v := initial.GetOr(NoValue);
              Truthy(v.province) && !Truthy(v.district) ==> unchanged(subDistrictEl)
    {
      var v := initial.GetOr(NoValue);
      PopulateProvinces(v.province);
      if Truthy(v.province) {
        PopulateDistricts(v.province, v.district);
        if Truthy(v.district) {
          PopulateSubDistricts(v.province, v.district, v.subDistrict);
        }
      } else {
        PopulateDistricts(None, None);
        PopulateSubDistricts(None, None, None);
      }
    }
  }
}
