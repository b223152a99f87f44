/**
 * The address store of `dist/src/utils/filterAddress.js`: an ordered list of
 * province records, each nesting district records, each nesting sub-district
 * records with a postal code. The module-level `rawData` is passed to every
 * query as a parameter. A record whose `districts` or `sub_districts` field is
 * missing is modelled with an empty list: every query answers the same for both.
 */
module FilterAddressRecords {
  import opened Wrappers
  import opened Collation
  import opened Text

  /** `zip_code` is normalised to a string; `None` when the record has none. */
  datatype SubDistrict = SubDistrict(nameTh: string, zipCode: Option<string>)
  datatype District = District(nameTh: string, subDistricts: seq<SubDistrict>)
  datatype Province = Province(nameTh: string, districts: seq<District>)

  function ProvinceNames(data: seq<Province>): (r: seq<string>)
    ensures |r| == |data| && forall i :: 0 <= i < |data| ==> r[i] == data[i].nameTh
  {
    seq(|data|, i requires 0 <= i < |data| => data[i].nameTh)
  }

  function DistrictNames(ds: seq<District>): (r: seq<string>)
    ensures |r| == |ds| && forall i :: 0 <= i < |ds| ==> r[i] == ds[i].nameTh
  {
    seq(|ds|, i requires 0 <= i < |ds| => ds[i].nameTh)
  }

  function SubDistrictNames(ss: seq<SubDistrict>): (r: seq<string>)
    ensures |r| == |ss| && forall i :: 0 <= i < |ss| ==> r[i] == ss[i].nameTh
  {
    seq(|ss|, i requires 0 <= i < |ss| => ss[i].nameTh)
  }

  /** `i` is the first position of `name` in `names`. */
  ghost predicate IsFirstIndex(names: seq<string>, name: string, i: int) {
    0 <= i < |names| && names[i] == name && name !in names[..i]
  }

  /** `records.find(x => x.name_th === name)`, as the position of the record found. */
  function FirstIndex(names: seq<string>, name: string): (r: Option<nat>)
    ensures r.None? <==> name !in names
    ensures r.Some? ==> IsFirstIndex(names, name, r.value)
  {
    if names == [] then None
    else if names[0] == name then Some(0)
    else
      match FirstIndex(names[1..], name)
      case None => None
      case Some(i) =>
        assert names[..i + 1] == [names[0]] + names[1..][..i];
        Some(i + 1)
  }

  lemma FirstIndexUnique(names: seq<string>, name: string, i: int, j: int)
    requires IsFirstIndex(names, name, i) && IsFirstIndex(names, name, j)
    ensures i == j
  {
  }

  /** `getProvinces()`: every record's name, sorted; repeated names are kept. */
  function GetProvinces(le: (string, string) -> bool, data: seq<Province>): (r: seq<string>)
    requires TotalPreorder(le)
    ensures Sorted(le, r)
    ensures multiset(r) == multiset(ProvinceNames(data))
    ensures |r| == |data|
  {
    SortBy(le, ProvinceNames(data))
  }

  /** `getDistricts(province)`: the district names of the first record with that name, sorted. */
  function GetDistricts(le: (string, string) -> bool, data: seq<Province>, province: string): (r: seq<string>)
    requires TotalPreorder(le)
    ensures province !in ProvinceNames(data) ==> r == []
    ensures forall i :: IsFirstIndex(ProvinceNames(data), province, i) ==>
              Sorted(le, r) && multiset(r) == multiset(DistrictNames(data[i].districts))
  {
    match FirstIndex(ProvinceNames(data), province)
    case None => []
    case Some(i) =>
      assert forall i' :: IsFirstIndex(ProvinceNames(data), province, i') ==> i' == i by {
        forall i' | IsFirstIndex(ProvinceNames(data), province, i') ensures i' == i {
          FirstIndexUnique(ProvinceNames(data), province, i, i');
        }
      }
      SortBy(le, DistrictNames(data[i].districts))
  }

  /**
   * `getSubDistricts(province, district)`: the sub-district names of the first
   * matching district of the first matching province, sorted.
   */
  function GetSubDistricts(le: (string, string) -> bool, data: seq<Province>, province: string, district: string): (r: seq<string>)
    requires TotalPreorder(le)
    ensures province !in ProvinceNames(data) ==> r == []
    ensures forall i :: IsFirstIndex(ProvinceNames(data), province, i) ==>
              (district !in DistrictNames(data[i].districts) ==> r == [])
    ensures forall i, j :: IsFirstIndex(ProvinceNames(data), province, i)
                           && IsFirstIndex(DistrictNames(data[i].districts), district, j) ==>
              Sorted(le, r) && multiset(r) == multiset(SubDistrictNames(data[i].districts[j].subDistricts))
  {
    match FirstIndex(ProvinceNames(data), province)
    case None => []
    case Some(i) =>
      FirstUniqueAll(ProvinceNames(data), province, i);
      var ds := data[i].districts;
      match FirstIndex(DistrictNames(ds), district)
      case None => []
      case Some(j) =>
        FirstUniqueAll(DistrictNames(ds), district, j);
        SortBy(le, SubDistrictNames(ds[j].subDistricts))
  }

  /** `getzip_code(province, district, subDistrict)`: exact three-level lookup. */
  function GetZipCode(data: seq<Province>, province: string, district: string, subDistrict: string): (r: Option<string>)
    ensures province !in ProvinceNames(data) ==> r == None
    ensures forall i :: IsFirstIndex(ProvinceNames(data), province, i) ==>
              (district !in DistrictNames(data[i].districts) ==> r == None)
    ensures forall i, j :: IsFirstIndex(ProvinceNames(data), province, i)
                           && IsFirstIndex(DistrictNames(data[i].districts), district, j) ==>
              (subDistrict !in SubDistrictNames(data[i].districts[j].subDistricts) ==> r == None)
    ensures forall i, j, k :: IsFirstIndex(ProvinceNames(data), province, i)
                              && IsFirstIndex(DistrictNames(data[i].districts), district, j)
                              && IsFirstIndex(SubDistrictNames(data[i].districts[j].subDistricts), subDistrict, k) ==>
              r == data[i].districts[j].subDistricts[k].zipCode
  {
    match FirstIndex(ProvinceNames(data), province)
    case None => None
    case Some(i) =>
      FirstUniqueAll(ProvinceNames(data), province, i);
      var ds := data[i].districts;
      match FirstIndex(DistrictNames(ds), district)
      case None => None
      case Some(j) =>
        FirstUniqueAll(DistrictNames(ds), district, j);
        var ss := ds[j].subDistricts;
        match FirstIndex(SubDistrictNames(ss), subDistrict)
        case None => None
        case Some(k) =>
          FirstUniqueAll(SubDistrictNames(ss), subDistrict, k);
          ss[k].zipCode
  }

  lemma FirstUniqueAll(names: seq<string>, name: string, i: int)
    requires IsFirstIndex(names, name, i)
    ensures forall i' :: IsFirstIndex(names, name, i') ==> i' == i
  {
    forall i' | IsFirstIndex(names, name, i') ensures i' == i {
      FirstIndexUnique(names, name, i, i');
    }
  }

  /** `findProvinceByName(q)`: the `getProvinces()` entries that include the trimmed query. */
  function FindProvinceByName(le: (string, string) -> bool, data: seq<Province>, q: string): (r: seq<string>)
    requires TotalPreorder(le)
    ensures q == "" ==> r == []
    ensures q != "" ==> forall p :: p in r <==> p in ProvinceNames(data) && Contains(p, Trim(q))
    ensures q != "" ==> forall p :: multiset(r)[p] == if Contains(p, Trim(q)) then multiset(ProvinceNames(data))[p] else 0
    ensures q != "" ==> IsSubsequence(r, GetProvinces(le, data))
  {
    if q == "" then []
    else
      var all := GetProvinces(le, data);
      FilterIsSubsequence(all, Trim(q));
      assert forall p :: p in all <==> p in multiset(ProvinceNames(data));
      FilterContaining(all, Trim(q))
  }

  /** Names are unique within their scope (the dataset's own invariant). */
  ghost predicate WellFormed(data: seq<Province>) {
    && NoDuplicates(ProvinceNames(data))
    && (forall p :: p in data ==> NoDuplicates(DistrictNames(p.districts)))
    && (forall p, d :: p in data && d in p.districts ==> NoDuplicates(SubDistrictNames(d.subDistricts)))
  }

  /** Indices `i`, `j`, `k` name the sub-district `subDistrict` of `district` of `province`. */
  ghost predicate OnPath(data: seq<Province>, province: string, district: string, subDistrict: string, i: int, j: int, k: int) {
    && 0 <= i < |data| && data[i].nameTh == province
    && 0 <= j < |data[i].districts| && data[i].districts[j].nameTh == district
    && 0 <= k < |data[i].districts[j].subDistricts| && data[i].districts[j].subDistricts[k].nameTh == subDistrict
  }

  /** A postal code found belongs to a sub-district record on the asked path. */
  lemma ZipCodeIsOnPath(data: seq<Province>, province: string, district: string, subDistrict: string)
    ensures GetZipCode(data, province, district, subDistrict).Some? ==>
              exists i, j, k :: OnPath(data, province, district, subDistrict, i, j, k)
                                && data[i].districts[j].subDistricts[k].zipCode == GetZipCode(data, province, district, subDistrict)
  {
    var r := FirstIndex(ProvinceNames(data), province);
    if r.Some? {
      var i := r.value;
      var s := FirstIndex(DistrictNames(data[i].districts), district);
      if s.Some? {
        var j := s.value;
        var t := FirstIndex(SubDistrictNames(data[i].districts[j].subDistricts), subDistrict);
        if t.Some? {
          assert OnPath(data, province, district, subDistrict, i, j, t.value);
        }
      }
    }
  }

  /** In a dataset with unique names, every path leads to its own postal code. */
  lemma {:induction false} ZipCodeOfWellFormed(data: seq<Province>, province: string, district: string, subDistrict: string, i: int, j: int, k: int)
    requires WellFormed(data)
    requires OnPath(data, province, district, subDistrict, i, j, k)
    ensures GetZipCode(data, province, district, subDistrict) == data[i].districts[j].subDistricts[k].zipCode
  {
    FirstOfUnique(ProvinceNames(data), i);
    assert data[i] in data;
    FirstOfUnique(DistrictNames(data[i].districts), j);
    assert data[i].districts[j] in data[i].districts;
    FirstOfUnique(SubDistrictNames(data[i].districts[j].subDistricts), k);
  }

  /** In a duplicate-free sequence every position is the first of its name. */
  lemma FirstOfUnique(names: seq<string>, i: int)
    requires NoDuplicates(names) && 0 <= i < |names|
    ensures IsFirstIndex(names, names[i], i)
  {
  }

  /** The province list has no repeats exactly when no two records share a province name. */
  lemma ProvincesNoDuplicates(le: (string, string) -> bool, data: seq<Province>)
    requires TotalPreorder(le)
    ensures NoDuplicates(GetProvinces(le, data)) <==> NoDuplicates(ProvinceNames(data))
  {
    var names, sorted := ProvinceNames(data), GetProvinces(le, data);
    if NoDuplicates(names) {
      PermutationKeepsNoDuplicates(names, sorted);
    }
    if NoDuplicates(sorted) {
      PermutationKeepsNoDuplicates(sorted, names);
    }
  }
}
