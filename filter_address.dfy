/**
 * The address store of `src/utils/filterAddress.ts`: a nested keyed mapping
 * province -> district -> sub-district names, and the four queries over it.
 * The module-level `data` is passed to every query as a parameter.
 */
module FilterAddress {
  import opened Collation
  import opened Text

  /**
   * A JavaScript object with string keys: `keys` lists them in `Object.keys`
   * order, without repeats, and `entries` maps each key to its value.
   */
  datatype Dict<V> = Dict(keys: seq<string>, entries: map<string, V>) {
    ghost predicate Valid() {
      NoDuplicates(keys) && forall k :: k in entries <==> k in keys
    }
  }

  type Record<V> = d: Dict<V> | d.Valid() witness Dict([], map[])

  /** `ThaiAddressData`: province -> district -> list of sub-district names. */
  type ThaiAddressData = Record<Record<seq<string>>>

  /** The value of `data` until `loadData` has run: `{}`. */
  const EmptyData: ThaiAddressData := Dict([], map[])

  /** `getProvinces()`: the keys of the dataset, sorted. */
  function GetProvinces(le: (string, string) -> bool, data: ThaiAddressData): (r: seq<string>)
    requires TotalPreorder(le)
    ensures Sorted(le, r)
    ensures multiset(r) == multiset(data.keys)
    ensures forall p :: p in r <==> p in data.entries
    ensures NoDuplicates(r)
  {
    var r := SortBy(le, data.keys);
    PermutationKeepsNoDuplicates(data.keys, r);
    assert forall p :: p in r <==> p in multiset(data.keys);
    r
  }

  /** `getDistricts(province)`: the district keys of one province, sorted. */
  function GetDistricts(le: (string, string) -> bool, data: ThaiAddressData, province: string): (r: seq<string>)
    requires TotalPreorder(le)
    ensures province == "" || province !in data.entries ==> r == []
    ensures province != "" && province in data.entries ==>
              && Sorted(le, r)
              && multiset(r) == multiset(data.entries[province].keys)
              && (forall d :: d in r <==> d in data.entries[province].entries)
              && NoDuplicates(r)
  {
    if province == "" || province !in data.entries then []
    else
      var keys := data.entries[province].keys;
      var r := SortBy(le, keys);
      PermutationKeepsNoDuplicates(keys, r);
      assert forall d :: d in r <==> d in multiset(keys);
      r
  }

  /**
   * `getSubDistricts(province, district)`: the stored list of one district, sorted
   * (a sorted copy: the stored list is a value and stays as it was).
   */
  function GetSubDistricts(le: (string, string) -> bool, data: ThaiAddressData, province: string, district: string): (r: seq<string>)
    requires TotalPreorder(le)
    ensures province == "" || district == "" || province !in data.entries ==> r == []
    ensures (province != "" && district != "" && province in data.entries
             && district !in data.entries[province].entries) ==> r == []
    ensures (province != "" && district != "" && province in data.entries
             && district in data.entries[province].entries) ==>
              Sorted(le, r) && multiset(r) == multiset(data.entries[province].entries[district])
  {
    if province == "" || district == "" then []
    else if province !in data.entries then []
    else
      var p := data.entries[province];
      SortBy(le, if district in p.entries then p.entries[district] else [])
  }

  /** `findProvinceByName(q)`: the provinces whose name includes the trimmed query. */
  function FindProvinceByName(le: (string, string) -> bool, data: ThaiAddressData, q: string): (r: seq<string>)
    requires TotalPreorder(le)
    ensures q == "" ==> r == []
    ensures q != "" ==> forall p :: p in r <==> p in data.entries && Contains(p, Trim(q))
    ensures q != "" ==> IsSubsequence(r, GetProvinces(le, data))
    ensures NoDuplicates(r)
  {
    if q == "" then []
    else
      var all := GetProvinces(le, data);
      var r := FilterContaining(all, Trim(q));
      FilterIsSubsequence(all, Trim(q));
      NoDuplicatesByCount(all);
      NoDuplicatesByCount(r);
      r
  }

  /** A query that is only whitespace trims to "", which every province includes. */
  lemma BlankQueryListsAll(le: (string, string) -> bool, data: ThaiAddressData, q: string)
    requires TotalPreorder(le)
    requires q != "" && Trim(q) == ""
    ensures FindProvinceByName(le, data, q) == GetProvinces(le, data)
  {
    FilterEmptyQuery(GetProvinces(le, data));
  }

  /** Before the dataset is loaded every query answers with nothing. */
  lemma EmptyDataAnswersNothing(le: (string, string) -> bool, province: string, district: string, q: string)
    requires TotalPreorder(le)
    ensures GetProvinces(le, EmptyData) == []
    ensures GetDistricts(le, EmptyData, province) == []
    ensures GetSubDistricts(le, EmptyData, province, district) == []
    ensures FindProvinceByName(le, EmptyData, q) == []
  {
    var all := GetProvinces(le, EmptyData);
    assert |all| == |multiset(all)| == 0;
  }
}
