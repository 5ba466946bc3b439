/** The paging and sort state of one search: a page number and size, the select list, and
    a sort list that grows by appending. */
module SearchProperty {
  import opened Php

  /** The offset of the first hit of a page. */
  function From(page: int, size: int): int {
    (page - 1) * size
  }

  /** Page 1 starts at 0 and each page starts where the previous one ends. */
  lemma FromPaging(page: int, size: int)
    ensures From(1, size) == 0
    ensures From(page + 1, size) == From(page, size) + size
  {
  }

  /** The pages tile the hits: hit `h` (from 0) lies on page `h / size + 1`. */
  lemma PageOfHit(h: nat, size: int)
    requires size > 0
    ensures From(h / size + 1, size) <= h < From(h / size + 1, size) + size
  {
    assert From(h / size + 1, size) == (h / size) * size;
  }

  /** A sort key with its direction, `[$sort => $direction]`. */
  type SortEntry = (string, string)

  /** The sorts a request's `sort` string selects, in the order they are added. */
  function RequestSorts(sortString: string): (r: seq<SortEntry>)
    ensures 1 <= |r| <= 2
    ensures forall i :: 0 <= i < |r| ==> r[i].1 == "asc" || r[i].1 == "desc"
  {
    if sortString == "popular" then [("show_counter", "desc")]
    else if sortString == "price_asc" then [("min_price", "asc")]
    else if sortString == "price_desc" then [("min_price", "desc")]
    else if sortString == "discount_asc" then [("skidka", "asc"), ("sort", "asc")]
    else if sortString == "discount_desc" then [("skidka", "desc"), ("sort", "asc")]
    else if sortString == "new" then [("first_activation", "desc")]
    else [("sort", "asc"), ("bitrixId", "desc")]
  }

  /** A request the table does not name falls back to the catalogue order. */
  lemma UnknownSortDefault(sortString: string)
    requires sortString !in ["popular", "price_asc", "price_desc", "discount_asc", "discount_desc", "new"]
    ensures RequestSorts(sortString) == [("sort", "asc"), ("bitrixId", "desc")]
  {
  }

  /** Lower-casing leaves a string without upper-case letters as it is. */
  lemma LowerOfLower(s: string)
    requires forall i :: 0 <= i < |s| ==> !('A' <= s[i] <= 'Z')
    ensures Lower(s) == s
  {
  }

  /** The sort list as the array the search request takes: one single-key array per entry. */
  function SortArray(sorts: seq<SortEntry>): (r: seq<Value>)
    ensures |r| == |sorts|
    ensures forall i :: 0 <= i < |sorts| ==> r[i] == VMap([(sorts[i].0, VStr(sorts[i].1))])
  {
    seq(|sorts|, i requires 0 <= i < |sorts| => VMap([(sorts[i].0, VStr(sorts[i].1))]))
  }

  class SearchProperty {
    var queryParams: OMap<Value>
    var page: int
    var size: int
    var sortList: seq<SortEntry>
    var select: Value

    /** Page 1 of 10000 hits, selecting only `bitrixId`, with no sort. */
    constructor (queryParams: OMap<Value>)
      ensures this.queryParams == queryParams
      ensures page == 1 && size == 10000 && sortList == [] && select == VList([VStr("bitrixId")])
    {
      this.queryParams := queryParams;
      page := 1;
      size := 10000;
      sortList := [];
      select := VList([VStr("bitrixId")]);
    }

    function GetQueryParams(): OMap<Value>
      reads this
    {
      queryParams
    }

    method SetQueryParams(v: OMap<Value>) returns (self: SearchProperty)
      modifies this`queryParams
      ensures GetQueryParams() == v && self == this
    {
      queryParams := v;
      self := this;
    }

    function GetPage(): int
      reads this
    {
      page
    }

    method SetPage(v: int) returns (self: SearchProperty)
      modifies this`page
      ensures GetPage() == v && self == this
    {
      page := v;
      self := this;
    }

    function GetSize(): int
      reads this
    {
      size
    }

    method SetSize(v: int) returns (self: SearchProperty)
      modifies this`size
      ensures GetSize() == v && self == this
    {
      size := v;
      self := this;
    }

    /** Appends one entry, its direction lower-cased. */
    method AddSort(sort: string, direction: string) returns (self: SearchProperty)
      modifies this`sortList
      ensures sortList == old(sortList) + [(sort, Lower(direction))]
      ensures self == this
    {
      sortList := sortList + [(sort, Lower(direction))];
      self := this;
    }

    /** Appends the sorts the request string selects, keeping the entries already there. */
    method AddSortByRequest(sortString: string) returns (self: SearchProperty)
      modifies this`sortList
      ensures sortList == old(sortList) + RequestSorts(sortString)
      ensures self == this
    {
      LowerOfLower("asc");
      LowerOfLower("desc");
      if sortString == "popular" {
        self := AddSort("show_counter", "desc");
      } else if sortString == "price_asc" {
        self := AddSort("min_price", "asc");
      } else if sortString == "price_desc" {
        self := AddSort("min_price", "desc");
      } else if sortString == "discount_asc" {
        self := AddSort("skidka", "asc");
        self := AddSort("sort", "asc");
      } else if sortString == "discount_desc" {
        self := AddSort("skidka", "desc");
        self := AddSort("sort", "asc");
      } else if sortString == "new" {
        self := AddSort("first_activation", "desc");
      } else {
        self := AddSort("sort", "asc");
        self := AddSort("bitrixId", "desc");
      }
    }

    method ClearSortList() returns (self: SearchProperty)
      modifies this`sortList
      ensures sortList == [] && GetSortArray() == [] && self == this
    {
      sortList := [];
      self := this;
    }

    function GetSelect(): Value
      reads this
    {
      select
    }

    method SetSource(v: Value) returns (self: SearchProperty)
      requires v.VList? || v.VMap?
      modifies this`select
      ensures GetSelect() == v && self == this
    {
      select := v;
      self := this;
    }

    /** The sort entries in insertion order. */
    function GetSortArray(): seq<Value>
      reads this
    {
      SortArray(sortList)
    }

    function GetFrom(): int
      reads this
    {
      From(GetPage(), GetSize())
    }

    /** `array_merge(['page' => …], queryParams, sorts, ['size' => …], ['select' => …])`. */
    function Serialize(): (r: OMap<Value>)
      reads this
      ensures Get(r, "size") == Some(VInt(GetSize()))
      ensures Get(r, "select") == Some(GetSelect())
      ensures "page" !in Keys(GetQueryParams()) ==> Get(r, "page") == Some(VInt(GetPage()))
    {
      var sorts := ListEntries(GetSortArray());
      SerializedSizeSelect(page, queryParams, sorts, size, select);
      SerializedPage(page, queryParams, sorts, size, select);
      Serialized(page, queryParams, sorts, size, select)
    }
  }

  /** `page`, the query parameters and the sort entries merged in that order. */
  function BeforeSize(page: int, queryParams: OMap<Value>, sorts: OMap<Value>): (OMap<Value>, nat) {
    var pageFirst := MergeInto([], 0, [("page", VInt(page))]);
    var withParams := MergeInto(pageFirst.0, pageFirst.1, queryParams);
    MergeInto(withParams.0, withParams.1, sorts)
  }

  /** The serialised search: `size` and `select` merged last. */
  function Serialized(page: int, queryParams: OMap<Value>, sorts: OMap<Value>, size: int, select: Value): OMap<Value> {
    var before := BeforeSize(page, queryParams, sorts);
    var withSize := MergeInto(before.0, before.1, [("size", VInt(size))]);
    MergeInto(withSize.0, withSize.1, [("select", select)]).0
  }

  /** `size` and `select` always hold the object's own values. */
  lemma SerializedSizeSelect(page: int, queryParams: OMap<Value>, sorts: OMap<Value>, size: int, select: Value)
    ensures Get(Serialized(page, queryParams, sorts, size, select), "size") == Some(VInt(size))
    ensures Get(Serialized(page, queryParams, sorts, size, select), "select") == Some(select)
  {
    var before := BeforeSize(page, queryParams, sorts);
    LetterKeyNotInt("size");
    LetterKeyNotInt("select");
    MergeIntoString(before.0, before.1, "size", VInt(size));
    var withSize := MergeInto(before.0, before.1, [("size", VInt(size))]);
    MergeIntoString(withSize.0, withSize.1, "select", select);
  }

  /** `page` holds the object's page unless a query parameter of that name overrides it. */
  lemma SerializedPage(page: int, queryParams: OMap<Value>, sorts: OMap<Value>, size: int, select: Value)
    requires forall i :: 0 <= i < |sorts| ==> sorts[i].0 == NatToString(i)
    ensures "page" !in Keys(queryParams) ==>
      Get(Serialized(page, queryParams, sorts, size, select), "page") == Some(VInt(page))
  {
    if "page" in Keys(queryParams) { return; }
    LetterKeyNotInt("page");
    LetterKeyNotInt("size");
    LetterKeyNotInt("select");
    MergeIntoString([], 0, "page", VInt(page));
    var pageFirst := MergeInto([], 0, [("page", VInt(page))]);
    MergeIntoOther(pageFirst.0, pageFirst.1, queryParams, "page");
    var withParams := MergeInto(pageFirst.0, pageFirst.1, queryParams);
    assert "page" !in Keys(sorts) by {
      forall i | 0 <= i < |sorts| ensures Keys(sorts)[i] != "page" {
        KeysAt(sorts, i);
        assert IsDigit(NatToString(i)[0]);
      }
    }
    MergeIntoOther(withParams.0, withParams.1, sorts, "page");
    var before := BeforeSize(page, queryParams, sorts);
    MergeIntoString(before.0, before.1, "size", VInt(size));
    var withSize := MergeInto(before.0, before.1, [("size", VInt(size))]);
    MergeIntoString(withSize.0, withSize.1, "select", select);
  }
}
