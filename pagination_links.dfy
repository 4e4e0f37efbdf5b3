/** `get_next_pagination_link` and `get_previous_pagination_link`. The next link is built
    from the parsed URL (its query as key/value pairs); the previous link is computed by
    text replacement on the URL string. */
module PaginationLinks {
  import opened Common
  import opened TextOps

  datatype Param = Param(key: string, value: string)

  /** A URL split by `urlparse`: everything before the query, the query's `key=value`
      pairs as `parse_qsl(..., keep_blank_values=True)` would list them, and the rest. */
  datatype Url = Url(head: string, query: seq<Param>, fragment: string)

  const OffsetKey: string := "offset"

  /** The value a dictionary (pairs with distinct keys) holds for `k`. */
  function Lookup(d: seq<Param>, k: string): Option<string>
    decreases |d|
  {
    if d == [] then None else if d[0].key == k then Some(d[0].value) else Lookup(d[1..], k)
  }

  predicate DistinctKeys(d: seq<Param>) {
    forall i, j :: 0 <= i < j < |d| ==> d[i].key != d[j].key
  }

  /** `d[k] = v` on a dictionary: the value is replaced in place, or the pair appended. */
  function Put(d: seq<Param>, k: string, v: string): (r: seq<Param>)
    ensures Lookup(r, k) == Some(v)
    ensures forall k' :: k' != k ==> Lookup(r, k') == Lookup(d, k')
    ensures DistinctKeys(d) ==> DistinctKeys(r)
    ensures |r| == |d| || |r| == |d| + 1
    decreases |d|
  {
    if d == [] then [Param(k, v)]
    else if d[0].key == k then [Param(k, v)] + d[1..]
    else
      var rest := Put(d[1..], k, v);
      assert DistinctKeys(d) ==> DistinctKeys(d[1..]) by {
        if DistinctKeys(d) {
          forall i, j | 0 <= i < j < |d[1..]| ensures d[1..][i].key != d[1..][j].key {
            assert d[1..][i] == d[i + 1] && d[1..][j] == d[j + 1];
          }
        }
      }
      assert DistinctKeys(d) ==> forall i :: 0 <= i < |rest| ==> rest[i].key != d[0].key by {
        if DistinctKeys(d) {
          forall i | 0 <= i < |rest| ensures rest[i].key != d[0].key {
            if rest[i].key == d[0].key {
              LookupFindsDistinct(rest, i);
              assert Lookup(d[1..], d[0].key) == Lookup(rest, d[0].key);
              assert Lookup(d[1..], d[0].key).Some?;
              LookupSome(d[1..], d[0].key);
            }
          }
        }
      }
      [d[0]] + rest
  }

  /** In a dictionary each pair is what lookup finds for its key. */
  lemma {:induction false} LookupFindsDistinct(d: seq<Param>, i: nat)
    requires DistinctKeys(d) && i < |d|
    ensures Lookup(d, d[i].key) == Some(d[i].value)
    decreases |d|
  {
    if i > 0 {
      assert d[0].key != d[i].key;
      assert d[1..][i - 1] == d[i];
      assert DistinctKeys(d[1..]) by {
        forall a, b | 0 <= a < b < |d[1..]| ensures d[1..][a].key != d[1..][b].key {
          assert d[1..][a] == d[a + 1] && d[1..][b] == d[b + 1];
        }
      }
      LookupFindsDistinct(d[1..], i - 1);
    }
  }

  /** A key lookup finds is held by some pair. */
  lemma {:induction false} LookupSome(d: seq<Param>, k: string)
    requires Lookup(d, k).Some?
    ensures exists i :: 0 <= i < |d| && d[i].key == k
    decreases |d|
  {
    if d[0].key != k {
      LookupSome(d[1..], k);
      var i :| 0 <= i < |d[1..]| && d[1..][i].key == k;
      assert d[i + 1].key == k;
    }
  }

  /** `dict(parse_qsl(query))`: pairs with a blank value are dropped, a repeated key keeps
      its first position and takes its last value. */
  function ToDict(ps: seq<Param>): (d: seq<Param>)
    ensures DistinctKeys(d)
    decreases |ps|
  {
    if ps == [] then []
    else
      var d := ToDict(ps[..|ps| - 1]);
      var p := ps[|ps| - 1];
      if p.value == "" then d else Put(d, p.key, p.value)
  }

  /** The dictionary keeps, for every key, its last non-blank value. */
  function LastNonBlank(ps: seq<Param>, k: string): Option<string>
    decreases |ps|
  {
    if ps == [] then None
    else
      var p := ps[|ps| - 1];
      if p.key == k && p.value != "" then Some(p.value) else LastNonBlank(ps[..|ps| - 1], k)
  }

  lemma {:induction false} ToDictLookup(ps: seq<Param>, k: string)
    ensures Lookup(ToDict(ps), k) == LastNonBlank(ps, k)
    decreases |ps|
  {
    if ps != [] {
      ToDictLookup(ps[..|ps| - 1], k);
    }
  }

  /** `get_next_pagination_link`. */
  function NextLink(url: Url, offset: int, recordsPerPage: int, allRecordsCount: int): (r: Option<Url>)
    ensures r.Some? <==> allRecordsCount - recordsPerPage > offset
    ensures r.Some? ==> r.value.head == url.head && r.value.fragment == url.fragment
  {
    if allRecordsCount - recordsPerPage > offset then
      Some(url.(query := Put(ToDict(url.query), OffsetKey, Dec(offset + recordsPerPage))))
    else None
  }

  /** The next link asks for the following page, whose offset is still below the number of
      records, and keeps every other query parameter (with its last non-blank value). */
  lemma NextLinkQuery(url: Url, offset: int, recordsPerPage: int, allRecordsCount: int, k: string)
    requires allRecordsCount - recordsPerPage > offset
    ensures var q := NextLink(url, offset, recordsPerPage, allRecordsCount).value.query;
            DistinctKeys(q) &&
            Lookup(q, OffsetKey) == Some(Dec(offset + recordsPerPage)) &&
            (k != OffsetKey ==> Lookup(q, k) == LastNonBlank(url.query, k))
    ensures offset + recordsPerPage < allRecordsCount
  {
    ToDictLookup(url.query, k);
  }

  /** The text `offset=<n>` that the previous link rewrites. */
  function OffsetText(n: int): (s: string)
    ensures |s| > 0
  {
    "offset=" + Dec(n)
  }

  /** `get_previous_pagination_link`. */
  function PreviousLink(url: string, offset: int, recordsPerPage: int): (r: Option<string>)
    ensures r.Some? <==> (offset != 0 && recordsPerPage >= offset) || recordsPerPage < offset
    ensures offset != 0 && recordsPerPage >= offset ==>
              r == Some(RStrip(RStrip(Replace(url, OffsetText(offset), ""), '&'), '?'))
    ensures !(offset != 0 && recordsPerPage >= offset) && recordsPerPage < offset ==>
              r == Some(Replace(url, OffsetText(offset), OffsetText(offset - recordsPerPage)))
  {
    if offset != 0 && recordsPerPage >= offset then
      Some(RStrip(RStrip(Replace(url, OffsetText(offset), ""), '&'), '?'))
    else if recordsPerPage - offset < 0 then
      Some(Replace(url, OffsetText(offset), OffsetText(offset - recordsPerPage)))
    else None
  }

  /** On the first page there is no previous link (for a non-negative page size); beyond
      the second page the previous link is the URL with its `offset=` text rewritten to
      the positive offset `records_per_page` back. */
  lemma PreviousLinkCases(url: string, offset: int, recordsPerPage: int)
    ensures offset == 0 && recordsPerPage >= 0 ==> PreviousLink(url, offset, recordsPerPage).None?
    ensures recordsPerPage < offset ==>
              PreviousLink(url, offset, recordsPerPage) ==
                Some(Replace(url, OffsetText(offset), OffsetText(offset - recordsPerPage))) &&
              offset - recordsPerPage > 0
  {
  }

  /** Replacing the only occurrence of `p`, at the very end, leaves what precedes it. */
  lemma {:induction false} ReplaceSuffix(a: string, p: string, r: string)
    requires |p| > 0
    requires forall i :: 0 <= i < |a| ==> !OccursAt(p, a + p, i)
    ensures Replace(a + p, p, r) == a + r
    decreases |a|
  {
    var s := a + p;
    if a == [] {
      assert s == p;
      assert s[..|p|] == p && s[|p|..] == [];
    } else {
      assert !OccursAt(p, s, 0);
      assert s[..|p|] != p;
      assert Replace(s, p, r) == [s[0]] + Replace(s[1..], p, r);
      assert s[1..] == a[1..] + p;
      DropFirstKeepsNoOccurrence(a, p);
      ReplaceSuffix(a[1..], p, r);
      assert [a[0]] + (a[1..] + r) == a + r;
    }
  }

  lemma DropFirstKeepsNoOccurrence(a: string, p: string)
    requires a != []
    requires forall i :: 0 <= i < |a| ==> !OccursAt(p, a + p, i)
    ensures forall i :: 0 <= i < |a[1..]| ==> !OccursAt(p, a[1..] + p, i)
  {
    forall i | 0 <= i < |a[1..]| ensures !OccursAt(p, a[1..] + p, i) {
      assert !OccursAt(p, a + p, i + 1);
      assert (a + p)[i + 1..i + 1 + |p|] == (a[1..] + p)[i..i + |p|];
    }
  }

  /** On the second page of a URL that ends `?offset=<offset>`, the previous link is the
      URL without the query. */
  lemma PreviousLinkDropsOffset(base: string, offset: int, recordsPerPage: int)
    requires 0 < offset <= recordsPerPage
    requires base == [] || (base[|base| - 1] != '&' && base[|base| - 1] != '?')
    requires forall i :: 0 <= i <= |base| ==> !OccursAt(OffsetText(offset), base + "?" + OffsetText(offset), i)
    ensures PreviousLink(base + "?" + OffsetText(offset), offset, recordsPerPage) == Some(base)
  {
    var p := OffsetText(offset);
    assert base + "?" + p == (base + "?") + p;
    ReplaceSuffix(base + "?", p, "");
    assert (base + "?") + "" == base + "?";
    assert RStrip(base + "?", '&') == base + "?";
    assert (base + "?")[..|base + "?"| - 1] == base;
  }

  /** Beyond the second page of a URL that ends `?offset=<offset>`, the previous link is
      the same URL ending `?offset=<offset - records_per_page>`. */
  lemma PreviousLinkStepsBack(base: string, offset: int, recordsPerPage: int)
    requires 0 < recordsPerPage < offset
    requires forall i :: 0 <= i <= |base| ==> !OccursAt(OffsetText(offset), base + "?" + OffsetText(offset), i)
    ensures PreviousLink(base + "?" + OffsetText(offset), offset, recordsPerPage) ==
            Some(base + "?" + OffsetText(offset - recordsPerPage))
  {
    var p := OffsetText(offset);
    assert base + "?" + p == (base + "?") + p;
    ReplaceSuffix(base + "?", p, OffsetText(offset - recordsPerPage));
  }
}
