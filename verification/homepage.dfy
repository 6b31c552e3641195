/**
 * The home page's list logic: the catalog flattened into one tagged list,
 * the release-year bounds, the search and year-range filters, the
 * grouping by release year, and the per-kind part counts.
 */
module HomePage {
  import opened Wrappers
  import opened Seqs
  import opened PartTypes
  import opened Text
  import opened CatalogTable

  /** A catalog part with the kind of the entry it came from. */
  datatype TaggedPart = TaggedPart(part: AnyPart, partType: PartType)

  function InfoOf(t: TaggedPart): PartInfo {
    t.part.info
  }

  // Flattening

  /** The parts of one entry, each tagged with the entry's kind. */
  function Tagged(e: Entry): (r: seq<TaggedPart>)
    ensures |r| == |e.parts|
    ensures forall j :: 0 <= j < |r| ==> r[j] == TaggedPart(e.parts[j], e.partType)
  {
    seq(|e.parts|, j requires 0 <= j < |e.parts| => TaggedPart(e.parts[j], e.partType))
  }

  /** The tagged parts of every entry, entry after entry. */
  function Flatten(table: seq<Entry>): seq<TaggedPart> {
    if table == [] then [] else Flatten(table[..|table| - 1]) + Tagged(table[|table| - 1])
  }

  /** The number of parts over all entries. */
  function PartCount(table: seq<Entry>): nat {
    if table == [] then 0 else PartCount(table[..|table| - 1]) + |table[|table| - 1].parts|
  }

  /**
   * The page's flattening loop: for each entry, every part is pushed,
   * tagged with the entry's kind.
   */
  method FlattenAllParts(table: seq<Entry>) returns (flat: seq<TaggedPart>)
    ensures flat == Flatten(table)
  {
    flat := [];
    for i := 0 to |table|
      invariant flat == Flatten(table[..i])
    {
      var entry := table[i];
      for j := 0 to |entry.parts|
        invariant flat == Flatten(table[..i]) + Tagged(Entry(entry.partType, entry.parts[..j]))
      {
        flat := flat + [TaggedPart(entry.parts[j], entry.partType)];
      }
      assert entry.parts[..|entry.parts|] == entry.parts;
      assert table[..i + 1][..i] == table[..i];
    }
    assert table[..|table|] == table;
  }

  /** The flat list is as long as all entries together. */
  lemma {:induction false} FlattenLength(table: seq<Entry>)
    ensures |Flatten(table)| == PartCount(table)
  {
    if table != [] {
      FlattenLength(table[..|table| - 1]);
    }
  }

  /**
   * Part `j` of entry `i` sits, tagged with the entry's kind, at position
   * `PartCount(table[..i]) + j` of the flat list: every catalog part has a
   * position of its own.
   */
  lemma {:induction false} FlattenPosition(table: seq<Entry>, i: nat, j: nat)
    requires i < |table| && j < |table[i].parts|
    ensures PartCount(table[..i]) + j < |Flatten(table)|
    ensures Flatten(table)[PartCount(table[..i]) + j] == TaggedPart(table[i].parts[j], table[i].partType)
  {
    var n := |table| - 1;
    var init := table[..n];
    FlattenLength(init);
    if i == n {
      assert table[..i] == init;
    } else {
      assert init[..i] == table[..i];
      assert init[i] == table[i];
      FlattenPosition(init, i, j);
    }
  }

  /** Every element of the flat list is some entry's part, tagged with that entry's kind. */
  lemma {:induction false} FlattenMembers(table: seq<Entry>, k: nat)
    requires k < |Flatten(table)|
    ensures exists i, j :: 0 <= i < |table| && 0 <= j < |table[i].parts|
                          && Flatten(table)[k] == TaggedPart(table[i].parts[j], table[i].partType)
  {
    var n := |table| - 1;
    var init := table[..n];
    FlattenLength(init);
    if k < |Flatten(init)| {
      FlattenMembers(init, k);
      var i, j :| 0 <= i < |init| && 0 <= j < |init[i].parts|
                  && Flatten(init)[k] == TaggedPart(init[i].parts[j], init[i].partType);
      assert table[i] == init[i];
    } else {
      var j := k - |Flatten(init)|;
      assert Flatten(table)[k] == Tagged(table[n])[j];
    }
  }

  // Release-year bounds

  /** The release years of the parts that have one, in order. */
  function ReleaseYears(parts: seq<TaggedPart>): (r: seq<int>)
    ensures forall y :: y in r <==> exists i :: 0 <= i < |parts| && parts[i].part.info.releaseYear == Some(y)
  {
    if parts == [] then []
    else
      var rest := ReleaseYears(parts[1..]);
      assert forall i :: 1 <= i < |parts| ==> parts[i] == parts[1..][i - 1];
      assert forall y :: (exists i :: 0 <= i < |parts[1..]| && parts[1..][i].part.info.releaseYear == Some(y))
                     ==> exists i :: 0 <= i < |parts| && parts[i].part.info.releaseYear == Some(y) by {
        forall y | exists i :: 0 <= i < |parts[1..]| && parts[1..][i].part.info.releaseYear == Some(y)
          ensures exists i :: 0 <= i < |parts| && parts[i].part.info.releaseYear == Some(y)
        {
          var i :| 0 <= i < |parts[1..]| && parts[1..][i].part.info.releaseYear == Some(y);
          assert parts[i + 1] == parts[1..][i];
        }
      }
      match parts[0].part.info.releaseYear
      case Some(y) => [y] + rest
      case None => rest
  }

  /** `Math.min` over a non-empty list. */
  function MinOf(s: seq<int>): (m: int)
    requires s != []
    ensures m in s && forall x :: x in s ==> m <= x
  {
    if |s| == 1 then s[0]
    else
      var r := MinOf(s[1..]);
      assert forall x :: x in s ==> x == s[0] || x in s[1..];
      if s[0] <= r then s[0] else r
  }

  /** `Math.max` over a non-empty list. */
  function MaxOf(s: seq<int>): (m: int)
    requires s != []
    ensures m in s && forall x :: x in s ==> x <= m
  {
    if |s| == 1 then s[0]
    else
      var r := MaxOf(s[1..]);
      assert forall x :: x in s ==> x == s[0] || x in s[1..];
      if s[0] >= r then s[0] else r
  }

  datatype YearSpan = YearSpan(minYear: int, maxYear: int)

  /**
   * The page's `minYear`/`maxYear`: the smallest and the largest release
   * year among the parts, or the current year for both when no part has
   * one.
   */
  function YearBounds(parts: seq<TaggedPart>, currentYear: int): (r: YearSpan)
    ensures (forall i :: 0 <= i < |parts| ==> parts[i].part.info.releaseYear.None?) ==> r == YearSpan(currentYear, currentYear)
    ensures forall i :: 0 <= i < |parts| && parts[i].part.info.releaseYear.Some? ==>
              r.minYear <= parts[i].part.info.releaseYear.value <= r.maxYear
    ensures (exists i :: 0 <= i < |parts| && parts[i].part.info.releaseYear.Some?) ==>
              && (exists i :: 0 <= i < |parts| && parts[i].part.info.releaseYear == Some(r.minYear))
              && (exists i :: 0 <= i < |parts| && parts[i].part.info.releaseYear == Some(r.maxYear))
  {
    var years := ReleaseYears(parts);
    if years == [] then YearSpan(currentYear, currentYear)
    else
      assert forall i :: 0 <= i < |parts| && parts[i].part.info.releaseYear.Some? ==>
        parts[i].part.info.releaseYear.value in years;
      YearSpan(MinOf(years), MaxOf(years))
  }

  // Filtering

  /** The year-range selection: each bound is unset (null) or a year. */
  datatype YearSelection = YearSelection(min: Option<int>, max: Option<int>)

  predicate IsActive(sel: YearSelection) {
    sel.min.Some? || sel.max.Some?
  }

  /** The page's handler for a range reported by the year filter: both bounds become set. */
  function RangeSelection(min: int, max: int): (sel: YearSelection)
    ensures IsActive(sel) && sel.min == Some(min) && sel.max == Some(max)
  {
    YearSelection(Some(min), Some(max))
  }

  /** The page's handler for clearing the year filter: both bounds become unset, so the filter is off. */
  function ClearedSelection(): (sel: YearSelection)
    ensures !IsActive(sel)
  {
    YearSelection(None, None)
  }

  /** The year filter's callback: the part has a release year within `[lo, hi]`. */
  function InYearRange(lo: int, hi: int): TaggedPart -> bool {
    (p: TaggedPart) => p.part.info.releaseYear.Some? && lo <= p.part.info.releaseYear.value <= hi
  }

  /**
   * A part the home page lists: it matches the search unless the term is
   * blank, and with an active year selection it has a release year in
   * `[min ?? minYear, max ?? maxYear]`.
   */
  predicate Shown(p: TaggedPart, term: string, sel: YearSelection, span: YearSpan) {
    && (IsBlank(term) || MatchesSearch(p.part.info, ToLower(term)))
    && (IsActive(sel) ==>
          && p.part.info.releaseYear.Some?
          && sel.min.GetOr(span.minYear) <= p.part.info.releaseYear.value <= sel.max.GetOr(span.maxYear))
  }

  /** The page's `filteredParts`: the shown parts, each as often as in the list, in list order. */
  function FilterParts(parts: seq<TaggedPart>, term: string, sel: YearSelection, span: YearSpan): (r: seq<TaggedPart>)
    ensures IsSubsequence(r, parts)
    ensures forall p :: p in r <==> p in parts && Shown(p, term, sel, span)
    ensures forall p :: multiset(r)[p] == if Shown(p, term, sel, span) then multiset(parts)[p] else 0
  {
    var searched := Search(parts, InfoOf, term);
    var r := if IsActive(sel) then Filter(searched, SelectedYears(sel, span)) else searched;
    SearchThenYears(parts, term, sel, span, r);
    r
  }

  /** The year filter's callback for a selection, with the span's bounds filling in missing ends. */
  function SelectedYears(sel: YearSelection, span: YearSpan): TaggedPart -> bool {
    InYearRange(sel.min.GetOr(span.minYear), sel.max.GetOr(span.maxYear))
  }

  /** The search followed by the year filter keeps the shown parts, each as often as in the list. */
  lemma SearchThenYears(parts: seq<TaggedPart>, term: string, sel: YearSelection, span: YearSpan, r: seq<TaggedPart>)
    requires r == if IsActive(sel) then Filter(Search(parts, InfoOf, term), SelectedYears(sel, span))
                   else Search(parts, InfoOf, term)
    ensures IsSubsequence(r, parts)
    ensures forall p :: p in r <==> p in parts && Shown(p, term, sel, span)
    ensures forall p :: multiset(r)[p] == if Shown(p, term, sel, span) then multiset(parts)[p] else 0
  {
    SearchThenYearsCounts(parts, term, sel, span, r);
    if IsActive(sel) {
      IsSubsequenceTransitive(r, Search(parts, InfoOf, term), parts);
    }
    forall p ensures p in r <==> p in parts && Shown(p, term, sel, span) {
      assert p in r <==> multiset(r)[p] > 0;
      assert p in parts <==> multiset(parts)[p] > 0;
    }
  }

  lemma SearchThenYearsCounts(parts: seq<TaggedPart>, term: string, sel: YearSelection, span: YearSpan, r: seq<TaggedPart>)
    requires r == if IsActive(sel) then Filter(Search(parts, InfoOf, term), SelectedYears(sel, span))
                   else Search(parts, InfoOf, term)
    ensures forall p :: multiset(r)[p] == if Shown(p, term, sel, span) then multiset(parts)[p] else 0
  {
    if IsActive(sel) {
      var searched := Search(parts, InfoOf, term);
      var inRange := SelectedYears(sel, span);
      FilterCounts(searched, inRange);
      forall p ensures multiset(r)[p] == if Shown(p, term, sel, span) then multiset(parts)[p] else 0 {
        assert multiset(r)[p] == if inRange(p) then multiset(searched)[p] else 0;
        ShownCount(p, parts, term, sel, span);
      }
    }
  }

  /** For one part: passing the year filter after the search counts it exactly when it is shown. */
  lemma {:induction false} ShownCount(p: TaggedPart, parts: seq<TaggedPart>, term: string, sel: YearSelection, span: YearSpan)
    requires IsActive(sel)
    ensures (if SelectedYears(sel, span)(p) then multiset(Search(parts, InfoOf, term))[p] else 0)
         == (if Shown(p, term, sel, span) then multiset(parts)[p] else 0)
  {
    var searched := Search(parts, InfoOf, term);
    var lo, hi := sel.min.GetOr(span.minYear), sel.max.GetOr(span.maxYear);
    assert SelectedYears(sel, span)(p) == (p.part.info.releaseYear.Some? && lo <= p.part.info.releaseYear.value <= hi);
    if IsBlank(term) {
      assert searched == parts;
    } else {
      assert multiset(searched)[p] == if MatchesSearch(p.part.info, ToLower(term)) then multiset(parts)[p] else 0;
    }
  }

  // Grouping by release year

  /** A group's key: a release year, or "unknown". */
  datatype YearKey = Year(year: int) | UnknownYear

  function KeyOf(p: TaggedPart): YearKey {
    match p.part.info.releaseYear
    case Some(y) => Year(y)
    case None => UnknownYear
  }

  function KeyIs(k: YearKey): TaggedPart -> bool {
    (p: TaggedPart) => KeyOf(p) == k
  }

  /** The order of the groups: later years first, "unknown" after every year. */
  predicate Before(a: YearKey, b: YearKey) {
    a.Year? && (b.UnknownYear? || a.year > b.year)
  }

  predicate SortedKeys(s: seq<YearKey>) {
    forall i, j :: 0 <= i < j < |s| ==> Before(s[i], s[j])
  }

  /** `k` inserted into a sorted key list at its place. */
  function InsertKey(k: YearKey, s: seq<YearKey>): (r: seq<YearKey>)
    requires SortedKeys(s) && k !in s
    ensures SortedKeys(r) && |r| == |s| + 1
    ensures forall x :: x in r <==> x == k || x in s
  {
    if s == [] then [k]
    else if Before(k, s[0]) then [k] + s
    else
      var rest := InsertKey(k, s[1..]);
      assert Before(s[0], k);
      forall x | x in rest ensures Before(s[0], x) {
        if x != k {
          var j :| 0 <= j < |s[1..]| && s[1..][j] == x;
          assert s[j + 1] == x;
        }
      }
      var r := [s[0]] + rest;
      forall i, j | 0 <= i < j < |r| ensures Before(r[i], r[j]) {
        if i == 0 {
          assert r[j] == rest[j - 1] && r[j] in rest;
        } else {
          assert r[i] == rest[i - 1] && r[j] == rest[j - 1];
        }
      }
      r
  }

  /** The sort of the map's keys with the page's comparator; the keys of a map are distinct. */
  method SortKeys(keys: seq<YearKey>) returns (sorted: seq<YearKey>)
    requires NoDuplicates(keys)
    ensures SortedKeys(sorted) && |sorted| == |keys|
    ensures forall k :: k in sorted <==> k in keys
  {
    sorted := [];
    for i := 0 to |keys|
      invariant SortedKeys(sorted) && |sorted| == i
      invariant forall k :: k in sorted <==> k in keys[..i]
    {
      assert keys[i] !in keys[..i];
      sorted := InsertKey(keys[i], sorted);
      assert keys[..i + 1] == keys[..i] + [keys[i]];
    }
    assert keys[..|keys|] == keys;
  }

  /** One group of the page: a key and the filtered parts with that key. */
  datatype Group = Group(key: YearKey, parts: seq<TaggedPart>)

  /** The keys of the groups, in order. */
  function GroupKeys(groups: seq<Group>): (keys: seq<YearKey>)
    ensures |keys| == |groups|
    ensures forall g :: 0 <= g < |groups| ==> keys[g] == groups[g].key
  {
    seq(|groups|, g requires 0 <= g < |groups| => groups[g].key)
  }

  /**
   * What the grouping loop keeps after a prefix of the parts: the map's
   * keys are the distinct keys of the prefix, in `order` of first
   * appearance, and each key's list is the prefix filtered by that key.
   */
  ghost predicate GroupedBy(prefix: seq<TaggedPart>, grouped: map<YearKey, seq<TaggedPart>>, order: seq<YearKey>) {
    && NoDuplicates(order)
    && (forall k :: k in grouped <==> k in order)
    && (forall k :: k in grouped ==> grouped[k] == Filter(prefix, KeyIs(k)) && grouped[k] != [])
    && (forall j :: 0 <= j < |prefix| ==> KeyOf(prefix[j]) in grouped)
  }

  /** A key no part of the prefix has selects nothing from it. */
  lemma FreshKeySelectsNothing(prefix: seq<TaggedPart>, grouped: map<YearKey, seq<TaggedPart>>, k: YearKey)
    requires forall j :: 0 <= j < |prefix| ==> KeyOf(prefix[j]) in grouped
    requires k !in grouped
    ensures Filter(prefix, KeyIs(k)) == []
  {
    forall x | x in prefix ensures !KeyIs(k)(x) {
      var j :| 0 <= j < |prefix| && prefix[j] == x;
    }
    FilterDropsAll(prefix, KeyIs(k));
  }

  /** Adding a part to its key's list keeps every list equal to the filtered prefix, and non-empty. */
  lemma GroupsStayFiltered(prefix: seq<TaggedPart>, p: TaggedPart,
                           grouped: map<YearKey, seq<TaggedPart>>, grouped': map<YearKey, seq<TaggedPart>>)
    requires forall k :: k in grouped ==> grouped[k] == Filter(prefix, KeyIs(k)) && grouped[k] != []
    requires KeyOf(p) !in grouped ==> Filter(prefix, KeyIs(KeyOf(p))) == []
    requires grouped' == grouped[KeyOf(p) := (if KeyOf(p) in grouped then grouped[KeyOf(p)] else []) + [p]]
    ensures forall k :: k in grouped' ==> grouped'[k] == Filter(prefix + [p], KeyIs(k)) && grouped'[k] != []
  {
    forall k | k in grouped' ensures grouped'[k] == Filter(prefix + [p], KeyIs(k)) {
      FilterSnoc(prefix, p, KeyIs(k));
    }
  }

  /** One step of the grouping loop keeps `GroupedBy`. */
  lemma GroupingStep(prefix: seq<TaggedPart>, p: TaggedPart,
                     grouped: map<YearKey, seq<TaggedPart>>, order: seq<YearKey>,
                     grouped': map<YearKey, seq<TaggedPart>>, order': seq<YearKey>)
    requires GroupedBy(prefix, grouped, order)
    requires order' == if KeyOf(p) in grouped then order else order + [KeyOf(p)]
    requires grouped' == grouped[KeyOf(p) := (if KeyOf(p) in grouped then grouped[KeyOf(p)] else []) + [p]]
    ensures GroupedBy(prefix + [p], grouped', order')
  {
    var k := KeyOf(p);
    if k !in grouped {
      FreshKeySelectsNothing(prefix, grouped, k);
    }
    GroupsStayFiltered(prefix, p, grouped, grouped');
    forall j | 0 <= j < |prefix + [p]| ensures KeyOf((prefix + [p])[j]) in grouped' {
      if j < |prefix| {
        assert (prefix + [p])[j] == prefix[j];
      }
    }
  }

  /** The grouping loop: a map from each key to its parts, and the keys in order of first appearance. */
  method CollectByKey(parts: seq<TaggedPart>) returns (grouped: map<YearKey, seq<TaggedPart>>, order: seq<YearKey>)
    ensures GroupedBy(parts, grouped, order)
  {
    grouped := map[];
    order := [];
    for i := 0 to |parts|
      invariant GroupedBy(parts[..i], grouped, order)
    {
      var p := parts[i];
      var k := KeyOf(p);
      var current := if k in grouped then grouped[k] else [];
      var order' := if k in grouped then order else order + [k];
      var grouped' := grouped[k := current + [p]];
      GroupingStep(parts[..i], p, grouped, order, grouped', order');
      TakeOneMore(parts, i);
      grouped, order := grouped', order';
    }
    assert parts[..|parts|] == parts;
  }

  // Sorting a group by name

  /**
   * What `Array.prototype.sort` demands of the comparison `le(a, b)`, read
   * as `a.localeCompare(b) <= 0`: every two names compare, and the order
   * is transitive. Names may tie without being equal.
   */
  ghost predicate TotalPreorder(le: (string, string) -> bool) {
    && (forall a, b :: le(a, b) || le(b, a))
    && (forall a, b, c :: le(a, b) && le(b, c) ==> le(a, c))
  }

  function NameOf(p: TaggedPart): string {
    p.part.info.name
  }

  predicate SortedByName(s: seq<TaggedPart>, le: (string, string) -> bool) {
    forall i, j :: 0 <= i < j < |s| ==> le(NameOf(s[i]), NameOf(s[j]))
  }

  /** The parts whose name ties with `n`. */
  function NamedLike(n: string, le: (string, string) -> bool): TaggedPart -> bool {
    (p: TaggedPart) => le(n, NameOf(p)) && le(NameOf(p), n)
  }

  /** `x` placed into `s` before the first part whose name comes strictly after its own. */
  function InsertByName(x: TaggedPart, s: seq<TaggedPart>, le: (string, string) -> bool): (r: seq<TaggedPart>)
    ensures multiset(r) == multiset(s) + multiset{x}
  {
    if s == [] then [x]
    else if !le(NameOf(s[0]), NameOf(x)) then [x] + s
    else
      assert s == [s[0]] + s[1..];
      [s[0]] + InsertByName(x, s[1..], le)
  }

  /** The `sort` of a group by name: stable, so parts whose names tie keep their order. */
  function SortByName(s: seq<TaggedPart>, le: (string, string) -> bool): (r: seq<TaggedPart>)
    ensures multiset(r) == multiset(s)
  {
    if s == [] then []
    else
      assert s == s[..|s| - 1] + [s[|s| - 1]];
      InsertByName(s[|s| - 1], SortByName(s[..|s| - 1], le), le)
  }

  /** Inserting into a sorted group keeps it sorted. */
  lemma {:induction false} InsertKeepsSorted(x: TaggedPart, s: seq<TaggedPart>, le: (string, string) -> bool)
    requires TotalPreorder(le) && SortedByName(s, le)
    ensures SortedByName(InsertByName(x, s, le), le)
  {
    if s != [] {
      if !le(NameOf(s[0]), NameOf(x)) {
        PrependKeepsSorted(x, s, le);
      } else {
        InsertKeepsSorted(x, s[1..], le);
        HeadStaysFirst(x, s, le);
      }
    }
  }

  /** A part whose name does not come after the first of a sorted group can go in front. */
  lemma {:induction false} PrependKeepsSorted(x: TaggedPart, s: seq<TaggedPart>, le: (string, string) -> bool)
    requires TotalPreorder(le) && SortedByName(s, le)
    requires s != [] && le(NameOf(x), NameOf(s[0]))
    ensures SortedByName([x] + s, le)
  {
    var r := [x] + s;
    forall i, j | 0 <= i < j < |r| ensures le(NameOf(r[i]), NameOf(r[j])) {
      if i == 0 && j > 1 {
        assert le(NameOf(s[0]), NameOf(s[j - 1]));
      }
    }
  }

  /** The first part of a sorted group comes no later than any part of the rest with `x` inserted. */
  lemma {:induction false} HeadComesFirst(x: TaggedPart, s: seq<TaggedPart>, le: (string, string) -> bool)
    requires SortedByName(s, le)
    requires s != [] && le(NameOf(s[0]), NameOf(x))
    ensures forall y :: y in InsertByName(x, s[1..], le) ==> le(NameOf(s[0]), NameOf(y))
  {
    var tail := InsertByName(x, s[1..], le);
    forall y | y in tail ensures le(NameOf(s[0]), NameOf(y)) {
      assert y in multiset(tail);
      if y != x {
        assert y in multiset(s[1..]);
        var k :| 0 <= k < |s[1..]| && s[1..][k] == y;
        assert s[k + 1] == y;
      }
    }
  }

  /** When `x` goes after the first part, that part stays in front of a sorted rest. */
  lemma {:induction false} HeadStaysFirst(x: TaggedPart, s: seq<TaggedPart>, le: (string, string) -> bool)
    requires TotalPreorder(le) && SortedByName(s, le)
    requires s != [] && le(NameOf(s[0]), NameOf(x))
    requires SortedByName(InsertByName(x, s[1..], le), le)
    ensures SortedByName([s[0]] + InsertByName(x, s[1..], le), le)
  {
    var tail := InsertByName(x, s[1..], le);
    var r := [s[0]] + tail;
    HeadComesFirst(x, s, le);
    forall i, j | 0 <= i < j < |r| ensures le(NameOf(r[i]), NameOf(r[j])) {
      if i == 0 {
        assert r[j] == tail[j - 1];
      } else {
        assert r[i] == tail[i - 1] && r[j] == tail[j - 1];
      }
    }
  }

  /** A sorted group is sorted. */
  lemma {:induction false} SortByNameSorted(s: seq<TaggedPart>, le: (string, string) -> bool)
    requires TotalPreorder(le)
    ensures SortedByName(SortByName(s, le), le)
  {
    if s != [] {
      SortByNameSorted(s[..|s| - 1], le);
      InsertKeepsSorted(s[|s| - 1], SortByName(s[..|s| - 1], le), le);
    }
  }

  /** Inserting `x` puts it after every part whose name ties with it. */
  lemma {:induction false} InsertAfterTies(x: TaggedPart, s: seq<TaggedPart>, le: (string, string) -> bool, n: string)
    requires TotalPreorder(le) && SortedByName(s, le)
    ensures Filter(InsertByName(x, s, le), NamedLike(n, le)) ==
            Filter(s, NamedLike(n, le)) + (if NamedLike(n, le)(x) then [x] else [])
  {
    if s == [] {
    } else if !le(NameOf(s[0]), NameOf(x)) {
      if NamedLike(n, le)(x) {
        NoTiesAfter(x, s, le, n);
      }
      PrependFilter(x, s, NamedLike(n, le));
    } else {
      InsertAfterTies(x, s[1..], le, n);
      InsertBehindHead(x, s[0], s[1..], le, NamedLike(n, le));
      assert s == [s[0]] + s[1..];
    }
  }

  /** When `x` ties with `n` and comes strictly before the head of a sorted group, no part of the group ties with `n`. */
  lemma {:induction false} NoTiesAfter(x: TaggedPart, s: seq<TaggedPart>, le: (string, string) -> bool, n: string)
    requires TotalPreorder(le) && SortedByName(s, le)
    requires s != [] && !le(NameOf(s[0]), NameOf(x)) && NamedLike(n, le)(x)
    ensures forall y :: y in s ==> !NamedLike(n, le)(y)
  {
    forall y | y in s ensures !NamedLike(n, le)(y) {
      var k :| 0 <= k < |s| && s[k] == y;
      if k > 0 {
        assert le(NameOf(s[0]), NameOf(s[k]));
      }
    }
  }

  /** Filtering `[x] + s` when no part of `s` passes if `x` does. */
  lemma {:induction false} PrependFilter(x: TaggedPart, s: seq<TaggedPart>, p: TaggedPart -> bool)
    requires p(x) ==> forall y :: y in s ==> !p(y)
    ensures Filter([x] + s, p) == Filter(s, p) + (if p(x) then [x] else [])
  {
    if p(x) {
      FilterDropsAll(s, p);
    }
    FilterSnoc([], x, p);
    FilterConcat([x], s, p);
  }

  /** When `x` goes behind the head `h`, the head's filter result comes first and the rest follows the insertion into the tail `t`. */
  lemma {:induction false} InsertBehindHead(x: TaggedPart, h: TaggedPart, t: seq<TaggedPart>, le: (string, string) -> bool, tie: TaggedPart -> bool)
    requires le(NameOf(h), NameOf(x))
    requires Filter(InsertByName(x, t, le), tie) == Filter(t, tie) + (if tie(x) then [x] else [])
    ensures Filter(InsertByName(x, [h] + t, le), tie) == Filter([h] + t, tie) + (if tie(x) then [x] else [])
  {
    assert ([h] + t)[0] == h && ([h] + t)[1..] == t;
    assert InsertByName(x, [h] + t, le) == [h] + InsertByName(x, t, le);
    FilterConcat([h], InsertByName(x, t, le), tie);
    FilterConcat([h], t, tie);
  }

  /** The sort is stable: the parts whose names tie keep their input order. */
  lemma {:induction false} SortByNameStable(s: seq<TaggedPart>, le: (string, string) -> bool, n: string)
    requires TotalPreorder(le)
    ensures Filter(SortByName(s, le), NamedLike(n, le)) == Filter(s, NamedLike(n, le))
  {
    if s != [] {
      var init := s[..|s| - 1];
      SortByNameStable(init, le, n);
      SortByNameSorted(init, le);
      InsertAfterTies(s[|s| - 1], SortByName(init, le), le, n);
      StableStep(s, le, NamedLike(n, le));
    }
  }

  /** One step of the sort keeps the filtered order, given that the shorter sort and the insertion do. */
  lemma {:induction false} StableStep(s: seq<TaggedPart>, le: (string, string) -> bool, tie: TaggedPart -> bool)
    requires s != []
    requires Filter(SortByName(s[..|s| - 1], le), tie) == Filter(s[..|s| - 1], tie)
    requires Filter(InsertByName(s[|s| - 1], SortByName(s[..|s| - 1], le), le), tie) ==
             Filter(SortByName(s[..|s| - 1], le), tie) + (if tie(s[|s| - 1]) then [s[|s| - 1]] else [])
    ensures Filter(SortByName(s, le), tie) == Filter(s, tie)
  {
    var init, last := s[..|s| - 1], s[|s| - 1];
    var tail := if tie(last) then [last] else [];
    assert s == init + [last];
    FilterSnoc(init, last, tie);
    calc {
      Filter(SortByName(s, le), tie);
      Filter(InsertByName(last, SortByName(init, le), le), tie);
      Filter(SortByName(init, le), tie) + tail;
      Filter(init, tie) + tail;
      Filter(s, tie);
    }
  }

  /**
   * The page's grouping: parts are collected per key in a map, in list
   * order, the groups are sorted by key, and each group is sorted by name
   * with `le`. Each group holds exactly the parts with its key, sorted by
   * name with ties in list order; no group is empty, every part's key has
   * a group, and the keys run in strictly decreasing year with "unknown"
   * last.
   */
  method GroupByYear(parts: seq<TaggedPart>, le: (string, string) -> bool) returns (groups: seq<Group>)
    requires TotalPreorder(le)
    ensures forall g :: 0 <= g < |groups| ==>
              groups[g].parts == SortByName(Filter(parts, KeyIs(groups[g].key)), le) && groups[g].parts != []
    ensures forall g :: 0 <= g < |groups| ==>
              multiset(groups[g].parts) == multiset(Filter(parts, KeyIs(groups[g].key)))
    ensures forall g :: 0 <= g < |groups| ==> SortedByName(groups[g].parts, le)
    ensures forall g, h :: 0 <= g < h < |groups| ==> Before(groups[g].key, groups[h].key)
    ensures forall i :: 0 <= i < |parts| ==> KeyOf(parts[i]) in GroupKeys(groups)
  {
    var grouped, order := CollectByKey(parts);
    var sorted := SortKeys(order);
    groups := seq(|sorted|, g requires 0 <= g < |sorted| && sorted[g] in grouped =>
                              Group(sorted[g], SortByName(grouped[sorted[g]], le)));
    assert GroupKeys(groups) == sorted;
    forall g | 0 <= g < |groups|
      ensures groups[g].parts == SortByName(Filter(parts, KeyIs(groups[g].key)), le)
      ensures SortedByName(groups[g].parts, le) && groups[g].parts != []
      ensures multiset(groups[g].parts) == multiset(Filter(parts, KeyIs(groups[g].key)))
    {
      assert groups[g].key == sorted[g] && sorted[g] in grouped;
      assert grouped[sorted[g]] == Filter(parts, KeyIs(sorted[g]));
      SortByNameSorted(grouped[sorted[g]], le);
      assert |multiset(groups[g].parts)| == |multiset(grouped[sorted[g]])|;
    }
  }

  /** The number of parts over a list of groups. */
  function GroupTotal(groups: seq<Group>): nat {
    if groups == [] then 0 else |groups[0].parts| + GroupTotal(groups[1..])
  }

  /** The number of parts per key, summed over a list of keys. */
  function KeyedTotal(parts: seq<TaggedPart>, keys: seq<YearKey>): nat {
    if keys == [] then 0 else |Filter(parts, KeyIs(keys[0]))| + KeyedTotal(parts, keys[1..])
  }

  /** How often `k` occurs in `keys`. */
  function Occurrences(keys: seq<YearKey>, k: YearKey): nat {
    if keys == [] then 0 else (if keys[0] == k then 1 else 0) + Occurrences(keys[1..], k)
  }

  lemma {:induction false} OccursOnce(keys: seq<YearKey>, k: YearKey)
    requires NoDuplicates(keys) && k in keys
    ensures Occurrences(keys, k) == 1
  {
    if keys[0] != k {
      OccursOnce(keys[1..], k);
    } else {
      OccursNever(keys[1..], k);
    }
  }

  lemma {:induction false} OccursNever(keys: seq<YearKey>, k: YearKey)
    requires k !in keys
    ensures Occurrences(keys, k) == 0
  {
    if keys != [] {
      OccursNever(keys[1..], k);
    }
  }

  /** One more part adds one to the count of its own key only. */
  lemma {:induction false} KeyedTotalSnoc(parts: seq<TaggedPart>, p: TaggedPart, keys: seq<YearKey>)
    ensures KeyedTotal(parts + [p], keys) == KeyedTotal(parts, keys) + Occurrences(keys, KeyOf(p))
  {
    if keys != [] {
      FilterSnoc(parts, p, KeyIs(keys[0]));
      KeyedTotalSnoc(parts, p, keys[1..]);
    }
  }

  /** Over distinct keys that include every part's key, the per-key counts add up to the number of parts. */
  lemma {:induction false} KeyedTotalIsLength(parts: seq<TaggedPart>, keys: seq<YearKey>)
    requires NoDuplicates(keys)
    requires forall i :: 0 <= i < |parts| ==> KeyOf(parts[i]) in keys
    ensures KeyedTotal(parts, keys) == |parts|
  {
    if parts == [] {
      KeyedTotalEmpty(keys);
    } else {
      var init := parts[..|parts| - 1];
      var p := parts[|parts| - 1];
      assert parts == init + [p];
      KeyedTotalIsLength(init, keys);
      KeyedTotalSnoc(init, p, keys);
      OccursOnce(keys, KeyOf(p));
    }
  }

  lemma {:induction false} KeyedTotalEmpty(keys: seq<YearKey>)
    ensures KeyedTotal([], keys) == 0
  {
    if keys != [] {
      KeyedTotalEmpty(keys[1..]);
    }
  }

  /**
   * The groups the page shows hold every filtered part exactly once: the
   * group sizes add up to the number of parts.
   */
  lemma {:induction false} GroupSizesSum(parts: seq<TaggedPart>, groups: seq<Group>)
    requires forall g :: 0 <= g < |groups| ==> multiset(groups[g].parts) == multiset(Filter(parts, KeyIs(groups[g].key)))
    requires forall g, h :: 0 <= g < h < |groups| ==> Before(groups[g].key, groups[h].key)
    requires forall i :: 0 <= i < |parts| ==> KeyOf(parts[i]) in GroupKeys(groups)
    ensures GroupTotal(groups) == |parts|
  {
    var keys := GroupKeys(groups);
    GroupTotalIsKeyedTotal(parts, groups);
    KeyedTotalIsLength(parts, keys);
  }

  lemma {:induction false} GroupTotalIsKeyedTotal(parts: seq<TaggedPart>, groups: seq<Group>)
    requires forall g :: 0 <= g < |groups| ==> multiset(groups[g].parts) == multiset(Filter(parts, KeyIs(groups[g].key)))
    ensures GroupTotal(groups) == KeyedTotal(parts, GroupKeys(groups))
  {
    if groups != [] {
      assert |multiset(groups[0].parts)| == |multiset(Filter(parts, KeyIs(groups[0].key)))|;
      GroupTotalIsKeyedTotal(parts, groups[1..]);
      assert GroupKeys(groups)[1..] == GroupKeys(groups[1..]);
    }
  }

  // Per-kind counts

  /** Every kind with a count of 0, the summary's starting value. */
  const NoParts: map<PartType, nat> :=
    map[CpuKind := 0, MotherboardKind := 0, PowerSupplyKind := 0, GraphicsCardKind := 0, RamKind := 0, CaseKind := 0]

  lemma NoPartsHasEveryKind()
    ensures forall k: PartType :: k in NoParts
  {
    forall k: PartType ensures k in NoParts {
      match k
      case CpuKind =>
      case MotherboardKind =>
      case PowerSupplyKind =>
      case GraphicsCardKind =>
      case RamKind =>
      case CaseKind =>
    }
  }

  /** The page's `partsSummary`: each entry sets its kind's total to its number of parts; other kinds stay 0. */
  function PartsSummary(table: seq<Entry>): (m: map<PartType, nat>)
    ensures forall k: PartType :: k in m
    ensures forall k: PartType :: (forall i :: 0 <= i < |table| ==> table[i].partType != k) ==> m[k] == 0
  {
    if table == [] then NoPartsHasEveryKind(); NoParts
    else
      var init := table[..|table| - 1];
      assert forall i :: 0 <= i < |init| ==> init[i] == table[i];
      PartsSummary(init)[table[|table| - 1].partType := |table[|table| - 1].parts|]
  }

  /** An entry that no later entry of the same kind overrides sets its kind's total. */
  lemma {:induction false} PartsSummaryLastWins(table: seq<Entry>, i: nat)
    requires i < |table|
    requires forall j :: i < j < |table| ==> table[j].partType != table[i].partType
    ensures PartsSummary(table)[table[i].partType] == |table[i].parts|
  {
    var init := table[..|table| - 1];
    if i < |table| - 1 {
      assert init[i] == table[i];
      forall j | i < j < |init| ensures init[j].partType != init[i].partType {
        assert init[j] == table[j];
      }
      PartsSummaryLastWins(init, i);
    }
  }

  /** Over the catalog, each kind's total is the length of its list, and cases, absent from the table, count 0. */
  lemma SummaryOfCatalog(c: Catalog)
    ensures var m := PartsSummary(AllParts(c));
      && m[CpuKind] == |c.cpus| && m[MotherboardKind] == |c.motherboards|
      && m[PowerSupplyKind] == |c.powerSupplies| && m[GraphicsCardKind] == |c.graphicsCards|
      && m[RamKind] == |c.ram| && m[CaseKind] == 0
  {
    var t := AllParts(c);
    PartsSummaryLastWins(t, 0);
    PartsSummaryLastWins(t, 1);
    PartsSummaryLastWins(t, 2);
    PartsSummaryLastWins(t, 3);
    PartsSummaryLastWins(t, 4);
  }
}
