/**
 * The page of one part kind: the kind comes from the route, its parts from
 * `allParts`, and the search box narrows them.
 */
module PartPage {
  import opened Wrappers
  import opened Seqs
  import opened PartTypes
  import opened Text
  import opened CatalogTable
  import HomePage

  function InfoOf(p: AnyPart): PartInfo {
    p.info
  }

  /**
   * The parts of the kind named by the route parameter: none when there is
   * no parameter (or it is empty) or when `allParts` has no entry with
   * that key, otherwise the parts of an entry with that key.
   */
  function PartsOfType(table: seq<Entry>, partType: Option<string>): (r: seq<AnyPart>)
    ensures partType.None? ==> r == []
    ensures partType.Some? && (forall i :: 0 <= i < |table| ==> table[i].partType.Key() != partType.value) ==> r == []
    ensures partType.Some? && (exists i :: 0 <= i < |table| && table[i].partType.Key() == partType.value) ==>
      exists i :: 0 <= i < |table| && table[i].partType.Key() == partType.value && r == table[i].parts
    ensures r != [] ==> exists i :: 0 <= i < |table| && partType == Some(table[i].partType.Key()) && r == table[i].parts
  {
    if partType.None? || partType.value == "" then []
    else
      match Lookup(table, partType.value)
      case None => []
      case Some(parts) => parts
  }

  /** In a table whose kinds are distinct, a kind's key lists exactly that kind's entry. */
  lemma LookupOfKind(t: seq<Entry>, k: PartType, pos: nat)
    requires pos < |t| && t[pos].partType == k
    requires forall i, j :: 0 <= i < j < |t| ==> t[i].partType != t[j].partType
    ensures PartsOfType(t, Some(k.Key())) == t[pos].parts
  {
    var r := Lookup(t, k.Key());
    assert t[pos].partType.Key() == k.Key();
    var i :| 0 <= i < |t| && t[i].partType.Key() == k.Key() && r.value == t[i].parts;
    KeyInjective(t[i].partType, k);
  }

  /**
   * In a table whose kinds are distinct, the home page's count for a kind
   * is the number of parts that kind's page lists: the summary's last
   * entry wins and the page's lookup takes the first, but there is only
   * one.
   */
  lemma {:induction false} SummaryCountsListedParts(t: seq<Entry>, k: PartType)
    requires forall i, j :: 0 <= i < j < |t| ==> t[i].partType != t[j].partType
    ensures HomePage.PartsSummary(t)[k] == |PartsOfType(t, Some(k.Key()))|
  {
    if pos :| 0 <= pos < |t| && t[pos].partType == k {
      LookupOfKind(t, k, pos);
      HomePage.PartsSummaryLastWins(t, pos);
    } else {
      forall i | 0 <= i < |t| ensures t[i].partType.Key() != k.Key() {
        KeyInjective(t[i].partType, k);
      }
    }
  }

  /** Over the catalog, the case page lists nothing, and every other kind lists its own entry's parts. */
  lemma PartsOfCatalogKind(c: Catalog, k: PartType)
    ensures k == CaseKind ==> PartsOfType(AllParts(c), Some(k.Key())) == []
    ensures k != CaseKind ==> PartsOfType(AllParts(c), Some(k.Key())) == AllParts(c)[KindPosition(k)].parts
  {
    var t := AllParts(c);
    if k == CaseKind {
      forall i | 0 <= i < |t| ensures t[i].partType.Key() != k.Key() {
        KeyInjective(t[i].partType, k);
      }
    } else {
      LookupOfKind(t, k, KindPosition(k));
    }
  }

  /**
   * The page's `filteredParts`: a blank search lists the kind's parts
   * unchanged; otherwise the parts whose name, brand or description
   * contains the lower-cased term, in their order.
   */
  function FilteredParts(table: seq<Entry>, partType: Option<string>, term: string): (r: seq<AnyPart>)
    ensures IsBlank(term) ==> r == PartsOfType(table, partType)
    ensures IsSubsequence(r, PartsOfType(table, partType))
    ensures !IsBlank(term) ==> forall p :: p in r <==> p in PartsOfType(table, partType) && MatchesSearch(p.info, ToLower(term))
    ensures !IsBlank(term) ==> forall p ::
      multiset(r)[p] == if MatchesSearch(p.info, ToLower(term)) then multiset(PartsOfType(table, partType))[p] else 0
  {
    Search(PartsOfType(table, partType), InfoOf, term)
  }

  /** Searching the listed parts again with the same term changes nothing. */
  lemma FilteredPartsIdempotent(table: seq<Entry>, partType: Option<string>, term: string)
    ensures Search(FilteredParts(table, partType, term), InfoOf, term) == FilteredParts(table, partType, term)
  {
    SearchIdempotent(PartsOfType(table, partType), InfoOf, term);
  }
}
