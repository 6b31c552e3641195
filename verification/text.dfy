/**
 * The string operations the catalog pages rely on: ECMAScript white space
 * and `trim`, lower-casing, `includes`, and the name/brand/description
 * search shared by the home page and the part pages.
 */
module Text {
  import opened Seqs
  import opened PartTypes

  /** The white space and line terminator characters ECMAScript's `trim` and `parseInt` skip. */
  predicate IsWhitespace(c: char) {
    var n := c as int;
    || n == 0x09 || n == 0x0A || n == 0x0B || n == 0x0C || n == 0x0D || n == 0x20 || n == 0xA0
    || n == 0x1680 || (0x2000 <= n <= 0x200A) || n == 0x2028 || n == 0x2029 || n == 0x202F
    || n == 0x205F || n == 0x3000 || n == 0xFEFF
  }

  /** Empty or made of white space only. */
  predicate IsBlank(s: string) {
    forall i :: 0 <= i < |s| ==> IsWhitespace(s[i])
  }

  /** `s` without its leading white space. */
  function TrimStart(s: string): (r: string)
    ensures |r| <= |s| && r == s[|s| - |r|..]
    ensures IsBlank(s[..|s| - |r|])
    ensures r == [] || !IsWhitespace(r[0])
  {
    if s != [] && IsWhitespace(s[0]) then
      var r := TrimStart(s[1..]);
      TrimStartStep(s, r);
      r
    else s
  }

  /** Trimming text that starts with white space trims its tail. */
  lemma TrimStartStep(s: string, r: string)
    requires s != [] && IsWhitespace(s[0])
    requires |r| <= |s| - 1 && r == s[1..][|s| - 1 - |r|..] && IsBlank(s[1..][..|s| - 1 - |r|])
    ensures r == s[|s| - |r|..] && IsBlank(s[..|s| - |r|])
  {
    assert s[..|s| - |r|] == [s[0]] + s[1..][..|s| - 1 - |r|];
    BlankCons(s[0], s[1..][..|s| - 1 - |r|]);
  }

  /** White space in front of blank text is blank. */
  lemma BlankCons(c: char, t: string)
    requires IsWhitespace(c) && IsBlank(t)
    ensures IsBlank([c] + t)
  {
    forall i | 0 <= i < |[c] + t| ensures IsWhitespace(([c] + t)[i]) {
      if i > 0 {
        assert ([c] + t)[i] == t[i - 1];
      }
    }
  }

  /** `s` without its trailing white space. */
  function TrimEnd(s: string): (r: string)
    ensures |r| <= |s| && r == s[..|r|]
    ensures IsBlank(s[|r|..])
    ensures r == [] || !IsWhitespace(r[|r| - 1])
  {
    if s != [] && IsWhitespace(s[|s| - 1]) then
      var r := TrimEnd(s[..|s| - 1]);
      assert s[|r|..] == s[..|s| - 1][|r|..] + [s[|s| - 1]];
      r
    else s
  }

  /** `String.prototype.trim`: both ends stripped of white space. */
  function Trim(s: string): string {
    TrimEnd(TrimStart(s))
  }

  /** A string trims to the empty string exactly when it is blank, so a blank search term is falsy after `trim`. */
  lemma TrimEmptyIffBlank(s: string)
    ensures Trim(s) == [] <==> IsBlank(s)
  {
    var t := TrimStart(s);
    if t == [] {
      assert s[..|s|] == s;
    } else {
      assert !IsWhitespace(s[|s| - |t|]);
      assert t[0..][0] == t[0];
    }
  }

  /** Lower-casing of one character; letters outside A-Z are left as they are. */
  function LowerChar(c: char): char {
    if 'A' <= c <= 'Z' then (c as int + 32) as char else c
  }

  /** `String.prototype.toLowerCase`, character by character. */
  function ToLower(s: string): (r: string)
    ensures |r| == |s|
    ensures forall i :: 0 <= i < |s| ==> r[i] == LowerChar(s[i]) && !('A' <= r[i] <= 'Z')
  {
    seq(|s|, i requires 0 <= i < |s| => LowerChar(s[i]))
  }

  /** `String.prototype.includes`: `sub` is searched for at each position of `s` from the front. */
  predicate Includes(s: string, sub: string)
    decreases |s|
  {
    (|sub| <= |s| && s[..|sub|] == sub) || (s != [] && Includes(s[1..], sub))
  }

  /** `sub` occurs in `s` starting at position `i`. */
  predicate OccursAt(s: string, sub: string, i: int) {
    0 <= i && i + |sub| <= |s| && s[i..i + |sub|] == sub
  }

  /** `Includes` holds exactly when `sub` occurs at some position of `s`. */
  lemma {:induction false} IncludesIffOccurs(s: string, sub: string)
    ensures Includes(s, sub) <==> exists i :: OccursAt(s, sub, i)
    decreases |s|
  {
    if exists i :: OccursAt(s, sub, i) {
      var i :| OccursAt(s, sub, i);
      if i > 0 {
        assert OccursAt(s[1..], sub, i - 1) by {
          assert s[1..][i - 1..i - 1 + |sub|] == s[i..i + |sub|];
        }
        IncludesIffOccurs(s[1..], sub);
      }
    }
    if s != [] && Includes(s[1..], sub) {
      IncludesIffOccurs(s[1..], sub);
      var i :| OccursAt(s[1..], sub, i);
      assert s[1..][i..i + |sub|] == s[i + 1..i + 1 + |sub|];
      assert OccursAt(s, sub, i + 1);
    }
    if |sub| <= |s| && s[..|sub|] == sub {
      assert OccursAt(s, sub, 0);
    }
  }

  /** The search predicate: name, brand or description, lower-cased, includes the (already lower-cased) term. */
  predicate MatchesSearch(info: PartInfo, lowerTerm: string) {
    || Includes(ToLower(info.name), lowerTerm)
    || Includes(ToLower(info.brand), lowerTerm)
    || Includes(ToLower(info.description), lowerTerm)
  }

  /** The filter callback for a search term, over items whose part fields `info` selects. */
  function Matcher<T>(info: T -> PartInfo, term: string): T -> bool {
    x => MatchesSearch(info(x), ToLower(term))
  }

  /**
   * The search of the home and part pages: a blank term keeps every item;
   * otherwise the items whose name, brand or description contains the
   * lower-cased term are kept, in their order.
   */
  function Search<T(==,!new)>(items: seq<T>, info: T -> PartInfo, term: string): (r: seq<T>)
    ensures IsBlank(term) ==> r == items
    ensures !IsBlank(term) ==> forall x :: x in r <==> x in items && MatchesSearch(info(x), ToLower(term))
    ensures !IsBlank(term) ==> forall x :: multiset(r)[x] == if MatchesSearch(info(x), ToLower(term)) then multiset(items)[x] else 0
    ensures IsSubsequence(r, items)
  {
    TrimEmptyIffBlank(term);
    if Trim(term) == [] then IsSubsequenceReflexive(items); items
    else FilterCounts(items, Matcher(info, term)); Filter(items, Matcher(info, term))
  }

  /** Searching the result of a search again with the same term changes nothing. */
  lemma SearchIdempotent<T(!new)>(items: seq<T>, info: T -> PartInfo, term: string)
    ensures Search(Search(items, info, term), info, term) == Search(items, info, term)
  {
    if !IsBlank(term) {
      FilterIdempotent(items, Matcher(info, term));
    }
  }
}
