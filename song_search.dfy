/**
 * The matching behind `filterSongs`: a catalog name matches a query when the
 * lowered name contains the lowered query, and the filter picks the first
 * matching name in catalog order. Lowering is modelled on ASCII letters only.
 */
module SongSearch {
  import opened Wrappers

  /** ASCII lowering of one character: an upper-case letter becomes the same
      letter in lower case; every other character is kept. */
  function LowerChar(c: char): (r: char)
    ensures !('A' <= r <= 'Z')
    ensures !('A' <= c <= 'Z') ==> r == c
    ensures 'A' <= c <= 'Z' ==> 'a' <= r <= 'z' && r as int - 'a' as int == c as int - 'A' as int
  {
    if 'A' <= c <= 'Z' then (c as int + ('a' as int - 'A' as int)) as char else c
  }

  /** `String.toLowerCase`, restricted to ASCII: the same length, no upper-case
      letter left, every other character where it was, and each upper-case letter
      replaced in place by its lower-case form. */
  function ToLower(s: string): (r: string)
    ensures |r| == |s|
    ensures forall i :: 0 <= i < |r| ==> !('A' <= r[i] <= 'Z')
    ensures forall i :: 0 <= i < |s| && !('A' <= s[i] <= 'Z') ==> r[i] == s[i]
    ensures forall i :: 0 <= i < |s| && 'A' <= s[i] <= 'Z' ==> r[i] as int == s[i] as int + ('a' as int - 'A' as int)
  {
    seq(|s|, i requires 0 <= i < |s| => LowerChar(s[i]))
  }

  /** `part` occurs in `s` starting at index `i`. */
  ghost predicate OccursAt(s: string, part: string, i: int) {
    0 <= i && i + |part| <= |s| && s[i..i + |part|] == part
  }

  /** When `part` is not a prefix of a non-empty `s`, its occurrences in `s` are
      those in `s[1..]`, shifted by one. */
  lemma OccursInTail(s: string, part: string)
    requires s != [] && !(part <= s)
    ensures (exists i :: OccursAt(s, part, i)) <==> (exists i :: OccursAt(s[1..], part, i))
  {
    if i :| OccursAt(s, part, i) {
      assert i > 0;
      assert s[1..][i - 1..i - 1 + |part|] == s[i..i + |part|];
      assert OccursAt(s[1..], part, i - 1);
    }
    if i :| OccursAt(s[1..], part, i) {
      assert s[i + 1..i + 1 + |part|] == s[1..][i..i + |part|];
      assert OccursAt(s, part, i + 1);
    }
  }

  /** `String.contains`: scans `s` for a position where `part` is a prefix. It
      holds exactly when `part` occurs as a contiguous block somewhere in `s`. */
  function Contains(s: string, part: string): (r: bool)
    ensures r <==> exists i :: OccursAt(s, part, i)
    decreases |s|
  {
    if part <= s then
      assert OccursAt(s, part, 0);
      true
    else if s == [] then
      false
    else
      OccursInTail(s, part);
      Contains(s[1..], part)
  }

  /** The filter's test for one catalog name: the lowered query occurs somewhere
      in the lowered name. */
  function Matches(name: string, query: string): (r: bool)
    ensures r <==> exists i :: OccursAt(ToLower(name), ToLower(query), i)
  {
    Contains(ToLower(name), ToLower(query))
  }

  /** The first index at or after `from` whose name matches `query`. */
  function FirstMatchFrom(names: seq<string>, query: string, from: nat): (r: Option<nat>)
    requires from <= |names|
    ensures r.Some? ==> from <= r.value < |names| && Matches(names[r.value], query)
    ensures r.Some? ==> forall j :: from <= j < r.value ==> !Matches(names[j], query)
    ensures r.None? <==> forall j :: from <= j < |names| ==> !Matches(names[j], query)
    decreases |names| - from
  {
    if from == |names| then None
    else if Matches(names[from], query) then Some(from)
    else FirstMatchFrom(names, query, from + 1)
  }

  /** The smallest catalog index whose name matches `query`, if any. */
  function FirstMatch(names: seq<string>, query: string): (r: Option<nat>)
    ensures r.Some? ==> r.value < |names| && Matches(names[r.value], query)
    ensures r.Some? ==> forall j :: 0 <= j < r.value ==> !Matches(names[j], query)
    ensures r.None? <==> forall j :: 0 <= j < |names| ==> !Matches(names[j], query)
  {
    FirstMatchFrom(names, query, 0)
  }

  /** The empty query is contained in every name, so it selects the first track. */
  lemma EmptyQuerySelectsFirst(names: seq<string>)
    requires |names| > 0
    ensures FirstMatch(names, "") == Some(0)
  {
  }

  /** Lowering twice is lowering once. */
  lemma LowerIdempotent(s: string)
    ensures ToLower(ToLower(s)) == ToLower(s)
  {
  }

  /** A query that differs only in ASCII letter case selects the same track. */
  lemma QueryCaseIrrelevant(names: seq<string>, query: string)
    ensures FirstMatch(names, ToLower(query)) == FirstMatch(names, query)
  {
    LowerIdempotent(query);
    assert forall j :: 0 <= j < |names| ==> Matches(names[j], ToLower(query)) == Matches(names[j], query);
  }

  /** A character of `part` that `s` lacks rules out every occurrence. */
  lemma NoOccurrence(s: string, part: string, k: nat)
    requires k < |part|
    requires forall i :: 0 <= i < |s| ==> s[i] != part[k]
    ensures !Contains(s, part)
  {
    forall i ensures !OccursAt(s, part, i) {
      if 0 <= i && i + |part| <= |s| {
        assert s[i..i + |part|][k] == s[i + k];
      }
    }
  }

  /** The app's catalog names, lowered: the first has no 's' and no 'z', the second
      starts with "tus" and has no 'z'. */
  lemma SourceNamesLowered()
    ensures forall i :: 0 <= i < 9 ==> ToLower("Umyttynba")[i] !in "sz"
    ensures forall i :: 0 <= i < 10 ==> ToLower("Tusinbedin")[i] != 'z'
    ensures ToLower("Tusinbedin")[..3] == "tus"
  {
  }

  /** The app's two-track catalog: "tus" (in any case) finds the second track, "zzz" nothing. */
  lemma SourceCatalogQueries()
    ensures FirstMatch(["Umyttynba", "Tusinbedin"], "tus") == Some(1)
    ensures FirstMatch(["Umyttynba", "Tusinbedin"], "TUS") == Some(1)
    ensures FirstMatch(["Umyttynba", "Tusinbedin"], "zzz") == None
  {
    var names := ["Umyttynba", "Tusinbedin"];
    var first, second := ToLower(names[0]), ToLower(names[1]);
    SourceNamesLowered();
    assert ToLower("TUS") == "tus" && ToLower("tus") == "tus" && ToLower("zzz") == "zzz";
    NoOccurrence(first, "tus", 2);
    NoOccurrence(first, "zzz", 0);
    NoOccurrence(second, "zzz", 0);
    assert "tus" <= second;
  }
}
