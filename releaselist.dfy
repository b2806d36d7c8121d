/**
 * The release list's search box and the defaults a release card shows.
 */
module ReleaseList {
  import opened Common
  import opened Text

  /** A release as the list receives it; every field but the id may be missing. */
  datatype ListedRelease = ListedRelease(
    id: string,
    name: Option<string>,
    version: Option<string>,
    status: Option<string>,
    progress: Option<int>)

  /** `field?.toLowerCase().includes(query.toLowerCase())`: false when the field is missing. */
  predicate FieldMatches(field: Option<string>, query: string) {
    field.Some? && Includes(ToLower(field.value), ToLower(query))
  }

  /** The search test: the name or, failing that, the version contains the query, ignoring case. */
  predicate Matches(r: ListedRelease, query: string) {
    FieldMatches(r.name, query) || FieldMatches(r.version, query)
  }

  /** `filteredReleases` */
  function Search(releases: seq<ListedRelease>, query: string): (r: seq<ListedRelease>)
    ensures forall x :: x in r <==> x in releases && Matches(x, query)
    ensures IsSubsequence(r, releases)
  {
    var keep := (x: ListedRelease) => Matches(x, query);
    FilterIsSubsequence(releases, keep);
    Filter(releases, keep)
  }

  /** The empty string occurs in every string. */
  lemma IncludesEmpty(s: string)
    ensures Includes(s, "")
  {
    assert OccursAt(s, "", 0);
  }

  /** An empty query keeps exactly the releases that have a name or a version. */
  lemma EmptyQuery(releases: seq<ListedRelease>)
    ensures forall x :: x in Search(releases, "") <==> x in releases && (x.name.Some? || x.version.Some?)
  {
    forall x | x in releases && (x.name.Some? || x.version.Some?) ensures Matches(x, "") {
      if x.name.Some? {
        IncludesEmpty(ToLower(x.name.value));
      } else {
        IncludesEmpty(ToLower(x.version.value));
      }
    }
  }

  /** A release without a version is found only through its name. */
  lemma NoVersionMatchesByName(r: ListedRelease, query: string)
    requires r.version.None?
    ensures Matches(r, query) <==> r.name.Some? && Includes(ToLower(r.name.value), ToLower(query))
  {
  }

  /** The search ignores the case of the query: typing it in capitals finds the same releases in the same order. */
  lemma SearchIgnoresCase(releases: seq<ListedRelease>, query: string)
    ensures Search(releases, ToUpper(query)) == Search(releases, query)
  {
    ToLowerOfToUpper(query);
    FilterAgree(releases, (x: ListedRelease) => Matches(x, ToUpper(query)), (x: ListedRelease) => Matches(x, query));
  }

  /** What a release card shows. */
  datatype Card = Card(id: string, name: Option<string>, version: string, status: string, progress: int)

  /** A card's defaults: "No version", `not_started` and 0 for missing (or empty) fields. */
  function CardOf(r: ListedRelease): (c: Card)
    ensures c.version == "No version" <==> !Truthy(r.version) || r.version.value == "No version"
    ensures Truthy(r.version) ==> c.version == r.version.value
    ensures c.status == "not_started" <==> !Truthy(r.status) || r.status.value == "not_started"
    ensures Truthy(r.status) ==> c.status == r.status.value
    ensures c.progress == (if r.progress.Some? then r.progress.value else 0)
    ensures c.id == r.id && c.name == r.name
  {
    Card(r.id, r.name, OrElse(r.version, "No version"), OrElse(r.status, "not_started"), r.progress.GetOr(0))
  }
}
