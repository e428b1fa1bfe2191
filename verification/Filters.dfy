/** Request filters: what a query asks a relay for. */
module Filters {
  import opened Wrappers
  import Clock

  datatype FilterTag = FilterTag(name: string, value: string)

  /** What a caller passes to NewFilter. */
  datatype Query = Query(ids: seq<string>, kinds: seq<int>, tags: seq<FilterTag>, authors: seq<string>,
                         since: Option<int>, until: Option<int>)

  /** `since` and `until` are whole seconds; a tag name is mapped to a single value. */
  datatype Filter = Filter(ids: seq<string>, kinds: seq<int>, tags: map<string, string>, authors: seq<string>,
                           since: Option<int>, until: Option<int>)

  function ToSeconds(instant: Option<int>): Option<int> {
    if instant.Some? then Some(Clock.Unix(instant.value)) else None
  }

  /** The tag map after the assignments of the loop over `tags`, in order. */
  function TagMap(tags: seq<FilterTag>): map<string, string> {
    if tags == [] then map[]
    else
      var last := tags[|tags| - 1];
      TagMap(tags[..|tags| - 1])[last.name := last.value]
  }

  predicate OutOfOrder(q: Query) {
    q.since.Some? && q.until.Some? && q.since.value >= q.until.value
  }

  function FilterOf(q: Query): Result<Filter> {
    if OutOfOrder(q) then Err
    else Ok(Filter(q.ids, q.kinds, TagMap(q.tags), q.authors, ToSeconds(q.since), ToSeconds(q.until)))
  }

  method NewFilter(q: Query) returns (r: Result<Filter>)
    ensures r == FilterOf(q)
    ensures r.Err? <==> q.since.Some? && q.until.Some? && q.since.value >= q.until.value
    ensures r.Ok? ==> r.value.ids == q.ids && r.value.kinds == q.kinds && r.value.authors == q.authors
  {
    var ids: seq<string>, kinds: seq<int>, authors: seq<string> := [], [], [];
    for i := 0 to |q.ids|
      invariant ids == q.ids[..i]
    {
      ids := ids + [q.ids[i]];
    }
    for i := 0 to |q.kinds|
      invariant kinds == q.kinds[..i]
    {
      kinds := kinds + [q.kinds[i]];
    }
    var tags: map<string, string> := map[];
    for i := 0 to |q.tags|
      invariant tags == TagMap(q.tags[..i])
    {
      assert q.tags[..i + 1][..i] == q.tags[..i];
      tags := tags[q.tags[i].name := q.tags[i].value];
    }
    assert q.tags[..|q.tags|] == q.tags;
    for i := 0 to |q.authors|
      invariant authors == q.authors[..i]
    {
      authors := authors + [q.authors[i]];
    }
    if q.since.Some? && q.until.Some? && !(q.since.value < q.until.value) {
      return Err;
    }
    var since, until := None, None;
    if q.since.Some? {
      since := Some(Clock.Unix(q.since.value));
    }
    if q.until.Some? {
      until := Some(Clock.Unix(q.until.value));
    }
    assert q.ids[..|q.ids|] == q.ids && q.kinds[..|q.kinds|] == q.kinds && q.authors[..|q.authors|] == q.authors;
    r := Ok(Filter(ids, kinds, tags, authors, since, until));
  }

  /** `k` is the last position at which `name` occurs. */
  ghost predicate IsLastWithName(tags: seq<FilterTag>, k: nat, name: string) {
    k < |tags| && tags[k].name == name && forall j :: k < j < |tags| ==> tags[j].name != name
  }

  /** Of several tags with one name the filter keeps only the value of the last. */
  lemma {:induction false} LastTagWins(tags: seq<FilterTag>, k: nat, name: string)
    requires IsLastWithName(tags, k, name)
    ensures name in TagMap(tags) && TagMap(tags)[name] == tags[k].value
  {
    var init := tags[..|tags| - 1];
    if k < |tags| - 1 {
      assert IsLastWithName(init, k, name);
      LastTagWins(init, k, name);
    }
  }

  lemma {:induction false} TagNamesKept(tags: seq<FilterTag>, name: string)
    ensures name in TagMap(tags) <==> exists k :: IsLastWithName(tags, k, name)
  {
    if tags != [] {
      var n := |tags| - 1;
      TagNamesKept(tags[..n], name);
      if tags[n].name == name {
        assert IsLastWithName(tags, n, name);
      } else {
        forall k | IsLastWithName(tags[..n], k, name) ensures IsLastWithName(tags, k, name) {
        }
        forall k | IsLastWithName(tags, k, name) ensures IsLastWithName(tags[..n], k, name) {
        }
      }
    }
  }

  ghost predicate OneValuePerName(tags: seq<FilterTag>) {
    forall i, j :: 0 <= i < |tags| && 0 <= j < |tags| && tags[i].name == tags[j].name ==> tags[i].value == tags[j].value
  }

  ghost predicate AsksForAll(tags: seq<FilterTag>, m: map<string, string>) {
    forall i :: 0 <= i < |tags| ==> tags[i].name in m && m[tags[i].name] == tags[i].value
  }

  lemma {:induction false} LastOccurrence(tags: seq<FilterTag>, i: nat) returns (k: nat)
    requires i < |tags|
    ensures IsLastWithName(tags, k, tags[i].name)
    decreases |tags| - i
  {
    if j :| i < j < |tags| && tags[j].name == tags[i].name {
      k := LastOccurrence(tags, j);
    } else {
      k := i;
    }
  }

  /** The filter asks for every tag it was given exactly when no name comes with two values. */
  lemma AllTagsAskedForIff(tags: seq<FilterTag>)
    ensures AsksForAll(tags, TagMap(tags)) <==> OneValuePerName(tags)
  {
    forall i | 0 <= i < |tags| && OneValuePerName(tags)
      ensures tags[i].name in TagMap(tags) && TagMap(tags)[tags[i].name] == tags[i].value
    {
      var k := LastOccurrence(tags, i);
      LastTagWins(tags, k, tags[i].name);
    }
  }

  /** The bounds admit a second iff no bound that was given is past it, in whole seconds. */
  lemma BoundsAreKept(q: Query, createdAt: int)
    requires FilterOf(q).Ok?
    ensures MatchesTime(FilterOf(q).value, createdAt) <==>
              && (q.since.Some? ==> q.since.value < (createdAt + 1) * 1_000_000_000)
              && (q.until.Some? ==> createdAt * 1_000_000_000 <= q.until.value)
  {
  }

  /** Two monitored keys, each with its own `p` tag: only the second is asked for. */
  lemma FirstOfTwoProfilesIsLost(a: string, b: string)
    requires a != b
    ensures TagMap([FilterTag("p", a), FilterTag("p", b)]) == map["p" := b]
    ensures !AsksForAll([FilterTag("p", a), FilterTag("p", b)], TagMap([FilterTag("p", a), FilterTag("p", b)]))
  {
    var tags := [FilterTag("p", a), FilterTag("p", b)];
    LastTagWins(tags, 1, "p");
    assert tags[..1] == [tags[0]] && tags[..1][..0] == [];
    assert TagMap(tags[..1]) == map["p" := a];
    assert tags[0].value != TagMap(tags)["p"];
  }

  /** NIP-01, "From client to relay: sending events and creating subscriptions":
      since <= created_at <= until. */
  predicate MatchesTime(f: Filter, createdAt: int) {
    (f.since.Some? ==> f.since.value <= createdAt) && (f.until.Some? ==> createdAt <= f.until.value)
  }
}
