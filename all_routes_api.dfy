/** src/api/all-routes.ts: `getRoutes` and `getRoutePatterns`, their query
    parameters, and the route-pattern deduplication. The HTTP request is the
    parameter `fetch`. */
module AllRoutesApi {
  import opened Wrappers
  import opened Types
  import opened Strings
  import opened Query
  import Seqs

  /** `RoutesProps` (types.ts). */
  datatype RoutesProps = RoutesProps(
    pageOffset: Option<int>, pageLimit: Option<int>, sort: Option<string>, fields: Option<string>,
    includeParam: Option<string>, filterStops: Option<string>, filterTypes: Option<string>,
    filterDirections: Option<int>, filterDate: Option<string>, filterIds: Option<string>, key: string)

  /** `RoutePatternsProps` (types.ts); its direction filter is a string. */
  datatype RoutePatternsProps = RoutePatternsProps(
    pageOffset: Option<int>, pageLimit: Option<int>, sort: Option<string>, fields: Option<string>,
    includeParam: Option<string>, filterId: Option<string>, filterRoute: Option<string>,
    filterDirection: Option<string>, filterStop: Option<string>, filterCanonical: Option<bool>,
    filterDate: Option<string>, key: string)

  /** The value appended for an optional boolean: `"true"` when it is true. */
  function BoolValue(b: Option<bool>): (v: Option<string>)
    ensures v.Some? <==> b == Some(true)
    ensures v.Some? ==> v.value == "true"
  {
    if b == Some(true) then Some("true") else None
  }

  // ---------------------------------------------------------------------
  // getRoutes

  const RouteKeys: seq<string> :=
    ["api_key", "page[offset]", "page[limit]", "sort", "fields[route]", "include",
     "filter[stop]", "filter[type]", "filter[direction_id]", "filter[date]", "filter[id]"]

  /** The `append` calls of `getRoutes`, in order, each with its guard. */
  function RouteCandidates(props: RoutesProps): seq<Candidate> {
    [ Candidate("api_key", Some(props.key)),
      Candidate("page[offset]", NumberValue(props.pageOffset)),
      Candidate("page[limit]", NumberValue(props.pageLimit)),
      Candidate("sort", StringValue(props.sort)),
      Candidate("fields[route]", StringValue(props.fields)),
      Candidate("include", StringValue(props.includeParam)),
      Candidate("filter[stop]", StringValue(props.filterStops)),
      Candidate("filter[type]", StringValue(props.filterTypes)),
      Candidate("filter[direction_id]", NumberValue(props.filterDirections)),
      Candidate("filter[date]", StringValue(props.filterDate)),
      Candidate("filter[id]", StringValue(props.filterIds)) ]
  }

  lemma RouteCandidateKeys(props: RoutesProps)
    ensures CandidateKeys(RouteCandidates(props)) == RouteKeys
  {
    var ks := CandidateKeys(RouteCandidates(props));
    forall i | 0 <= i < |RouteKeys| ensures ks[i] == RouteKeys[i] { }
  }

  lemma RouteKeysDistinct()
    ensures forall i, j :: 0 <= i < j < |RouteKeys| ==> RouteKeys[i] != RouteKeys[j]
  {
  }

  method RouteParams(props: RoutesProps) returns (params: seq<Param>)
    ensures params == Appended(RouteCandidates(props))
  {
    params := [Param("api_key", props.key)];
    ghost var done := [Candidate("api_key", Some(props.key))];
    var c: Candidate;
    c := Candidate("page[offset]", NumberValue(props.pageOffset));
    params := AppendCandidate(params, c);
    assert params == Appended(done + [c]) by { AppendedSnoc(done, c); }
    done := done + [c];
    c := Candidate("page[limit]", NumberValue(props.pageLimit));
    params := AppendCandidate(params, c);
    assert params == Appended(done + [c]) by { AppendedSnoc(done, c); }
    done := done + [c];
    c := Candidate("sort", StringValue(props.sort));
    params := AppendCandidate(params, c);
    assert params == Appended(done + [c]) by { AppendedSnoc(done, c); }
    done := done + [c];
    c := Candidate("fields[route]", StringValue(props.fields));
    params := AppendCandidate(params, c);
    assert params == Appended(done + [c]) by { AppendedSnoc(done, c); }
    done := done + [c];
    c := Candidate("include", StringValue(props.includeParam));
    params := AppendCandidate(params, c);
    assert params == Appended(done + [c]) by { AppendedSnoc(done, c); }
    done := done + [c];
    c := Candidate("filter[stop]", StringValue(props.filterStops));
    params := AppendCandidate(params, c);
    assert params == Appended(done + [c]) by { AppendedSnoc(done, c); }
    done := done + [c];
    c := Candidate("filter[type]", StringValue(props.filterTypes));
    params := AppendCandidate(params, c);
    assert params == Appended(done + [c]) by { AppendedSnoc(done, c); }
    done := done + [c];
    c := Candidate("filter[direction_id]", NumberValue(props.filterDirections));
    params := AppendCandidate(params, c);
    assert params == Appended(done + [c]) by { AppendedSnoc(done, c); }
    done := done + [c];
    c := Candidate("filter[date]", StringValue(props.filterDate));
    params := AppendCandidate(params, c);
    assert params == Appended(done + [c]) by { AppendedSnoc(done, c); }
    done := done + [c];
    c := Candidate("filter[id]", StringValue(props.filterIds));
    params := AppendCandidate(params, c);
    assert params == Appended(done + [c]) by { AppendedSnoc(done, c); }
    done := done + [c];
    assert done == RouteCandidates(props);
  }

  /** `api_key` comes first; every other key appears, in the fixed order,
      exactly when its property is truthy (numbers 0 and empty strings are
      left out), carrying that property's value. */
  lemma RouteParamsLayout(props: RoutesProps, i: int, value: string)
    requires 0 <= i < |RouteKeys|
    ensures var ps := Appended(RouteCandidates(props));
      && |ps| > 0 && ps[0] == Param("api_key", props.key)
      && (HasParam(ps, RouteKeys[i], value) <==> RouteCandidates(props)[i].value == Some(value))
      && Seqs.Subsequence(Keys(ps), RouteKeys)
  {
    var cs := RouteCandidates(props);
    AppendedStartsWith(cs);
    assert CandidateKeys(cs) == RouteKeys by { RouteCandidateKeys(props); }
    assert DistinctKeys(cs) by { RouteKeysDistinct(); }
    AppendedLookup(cs, i, value);
    AppendedKeepsKeyOrder(cs);
  }

  /** A direction filter of 0 is falsy, so it is not sent at all. */
  lemma ZeroDirectionIsOmitted(props: RoutesProps, value: string)
    requires props.filterDirections == Some(0)
    ensures !HasParam(Appended(RouteCandidates(props)), "filter[direction_id]", value)
  {
    RouteParamsLayout(props, 8, value);
  }

  /** `getRoutes`: the routes answer, or the HTTP error of a non-ok answer. */
  method GetRoutes(props: RoutesProps, fetch: seq<Param> -> Response<RoutesResponse>)
    returns (r: Result<RoutesResponse, string>)
    ensures var response := fetch(Appended(RouteCandidates(props)));
      && (r.Failure? <==> !response.ok)
      && (!response.ok ==> r.error == HttpError(response.status))
      && (response.ok ==> r.value == response.body)
  {
    var params := RouteParams(props);
    var response := fetch(params);
    if !response.ok {
      return Failure(HttpError(response.status));
    }
    return Success(response.body);
  }

  // ---------------------------------------------------------------------
  // getRoutePatterns

  const PatternKeys: seq<string> :=
    ["api_key", "page[offset]", "page[limit]", "sort", "fields[route_pattern]", "include",
     "filter[id]", "filter[route]", "filter[direction_id]", "filter[date]", "filter[stop]",
     "filter[canonical]"]

  /** The `append` calls of `getRoutePatterns`, in order, each with its guard. */
  function PatternCandidates(props: RoutePatternsProps): seq<Candidate> {
    [ Candidate("api_key", Some(props.key)),
      Candidate("page[offset]", NumberValue(props.pageOffset)),
      Candidate("page[limit]", NumberValue(props.pageLimit)),
      Candidate("sort", StringValue(props.sort)),
      Candidate("fields[route_pattern]", StringValue(props.fields)),
      Candidate("include", StringValue(props.includeParam)),
      Candidate("filter[id]", StringValue(props.filterId)),
      Candidate("filter[route]", StringValue(props.filterRoute)),
      Candidate("filter[direction_id]", StringValue(props.filterDirection)),
      Candidate("filter[date]", StringValue(props.filterDate)),
      Candidate("filter[stop]", StringValue(props.filterStop)),
      Candidate("filter[canonical]", BoolValue(props.filterCanonical)) ]
  }

  lemma PatternCandidateKeys(props: RoutePatternsProps)
    ensures CandidateKeys(PatternCandidates(props)) == PatternKeys
  {
    var ks := CandidateKeys(PatternCandidates(props));
    forall i | 0 <= i < |PatternKeys| ensures ks[i] == PatternKeys[i] { }
  }

  lemma PatternKeysDistinct()
    ensures forall i, j :: 0 <= i < j < |PatternKeys| ==> PatternKeys[i] != PatternKeys[j]
  {
  }

  method PatternParams(props: RoutePatternsProps) returns (params: seq<Param>)
    ensures params == Appended(PatternCandidates(props))
  {
    params := [Param("api_key", props.key)];
    ghost var done := [Candidate("api_key", Some(props.key))];
    var c: Candidate;
    c := Candidate("page[offset]", NumberValue(props.pageOffset));
    params := AppendCandidate(params, c);
    assert params == Appended(done + [c]) by { AppendedSnoc(done, c); }
    done := done + [c];
    c := Candidate("page[limit]", NumberValue(props.pageLimit));
    params := AppendCandidate(params, c);
    assert params == Appended(done + [c]) by { AppendedSnoc(done, c); }
    done := done + [c];
    c := Candidate("sort", StringValue(props.sort));
    params := AppendCandidate(params, c);
    assert params == Appended(done + [c]) by { AppendedSnoc(done, c); }
    done := done + [c];
    c := Candidate("fields[route_pattern]", StringValue(props.fields));
    params := AppendCandidate(params, c);
    assert params == Appended(done + [c]) by { AppendedSnoc(done, c); }
    done := done + [c];
    c := Candidate("include", StringValue(props.includeParam));
    params := AppendCandidate(params, c);
    assert params == Appended(done + [c]) by { AppendedSnoc(done, c); }
    done := done + [c];
    c := Candidate("filter[id]", StringValue(props.filterId));
    params := AppendCandidate(params, c);
    assert params == Appended(done + [c]) by { AppendedSnoc(done, c); }
    done := done + [c];
    c := Candidate("filter[route]", StringValue(props.filterRoute));
    params := AppendCandidate(params, c);
    assert params == Appended(done + [c]) by { AppendedSnoc(done, c); }
    done := done + [c];
    c := Candidate("filter[direction_id]", StringValue(props.filterDirection));
    params := AppendCandidate(params, c);
    assert params == Appended(done + [c]) by { AppendedSnoc(done, c); }
    done := done + [c];
    c := Candidate("filter[date]", StringValue(props.filterDate));
    params := AppendCandidate(params, c);
    assert params == Appended(done + [c]) by { AppendedSnoc(done, c); }
    done := done + [c];
    c := Candidate("filter[stop]", StringValue(props.filterStop));
    params := AppendCandidate(params, c);
    assert params == Appended(done + [c]) by { AppendedSnoc(done, c); }
    done := done + [c];
    c := Candidate("filter[canonical]", BoolValue(props.filterCanonical));
    params := AppendCandidate(params, c);
    assert params == Appended(done + [c]) by { AppendedSnoc(done, c); }
    done := done + [c];
    assert done == PatternCandidates(props);
  }

  /** `api_key` first, the rest in the fixed order when truthy; in
      particular `filter[canonical]` is sent only as `true`. */
  lemma PatternParamsLayout(props: RoutePatternsProps, i: int, value: string)
    requires 0 <= i < |PatternKeys|
    ensures var ps := Appended(PatternCandidates(props));
      && |ps| > 0 && ps[0] == Param("api_key", props.key)
      && (HasParam(ps, PatternKeys[i], value) <==> PatternCandidates(props)[i].value == Some(value))
      && Seqs.Subsequence(Keys(ps), PatternKeys)
      && (HasParam(ps, "filter[canonical]", value) <==> props.filterCanonical == Some(true) && value == "true")
  {
    var cs := PatternCandidates(props);
    AppendedStartsWith(cs);
    assert CandidateKeys(cs) == PatternKeys by { PatternCandidateKeys(props); }
    assert DistinctKeys(cs) by { PatternKeysDistinct(); }
    AppendedLookup(cs, i, value);
    AppendedLookup(cs, 11, value);
    AppendedKeepsKeyOrder(cs);
  }

  /** The deduplication key: `id.slice(0, -2)`, the id without its last two
      characters (empty for an id shorter than two). */
  function PatternKey(p: RoutePattern): (k: string)
    ensures |k| == if |p.id| >= 2 then |p.id| - 2 else 0
    ensures |p.id| >= 2 ==> k + p.id[|p.id| - 2..] == p.id
  {
    if |p.id| >= 2 then p.id[..|p.id| - 2] else ""
  }

  function KeySet(ps: seq<RoutePattern>): set<string> {
    set i | 0 <= i < |ps| :: PatternKey(ps[i])
  }

  /** The first pattern of each key, in input order: the last pattern is kept
      exactly when no earlier one has its key. */
  function FirstPerKey(ps: seq<RoutePattern>): (r: seq<RoutePattern>)
    ensures |r| <= |ps|
    ensures ps != [] ==> |r| > 0 && r[0] == ps[0]
    decreases |ps|
  {
    if ps == [] then []
    else
      var front, last := ps[..|ps| - 1], ps[|ps| - 1];
      FirstPerKey(front) + (if PatternKey(last) in KeySet(front) then [] else [last])
  }

  lemma KeySetSnoc(ps: seq<RoutePattern>, p: RoutePattern)
    ensures KeySet(ps + [p]) == KeySet(ps) + {PatternKey(p)}
  {
    var qs := ps + [p];
    assert forall i :: 0 <= i < |ps| ==> qs[i] == ps[i];
    assert qs[|ps|] == p;
  }

  /** The `filter` callback over a mutable set of seen keys. */
  method DedupePatterns(data: seq<RoutePattern>) returns (deduped: seq<RoutePattern>)
    ensures deduped == FirstPerKey(data)
  {
    var uniqueIds: set<string> := {};
    deduped := [];
    var i := 0;
    while i < |data|
      invariant 0 <= i <= |data|
      invariant uniqueIds == KeySet(data[..i])
      invariant deduped == FirstPerKey(data[..i])
    {
      var itemId := PatternKey(data[i]);
      assert data[..i + 1][..i] == data[..i] && data[..i + 1][i] == data[i];
      KeySetSnoc(data[..i], data[i]);
      assert data[..i] + [data[i]] == data[..i + 1];
      if itemId !in uniqueIds {
        uniqueIds := uniqueIds + {itemId};
        deduped := deduped + [data[i]];
      }
      i := i + 1;
    }
    assert data[..|data|] == data;
  }

  /** Every key of the input survives. */
  lemma {:induction false} FirstPerKeyCoversKeys(ps: seq<RoutePattern>)
    ensures KeySet(FirstPerKey(ps)) == KeySet(ps)
    decreases |ps|
  {
    if ps != [] {
      var front, last := ps[..|ps| - 1], ps[|ps| - 1];
      FirstPerKeyCoversKeys(front);
      assert front + [last] == ps;
      KeySetSnoc(front, last);
      if PatternKey(last) !in KeySet(front) {
        assert FirstPerKey(ps) == FirstPerKey(front) + [last];
        KeySetSnoc(FirstPerKey(front), last);
      } else {
        assert FirstPerKey(ps) == FirstPerKey(front);
      }
    }
  }

  /** No two survivors share a key. */
  lemma {:induction false} FirstPerKeyDistinct(ps: seq<RoutePattern>)
    ensures var r := FirstPerKey(ps);
      forall i, j :: 0 <= i < j < |r| ==> PatternKey(r[i]) != PatternKey(r[j])
    decreases |ps|
  {
    if ps != [] {
      var front, last := ps[..|ps| - 1], ps[|ps| - 1];
      FirstPerKeyDistinct(front);
      FirstPerKeyCoversKeys(front);
      var r0 := FirstPerKey(front);
      if PatternKey(last) !in KeySet(front) {
        var r := r0 + [last];
        forall i, j | 0 <= i < j < |r| ensures PatternKey(r[i]) != PatternKey(r[j]) {
          if j == |r0| {
            assert PatternKey(r0[i]) in KeySet(r0);
          } else {
            assert r[i] == r0[i] && r[j] == r0[j];
          }
        }
      } else {
        assert FirstPerKey(ps) == r0;
      }
    }
  }

  /** The survivors keep their input order. */
  lemma {:induction false} FirstPerKeyIsSubsequence(ps: seq<RoutePattern>)
    ensures Seqs.Subsequence(FirstPerKey(ps), ps)
    decreases |ps|
  {
    if ps != [] {
      var front, last := ps[..|ps| - 1], ps[|ps| - 1];
      FirstPerKeyIsSubsequence(front);
      Seqs.SubsequenceAppend(FirstPerKey(front), front, last);
      assert front + [last] == ps;
      if PatternKey(last) in KeySet(front) {
        assert FirstPerKey(ps) == FirstPerKey(front);
      } else {
        assert FirstPerKey(ps) == FirstPerKey(front) + [last];
      }
    }
  }

  /** Each survivor is the first pattern of the input with its key. */
  lemma {:induction false} FirstPerKeyKeepsFirst(ps: seq<RoutePattern>, k: int)
    requires 0 <= k < |FirstPerKey(ps)|
    ensures exists i :: 0 <= i < |ps| && ps[i] == FirstPerKey(ps)[k]
                        && forall j :: 0 <= j < i ==> PatternKey(ps[j]) != PatternKey(ps[i])
    decreases |ps|
  {
    var front, last := ps[..|ps| - 1], ps[|ps| - 1];
    var r0 := FirstPerKey(front);
    if k < |r0| {
      FirstPerKeyKeepsFirst(front, k);
      var i :| 0 <= i < |front| && front[i] == r0[k]
               && forall j :: 0 <= j < i ==> PatternKey(front[j]) != PatternKey(front[i]);
      assert ps[i] == front[i];
      assert forall j :: 0 <= j < i ==> ps[j] == front[j];
    } else {
      var i := |ps| - 1;
      assert FirstPerKey(ps)[k] == last && PatternKey(last) !in KeySet(front);
      forall j | 0 <= j < i ensures PatternKey(ps[j]) != PatternKey(ps[i]) {
        assert ps[j] == front[j];
        assert PatternKey(front[j]) in KeySet(front);
      }
    }
  }

  function TestPattern(id: string): RoutePattern {
    RoutePattern(id, true, id, "Red", "route_pattern")
  }

  /** Ids differing only in the trailing direction digit (`Red-1-0`,
      `Red-1-1`) share a key, so only the first of them is kept. */
  lemma BothDirectionsCollapse()
    ensures FirstPerKey([TestPattern("Red-1-0"), TestPattern("Red-1-1"), TestPattern("Red-3-0")])
         == [TestPattern("Red-1-0"), TestPattern("Red-3-0")]
  {
    var a, b, c := TestPattern("Red-1-0"), TestPattern("Red-1-1"), TestPattern("Red-3-0");
    assert PatternKey(a) == "Red-1" && PatternKey(b) == "Red-1" && PatternKey(c) == "Red-3";
    assert [a, b, c][..2] == [a, b] && [a, b][..1] == [a] && [a][..0] == [];
    assert KeySet([]) == {};
    KeySetSnoc([], a);
    assert [] + [a] == [a];
    KeySetSnoc([a], b);
    assert [a] + [b] == [a, b];
    assert KeySet([a, b]) == {"Red-1"};
    assert FirstPerKey([a]) == [a];
    assert FirstPerKey([a, b]) == [a];
    assert "Red-3" != "Red-1";
  }

  /** `getRoutePatterns`: the deduplicated patterns, or the HTTP error. */
  method GetRoutePatterns(props: RoutePatternsProps, fetch: seq<Param> -> Response<seq<RoutePattern>>)
    returns (r: Result<seq<RoutePattern>, string>)
    ensures var response := fetch(Appended(PatternCandidates(props)));
      && (r.Failure? <==> !response.ok)
      && (!response.ok ==> r.error == HttpError(response.status))
      && (response.ok ==> r.value == FirstPerKey(response.body))
  {
    var params := PatternParams(props);
    var response := fetch(params);
    if !response.ok {
      return Failure(HttpError(response.status));
    }
    var deduped := DedupePatterns(response.body);
    return Success(deduped);
  }
}
