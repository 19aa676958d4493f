/** src/api/shapes.ts: `getShapes`, its query parameters and the
    decode-then-dedupe pipeline applied to the answer. The HTTP request is
    the parameter `fetch` (from the parameters to the answer), polyline
    decoding the parameter `decode`. */
module ShapesApi {
  import opened Wrappers
  import opened Types
  import opened Strings
  import opened Query
  import Seqs
  import DedupeLinestrings

  const AllRoutes: string := "Red,Orange,Green-B,Green-C,Green-D,Green-E,Blue"

  /** `ShapesProps` (types.ts). */
  datatype ShapesProps = ShapesProps(
    pageOffset: Option<int>, pageSize: Option<int>, sort: Option<string>,
    fields: Option<string>, filter: Option<string>, key: string)

  /** `!props.filter ? ALL_ROUTES : props.filter`. */
  function RouteFilter(props: ShapesProps): string {
    if !StringTruthy(props.filter) then AllRoutes else props.filter.value
  }

  /** The `append` calls of `getShapes`, in order, each with its guard. */
  function ShapeCandidates(props: ShapesProps): seq<Candidate> {
    [ Candidate("filter[route]", Some(RouteFilter(props))),
      Candidate("page[offset]", NumberValue(props.pageOffset)),
      Candidate("page[size]", NumberValue(props.pageSize)),
      Candidate("sort", StringValue(props.sort)),
      Candidate("fields[shape]", StringValue(props.fields)) ]
  }

  method ShapeParams(props: ShapesProps) returns (params: seq<Param>)
    ensures params == Appended(ShapeCandidates(props))
  {
    params := [Param("filter[route]", RouteFilter(props))];
    ghost var done := [Candidate("filter[route]", Some(RouteFilter(props)))];
    var c: Candidate;
    c := Candidate("page[offset]", NumberValue(props.pageOffset));
    params := AppendCandidate(params, c);
    assert params == Appended(done + [c]) by { AppendedSnoc(done, c); }
    done := done + [c];
    c := Candidate("page[size]", NumberValue(props.pageSize));
    params := AppendCandidate(params, c);
    assert params == Appended(done + [c]) by { AppendedSnoc(done, c); }
    done := done + [c];
    c := Candidate("sort", StringValue(props.sort));
    params := AppendCandidate(params, c);
    assert params == Appended(done + [c]) by { AppendedSnoc(done, c); }
    done := done + [c];
    c := Candidate("fields[shape]", StringValue(props.fields));
    params := AppendCandidate(params, c);
    assert params == Appended(done + [c]) by { AppendedSnoc(done, c); }
    done := done + [c];
    assert done == ShapeCandidates(props);
  }

  /** `filter[route]` comes first (all rapid-transit routes when no filter is
      given); each later key appears, in the fixed order, exactly when its
      property is truthy, so an offset of 0 is left out. */
  lemma ShapeParamsLayout(props: ShapesProps, value: string)
    ensures var ps := Appended(ShapeCandidates(props));
      && |ps| > 0 && ps[0] == Param("filter[route]", RouteFilter(props))
      && (HasParam(ps, "page[offset]", value)
          <==> NumberTruthy(props.pageOffset) && value == IntToString(props.pageOffset.value))
      && (HasParam(ps, "page[size]", value)
          <==> NumberTruthy(props.pageSize) && value == IntToString(props.pageSize.value))
      && (HasParam(ps, "sort", value) <==> StringTruthy(props.sort) && value == props.sort.value)
      && (HasParam(ps, "fields[shape]", value) <==> StringTruthy(props.fields) && value == props.fields.value)
      && Seqs.Subsequence(Keys(ps), ["filter[route]", "page[offset]", "page[size]", "sort", "fields[shape]"])
  {
    var cs := ShapeCandidates(props);
    AppendedStartsWith(cs);
    assert DistinctKeys(cs);
    AppendedLookup(cs, 1, value);
    AppendedLookup(cs, 2, value);
    AppendedLookup(cs, 3, value);
    AppendedLookup(cs, 4, value);
    AppendedKeepsKeyOrder(cs);
    assert CandidateKeys(cs) == ["filter[route]", "page[offset]", "page[size]", "sort", "fields[shape]"];
  }

  /** One shape of the answer as a line with properties `{id, links}`. */
  function DecodeShape(decode: string -> seq<Position>, shape: Shape): LineFeature {
    LineFeature(LineStringGeometry(decode(shape.polyline)), ShapeProperties(Some(shape.id), shape.links, None, None))
  }

  function DecodeShapes(decode: string -> seq<Position>, shapes: seq<Shape>): (fs: seq<LineFeature>)
    ensures DedupeLinestrings.AllHaveIds(fs)
  {
    Seqs.Map(shapes, (shape: Shape) => DecodeShape(decode, shape))
  }

  /** `getShapes`: build the parameters, fetch, fail on a non-ok answer,
      otherwise decode every shape and keep the canonical lines. */
  method GetShapes(props: ShapesProps, fetch: seq<Param> -> Response<seq<Shape>>,
                   decode: string -> seq<Position>)
    returns (r: Result<seq<LineFeature>, string>)
    ensures var response := fetch(Appended(ShapeCandidates(props)));
      && (r.Failure? <==> !response.ok)
      && (!response.ok ==> r.error == HttpError(response.status))
      && (response.ok ==> r.value == DedupeLinestrings.DedupeFeatures(DecodeShapes(decode, response.body)))
  {
    var params := ShapeParams(props);
    var response := fetch(params);
    if !response.ok {
      return Failure(HttpError(response.status));
    }
    var collection := DecodeShapes(decode, response.body);
    return Success(DedupeLinestrings.DedupeFeatures(collection));
  }

  /** What a successful answer yields: exactly one line per shape whose id
      contains the canonical marker, carrying that shape's id and links and
      following its decoded polyline; no other line. */
  lemma DecodedCanonicalLines(decode: string -> seq<Position>, shapes: seq<Shape>, f: LineFeature)
    ensures f in DedupeLinestrings.DedupeFeatures(DecodeShapes(decode, shapes))
        <==> exists j :: 0 <= j < |shapes| && Includes(shapes[j].id, DedupeLinestrings.CanonicalMarker)
                         && f == DecodeShape(decode, shapes[j])
  {
    var lines := DecodeShapes(decode, shapes);
    var r := DedupeLinestrings.DedupeFeatures(lines);
    if f in r {
      var k :| 0 <= k < |r| && r[k] == f;
      assert f in lines;
      var j :| 0 <= j < |lines| && lines[j] == f;
      assert f == DecodeShape(decode, shapes[j]);
    }
    if exists j :: 0 <= j < |shapes| && Includes(shapes[j].id, DedupeLinestrings.CanonicalMarker)
                   && f == DecodeShape(decode, shapes[j]) {
      var j :| 0 <= j < |shapes| && Includes(shapes[j].id, DedupeLinestrings.CanonicalMarker)
               && f == DecodeShape(decode, shapes[j]);
      assert lines[j] == f && DedupeLinestrings.IsCanonicalLine(lines[j]);
    }
  }
}
