/** src/helpers/dedupe-linestrings.ts: keeping the canonical shape lines. */
module DedupeLinestrings {
  import opened Wrappers
  import opened Types
  import opened Strings
  import Seqs

  const CanonicalMarker: string := "canonical"

  /** The filter reads `properties.id.includes(...)`: a feature without an id
      makes `dedupeFeatures` throw, so callers must supply ids. */
  predicate AllHaveIds(fs: seq<LineFeature>) {
    forall i :: 0 <= i < |fs| ==> fs[i].properties.id.Some?
  }

  /** The filter's test: the id contains the marker anywhere, and the
      geometry is a line string. */
  predicate IsCanonicalLine(f: LineFeature) {
    match f.properties.id
    case None => false
    case Some(id) => Includes(id, CanonicalMarker) && GeometryType(f.geometry) == "LineString"
  }

  /** `dedupeFeatures`: exactly the canonical lines, in their original order. */
  function DedupeFeatures(fs: seq<LineFeature>): (r: seq<LineFeature>)
    requires AllHaveIds(fs)
    ensures |r| <= |fs|
    ensures forall i :: 0 <= i < |r| ==> r[i] in fs && IsCanonicalLine(r[i])
    ensures forall i :: 0 <= i < |fs| && IsCanonicalLine(fs[i]) ==> fs[i] in r
    ensures Seqs.Subsequence(r, fs)
    ensures forall f :: multiset(r)[f] == if IsCanonicalLine(f) then multiset(fs)[f] else 0
  {
    Seqs.FilterIsSubsequence(fs, IsCanonicalLine);
    Seqs.FilterCounts(fs, IsCanonicalLine);
    Seqs.Filter(fs, IsCanonicalLine)
  }

  /** Every surviving feature's id contains the marker. */
  lemma DedupedIdsContainMarker(fs: seq<LineFeature>, i: int)
    requires AllHaveIds(fs)
    requires 0 <= i < |DedupeFeatures(fs)|
    ensures DedupeFeatures(fs)[i].properties.id.Some?
    ensures exists k :: OccursAt(DedupeFeatures(fs)[i].properties.id.value, CanonicalMarker, k)
  {
    IncludesIffOccurs(DedupeFeatures(fs)[i].properties.id.value, CanonicalMarker);
  }

  /** Deduplicating twice is deduplicating once. */
  lemma DedupeIdempotent(fs: seq<LineFeature>)
    requires AllHaveIds(fs)
    ensures AllHaveIds(DedupeFeatures(fs))
    ensures DedupeFeatures(DedupeFeatures(fs)) == DedupeFeatures(fs)
  {
    Seqs.FilterIdempotent(fs, IsCanonicalLine);
  }

  function TestLine(id: string): LineFeature {
    LineFeature(LineStringGeometry([]), ShapeProperties(Some(id), Links(""), None, None))
  }

  /** The marker is matched anywhere in the id: at the start and inside
      "noncanonical" both keep the line. */
  lemma MarkerMatchedAnywhere()
    ensures DedupeFeatures([TestLine("canonical-x"), TestLine("x-noncanonical")])
         == [TestLine("canonical-x"), TestLine("x-noncanonical")]
  {
    var front, back := TestLine("canonical-x"), TestLine("x-noncanonical");
    IncludesIffOccurs("canonical-x", CanonicalMarker);
    assert OccursAt("canonical-x", CanonicalMarker, 0);
    IncludesIffOccurs("x-noncanonical", CanonicalMarker);
    assert OccursAt("x-noncanonical", CanonicalMarker, 5);
    assert [front, back][1..] == [back];
    assert Seqs.Filter([back], IsCanonicalLine) == [back];
  }

  /** A line whose id lacks the marker is dropped, one with it at the end is kept. */
  lemma UnmarkedLineDropped()
    ensures DedupeFeatures([TestLine("1-canonical"), TestLine("1-alt")]) == [TestLine("1-canonical")]
  {
    var kept, other := TestLine("1-canonical"), TestLine("1-alt");
    IncludesIffOccurs("1-canonical", CanonicalMarker);
    assert OccursAt("1-canonical", CanonicalMarker, 2);
    IncludesIffOccurs("1-alt", CanonicalMarker);
    assert [kept, other][1..] == [other];
    assert Seqs.Filter([other], IsCanonicalLine) == [];
  }
}
