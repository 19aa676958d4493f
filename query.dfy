/** Query strings built by successive conditional `URLSearchParams.append`
    calls, and JavaScript truthiness of the optional properties they test. */
module Query {
  import opened Wrappers
  import opened Types
  import opened Strings
  import Seqs

  /** An optional number is truthy when present and not 0. */
  predicate NumberTruthy(n: Option<int>) {
    n.Some? && n.value != 0
  }

  /** An optional string is truthy when present and not empty. */
  predicate StringTruthy(s: Option<string>) {
    s.Some? && s.value != ""
  }

  /** The value appended for an optional number: `n.toString()` when truthy. */
  function NumberValue(n: Option<int>): (v: Option<string>)
    ensures v.Some? <==> NumberTruthy(n)
    ensures v.Some? ==> v.value == IntToString(n.value)
  {
    if NumberTruthy(n) then Some(IntToString(n.value)) else None
  }

  /** The value appended for an optional string: the string when truthy. */
  function StringValue(s: Option<string>): (v: Option<string>)
    ensures v.Some? <==> StringTruthy(s)
    ensures v.Some? ==> v == s
  {
    if StringTruthy(s) then s else None
  }

  /** A key and, when its property is truthy, the value appended under it. */
  datatype Candidate = Candidate(key: string, value: Option<string>)

  function AppendIfPresent(params: seq<Param>, c: Candidate): seq<Param> {
    if c.value.Some? then params + [Param(c.key, c.value.value)] else params
  }

  /** The parameters a sequence of guarded `append` calls produces. */
  function Appended(cs: seq<Candidate>): (ps: seq<Param>)
    ensures |ps| <= |cs|
    decreases |cs|
  {
    if cs == [] then [] else AppendIfPresent(Appended(cs[..|cs| - 1]), cs[|cs| - 1])
  }

  lemma AppendedSnoc(cs: seq<Candidate>, c: Candidate)
    ensures Appended(cs + [c]) == AppendIfPresent(Appended(cs), c)
  {
    assert (cs + [c])[..|cs|] == cs;
  }

  /** One guarded `params.append(key, value)`: the pair is appended only
      when the candidate carries a value (its property was truthy). */
  method AppendCandidate(params: seq<Param>, c: Candidate) returns (r: seq<Param>)
    ensures r == AppendIfPresent(params, c)
  {
    r := params;
    if c.value.Some? {
      r := r + [Param(c.key, c.value.value)];
    }
  }

  predicate HasParam(ps: seq<Param>, key: string, value: string) {
    exists i :: 0 <= i < |ps| && ps[i] == Param(key, value)
  }

  predicate DistinctKeys(cs: seq<Candidate>) {
    forall i, j :: 0 <= i < j < |cs| ==> cs[i].key != cs[j].key
  }

  /** A key is present with a value exactly when its candidate carried that value. */
  lemma {:induction false} AppendedHasParamIff(cs: seq<Candidate>, key: string, value: string)
    ensures HasParam(Appended(cs), key, value)
        <==> exists i :: 0 <= i < |cs| && cs[i] == Candidate(key, Some(value))
    decreases |cs|
  {
    if cs != [] {
      var front, last := cs[..|cs| - 1], cs[|cs| - 1];
      AppendedHasParamIff(front, key, value);
      var before := Appended(front);
      if HasParam(Appended(cs), key, value) {
        var k :| 0 <= k < |Appended(cs)| && Appended(cs)[k] == Param(key, value);
        if k < |before| {
          assert before[k] == Param(key, value);
          var i :| 0 <= i < |front| && front[i] == Candidate(key, Some(value));
          assert cs[i] == front[i];
        } else {
          assert last == Candidate(key, Some(value));
        }
      }
      if exists i :: 0 <= i < |cs| && cs[i] == Candidate(key, Some(value)) {
        var i :| 0 <= i < |cs| && cs[i] == Candidate(key, Some(value));
        if i < |front| {
          assert front[i] == cs[i];
          var k :| 0 <= k < |before| && before[k] == Param(key, value);
          assert Appended(cs)[k] == Param(key, value);
        } else {
          assert Appended(cs)[|before|] == Param(key, value);
        }
      }
    }
  }

  /** With distinct keys, the parameter under a candidate's key is its value,
      and it is there exactly when that value is. */
  lemma AppendedLookup(cs: seq<Candidate>, i: int, value: string)
    requires DistinctKeys(cs) && 0 <= i < |cs|
    ensures HasParam(Appended(cs), cs[i].key, value) <==> cs[i].value == Some(value)
  {
    AppendedHasParamIff(cs, cs[i].key, value);
    if exists j :: 0 <= j < |cs| && cs[j] == Candidate(cs[i].key, Some(value)) {
      var j :| 0 <= j < |cs| && cs[j] == Candidate(cs[i].key, Some(value));
      assert j == i;
    }
  }

  function Keys(ps: seq<Param>): seq<string> {
    Seqs.Map(ps, (p: Param) => p.key)
  }

  function CandidateKeys(cs: seq<Candidate>): seq<string> {
    Seqs.Map(cs, (c: Candidate) => c.key)
  }

  /** The appended keys follow the candidates' fixed order. */
  lemma {:induction false} AppendedKeepsKeyOrder(cs: seq<Candidate>)
    ensures Seqs.Subsequence(Keys(Appended(cs)), CandidateKeys(cs))
    decreases |cs|
  {
    if cs != [] {
      var front, last := cs[..|cs| - 1], cs[|cs| - 1];
      AppendedKeepsKeyOrder(front);
      var before := Appended(front);
      assert CandidateKeys(cs) == CandidateKeys(front) + [last.key];
      if last.value.Some? {
        assert Keys(Appended(cs)) == Keys(before) + [last.key];
      } else {
        assert Keys(Appended(cs)) == Keys(before);
      }
      Seqs.SubsequenceAppend(Keys(before), CandidateKeys(front), last.key);
    }
  }

  /** A first candidate that is always present becomes the first parameter. */
  lemma {:induction false} AppendedStartsWith(cs: seq<Candidate>)
    requires |cs| > 0 && cs[0].value.Some?
    ensures |Appended(cs)| > 0 && Appended(cs)[0] == Param(cs[0].key, cs[0].value.value)
    decreases |cs|
  {
    if |cs| > 1 {
      AppendedStartsWith(cs[..|cs| - 1]);
      assert cs[..|cs| - 1][0] == cs[0];
    }
  }

  /** The message thrown by the API helpers when the answer is not ok. */
  function HttpError(status: int): string {
    "HTTP error! status: " + IntToString(status)
  }
}
