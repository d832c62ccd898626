/** The case-insensitive substring search over the flattened activities
    (the filter in the render function of the page). */
module Search {
  import opened Definitions
  import opened Sequences

  /** Lower-casing of one character, restricted to the ASCII letters. */
  function Lower(c: char): char
  {
    if 'A' <= c <= 'Z' then (c as int - 'A' as int + 'a' as int) as char else c
  }

  /** Character-wise lower-casing of a string. */
  function LowerCase(s: string): (r: string)
    ensures |r| == |s|
  {
    seq(|s|, i requires 0 <= i < |s| => Lower(s[i]))
  }

  /** `s.includes(q)`: `q` is a prefix of `s` or of one of its suffixes.
      A string never includes a longer one; `IncludesIff` ties this to positions. */
  predicate Includes(s: string, q: string)
    ensures Includes(s, q) ==> |q| <= |s|
    decreases |s|
  {
    (|q| <= |s| && s[..|q|] == q) || (|s| > 0 && Includes(s[1..], q))
  }

  /** Reference definition of a substring: `q` occurs in `s` at offset `i`. */
  ghost predicate OccursAt(s: string, q: string, i: int)
  {
    0 <= i && i + |q| <= |s| && s[i..i + |q|] == q
  }

  /** `Includes` agrees with the positional definition of a substring. */
  lemma {:induction false} IncludesIff(s: string, q: string)
    ensures Includes(s, q) <==> exists i :: OccursAt(s, q, i)
    decreases |s|
  {
    if |q| <= |s| && s[..|q|] == q {
      assert OccursAt(s, q, 0);
    }
    if |s| > 0 {
      IncludesIff(s[1..], q);
      if Includes(s[1..], q) {
        var i :| OccursAt(s[1..], q, i);
        assert s[i + 1..i + 1 + |q|] == s[1..][i..i + |q|];
        assert OccursAt(s, q, i + 1);
      }
    }
    if exists i :: OccursAt(s, q, i) {
      var i :| OccursAt(s, q, i);
      if i > 0 {
        assert s[1..][i - 1..i - 1 + |q|] == s[i..i + |q|];
        assert OccursAt(s[1..], q, i - 1);
      }
    }
  }

  /** An occurrence of `q` inside an occurrence of `t` in `s` is an occurrence of `q` in `s`,
      at the sum of the two offsets. */
  lemma OccursAtTransitive(s: string, t: string, q: string, j: int, i: int)
    requires OccursAt(s, t, j) && OccursAt(t, q, i)
    ensures OccursAt(s, q, j + i)
  {
    forall k | 0 <= k < |q|
      ensures s[j + i..j + i + |q|][k] == q[k]
    {
      assert q[k] == t[i..i + |q|][k] == t[i + k];
      assert t[i + k] == s[j..j + |t|][i + k] == s[j + i + k];
    }
    assert s[j + i..j + i + |q|] == q;
  }

  /** A substring of a substring of `s` is a substring of `s`. */
  lemma IncludesTransitive(s: string, t: string, q: string)
    requires Includes(s, t) && Includes(t, q)
    ensures Includes(s, q)
  {
    IncludesIff(s, t);
    IncludesIff(t, q);
    var j :| OccursAt(s, t, j);
    var i :| OccursAt(t, q, i);
    OccursAtTransitive(s, t, q, j, i);
    IncludesIff(s, q);
  }

  /** Lower-casing both sides preserves a substring occurrence. */
  lemma LowerCaseIncludes(s: string, q: string)
    requires Includes(s, q)
    ensures Includes(LowerCase(s), LowerCase(q))
  {
    IncludesIff(s, q);
    var i :| OccursAt(s, q, i);
    assert LowerCase(s)[i..i + |q|] == LowerCase(q);
    assert OccursAt(LowerCase(s), LowerCase(q), i);
    IncludesIff(LowerCase(s), LowerCase(q));
  }

  /** Every string includes itself and the empty string. */
  lemma IncludesSelfAndEmpty(s: string)
    ensures Includes(s, s) && Includes(s, "")
  {
    assert s[..|s|] == s;
  }

  /** The test applied to each activity: its lower-cased name includes the lower-cased search value.
      Every activity matches the empty value; no activity matches a value longer than its name. */
  predicate Matches(a: FlatActivity, searchValue: string)
    ensures searchValue == "" ==> Matches(a, searchValue)
    ensures Matches(a, searchValue) ==> |searchValue| <= |a.activity|
  {
    assert LowerCase("") == "";
    IncludesSelfAndEmpty(LowerCase(a.activity));
    Includes(LowerCase(a.activity), LowerCase(searchValue))
  }

  /** The activities shown for `searchValue`: exactly the matching ones, in
      their original order and with their original multiplicity. */
  function SearchFilter(activities: seq<FlatActivity>, searchValue: string): (r: seq<FlatActivity>)
    ensures IsSubsequence(r, activities)
    ensures forall a :: multiset(r)[a] == if Matches(a, searchValue) then multiset(activities)[a] else 0
    ensures forall a :: a in r <==> a in activities && Matches(a, searchValue)
    decreases |activities|
  {
    if activities == [] then []
    else
      var rest := SearchFilter(activities[1..], searchValue);
      assert activities == [activities[0]] + activities[1..];
      if Matches(activities[0], searchValue) then [activities[0]] + rest else rest
  }

  /** The empty search value keeps every activity. */
  lemma {:induction false} SearchFilterEmptyQuery(activities: seq<FlatActivity>)
    ensures SearchFilter(activities, "") == activities
    decreases |activities|
  {
    if activities != [] {
      IncludesSelfAndEmpty(LowerCase(activities[0].activity));
      assert LowerCase("") == "";
      SearchFilterEmptyQuery(activities[1..]);
    }
  }

  /** Lengthening the query around what was typed can only drop matches. */
  lemma MatchesMonotone(a: FlatActivity, q: string, q': string)
    requires Includes(q', q)
    requires Matches(a, q')
    ensures Matches(a, q)
  {
    LowerCaseIncludes(q', q);
    IncludesTransitive(LowerCase(a.activity), LowerCase(q'), LowerCase(q));
  }

  /** Filtering by `q` and then by a query `q'` that includes `q` is
      filtering by `q'` alone. */
  lemma {:induction false} SearchFilterNarrowing(activities: seq<FlatActivity>, q: string, q': string)
    requires Includes(q', q)
    ensures SearchFilter(SearchFilter(activities, q), q') == SearchFilter(activities, q')
    decreases |activities|
  {
    if activities != [] {
      SearchFilterNarrowing(activities[1..], q, q');
      if Matches(activities[0], q') {
        MatchesMonotone(activities[0], q, q');
      }
    }
  }

  /** Re-filtering with the same search value changes nothing. */
  lemma SearchFilterIdempotent(activities: seq<FlatActivity>, q: string)
    ensures SearchFilter(SearchFilter(activities, q), q) == SearchFilter(activities, q)
  {
    IncludesSelfAndEmpty(q);
    SearchFilterNarrowing(activities, q, q);
  }

  /** If `q` is a substring of `q'`, the matches for `q'` are a subsequence of the matches for `q`. */
  lemma SearchFilterMonotone(activities: seq<FlatActivity>, q: string, q': string)
    requires Includes(q', q)
    ensures IsSubsequence(SearchFilter(activities, q'), SearchFilter(activities, q))
    ensures |SearchFilter(activities, q')| <= |SearchFilter(activities, q)|
  {
    SearchFilterNarrowing(activities, q, q');
    SubsequenceLength(SearchFilter(activities, q'), SearchFilter(activities, q));
  }
}
