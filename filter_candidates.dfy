/** The list filter: a case-insensitive name search combined with a status filter. */
module CandidateFilter {
  import opened Wrappers
  import opened CandidateTypes
  import opened Strings
  import opened Sequences

  /** The lower-cased name contains the lower-cased query; the query is not trimmed. */
  predicate MatchesSearch(c: Candidate, query: string) {
    Contains(Lower(c.name), Lower(query))
  }

  /** The filter is "all", or names the record's status. */
  predicate MatchesStatus(c: Candidate, statusFilter: StatusFilter) {
    statusFilter.All? || statusFilter.status == c.status
  }

  predicate Matches(c: Candidate, query: string, statusFilter: StatusFilter) {
    MatchesSearch(c, query) && MatchesStatus(c, statusFilter)
  }

  /**
   * The visible records. `input` is `None` for a null, undefined or non-array
   * value, which yields the empty list. Otherwise the result keeps exactly the
   * matching records, each as often as in the input, in input order.
   */
  function FilterCandidates(input: Option<seq<Candidate>>, query: string, statusFilter: StatusFilter): (r: seq<Candidate>)
    ensures input.None? ==> r == []
    ensures forall i :: 0 <= i < |r| ==> Matches(r[i], query, statusFilter)
    ensures input.Some? ==> IsSubsequence(r, input.value)
    ensures input.Some? ==> forall c :: c in input.value && Matches(c, query, statusFilter) ==> c in r
  {
    if input.None? then [] else Filter(input.value, c => Matches(c, query, statusFilter))
  }

  /** Each matching record appears as often as in the input; no other record appears. */
  lemma FilterCandidatesCounts(cs: seq<Candidate>, query: string, statusFilter: StatusFilter, c: Candidate)
    ensures multiset(FilterCandidates(Some(cs), query, statusFilter))[c] ==
      if Matches(c, query, statusFilter) then multiset(cs)[c] else 0
  {
    FilterCounts(cs, c => Matches(c, query, statusFilter), c);
  }

  /** With an empty query and the "all" filter the input comes back unchanged. */
  lemma EmptyQueryKeepsAll(cs: seq<Candidate>)
    ensures FilterCandidates(Some(cs), "", All) == cs
  {
    FilterKeepsAll(cs, c => Matches(c, "", All));
  }

  /** A string that contains `part` contains each of its characters. */
  lemma {:induction false} ContainsHasChars(s: string, part: string, k: int)
    requires Contains(s, part) && 0 <= k < |part|
    ensures part[k] in s
  {
    ContainsIffOccurs(s, part);
    var i :| OccursAt(s, part, i);
    assert s[i + k] == part[k];
  }

  // The three records of the application's tests.
  const JOHN := Candidate(1, "John Doe", "Frontend Developer", Interview, [], "2026-01-22T14:01:31.627Z", "2026-01-22T14:01:31.627Z", None)
  const JANE := Candidate(2, "Jane Smith", "Backend Developer", Active, [], "2026-01-22T14:01:31.631Z", "2026-01-22T14:01:31.631Z", None)
  const MIKE := Candidate(3, "Mike Johnson", "Fullstack Developer", Rejected, [], "2026-01-22T14:01:31.633Z", "2026-01-22T14:01:31.633Z", None)

  /** Searching "john" keeps John Doe and Mike Johnson and drops Jane Smith. */
  lemma SearchJohnExample()
    ensures FilterCandidates(Some([JOHN, JANE, MIKE]), "john", All) == [JOHN, MIKE]
  {
    var p := c => Matches(c, "john", All);
    JohnSearchMatches();
    assert p(JOHN) && !p(JANE) && p(MIKE);
    FilterThree(JOHN, JANE, MIKE, p);
    assert Filter([JOHN, JANE, MIKE], p) == [JOHN] + [] + [MIKE];
  }

  /** "john" is found in "John Doe" and "Mike Johnson" but not in "Jane Smith". */
  lemma JohnSearchMatches()
    ensures Matches(JOHN, "john", All) && !Matches(JANE, "john", All) && Matches(MIKE, "john", All)
  {
    LowerExamples();
    JohnInJohnDoe();
    JohnInMikeJohnson();
    JohnNotInJaneSmith();
  }

  lemma JohnInJohnDoe()
    ensures Contains("john doe", "john")
  {
    assert "john" <= "john doe";
  }

  lemma JohnInMikeJohnson()
    ensures Contains("mike johnson", "john")
  {
    var s := "mike johnson";
    assert s[5..9] == "john";
    OccursContains(s, "john", 5);
  }

  lemma JohnNotInJaneSmith()
    ensures !Contains("jane smith", "john")
  {
    if Contains("jane smith", "john") {
      ContainsHasChars("jane smith", "john", 1);
    }
  }

  lemma LowerExamples()
    ensures Lower("john") == "john" && Lower(JOHN.name) == "john doe"
    ensures Lower(JANE.name) == "jane smith" && Lower(MIKE.name) == "mike johnson"
  {
  }

  /** The "active" filter with an empty query keeps only Jane Smith. */
  lemma ActiveFilterExample()
    ensures FilterCandidates(Some([JOHN, JANE, MIKE]), "", Only(Active)) == [JANE]
  {
    FilterThree(JOHN, JANE, MIKE, c => Matches(c, "", Only(Active)));
  }

  /** The "interview" filter with an empty query keeps only the interview record. */
  lemma InterviewFilterExample()
    ensures FilterCandidates(Some([JOHN, JANE, MIKE]), "", Only(Interview)) == [JOHN]
  {
    FilterThree(JOHN, JANE, MIKE, c => Matches(c, "", Only(Interview)));
  }

  /** The "interview" filter combined with the query "john" keeps only John Doe. */
  lemma CombinedFilterExample()
    ensures FilterCandidates(Some([JOHN, JANE, MIKE]), "john", Only(Interview)) == [JOHN]
  {
    var p := c => Matches(c, "john", Only(Interview));
    JohnSearchMatches();
    assert p(JOHN) && !p(JANE) && !p(MIKE);
    FilterThree(JOHN, JANE, MIKE, p);
    assert Filter([JOHN, JANE, MIKE], p) == [JOHN] + [] + [];
  }
}
