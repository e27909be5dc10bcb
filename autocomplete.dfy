/** Autocomplete suggestions of the customer and agent search repositories.
    The Elasticsearch call is an input: the hits it returned, or None when it
    threw. The post-processing is the stream pipeline
    hits -> candidate strings -> keep the non-null ones containing the query
    -> distinct (first occurrence wins) -> first `limit`; any exception on the
    way is caught and gives the empty list. */
module Autocomplete {
  import opened JavaLang

  predicate NoDuplicates(xs: seq<string>)
  {
    forall i, j :: 0 <= i < j < |xs| ==> xs[i] != xs[j]
  }

  /** The query actually searched for: `query.toLowerCase().trim()`. */
  function LowercaseQuery(query: string): string
  {
    Trim(ToLower(query))
  }

  /** `query == null || query.trim().isEmpty()`. */
  predicate IsBlank(query: Option<string>)
  {
    query.None? || Trim(query.value) == []
  }

  /** Lower-casing touches letters only, so a query that is not blank still
      has a non-empty lower-cased, trimmed form. */
  lemma LowercaseQueryNonEmpty(query: string)
    requires Trim(query) != []
    ensures LowercaseQuery(query) != []
  {
    TrimEmptyIff(query);
    var i :| 0 <= i < |query| && !IsTrimmable(query[i]);
    var lower := ToLower(query);
    assert !IsTrimmable(lower[i]) by { LowerCharKeepsNonTrimmable(query[i]); }
    TrimEmptyIff(lower);
  }

  lemma LowerCharKeepsNonTrimmable(c: char)
    requires !IsTrimmable(c)
    ensures !IsTrimmable(LowerChar(c))
  {
  }

  /** The filter's test on one candidate: `s != null && s.toLowerCase().contains(q)`. */
  predicate IsMatch(q: string, candidate: Option<string>)
  {
    candidate.Some? && Contains(ToLower(candidate.value), q)
  }

  /** filter(s -> s != null && s.toLowerCase().contains(q)) on the candidates. */
  function Matching(q: string, candidates: seq<Option<string>>): (r: seq<string>)
    ensures |r| <= |candidates|
    ensures forall s :: s in r <==> Some(s) in candidates && Contains(ToLower(s), q)
  {
    if candidates == [] then []
    else
      var rest := Matching(q, candidates[1..]);
      assert candidates == [candidates[0]] + candidates[1..];
      if IsMatch(q, candidates[0]) then [candidates[0].value] + rest else rest
  }

  /** The filter keeps encounter order: a candidate appended to the stream is
      appended to the matches exactly when it passes the test. */
  lemma {:induction false} MatchingSnoc(q: string, c: seq<Option<string>>, x: Option<string>)
    ensures Matching(q, c + [x]) == Matching(q, c) + (if IsMatch(q, x) then [x.value] else [])
    decreases |c|
  {
    var cx := c + [x];
    if c == [] {
      assert cx == [x] && cx[1..] == [];
    } else {
      assert cx[0] == c[0] && cx[1..] == c[1..] + [x];
      MatchingSnoc(q, c[1..], x);
    }
  }

  /** Stream.distinct after the strings in `seen` have been passed: keeps the
      first occurrence of each string not yet seen, in encounter order. */
  function DistinctFrom(xs: seq<string>, seen: set<string>): (r: seq<string>)
    ensures NoDuplicates(r)
    ensures forall x :: x in r <==> x in xs && x !in seen
    ensures |r| <= |xs|
  {
    if xs == [] then []
    else if xs[0] in seen then DistinctFrom(xs[1..], seen)
    else
      assert forall x :: x in xs <==> x == xs[0] || x in xs[1..];
      [xs[0]] + DistinctFrom(xs[1..], seen + {xs[0]})
  }

  /** Stream.distinct. */
  function Distinct(xs: seq<string>): (r: seq<string>)
    ensures NoDuplicates(r)
    ensures forall x :: x in r <==> x in xs
  {
    DistinctFrom(xs, {})
  }

  /** Encounter order: appending an element to the stream appends it to the
      distinct result exactly when it had not occurred before. */
  lemma {:induction false} DistinctFromSnoc(xs: seq<string>, y: string, seen: set<string>)
    ensures DistinctFrom(xs + [y], seen) == DistinctFrom(xs, seen) + (if y in xs || y in seen then [] else [y])
    decreases |xs|
  {
    var ys := xs + [y];
    if xs == [] {
      assert ys == [y];
    } else {
      var h, t := xs[0], xs[1..];
      assert ys[0] == h && ys[1..] == t + [y];
      assert y in xs <==> y == h || y in t by { assert xs == [h] + t; }
      if h in seen {
        DistinctFromSnoc(t, y, seen);
        assert DistinctFrom(ys, seen) == DistinctFrom(t + [y], seen);
      } else {
        DistinctFromSnoc(t, y, seen + {h});
        assert DistinctFrom(ys, seen) == [h] + DistinctFrom(t + [y], seen + {h});
      }
    }
  }

  lemma DistinctSnoc(xs: seq<string>, y: string)
    ensures Distinct(xs + [y]) == Distinct(xs) + (if y in xs then [] else [y])
  {
    DistinctFromSnoc(xs, y, {});
  }

  /** A stream with no repeated element passes distinct unchanged. */
  lemma {:induction false} DistinctFromIdentity(xs: seq<string>, seen: set<string>)
    requires NoDuplicates(xs) && forall x :: x in xs ==> x !in seen
    ensures DistinctFrom(xs, seen) == xs
    decreases |xs|
  {
    if xs != [] {
      assert forall x :: x in xs[1..] ==> x in xs && x != xs[0];
      DistinctFromIdentity(xs[1..], seen + {xs[0]});
    }
  }

  /** Stream.limit(n) for n >= 0: the first n elements, or all of them. */
  function Take(xs: seq<string>, n: nat): (r: seq<string>)
    ensures |r| == if |xs| <= n then |xs| else n
    ensures r == xs[..|r|]
    ensures |xs| <= n ==> r == xs
  {
    if |xs| <= n then xs else xs[..n]
  }

  /** The request sent to Elasticsearch: the query string and the page size. */
  datatype SearchRequest = SearchRequest(queryString: string, pageSize: int)

  /** The search getAutocompleteSuggestions issues, or None when the query is
      blank and it returns at once. The page size is `limit * 3` in 32-bit
      arithmetic. */
  function AutocompleteRequest(query: Option<string>, limit: int): (r: Option<SearchRequest>)
    requires IsInt(limit)
    ensures r.None? <==> IsBlank(query)
    ensures r.Some? ==> r.value.queryString == "*" + LowercaseQuery(query.value) + "*"
    ensures r.Some? ==> r.value.pageSize == ToInt(limit * 3) && (0 < limit <= INT_MAX / 3 ==> r.value.pageSize == 3 * limit)
  {
    if IsBlank(query) then None
    else Some(SearchRequest("*" + LowercaseQuery(query.value) + "*", ToInt(limit * 3)))
  }

  /** Whether the processing after a successful search completes: PageRequest.of
      rejects a page size below 1 and Stream.limit a negative limit. */
  predicate PipelineSucceeds(limit: int)
    requires IsInt(limit)
  {
    ToInt(limit * 3) >= 1 && limit >= 0
  }

  /** A limit whose page size wraps past 2^31 to a positive int still runs the
      pipeline: 1500000000 * 3 becomes 205032704. */
  lemma WrappedPageSizeRuns()
    ensures AutocompleteRequest(Some("07"), 1500000000).value.pageSize == 205032704
    ensures PipelineSucceeds(1500000000)
  {
  }

  /** The position of the first candidate equal to `s`. */
  function FirstIndex(c: seq<Option<string>>, s: string): (k: nat)
    requires Some(s) in c
    ensures k < |c| && c[k] == Some(s)
    ensures forall j :: 0 <= j < k ==> c[j] != Some(s)
  {
    if c[0] == Some(s) then 0
    else
      assert c == [c[0]] + c[1..];
      var k := FirstIndex(c[1..], s);
      assert forall j :: 1 <= j <= k ==> c[j] == c[1..][j - 1];
      k + 1
  }

  /** Appending a candidate leaves the first occurrence of an earlier one where
      it was. */
  lemma FirstIndexSnoc(c: seq<Option<string>>, x: Option<string>, s: string)
    requires Some(s) in c
    ensures Some(s) in c + [x] && FirstIndex(c + [x], s) == FirstIndex(c, s)
  {
    var cx := c + [x];
    var k := FirstIndex(c, s);
    assert cx[k] == Some(s);
  }

  /** A string that had not occurred first occurs at the appended position. */
  lemma FirstIndexNew(c: seq<Option<string>>, s: string)
    requires Some(s) !in c
    ensures FirstIndex(c + [Some(s)], s) == |c|
  {
    var cx := c + [Some(s)];
    assert cx[|c|] == Some(s);
  }

  /** The strings of `r` all occur among the candidates, and in increasing order
      of their first occurrence there. */
  predicate InFirstOccurrenceOrder(r: seq<string>, c: seq<Option<string>>)
  {
    && (forall i :: 0 <= i < |r| ==> Some(r[i]) in c)
    && (forall i, j :: 0 <= i < j < |r| ==> FirstIndex(c, r[i]) < FirstIndex(c, r[j]))
  }

  /** Nothing matching was dropped except for the limit: when a matching
      candidate is missing from `r`, then `r` is full and every string in it
      first occurs before that candidate. */
  predicate CutOnlyAtLimit(r: seq<string>, q: string, limit: nat, c: seq<Option<string>>)
  {
    forall k :: 0 <= k < |c| && IsMatch(q, c[k]) && c[k].value !in r ==>
      && |r| == limit
      && forall i :: 0 <= i < |r| ==> Some(r[i]) in c && FirstIndex(c, r[i]) < k
  }

  /** The order is kept when more candidates follow. */
  lemma OrderSurvivesSnoc(r: seq<string>, c: seq<Option<string>>, x: Option<string>)
    requires InFirstOccurrenceOrder(r, c)
    ensures InFirstOccurrenceOrder(r, c + [x])
    ensures forall i :: 0 <= i < |r| ==> FirstIndex(c + [x], r[i]) < |c|
  {
    forall i | 0 <= i < |r|
      ensures Some(r[i]) in c + [x] && FirstIndex(c + [x], r[i]) == FirstIndex(c, r[i])
    {
      FirstIndexSnoc(c, x, r[i]);
    }
  }

  /** A string occurring first after every string of `r` can follow them. */
  lemma OrderExtends(r: seq<string>, c: seq<Option<string>>, s: string)
    requires InFirstOccurrenceOrder(r, c) && Some(s) in c
    requires forall i :: 0 <= i < |r| ==> FirstIndex(c, r[i]) < FirstIndex(c, s)
    ensures InFirstOccurrenceOrder(r + [s], c)
  {
    var rs := r + [s];
    assert forall i :: 0 <= i < |r| ==> rs[i] == r[i];
  }

  /** Filter and distinct emit the matching strings in the order in which they
      first occur among the candidates. */
  lemma {:induction false} DistinctMatchesOrdered(q: string, c: seq<Option<string>>)
    ensures InFirstOccurrenceOrder(Distinct(Matching(q, c)), c)
    decreases |c|
  {
    if c != [] {
      var p, x := c[..|c| - 1], c[|c| - 1];
      assert c == p + [x];
      DistinctMatchesOrdered(q, p);
      DistinctMatchesOrderedStep(q, p, x, Matching(q, p), Distinct(Matching(q, p)));
    }
  }

  lemma DistinctMatchesOrderedStep(q: string, p: seq<Option<string>>, x: Option<string>, m: seq<string>, d: seq<string>)
    requires m == Matching(q, p) && d == Distinct(m)
    requires InFirstOccurrenceOrder(d, p)
    ensures InFirstOccurrenceOrder(Distinct(Matching(q, p + [x])), p + [x])
  {
    var c := p + [x];
    var d' := Distinct(Matching(q, c));
    MatchingSnoc(q, p, x);
    OrderSurvivesSnoc(d, p, x);
    if !IsMatch(q, x) {
      assert Matching(q, c) == m;
      assert d' == d;
    } else {
      var v := x.value;
      assert Matching(q, c) == m + [v];
      DistinctSnoc(m, v);
      if v in m {
        assert d' == d;
      } else {
        assert d' == d + [v];
        assert Some(v) !in p;
        FirstIndexNew(p, v);
        OrderExtends(d, c, v);
      }
    }
  }

  /** The first `limit` distinct matches are ordered, and a match is left out
      only once `limit` earlier ones have been taken. */
  lemma TakeDistinctMatches(q: string, limit: nat, c: seq<Option<string>>)
    ensures InFirstOccurrenceOrder(Take(Distinct(Matching(q, c)), limit), c)
    ensures CutOnlyAtLimit(Take(Distinct(Matching(q, c)), limit), q, limit, c)
  {
    var d := Distinct(Matching(q, c));
    var r := Take(d, limit);
    DistinctMatchesOrdered(q, c);
    forall k | 0 <= k < |c| && IsMatch(q, c[k]) && c[k].value !in r
      ensures |r| == limit
      ensures forall i :: 0 <= i < |r| ==> Some(r[i]) in c && FirstIndex(c, r[i]) < k
    {
      var v := c[k].value;
      assert Some(v) in c;
      assert v in d;
      var p :| 0 <= p < |d| && d[p] == v;
      assert p >= |r|;
      assert FirstIndex(c, v) <= k;
      forall i | 0 <= i < |r|
        ensures Some(r[i]) in c && FirstIndex(c, r[i]) < k
      {
        assert r[i] == d[i];
      }
    }
  }

  /** The common tail of both repositories: matching, distinct, limit. The
      result is exactly the first `limit` distinct matching strings in
      encounter order. */
  function Suggest(query: string, limit: nat, candidates: seq<Option<string>>): (r: seq<string>)
    ensures |r| <= limit
    ensures NoDuplicates(r)
    ensures forall s :: s in r ==> Some(s) in candidates && Contains(ToLower(s), LowercaseQuery(query))
    ensures InFirstOccurrenceOrder(r, candidates)
    ensures CutOnlyAtLimit(r, LowercaseQuery(query), limit, candidates)
  {
    var d := Distinct(Matching(LowercaseQuery(query), candidates));
    var r := Take(d, limit);
    assert forall s :: s in r ==> s in d;
    TakeDistinctMatches(LowercaseQuery(query), limit, candidates);
    r
  }

  /** When no more than `limit` distinct candidates match, every one of them is
      suggested. */
  lemma SuggestComplete(query: string, limit: nat, candidates: seq<Option<string>>, s: string)
    requires |Distinct(Matching(LowercaseQuery(query), candidates))| <= limit
    requires Some(s) in candidates && Contains(ToLower(s), LowercaseQuery(query))
    ensures s in Suggest(query, limit, candidates)
  {
  }

  /** The suggestion list is never cut short: it holds `limit` elements or every
      distinct match. */
  lemma SuggestFillsLimit(query: string, limit: nat, candidates: seq<Option<string>>)
    ensures var n := |Distinct(Matching(LowercaseQuery(query), candidates))|;
            |Suggest(query, limit, candidates)| == if n <= limit then n else limit
  {
  }

  /** Java's string conversion in `a + " " + b`: a null part reads "null". */
  function JavaText(s: Option<string>): string
  {
    if s.Some? then s.value else "null"
  }

  /** The fields of an indexed customer the autocomplete reads. */
  datatype CustomerHit = CustomerHit(firstName: Option<string>, lastName: Option<string>, nidaNumber: Option<string>)

  /** The candidates of one customer, in order. */
  function CustomerCandidatesOf(c: CustomerHit): seq<Option<string>>
  {
    [c.firstName, c.lastName, Some(JavaText(c.firstName) + " " + JavaText(c.lastName)), c.nidaNumber]
  }

  /** flatMap over the hits: four candidates per customer, in hit order. */
  function CustomerCandidates(hits: seq<CustomerHit>): (r: seq<Option<string>>)
    ensures |r| == 4 * |hits|
    ensures forall i :: 0 <= i < |hits| ==> r[4 * i] == hits[i].firstName && r[4 * i + 1] == hits[i].lastName
    ensures forall i :: 0 <= i < |hits| ==> r[4 * i + 2] == Some(JavaText(hits[i].firstName) + " " + JavaText(hits[i].lastName))
    ensures forall i :: 0 <= i < |hits| ==> r[4 * i + 3] == hits[i].nidaNumber
  {
    if hits == [] then []
    else CustomerCandidatesOf(hits[0]) + CustomerCandidates(hits[1..])
  }

  /** CustomerSearchRepository.getAutocompleteSuggestions. `searchResult` is what
      the search for AutocompleteRequest(query, limit) returned (None: it threw);
      it is not consulted when the query is blank. */
  function CustomerSuggestions(query: Option<string>, limit: int, searchResult: Option<seq<CustomerHit>>): (r: seq<string>)
    requires IsInt(limit)
    ensures IsBlank(query) ==> r == []
    ensures searchResult.None? || !PipelineSucceeds(limit) ==> r == []
    ensures |r| <= (if limit < 0 then 0 else limit)
    ensures NoDuplicates(r)
    ensures forall s :: s in r ==> Contains(ToLower(s), LowercaseQuery(query.value))
    ensures forall s :: s in r ==> Some(s) in CustomerCandidates(searchResult.value)
    ensures !IsBlank(query) && searchResult.Some? && PipelineSucceeds(limit) ==>
      && InFirstOccurrenceOrder(r, CustomerCandidates(searchResult.value))
      && CutOnlyAtLimit(r, LowercaseQuery(query.value), limit, CustomerCandidates(searchResult.value))
  {
    if IsBlank(query) || searchResult.None? || !PipelineSucceeds(limit) then []
    else Suggest(query.value, limit, CustomerCandidates(searchResult.value))
  }

  /** A customer matching the query through its full name "first last" (with
      "null" for a missing part) is suggested when the suggestions are not cut
      off by the limit. */
  lemma CustomerFullNameSuggested(query: string, limit: int, hits: seq<CustomerHit>, i: int, fullName: string)
    requires IsInt(limit) && PipelineSucceeds(limit) && Trim(query) != []
    requires 0 <= i < |hits| && fullName == JavaText(hits[i].firstName) + " " + JavaText(hits[i].lastName)
    requires |Distinct(Matching(LowercaseQuery(query), CustomerCandidates(hits)))| <= limit
    requires Contains(ToLower(fullName), LowercaseQuery(query))
    ensures fullName in CustomerSuggestions(Some(query), limit, Some(hits))
  {
    var candidates := CustomerCandidates(hits);
    assert candidates[4 * i + 2] == Some(fullName);
    SuggestComplete(query, limit, candidates, fullName);
  }

  /** The fields of an indexed agent the autocomplete reads. */
  datatype AgentHit = AgentHit(phoneNumber: Option<string>)

  /** flatMap over the hits: one candidate per agent, its phone number. */
  function AgentCandidates(hits: seq<AgentHit>): (r: seq<Option<string>>)
    ensures |r| == |hits|
    ensures forall i :: 0 <= i < |hits| ==> r[i] == hits[i].phoneNumber
  {
    seq(|hits|, i requires 0 <= i < |hits| => hits[i].phoneNumber)
  }

  /** AgentSearchRepository.getAutocompleteSuggestions. */
  function AgentSuggestions(query: Option<string>, limit: int, searchResult: Option<seq<AgentHit>>): (r: seq<string>)
    requires IsInt(limit)
    ensures IsBlank(query) ==> r == []
    ensures searchResult.None? || !PipelineSucceeds(limit) ==> r == []
    ensures |r| <= (if limit < 0 then 0 else limit)
    ensures NoDuplicates(r)
    ensures forall s :: s in r ==> Contains(ToLower(s), LowercaseQuery(query.value))
    ensures forall s :: s in r ==> exists i :: 0 <= i < |searchResult.value| && searchResult.value[i].phoneNumber == Some(s)
    ensures !IsBlank(query) && searchResult.Some? && PipelineSucceeds(limit) ==>
      && InFirstOccurrenceOrder(r, AgentCandidates(searchResult.value))
      && CutOnlyAtLimit(r, LowercaseQuery(query.value), limit, AgentCandidates(searchResult.value))
  {
    if IsBlank(query) || searchResult.None? || !PipelineSucceeds(limit) then []
    else
      var r := Suggest(query.value, limit, AgentCandidates(searchResult.value));
      assert forall s :: Some(s) in AgentCandidates(searchResult.value) ==>
        exists i :: 0 <= i < |searchResult.value| && searchResult.value[i].phoneNumber == Some(s);
      r
  }

  /** An agent whose phone number contains the query is suggested when the
      suggestions are not cut off by the limit. */
  lemma AgentPhoneSuggested(query: string, limit: int, hits: seq<AgentHit>, i: int, phone: string)
    requires IsInt(limit) && PipelineSucceeds(limit) && Trim(query) != []
    requires 0 <= i < |hits| && hits[i].phoneNumber == Some(phone)
    requires |Distinct(Matching(LowercaseQuery(query), AgentCandidates(hits)))| <= limit
    requires Contains(ToLower(phone), LowercaseQuery(query))
    ensures phone in AgentSuggestions(Some(query), limit, Some(hits))
  {
    var candidates := AgentCandidates(hits);
    assert candidates[i] == Some(phone);
    SuggestComplete(query, limit, candidates, phone);
    assert AgentSuggestions(Some(query), limit, Some(hits)) == Suggest(query, limit, candidates);
  }
}
