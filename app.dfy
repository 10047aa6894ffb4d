/**
 * The web application of app.py, without its HTTP layer: the feed list and the indicator store
 * (two JSON files in the source, two fields of `Store` here), adding and deleting feeds,
 * refreshing the store from every feed, and searching it.
 */
module App {
  import opened Wrappers
  import opened Text
  import opened TaxiiClient

  /** A configured feed as `add_feed` records it; a form field that was not sent is `None`. */
  datatype Feed = Feed(
    name: Option<string>,
    url: Option<string>,
    collection: Option<string>,
    username: Option<string>,
    password: Option<string>,
    added: string)

  // ---------------------------------------------------------------------------------------------
  // search

  /** `indicator.get(key, '')`: a missing key reads as the empty string. */
  function Field(s: Option<string>): string {
    s.GetOr("")
  }

  /** The free-text test: an empty query matches everything, otherwise it must occur in the lower-cased value, description or type. */
  predicate MatchesQuery(ind: Indicator, query: string) {
    query == ""
    || Contains(Lower(Field(ind.value)), query)
    || Contains(Lower(Field(ind.description)), query)
    || Contains(Lower(Field(ind.stixType)), query)
  }

  /** The type test: an empty filter matches everything, otherwise it must occur in the lower-cased type. */
  predicate MatchesType(ind: Indicator, typeFilter: string) {
    typeFilter == "" || Contains(Lower(Field(ind.stixType)), typeFilter)
  }

  predicate Matches(ind: Indicator, query: string, typeFilter: string) {
    MatchesQuery(ind, query) && MatchesType(ind, typeFilter)
  }

  /** The stored indicators that pass both tests, in stored order. */
  function Select(inds: seq<Indicator>, query: string, typeFilter: string): seq<Indicator>
    decreases |inds|
  {
    if |inds| == 0 then []
    else (if Matches(inds[0], query, typeFilter) then [inds[0]] else []) + Select(inds[1..], query, typeFilter)
  }

  /** What the search page shows for the request arguments `q` and `type` (absent ones read as `''`). */
  function SearchResult(inds: seq<Indicator>, q: Option<string>, t: Option<string>): seq<Indicator> {
    Select(inds, Lower(q.GetOr("")), Lower(t.GetOr("")))
  }

  /** `a` is obtained from `b` by dropping elements, keeping the order of the rest. */
  predicate IsSubsequence(a: seq<Indicator>, b: seq<Indicator>)
    decreases |b|
  {
    if |a| == 0 then true
    else if |b| == 0 then false
    else if a[0] == b[0] then IsSubsequence(a[1..], b[1..])
    else IsSubsequence(a, b[1..])
  }

  /** Filtering a concatenation filters each part. */
  lemma {:induction false} SelectAppend(a: seq<Indicator>, b: seq<Indicator>, query: string, typeFilter: string)
    ensures Select(a + b, query, typeFilter) == Select(a, query, typeFilter) + Select(b, query, typeFilter)
    decreases |a|
  {
    if |a| == 0 {
      assert a + b == b;
    } else {
      assert (a + b)[0] == a[0];
      assert (a + b)[1..] == a[1..] + b;
      SelectAppend(a[1..], b, query, typeFilter);
    }
  }

  /** Every result is a stored indicator that passes both tests. */
  lemma {:induction false} SelectSound(inds: seq<Indicator>, query: string, typeFilter: string)
    ensures forall x :: x in Select(inds, query, typeFilter) ==> x in inds && Matches(x, query, typeFilter)
    decreases |inds|
  {
    if |inds| > 0 {
      SelectSound(inds[1..], query, typeFilter);
      forall x | x in inds[1..] ensures x in inds {
        var k :| 0 <= k < |inds[1..]| && inds[1..][k] == x;
        assert inds[k + 1] == x;
      }
    }
  }

  /** Nothing is lost or duplicated: a passing indicator is kept as often as it is stored, a failing one never. */
  lemma {:induction false} SelectCounts(inds: seq<Indicator>, query: string, typeFilter: string)
    ensures forall x :: multiset(Select(inds, query, typeFilter))[x]
                        == if Matches(x, query, typeFilter) then multiset(inds)[x] else 0
    decreases |inds|
  {
    if |inds| > 0 {
      SelectCounts(inds[1..], query, typeFilter);
      assert inds == [inds[0]] + inds[1..];
    }
  }

  /** The results keep the stored order. */
  lemma {:induction false} SelectIsSubsequence(inds: seq<Indicator>, query: string, typeFilter: string)
    ensures IsSubsequence(Select(inds, query, typeFilter), inds)
    decreases |inds|
  {
    if |inds| > 0 {
      var rest := Select(inds[1..], query, typeFilter);
      SelectIsSubsequence(inds[1..], query, typeFilter);
      if Matches(inds[0], query, typeFilter) {
        assert ([inds[0]] + rest)[1..] == rest;
      } else {
        assert [] + rest == rest;
        DropFirstKeepsSubsequence(rest, inds);
      }
    }
  }

  /** A subsequence of the tail is a subsequence of the whole. */
  lemma {:induction false} DropFirstKeepsSubsequence(a: seq<Indicator>, b: seq<Indicator>)
    requires |b| > 0 && IsSubsequence(a, b[1..])
    ensures IsSubsequence(a, b)
    decreases |b|, 0
  {
    if |a| > 0 && a[0] == b[0] {
      DropSubsequenceHead(a, b[1..]);
    }
  }

  /** Dropping the head of a subsequence keeps it a subsequence. */
  lemma {:induction false} DropSubsequenceHead(a: seq<Indicator>, b: seq<Indicator>)
    requires |a| > 0 && IsSubsequence(a, b)
    ensures IsSubsequence(a[1..], b)
    decreases |b|, 1
  {
    if a[0] != b[0] {
      DropSubsequenceHead(a, b[1..]);
    }
    DropFirstKeepsSubsequence(a[1..], b);
  }

  /** With neither a query nor a type filter every stored indicator is shown, in order. */
  lemma {:induction false} SelectUnfiltered(inds: seq<Indicator>)
    ensures Select(inds, "", "") == inds
    decreases |inds|
  {
    if |inds| > 0 {
      SelectUnfiltered(inds[1..]);
      assert inds == [inds[0]] + inds[1..];
    }
  }

  /**
   * A stored indicator is found when, ignoring ASCII letter case, one of its value, description
   * or type contains the query and its type contains the type filter.
   */
  lemma SearchFindsIgnoringCase(inds: seq<Indicator>, ind: Indicator, q: string, t: string)
    requires ind in inds
    requires Contains(Lower(Field(ind.value)), Lower(q))
          || Contains(Lower(Field(ind.description)), Lower(q))
          || Contains(Lower(Field(ind.stixType)), Lower(q))
    requires Contains(Lower(Field(ind.stixType)), Lower(t))
    ensures ind in SearchResult(inds, Some(q), Some(t))
  {
    SelectCounts(inds, Lower(q), Lower(t));
    assert multiset(inds)[ind] > 0;
  }

  /** A match in the exact letter case is never lost: the lower-casing on both sides keeps it. */
  lemma SearchFindsExactCase(inds: seq<Indicator>, ind: Indicator, q: string, t: string)
    requires ind in inds
    requires Contains(Field(ind.value), q) || Contains(Field(ind.description), q) || Contains(Field(ind.stixType), q)
    requires Contains(Field(ind.stixType), t)
    ensures ind in SearchResult(inds, Some(q), Some(t))
  {
    if Contains(Field(ind.value), q) {
      LowerPreservesContains(Field(ind.value), q);
    } else if Contains(Field(ind.description), q) {
      LowerPreservesContains(Field(ind.description), q);
    } else {
      LowerPreservesContains(Field(ind.stixType), q);
    }
    LowerPreservesContains(Field(ind.stixType), t);
    SearchFindsIgnoringCase(inds, ind, q, t);
  }

  /** Two queries and two type filters that differ only in ASCII letter case show the same indicators. */
  lemma SearchCaseInsensitive(inds: seq<Indicator>, q1: string, q2: string, t1: string, t2: string)
    requires SameIgnoringCase(q1, q2) && SameIgnoringCase(t1, t2)
    ensures SearchResult(inds, Some(q1), Some(t1)) == SearchResult(inds, Some(q2), Some(t2))
  {
    LowerIgnoresCase(q1, q2);
    LowerIgnoresCase(t1, t2);
  }

  // ---------------------------------------------------------------------------------------------
  // delete_feed

  /** The list without its entry at `i`, the others keeping their order (`list.pop(i)`). */
  function RemoveAt<T>(s: seq<T>, i: nat): (r: seq<T>)
    requires i < |s|
    ensures |r| == |s| - 1
    ensures forall j :: 0 <= j < i ==> r[j] == s[j]
    ensures forall j :: i <= j < |r| ==> r[j] == s[j + 1]
  {
    s[..i] + s[i + 1..]
  }

  // ---------------------------------------------------------------------------------------------
  // refresh_feeds

  /** What one feed adds to the store: its indicators, or nothing when fetching it raised. */
  function Contribution(fetch: Feed -> Result<seq<Indicator>>, f: Feed): seq<Indicator> {
    match fetch(f)
    case Success(xs) => xs
    case Failure(_) => []
  }

  /** The indicators of the feeds, feed by feed in list order. */
  function Gather(fetch: Feed -> Result<seq<Indicator>>, feeds: seq<Feed>): seq<Indicator>
    decreases |feeds|
  {
    if |feeds| == 0 then []
    else Gather(fetch, feeds[..|feeds| - 1]) + Contribution(fetch, feeds[|feeds| - 1])
  }

  /** Refreshing two runs of feeds stores the first run's indicators, then the second's. */
  lemma {:induction false} GatherAppend(fetch: Feed -> Result<seq<Indicator>>, a: seq<Feed>, b: seq<Feed>)
    ensures Gather(fetch, a + b) == Gather(fetch, a) + Gather(fetch, b)
    decreases |b|
  {
    if |b| == 0 {
      assert a + b == a;
    } else {
      var binit := b[..|b| - 1];
      assert (a + b)[..|a + b| - 1] == a + binit;
      assert (a + b)[|a + b| - 1] == b[|b| - 1];
      GatherAppend(fetch, a, binit);
      var ga, gi, last := Gather(fetch, a), Gather(fetch, binit), Contribution(fetch, b[|b| - 1]);
      assert ga + gi + last == ga + (gi + last);
    }
  }

  /** A feed that raises contributes nothing, and the feeds before and after it still contribute theirs. */
  lemma GatherSkipsFailure(fetch: Feed -> Result<seq<Indicator>>, a: seq<Feed>, f: Feed, b: seq<Feed>)
    requires fetch(f).Failure?
    ensures Gather(fetch, a + [f] + b) == Gather(fetch, a) + Gather(fetch, b)
  {
    GatherAppend(fetch, a + [f], b);
    assert (a + [f])[..|a + [f]| - 1] == a;
  }

  /** A feed that succeeds contributes exactly its indicators, between those of the feeds before and after it. */
  lemma GatherKeepsSuccess(fetch: Feed -> Result<seq<Indicator>>, a: seq<Feed>, f: Feed, b: seq<Feed>)
    requires fetch(f).Success?
    ensures Gather(fetch, a + [f] + b) == Gather(fetch, a) + fetch(f).value + Gather(fetch, b)
  {
    GatherAppend(fetch, a + [f], b);
    assert (a + [f])[..|a + [f]| - 1] == a;
  }

  /** When every feed raises, the store is emptied. */
  lemma {:induction false} GatherAllFail(fetch: Feed -> Result<seq<Indicator>>, feeds: seq<Feed>)
    requires forall i :: 0 <= i < |feeds| ==> fetch(feeds[i]).Failure?
    ensures Gather(fetch, feeds) == []
    decreases |feeds|
  {
    if |feeds| > 0 {
      GatherAllFail(fetch, feeds[..|feeds| - 1]);
    }
  }

  /** The per-feed fetch the application performs: a client for the feed's server and collection. */
  function ClientFetch(network: Network, f: Feed): Result<seq<Indicator>> {
    Success(Fetched(f.url, f.collection, f.username, f.password, network))
  }

  /** With the real client no feed is skipped: each contributes what its client fetches, in list order. */
  lemma RefreshWithClient(network: Network, a: seq<Feed>, f: Feed, b: seq<Feed>)
    ensures var fetch := (g: Feed) => ClientFetch(network, g);
      Gather(fetch, a + [f] + b) == Gather(fetch, a) + Fetched(f.url, f.collection, f.username, f.password, network) + Gather(fetch, b)
  {
    GatherKeepsSuccess((g: Feed) => ClientFetch(network, g), a, f, b);
  }

  // ---------------------------------------------------------------------------------------------
  // The two stores and the operations on them

  /** The feed list and the indicator store, as the two JSON files hold them. */
  class Store {
    var feeds: seq<Feed>
    var indicators: seq<Indicator>

    constructor (feeds: seq<Feed>, indicators: seq<Indicator>)
      ensures this.feeds == feeds && this.indicators == indicators
    {
      this.feeds := feeds;
      this.indicators := indicators;
    }

    /** Appends one feed, stamped with the time `now`. */
    method AddFeed(name: Option<string>, url: Option<string>, collection: Option<string>,
                   username: Option<string>, password: Option<string>, now: string)
      modifies this`feeds
      ensures feeds == old(feeds) + [Feed(name, url, collection, username, password, now)]
      ensures |feeds| == |old(feeds)| + 1 && feeds[..|old(feeds)|] == old(feeds)
    {
      feeds := feeds + [Feed(name, url, collection, username, password, now)];
    }

    /** Deletes the feed at position `feedId` when there is one; otherwise changes and saves nothing. */
    method DeleteFeed(feedId: int) returns (saved: bool)
      modifies this`feeds
      ensures saved <==> 0 <= feedId < |old(feeds)|
      ensures saved ==> feeds == RemoveAt(old(feeds), feedId)
      ensures !saved ==> feeds == old(feeds)
    {
      saved := 0 <= feedId < |feeds|;
      if saved {
        feeds := feeds[..feedId] + feeds[feedId + 1..];
      }
    }

    /**
     * Replaces the indicator store with the indicators of every feed, in feed order, skipping the
     * feeds whose fetch raised, and returns how many were stored.
     */
    method RefreshFeeds(fetch: Feed -> Result<seq<Indicator>>) returns (count: nat)
      modifies this`indicators
      ensures feeds == old(feeds)
      ensures indicators == Gather(fetch, feeds)
      ensures count == |indicators|
    {
      var collected: seq<Indicator> := [];
      var i := 0;
      while i < |feeds|
        invariant 0 <= i <= |feeds|
        invariant collected == Gather(fetch, feeds[..i])
      {
        var outcome := fetch(feeds[i]);
        if outcome.Success? {
          collected := collected + outcome.value;
        }
        assert feeds[..i + 1][..i] == feeds[..i];
        i := i + 1;
      }
      assert feeds[..i] == feeds;
      indicators := collected;
      count := |collected|;
    }

    /** The stored indicators matching the request arguments `q` and `type`, in stored order. */
    method Search(q: Option<string>, t: Option<string>) returns (shown: seq<Indicator>)
      ensures shown == SearchResult(indicators, q, t)
    {
      var query := Lower(q.GetOr(""));
      var typeFilter := Lower(t.GetOr(""));
      if query != "" || typeFilter != "" {
        var filtered: seq<Indicator> := [];
        var i := 0;
        while i < |indicators|
          invariant 0 <= i <= |indicators|
          invariant filtered == Select(indicators[..i], query, typeFilter)
        {
          var indicator := indicators[i];
          var matchesQuery := query == ""
            || Contains(Lower(Field(indicator.value)), query)
            || Contains(Lower(Field(indicator.description)), query)
            || Contains(Lower(Field(indicator.stixType)), query);
          var matchesType := typeFilter == "" || Contains(Lower(Field(indicator.stixType)), typeFilter);
          SelectAppend(indicators[..i], [indicator], query, typeFilter);
          assert indicators[..i + 1] == indicators[..i] + [indicator];
          if matchesQuery && matchesType {
            filtered := filtered + [indicator];
          }
          i := i + 1;
        }
        assert indicators[..i] == indicators;
        shown := filtered;
      } else {
        SelectUnfiltered(indicators);
        shown := indicators;
      }
    }
  }
}
