/**
 * What `search_users_by_location_and_skills` fetches: pages 1, 2, 3, ... of
 * one search query, until a page fails or holds fewer than 100 items.
 */
module Pagination {
  import opened GitHubApi

  /** The loop goes on past this page: it succeeded and is full. */
  predicate Continues(r: Response<seq<User>>)
  {
    r.status == OK && |r.body| >= PER_PAGE
  }

  /** The items a page contributes: all of them on success, none on failure. */
  function PageItems(r: Response<seq<User>>): seq<User>
  {
    if r.status == OK then r.body else []
  }

  /**
   * The last page the loop requests: the first page that does not continue.
   * Pages past the ones the API holds fail, so it is at most one past them.
   */
  function StopPage(pages: seq<Response<seq<User>>>): (k: nat)
    ensures 1 <= k <= |pages| + 1
    ensures !Continues(PageAt(pages, k))
    ensures forall n :: 1 <= n < k ==> Continues(PageAt(pages, n))
  {
    if |pages| == 0 || !Continues(pages[0]) then 1
    else
      var k := 1 + StopPage(pages[1..]);
      assert forall n :: 2 <= n <= |pages| + 1 ==> PageAt(pages, n) == PageAt(pages[1..], n - 1);
      k
  }

  /** The answer for page `n` of a query whose pages are `pages`. */
  function PageAt(pages: seq<Response<seq<User>>>, n: nat): Response<seq<User>>
  {
    if 1 <= n <= |pages| then pages[n - 1] else Response(NOT_FOUND, [])
  }

  /** The items of pages 1..n, concatenated in page order. */
  function Collected(pages: seq<Response<seq<User>>>, n: nat): seq<User>
  {
    if n == 0 then [] else Collected(pages, n - 1) + PageItems(PageAt(pages, n))
  }

  /** The users the search returns for the query whose pages are `pages`. */
  function SearchResult(pages: seq<Response<seq<User>>>): seq<User>
  {
    Collected(pages, StopPage(pages))
  }

  /** The URLs of the first `n` search requests. */
  function SearchRequests(base: string, query: string, n: nat): seq<string>
  {
    if n == 0 then [] else SearchRequests(base, query, n - 1) + [SearchUrl(base, query, n)]
  }

  /** Request i (from 0) asks for page i + 1 with 100 results per page: pages are requested consecutively from 1. */
  lemma {:induction false} SearchRequestsArePages(base: string, query: string, n: nat)
    ensures |SearchRequests(base, query, n)| == n
    ensures forall i :: 0 <= i < n ==> SearchRequests(base, query, n)[i] == SearchUrl(base, query, i + 1)
  {
    if n > 0 {
      SearchRequestsArePages(base, query, n - 1);
    }
  }

  /**
   * Every page before the stop page is successful and full, so the result
   * holds at least 100 users per such page; the stop page adds its items only
   * if it succeeded.
   */
  lemma {:induction false} CollectedLength(pages: seq<Response<seq<User>>>, n: nat)
    requires forall m :: 1 <= m <= n ==> Continues(PageAt(pages, m))
    ensures |Collected(pages, n)| >= PER_PAGE * n
  {
    if n > 0 {
      CollectedLength(pages, n - 1);
    }
  }

  /** A failed page adds nothing: the result is exactly the items of the full pages before it. */
  lemma FailedPageAddsNothing(pages: seq<Response<seq<User>>>)
    requires PageAt(pages, StopPage(pages)).status != OK
    ensures SearchResult(pages) == Collected(pages, StopPage(pages) - 1)
    ensures |SearchResult(pages)| >= PER_PAGE * (StopPage(pages) - 1)
  {
    CollectedLength(pages, StopPage(pages) - 1);
  }

  /** Pages after the stop page are never consulted: appending more of them changes nothing. */
  lemma {:induction false} LaterPagesIgnored(pages: seq<Response<seq<User>>>, more: seq<Response<seq<User>>>)
    requires StopPage(pages) <= |pages|
    ensures StopPage(pages + more) == StopPage(pages)
    ensures SearchResult(pages + more) == SearchResult(pages)
  {
    var k := StopPage(pages);
    forall n | 1 <= n <= k
      ensures PageAt(pages + more, n) == PageAt(pages, n)
    {
    }
    StopPageIsFirst(pages + more, k);
    CollectedAgree(pages + more, pages, k);
  }

  /** The stop page is the first page that does not continue. */
  lemma StopPageIsFirst(pages: seq<Response<seq<User>>>, k: nat)
    requires k >= 1 && !Continues(PageAt(pages, k))
    requires forall n :: 1 <= n < k ==> Continues(PageAt(pages, n))
    ensures StopPage(pages) == k
  {
  }

  /** Two page lists that agree on pages 1..n collect the same items from them. */
  lemma {:induction false} CollectedAgree(a: seq<Response<seq<User>>>, b: seq<Response<seq<User>>>, n: nat)
    requires forall m :: 1 <= m <= n ==> PageAt(a, m) == PageAt(b, m)
    ensures Collected(a, n) == Collected(b, n)
  {
    if n > 0 {
      CollectedAgree(a, b, n - 1);
    }
  }

  /** Full pages of 100, 100 and then 30 users: three requests and 230 users. */
  lemma ThreePagesScenario(u: User)
    ensures
      var full := Response(OK, seq(100, _ => u));
      var pages := [full, full, Response(OK, seq(30, _ => u))];
      StopPage(pages) == 3 && |SearchResult(pages)| == 230
  {
    var full := Response(OK, seq(100, _ => u));
    var pages := [full, full, Response(OK, seq(30, _ => u))];
    StopPageIsFirst(pages, 3);
    assert |Collected(pages, 1)| == 100;
    assert |Collected(pages, 2)| == 200;
    assert |Collected(pages, 3)| == 230;
  }
}
