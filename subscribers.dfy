/**
 * pkg/users/subscribers.go: walking the list of subscribed users page by page.
 * Each request carries the cursor the previous page returned; the first
 * carries none.  Every fetched page is handed to `walk`; the walk ends at the
 * first page without a next cursor, or at the first error.
 *
 * `fetch` is the platform's decoded answer to a request URL and `walk` the
 * caller's callback, as oracles.  The Go loop has no bound; the model runs it
 * on cursor chains that end, and `Ends` says when one does.
 */
module Subscribers {
  import opened Errors

  const UserGetUrl := "https://api.weixin.qq.com/cgi-bin/user/get?access_token="
  const NextOpenidParam := "&next_openid="

  /** `Users` with the fields the walk uses: the page's openids and the next cursor. */
  datatype Users = Users(total: int, count: int, openids: seq<string>, nextOpenid: string)

  /** The request URL for one page: the cursor is appended only when it is non-empty. */
  function NextSubscribersUri(token: string, nextOpenid: string): (uri: string)
    ensures |uri| >= |UserGetUrl + token| && uri[..|UserGetUrl + token|] == UserGetUrl + token
    ensures nextOpenid == "" <==> |uri| == |UserGetUrl + token|
    ensures nextOpenid != "" ==> uri[|UserGetUrl + token|..] == NextOpenidParam + nextOpenid
  {
    UserGetUrl + token + (if nextOpenid != "" then NextOpenidParam + nextOpenid else "")
  }

  /** GetNextSubscribers: fetch one page at the cursor. */
  method GetNextSubscribers(fetch: string -> Result<Users>, token: string, nextOpenid: string) returns (users: Result<Users>)
    ensures users == fetch(NextSubscribersUri(token, nextOpenid))
  {
    var uri := UserGetUrl + token;
    if nextOpenid != "" {
      uri := uri + NextOpenidParam + nextOpenid;
    }
    assert uri == NextSubscribersUri(token, nextOpenid);
    users := fetch(uri);
  }

  /** The walk from `cursor` stops (by an error or a last page) within `n` fetches. */
  ghost predicate Ends(fetch: string -> Result<Users>, walk: seq<string> -> Option<Error>, token: string, cursor: string, n: nat)
    decreases n
  {
    n > 0 &&
    var page := fetch(NextSubscribersUri(token, cursor));
    (page.Err? || walk(page.value.openids).Some? || page.value.nextOpenid == ""
     || Ends(fetch, walk, token, page.value.nextOpenid, n - 1))
  }

  /** What a walk does: its error, the URLs it requested and the pages it walked, in order. */
  datatype Trace = Trace(err: Option<Error>, requested: seq<string>, walked: seq<seq<string>>)

  /** The walk from `cursor`, given a bound `n` within which it ends. */
  function Walk(fetch: string -> Result<Users>, walk: seq<string> -> Option<Error>, token: string, cursor: string, n: nat): (t: Trace)
    requires Ends(fetch, walk, token, cursor, n)
    ensures |t.requested| >= 1 && t.requested[0] == NextSubscribersUri(token, cursor)
    decreases n
  {
    var uri := NextSubscribersUri(token, cursor);
    match fetch(uri)
    case Err(e) => Trace(Some(e), [uri], [])
    case Ok(users) =>
      var werr := walk(users.openids);
      if werr.Some? then Trace(werr, [uri], [users.openids])
      else if users.nextOpenid == "" then Trace(None, [uri], [users.openids])
      else
        var rest := Walk(fetch, walk, token, users.nextOpenid, n - 1);
        Trace(rest.err, [uri] + rest.requested, [users.openids] + rest.walked)
  }

  /** The walk does not depend on the bound, only on the cursor chain. */
  lemma {:induction false} WalkBoundIrrelevant(fetch: string -> Result<Users>, walk: seq<string> -> Option<Error>, token: string,
                                               cursor: string, n: nat, m: nat)
    requires Ends(fetch, walk, token, cursor, n) && Ends(fetch, walk, token, cursor, m)
    ensures Walk(fetch, walk, token, cursor, n) == Walk(fetch, walk, token, cursor, m)
    decreases n
  {
    var page := fetch(NextSubscribersUri(token, cursor));
    if page.Ok? && walk(page.value.openids).None? && page.value.nextOpenid != "" {
      WalkBoundIrrelevant(fetch, walk, token, page.value.nextOpenid, n - 1, m - 1);
    }
  }

  /**
   * The requests of a walk from `cursor`: the first uses `cursor`, and each
   * later one the previous page's non-empty `NextOpenid`, after that page was
   * fetched and walked without error.
   */
  ghost predicate Chained(fetch: string -> Result<Users>, walk: seq<string> -> Option<Error>, token: string, cursor: string,
                          req: seq<string>)
  {
    && |req| >= 1 && req[0] == NextSubscribersUri(token, cursor)
    && forall k :: 0 <= k < |req| - 1 ==>
         && fetch(req[k]).Ok? && walk(fetch(req[k]).value.openids).None? && fetch(req[k]).value.nextOpenid != ""
         && req[k + 1] == NextSubscribersUri(token, fetch(req[k]).value.nextOpenid)
  }

  /** Every fetched page is walked once, in fetch order; only a failed last fetch is not walked. */
  ghost predicate WalkedInOrder(fetch: string -> Result<Users>, t: Trace)
  {
    && |t.requested| >= 1
    && (|t.walked| == |t.requested| <==> fetch(t.requested[|t.requested| - 1]).Ok?)
    && (|t.walked| == |t.requested| || |t.walked| == |t.requested| - 1)
    && forall k :: 0 <= k < |t.walked| ==> fetch(t.requested[k]).Ok? && t.walked[k] == fetch(t.requested[k]).value.openids
  }

  /**
   * The walk ends with nil only after walking a page without a next cursor,
   * and otherwise with the failing fetch's or walk's error.
   */
  ghost predicate EndsAtLast(fetch: string -> Result<Users>, walk: seq<string> -> Option<Error>, t: Trace)
  {
    |t.requested| >= 1 &&
    var page := fetch(t.requested[|t.requested| - 1]);
    && (page.Err? ==> t.err == Some(page.error))
    && (page.Ok? && walk(page.value.openids).Some? ==> t.err == walk(page.value.openids))
    && (page.Ok? && walk(page.value.openids).None? ==> t.err.None? && page.value.nextOpenid == "")
  }

  lemma {:induction false} WalkChained(fetch: string -> Result<Users>, walk: seq<string> -> Option<Error>, token: string,
                                       cursor: string, n: nat)
    requires Ends(fetch, walk, token, cursor, n)
    ensures Chained(fetch, walk, token, cursor, Walk(fetch, walk, token, cursor, n).requested)
    decreases n
  {
    var page := fetch(NextSubscribersUri(token, cursor));
    if page.Ok? && walk(page.value.openids).None? && page.value.nextOpenid != "" {
      WalkChained(fetch, walk, token, page.value.nextOpenid, n - 1);
      var rest := Walk(fetch, walk, token, page.value.nextOpenid, n - 1).requested;
      var req := Walk(fetch, walk, token, cursor, n).requested;
      assert forall k :: 1 <= k < |req| ==> req[k] == rest[k - 1];
    }
  }

  lemma {:induction false} WalkWalkedInOrder(fetch: string -> Result<Users>, walk: seq<string> -> Option<Error>, token: string,
                                             cursor: string, n: nat)
    requires Ends(fetch, walk, token, cursor, n)
    ensures WalkedInOrder(fetch, Walk(fetch, walk, token, cursor, n))
    decreases n
  {
    var page := fetch(NextSubscribersUri(token, cursor));
    if page.Ok? && walk(page.value.openids).None? && page.value.nextOpenid != "" {
      WalkWalkedInOrder(fetch, walk, token, page.value.nextOpenid, n - 1);
      var rest := Walk(fetch, walk, token, page.value.nextOpenid, n - 1);
      var t := Walk(fetch, walk, token, cursor, n);
      assert t.requested[|t.requested| - 1] == rest.requested[|rest.requested| - 1];
      assert forall k :: 1 <= k < |t.walked| ==> t.walked[k] == rest.walked[k - 1] && t.requested[k] == rest.requested[k - 1];
    }
  }

  lemma {:induction false} WalkEndsAtLast(fetch: string -> Result<Users>, walk: seq<string> -> Option<Error>, token: string,
                                          cursor: string, n: nat)
    requires Ends(fetch, walk, token, cursor, n)
    ensures EndsAtLast(fetch, walk, Walk(fetch, walk, token, cursor, n))
    decreases n
  {
    var page := fetch(NextSubscribersUri(token, cursor));
    if page.Ok? && walk(page.value.openids).None? && page.value.nextOpenid != "" {
      WalkEndsAtLast(fetch, walk, token, page.value.nextOpenid, n - 1);
      var rest := Walk(fetch, walk, token, page.value.nextOpenid, n - 1);
      var t := Walk(fetch, walk, token, cursor, n);
      assert t.requested[|t.requested| - 1] == rest.requested[|rest.requested| - 1];
    }
  }

  /** Extends a trace by the rest of the walk. */
  function Then(requested: seq<string>, walked: seq<seq<string>>, t: Trace): (r: Trace)
    ensures r.err == t.err && |r.requested| == |requested| + |t.requested|
  {
    Trace(t.err, requested + t.requested, walked + t.walked)
  }

  lemma ThenNothing(t: Trace)
    ensures Then([], [], t) == t
  {
    assert [] + t.requested == t.requested && [] + t.walked == t.walked;
  }

  lemma ThenAssoc(a: seq<string>, b: seq<seq<string>>, c: seq<string>, d: seq<seq<string>>, t: Trace)
    ensures Then(a, b, Then(c, d, t)) == Then(a + c, b + d, t)
  {
    assert a + (c + t.requested) == (a + c) + t.requested;
    assert b + (d + t.walked) == (b + d) + t.walked;
  }

  lemma ThenLast(a: seq<string>, b: seq<seq<string>>, err: Option<Error>, uri: string, page: seq<seq<string>>)
    ensures Then(a, b, Trace(err, [uri], page)) == Trace(err, a + [uri], b + page)
  {
  }

  /**
   * GetSubscribers: the cursor loop.  It returns the walk's error together
   * with the requests it made and the pages it walked; `n` is a bound within
   * which the cursor chain ends (it does not change the result).
   */
  method GetSubscribers(fetch: string -> Result<Users>, walk: seq<string> -> Option<Error>, token: string, ghost n: nat)
    returns (err: Option<Error>, requested: seq<string>, walked: seq<seq<string>>)
    requires Ends(fetch, walk, token, "", n)
    ensures Trace(err, requested, walked) == Walk(fetch, walk, token, "", n)
  {
    var nextOpenid := "";
    requested, walked := [], [];
    ghost var m := n;
    ThenNothing(Walk(fetch, walk, token, nextOpenid, m));
    while true
      invariant Ends(fetch, walk, token, nextOpenid, m)
      invariant Walk(fetch, walk, token, "", n) == Then(requested, walked, Walk(fetch, walk, token, nextOpenid, m))
      decreases m
    {
      var users := GetNextSubscribers(fetch, token, nextOpenid);
      var uri := NextSubscribersUri(token, nextOpenid);
      if users.Err? {
        ThenLast(requested, walked, Some(users.error), uri, []);
        return Some(users.error), requested + [uri], walked;
      }
      var werr := walk(users.value.openids);
      if werr.Some? {
        ThenLast(requested, walked, werr, uri, [users.value.openids]);
        return werr, requested + [uri], walked + [users.value.openids];
      }
      if users.value.nextOpenid == "" {
        ThenLast(requested, walked, None, uri, [users.value.openids]);
        return None, requested + [uri], walked + [users.value.openids];
      }
      ThenAssoc(requested, walked, [uri], [users.value.openids], Walk(fetch, walk, token, users.value.nextOpenid, m - 1));
      requested, walked := requested + [uri], walked + [users.value.openids];
      nextOpenid := users.value.nextOpenid;
      m := m - 1;
    }
  }
}
