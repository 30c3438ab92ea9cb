/**
 The prefix pagination loop of the picture's graph provider (queryPrefix in
 internal/api/cop/graph_provider.go), against any server and against a faithful one.
 */
module Pagination {
  import opened Checksum

  const DEFAULT_LIMIT := 500

  datatype Page<E> = Page(entities: seq<E>, nextCursor: string)

  datatype Request = Request(cursor: string, limit: nat)

  datatype Listing<E> =
    | Listed(entities: seq<E>, truncated: bool)
    | QueryFailed
    | EmptyPage
    | RepeatedCursor

  function EffectiveLimit(limit: int): nat {
    if limit <= 0 then DEFAULT_LIMIT else limit
  }

  function PageLimit(remaining: nat, maxPage: nat): nat {
    if remaining > maxPage then maxPage else remaining
  }

  /** A server that answers with the given pages, one per request; a missing one is a failed request. */
  class Server<E> {
    var pages: seq<Option<Page<E>>>
    var asked: seq<Request>

    constructor (pages: seq<Option<Page<E>>>)
      ensures this.pages == pages && asked == []
    {
      this.pages, asked := pages, [];
    }

    method Query(request: Request) returns (page: Option<Page<E>>)
      modifies this
      ensures asked == old(asked) + [request]
      ensures page == First(old(pages)) && pages == Rest(old(pages))
    {
      asked := asked + [request];
      page, pages := First(pages), Rest(pages);
    }
  }

  function First<E>(pages: seq<Option<Page<E>>>): Option<Page<E>> {
    if pages == [] then None else pages[0]
  }

  function Rest<E>(pages: seq<Option<Page<E>>>): seq<Option<Page<E>>> {
    if pages == [] then [] else pages[1..]
  }

  /** The end that one page puts to the listing, if it does. */
  function Verdict<E>(page: Option<Page<E>>, cursor: string, remaining: nat): Option<Listing<E>> {
    if page.None? then Some(QueryFailed)
    else
      var n, next := |page.value.entities|, page.value.nextCursor;
      if n > remaining then Some(Listed(page.value.entities[..remaining], true))
      else if next == "" then Some(Listed(page.value.entities, false))
      else if n == remaining then Some(Listed(page.value.entities, true))
      else if n == 0 then Some(EmptyPage)
      else if next == cursor then Some(RepeatedCursor)
      else None
  }

  /** What the loop makes of the pages to come, and the requests it sends for them. */
  function Collect<E>(pages: seq<Option<Page<E>>>, cursor: string, remaining: nat, maxPage: nat): (Listing<E>, seq<Request>)
    decreases remaining
  {
    if PageLimit(remaining, maxPage) == 0 then (Listed([], cursor != ""), [])
    else
      var request := Request(cursor, PageLimit(remaining, maxPage));
      var page := First(pages);
      var verdict := Verdict(page, cursor, remaining);
      if verdict.Some? then (verdict.value, [request])
      else
        var (rest, requests) := Collect(Rest(pages), page.value.nextCursor, remaining - |page.value.entities|, maxPage);
        (After(page.value.entities, rest), [request] + requests)
  }

  function After<E>(entities: seq<E>, rest: Listing<E>): Listing<E> {
    if rest.Listed? then Listed(entities + rest.entities, rest.truncated) else rest
  }

  /** The entities so far and the requests so far, completed by what is to come, are the whole. */
  ghost predicate Progress<E>(
      entities: seq<E>, asked: seq<Request>, pages: seq<Option<Page<E>>>, cursor: string, remaining: nat, maxPage: nat,
      whole: (Listing<E>, seq<Request>))
  {
    var rest := Collect(pages, cursor, remaining, maxPage);
    After(entities, rest.0) == whole.0 && asked + rest.1 == whole.1
  }

  method QueryPrefix<E>(server: Server<E>, limit: int, maxPage: nat) returns (result: Listing<E>)
    modifies server
    ensures (result, server.asked) == var (r, requests) := Collect(old(server.pages), "", EffectiveLimit(limit), maxPage);
      (r, old(server.asked) + requests)
  {
    hide Progress, Collect, First, Rest;
    var remaining := limit;
    if remaining <= 0 {
      remaining := 500;
    }
    var entities: seq<E> := [];
    var cursor := "";
    ghost var first := Collect(server.pages, "", remaining, maxPage);
    ghost var whole := (first.0, server.asked + first.1);
    ProgressStarts(server.asked, server.pages, remaining, maxPage);
    while true
      invariant remaining >= 0
      invariant Progress(entities, server.asked, server.pages, cursor, remaining, maxPage, whole)
      decreases remaining
    {
      var pageLimit := PageLimit(remaining, maxPage);
      ProgressSteps(entities, server.asked, server.pages, cursor, remaining, maxPage, whole);
      if pageLimit <= 0 {
        return Listed(entities, cursor != "");
      }
      var page := server.Query(Request(cursor, pageLimit));
      if page.None? {
        return QueryFailed;
      }
      var pageEntities := page.value.entities;
      if |pageEntities| > remaining {
        return Listed(entities + pageEntities[..remaining], true);
      }
      entities := entities + pageEntities;
      remaining := remaining - |pageEntities|;
      if page.value.nextCursor == "" {
        return Listed(entities, false);
      }
      if remaining <= 0 {
        return Listed(entities, true);
      }
      if |pageEntities| == 0 {
        return EmptyPage;
      }
      if page.value.nextCursor == cursor {
        return RepeatedCursor;
      }
      cursor := page.value.nextCursor;
    }
  }

  lemma ProgressStarts<E>(asked: seq<Request>, pages: seq<Option<Page<E>>>, remaining: nat, maxPage: nat)
    ensures var first := Collect(pages, "", remaining, maxPage);
      Progress([], asked, pages, "", remaining, maxPage, (first.0, asked + first.1))
  {
    hide Collect;
    NothingBefore(Collect(pages, "", remaining, maxPage).0);
  }

  lemma ProgressSteps<E>(
      entities: seq<E>, asked: seq<Request>, pages: seq<Option<Page<E>>>, cursor: string, remaining: nat, maxPage: nat,
      whole: (Listing<E>, seq<Request>))
    requires Progress(entities, asked, pages, cursor, remaining, maxPage, whole)
    ensures var request := Request(cursor, PageLimit(remaining, maxPage));
      var page := First(pages);
      var verdict := Verdict(page, cursor, remaining);
      if request.limit == 0 then whole == (Listed(entities, cursor != ""), asked)
      else if verdict.Some? then whole == (After(entities, verdict.value), asked + [request])
      else
        page.Some? && |page.value.entities| <= remaining
        && Progress(entities + page.value.entities, asked + [request], Rest(pages), page.value.nextCursor,
                    remaining - |page.value.entities|, maxPage, whole)
  {
    var request := Request(cursor, PageLimit(remaining, maxPage));
    var page := First(pages);
    if request.limit == 0 {
      assert entities + [] == entities && asked + [] == asked;
    } else if Verdict(page, cursor, remaining).None? {
      var rest := Collect(Rest(pages), page.value.nextCursor, remaining - |page.value.entities|, maxPage);
      AfterAssociates(entities, page.value.entities, rest.0);
      assert asked + ([request] + rest.1) == asked + [request] + rest.1;
    }
  }

  lemma NothingBefore<E>(l: Listing<E>)
    ensures After([], l) == l
  {
    if l.Listed? {
      assert [] + l.entities == l.entities;
    }
  }

  lemma AfterAssociates<E>(a: seq<E>, b: seq<E>, l: Listing<E>)
    ensures After(a, After(b, l)) == After(a + b, l)
  {
    if l.Listed? {
      assert a + (b + l.entities) == a + b + l.entities;
    }
  }

  /** Against any server: never more entities than the limit, nor more requests, nor a larger page than allowed. */
  lemma {:induction false} NeverBeyondTheLimit<E>(pages: seq<Option<Page<E>>>, cursor: string, remaining: nat, maxPage: nat)
    ensures var (result, requests) := Collect(pages, cursor, remaining, maxPage);
      (result.Listed? ==> |result.entities| <= remaining)
      && |requests| <= remaining
      && forall r <- requests :: 0 < r.limit <= remaining && r.limit <= maxPage
    decreases remaining
  {
    var page := First(pages);
    if PageLimit(remaining, maxPage) > 0 && page.Some? && 0 < |page.value.entities| < remaining {
      NeverBeyondTheLimit(Rest(pages), page.value.nextCursor, remaining - |page.value.entities|, maxPage);
    }
  }

  /**
   The pages of a server that lists `all` from position `at` on: never empty while something
   is left, never larger than asked, and with a new cursor exactly while something is left.
   */
  ghost predicate Faithful<E>(pages: seq<Option<Page<E>>>, all: seq<E>, at: nat, cursor: string, remaining: nat, maxPage: nat)
    requires at <= |all|
    decreases |pages|
  {
    remaining == 0 ||
    (pages != [] && pages[0].Some?
     && var page := pages[0].value;
        var n := |page.entities|;
        n <= PageLimit(remaining, maxPage) && at + n <= |all| && page.entities == all[at..at + n]
        && (n == 0 ==> at == |all|)
        && (page.nextCursor == "" <==> at + n == |all|)
        && (page.nextCursor != "" ==>
              page.nextCursor != cursor && Faithful(pages[1..], all, at + n, page.nextCursor, remaining - n, maxPage)))
  }

  function Until<E>(all: seq<E>, at: nat, remaining: nat): (end: nat)
    requires at <= |all|
    ensures at <= end <= |all|
  {
    if |all| <= at + remaining then |all| else at + remaining
  }

  lemma {:induction false} FaithfulFrom<E>(pages: seq<Option<Page<E>>>, all: seq<E>, at: nat, cursor: string, remaining: nat, maxPage: nat)
    requires at <= |all| && remaining > 0 && maxPage > 0 && Faithful(pages, all, at, cursor, remaining, maxPage)
    ensures Collect(pages, cursor, remaining, maxPage).0 == Listed(all[at..Until(all, at, remaining)], |all| > at + remaining)
    decreases remaining
  {
    hide Until;
    var page := pages[0].value;
    var n := |page.entities|;
    if page.nextCursor != "" && n < remaining {
      assert Verdict(pages[0], cursor, remaining).None?;
      FaithfulFrom(pages[1..], all, at + n, page.nextCursor, remaining - n, maxPage);
      SliceInTwo(all, at, n, remaining);
    } else {
      LastSlice(all, at, n, remaining);
      assert Verdict(pages[0], cursor, remaining).Some?;
    }
  }

  lemma SliceInTwo<E>(all: seq<E>, at: nat, n: nat, remaining: nat)
    requires at + n <= |all| && n <= remaining
    ensures all[at..at + n] + all[at + n..Until(all, at + n, remaining - n)] == all[at..Until(all, at, remaining)]
  {}

  lemma LastSlice<E>(all: seq<E>, at: nat, n: nat, remaining: nat)
    requires at + n <= |all| && n <= remaining && (n == remaining || at + n == |all|)
    ensures all[at..at + n] == all[at..Until(all, at, remaining)]
  {}

  /** Against a faithful server: the first entities up to the limit, truncated exactly when there are more. */
  lemma FaithfulServerIsListed<E>(pages: seq<Option<Page<E>>>, all: seq<E>, limit: int, maxPage: nat)
    requires maxPage > 0 && Faithful(pages, all, 0, "", EffectiveLimit(limit), maxPage)
    ensures var most := EffectiveLimit(limit);
      Collect(pages, "", most, maxPage).0 == Listed(all[..Until(all, 0, most)], |all| > most)
  {
    hide Collect, Faithful;
    FaithfulFrom(pages, all, 0, "", EffectiveLimit(limit), maxPage);
  }
}
