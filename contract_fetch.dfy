/**
 * `fetch_all_contracts`: cursor pagination over the `Contract` query.
 *
 * The service is a script of replies, one consumed per request sent. The
 * loop keeps the contracts received so far, the cursor `after` (the id of
 * the last contract received) and the page counter; it retries timeouts,
 * connection failures and HTTP 429, and stops on an empty page, on the
 * page cap, on any other status, on an `errors` payload or on any other
 * exception, returning what it has. When the script has no reply left the
 * loop also stops: what the service would say next is not part of the run.
 */
module ContractFetch {
  import opened Records

  /** Why the loop ended. */
  datatype StopReason =
    | PageCap               // `max_pages` is truthy and `page > max_pages`
    | EmptyPage             // status 200 with no contracts
    | HttpError(status: int) // a status other than 200 and 429
    | QueryErrors           // an `errors` key in the body
    | RequestError          // a `RequestException` other than timeout/connection
    | UnexpectedError       // any other exception (a null `data`)
    | ScriptEnd             // no reply left in the script

  /** The variables of one request that change between requests; the
      customer and the year are fixed for the run. */
  datatype Request = Request(limit: int, after: Option<int>)

  /** How the loop reacts to one reply. */
  datatype Verdict = Retry | Stop(reason: StopReason) | Accept(page: seq<Contract>)

  function Classify(r: Reply<Contract>): (v: Verdict)
    ensures v.Accept? ==> v.page != []
  {
    match r
    case TimedOut => Retry
    case ConnectionFailed => Retry
    case RequestFailed => Stop(RequestError)
    case Http(status, body) =>
      if status != 200 then
        if status == 429 then Retry else Stop(HttpError(status))
      else
        match body
        case ErrorList => Stop(QueryErrors)
        case NullData => Stop(UnexpectedError)
        case Entities(items) => if items == [] then Stop(EmptyPage) else Accept(items)
  }

  /** `max_pages and page > max_pages`: None and 0 mean no cap. */
  predicate CapReached(maxPages: Option<int>, page: int)
  {
    maxPages.Some? && maxPages.value != 0 && page > maxPages.value
  }

  datatype Outcome = Outcome(contracts: seq<Contract>, sent: seq<Request>, stop: StopReason)

  /** The loop from cursor `after` and page counter `page` over the replies
      still to come: the reference the method is proved against. */
  function Run(script: seq<Reply<Contract>>, limit: int, maxPages: Option<int>,
               after: Option<int>, page: int): (o: Outcome)
    ensures |o.sent| <= |script|
    decreases |script|
  {
    if CapReached(maxPages, page) then Outcome([], [], PageCap)
    else if script == [] then Outcome([], [], ScriptEnd)
    else
      var req := Request(limit, after);
      match Classify(script[0])
      case Retry =>
        var o := Run(script[1..], limit, maxPages, after, page);
        Outcome(o.contracts, [req] + o.sent, o.stop)
      case Stop(reason) => Outcome([], [req], reason)
      case Accept(items) =>
        var o := Run(script[1..], limit, maxPages, Some(Last(items).id), page + 1);
        Outcome(items + o.contracts, [req] + o.sent, o.stop)
  }

  /** The loop's invariant: what has been collected before reply `i`,
      followed by the reference run from `i` on, is the whole run. */
  predicate RunSoFar(script: seq<Reply<Contract>>, limit: int, maxPages: Option<int>, i: nat,
                     after: Option<int>, page: int, contracts: seq<Contract>, sent: seq<Request>)
    requires i <= |script|
  {
    var o := Run(script[i..], limit, maxPages, after, page);
    Run(script, limit, maxPages, None, 1) == Outcome(contracts + o.contracts, sent + o.sent, o.stop)
  }

  /** The loop stops before sending when the cap is reached or no reply is
      left. */
  lemma RunSoFarHalt(script: seq<Reply<Contract>>, limit: int, maxPages: Option<int>, i: nat,
                     after: Option<int>, page: int, contracts: seq<Contract>, sent: seq<Request>)
    requires i <= |script| && RunSoFar(script, limit, maxPages, i, after, page, contracts, sent)
    requires CapReached(maxPages, page) || i == |script|
    ensures Run(script, limit, maxPages, None, 1)
         == Outcome(contracts, sent, if CapReached(maxPages, page) then PageCap else ScriptEnd)
  {
    assert contracts + [] == contracts && sent + [] == sent;
  }

  /** A retried reply: one more request, nothing collected. */
  lemma RunSoFarRetry(script: seq<Reply<Contract>>, limit: int, maxPages: Option<int>, i: nat,
                      after: Option<int>, page: int, contracts: seq<Contract>, sent: seq<Request>)
    requires i < |script| && RunSoFar(script, limit, maxPages, i, after, page, contracts, sent)
    requires !CapReached(maxPages, page) && Classify(script[i]).Retry?
    ensures RunSoFar(script, limit, maxPages, i + 1, after, page, contracts, sent + [Request(limit, after)])
  {
    assert script[i..][0] == script[i] && script[i..][1..] == script[i + 1..];
    var o := Run(script[i + 1..], limit, maxPages, after, page);
    ConcatAssoc(sent, [Request(limit, after)], o.sent);
  }

  /** A stopping reply: one more request, and the run ends for its reason. */
  lemma RunSoFarStop(script: seq<Reply<Contract>>, limit: int, maxPages: Option<int>, i: nat,
                     after: Option<int>, page: int, contracts: seq<Contract>, sent: seq<Request>,
                     reason: StopReason)
    requires i < |script| && RunSoFar(script, limit, maxPages, i, after, page, contracts, sent)
    requires !CapReached(maxPages, page) && Classify(script[i]) == Stop(reason)
    ensures Run(script, limit, maxPages, None, 1) == Outcome(contracts, sent + [Request(limit, after)], reason)
  {
    assert script[i..][0] == script[i];
    assert contracts + [] == contracts;
  }

  /** An accepted page: collected, and the cursor and counter move on. */
  lemma RunSoFarAccept(script: seq<Reply<Contract>>, limit: int, maxPages: Option<int>, i: nat,
                       after: Option<int>, page: int, contracts: seq<Contract>, sent: seq<Request>,
                       items: seq<Contract>)
    requires i < |script| && RunSoFar(script, limit, maxPages, i, after, page, contracts, sent)
    requires !CapReached(maxPages, page) && Classify(script[i]) == Accept(items)
    ensures RunSoFar(script, limit, maxPages, i + 1, Some(Last(items).id), page + 1,
                     contracts + items, sent + [Request(limit, after)])
  {
    assert script[i..][0] == script[i] && script[i..][1..] == script[i + 1..];
    var o := Run(script[i + 1..], limit, maxPages, Some(Last(items).id), page + 1);
    ConcatAssoc(contracts, items, o.contracts);
    ConcatAssoc(sent, [Request(limit, after)], o.sent);
  }

  /** `fetch_all_contracts(customer_bin, fin_year, limit, max_pages)`. */
  method FetchAllContracts(script: seq<Reply<Contract>>, limit: int, maxPages: Option<int>)
    returns (contracts: seq<Contract>, sent: seq<Request>, stop: StopReason)
    ensures Outcome(contracts, sent, stop) == Run(script, limit, maxPages, None, 1)
  {
    contracts, sent := [], [];
    var after: Option<int> := None;
    var page := 1;
    var i := 0;
    while true
      invariant 0 <= i <= |script|
      invariant RunSoFar(script, limit, maxPages, i, after, page, contracts, sent)
      decreases |script| - i
    {
      if maxPages.Some? && maxPages.value != 0 && page > maxPages.value {
        RunSoFarHalt(script, limit, maxPages, i, after, page, contracts, sent);
        stop := PageCap;
        return;
      }
      if i == |script| {
        RunSoFarHalt(script, limit, maxPages, i, after, page, contracts, sent);
        stop := ScriptEnd;
        return;
      }
      var req := Request(limit, after);
      var reply := script[i];
      match reply {
        case TimedOut =>
          RunSoFarRetry(script, limit, maxPages, i, after, page, contracts, sent);
          sent, i := sent + [req], i + 1;
          continue;
        case ConnectionFailed =>
          RunSoFarRetry(script, limit, maxPages, i, after, page, contracts, sent);
          sent, i := sent + [req], i + 1;
          continue;
        case RequestFailed =>
          RunSoFarStop(script, limit, maxPages, i, after, page, contracts, sent, RequestError);
          sent, stop := sent + [req], RequestError;
          return;
        case Http(status, body) =>
          if status != 200 {
            if status == 429 {
              RunSoFarRetry(script, limit, maxPages, i, after, page, contracts, sent);
              sent, i := sent + [req], i + 1;
              continue;
            }
            RunSoFarStop(script, limit, maxPages, i, after, page, contracts, sent, HttpError(status));
            sent, stop := sent + [req], HttpError(status);
            return;
          }
          match body {
            case ErrorList =>
              RunSoFarStop(script, limit, maxPages, i, after, page, contracts, sent, QueryErrors);
              sent, stop := sent + [req], QueryErrors;
              return;
            case NullData =>
              RunSoFarStop(script, limit, maxPages, i, after, page, contracts, sent, UnexpectedError);
              sent, stop := sent + [req], UnexpectedError;
              return;
            case Entities(items) =>
              if items == [] {
                RunSoFarStop(script, limit, maxPages, i, after, page, contracts, sent, EmptyPage);
                sent, stop := sent + [req], EmptyPage;
                return;
              }
              RunSoFarAccept(script, limit, maxPages, i, after, page, contracts, sent, items);
              contracts, sent, i := contracts + items, sent + [req], i + 1;
              after := Some(items[|items| - 1].id);
              page := page + 1;
          }
      }
    }
  }

  /** The pages the loop appends, in the order the replies carry them. */
  function Pages(replies: seq<Reply<Contract>>): seq<seq<Contract>>
  {
    if replies == [] then []
    else
      match Classify(replies[0])
      case Accept(items) => [items] + Pages(replies[1..])
      case _ => Pages(replies[1..])
  }

  /** The cursor sent after receiving `received` when the loop started from
      cursor `start`: the id of the last contract received. */
  function CursorAfter(start: Option<int>, received: seq<Contract>): Option<int>
  {
    if received == [] then start else Some(Last(received).id)
  }

  /** The result is the in-order concatenation of every page received in
      the replies the loop consumed, one reply per request sent. */
  lemma {:induction false} RunIsConcatenationOfPages(script: seq<Reply<Contract>>, limit: int,
                                                     maxPages: Option<int>, after: Option<int>, page: int)
    ensures var o := Run(script, limit, maxPages, after, page);
      |o.sent| <= |script| && o.contracts == Flatten(Pages(script[..|o.sent|]))
    decreases |script|
  {
    var o := Run(script, limit, maxPages, after, page);
    if CapReached(maxPages, page) || script == [] {
    } else {
      var n := |o.sent|;
      assert script[..n][0] == script[0];
      assert script[..n][1..] == script[1..][..n - 1];
      match Classify(script[0])
      case Retry =>
        RunIsConcatenationOfPages(script[1..], limit, maxPages, after, page);
      case Stop(reason) =>
        assert script[..n][1..] == [];
      case Accept(items) =>
        RunIsConcatenationOfPages(script[1..], limit, maxPages, Some(Last(items).id), page + 1);
        FlattenCons(items, Pages(script[1..][..n - 1]));
    }
  }

  /** The pages among the first `k` replies: those of the first reply,
      then those among the `k - 1` after it. */
  lemma PagesOfPrefix(script: seq<Reply<Contract>>, k: nat)
    requires 0 < k <= |script|
    ensures Pages(script[..k])
         == (match Classify(script[0]) case Accept(items) => [items] case _ => [])
            + Pages(script[1..][..k - 1])
  {
    assert script[..k][0] == script[0];
    assert script[..k][1..] == script[1..][..k - 1];
  }

  lemma CursorAfterPage(start: Option<int>, items: seq<Contract>, rest: seq<Contract>)
    requires items != []
    ensures CursorAfter(start, items + rest) == CursorAfter(Some(Last(items).id), rest)
  {
    if rest == [] {
      assert items + rest == items;
    } else {
      assert Last(items + rest) == Last(rest);
    }
  }

  /** Every request carries the page size, and the cursor of request k is
      the id of the last contract received before it (the starting cursor
      while nothing has been received). */
  lemma {:induction false} RunCursorFollowsLastContract(script: seq<Reply<Contract>>, limit: int,
                                                        maxPages: Option<int>, after: Option<int>, page: int, k: nat)
    requires k < |Run(script, limit, maxPages, after, page).sent|
    ensures Run(script, limit, maxPages, after, page).sent[k]
         == Request(limit, CursorAfter(after, Flatten(Pages(script[..k]))))
    decreases |script|
  {
    var o := Run(script, limit, maxPages, after, page);
    if k == 0 {
      assert script[..0] == [];
    } else {
      PagesOfPrefix(script, k);
      var ps := Pages(script[1..][..k - 1]);
      match Classify(script[0])
      case Retry =>
        assert o.sent == [Request(limit, after)] + Run(script[1..], limit, maxPages, after, page).sent;
        RunCursorFollowsLastContract(script[1..], limit, maxPages, after, page, k - 1);
        assert [] + ps == ps;
      case Stop(reason) =>
      case Accept(items) =>
        var after' := Some(Last(items).id);
        assert o.sent == [Request(limit, after)] + Run(script[1..], limit, maxPages, after', page + 1).sent;
        RunCursorFollowsLastContract(script[1..], limit, maxPages, after', page + 1, k - 1);
        FlattenCons(items, ps);
        CursorAfterPage(after, items, Flatten(ps));
    }
  }

  /** With a truthy cap `m`, a loop whose page counter starts at `page`
      appends at most `m - page + 1` pages, and when it stops for the cap
      it has appended exactly that many. */
  lemma {:induction false} RunRespectsPageCap(script: seq<Reply<Contract>>, limit: int,
                                              m: int, after: Option<int>, page: int)
    requires m != 0 && page <= m + 1
    ensures var o := Run(script, limit, Some(m), after, page);
      |Pages(script[..|o.sent|])| <= m - page + 1
      && (o.stop == PageCap ==> |Pages(script[..|o.sent|])| == m - page + 1)
    decreases |script|
  {
    var o := Run(script, limit, Some(m), after, page);
    RunIsConcatenationOfPages(script, limit, Some(m), after, page);
    if CapReached(Some(m), page) || script == [] {
      assert script[..|o.sent|] == [];
    } else {
      var n := |o.sent|;
      assert script[..n][0] == script[0];
      assert script[..n][1..] == script[1..][..n - 1];
      match Classify(script[0])
      case Retry =>
        RunRespectsPageCap(script[1..], limit, m, after, page);
      case Stop(reason) =>
        assert script[..n][1..] == [];
      case Accept(items) =>
        RunRespectsPageCap(script[1..], limit, m, Some(Last(items).id), page + 1);
    }
  }

  /** From the first page: a positive cap bounds the pages appended, and a
      negative one stops the loop before its first request. */
  lemma MaxPagesBound(script: seq<Reply<Contract>>, limit: int, m: int)
    requires m != 0
    ensures var o := Run(script, limit, Some(m), None, 1);
      (m > 0 ==> |Pages(script[..|o.sent|])| <= m)
      && (m < 0 ==> o == Outcome([], [], PageCap))
  {
    if m > 0 {
      RunRespectsPageCap(script, limit, m, None, 1);
    }
  }

  /** `max_pages` of None and of 0 are both falsy: the loop runs the same
      with either, and never stops for the cap. */
  lemma {:induction false} NoCapWhenUnsetOrZero(script: seq<Reply<Contract>>, limit: int,
                                                after: Option<int>, page: int)
    ensures Run(script, limit, None, after, page) == Run(script, limit, Some(0), after, page)
    ensures Run(script, limit, None, after, page).stop != PageCap
    decreases |script|
  {
    if script != [] {
      match Classify(script[0])
      case Retry =>
        NoCapWhenUnsetOrZero(script[1..], limit, after, page);
      case Stop(reason) =>
      case Accept(items) =>
        NoCapWhenUnsetOrZero(script[1..], limit, Some(Last(items).id), page + 1);
    }
  }

  /** A reply the loop retries: a timeout, a connection failure or 429. */
  predicate IsRetry(r: Reply<Contract>)
  {
    Classify(r).Retry?
  }

  function DropRetries(script: seq<Reply<Contract>>): seq<Reply<Contract>>
  {
    if script == [] then []
    else if IsRetry(script[0]) then DropRetries(script[1..])
    else [script[0]] + DropRetries(script[1..])
  }

  /** Retried replies leave the contracts, the cursor and the page counter
      as they were: removing them from the script changes neither the
      result nor why the loop stops. */
  lemma {:induction false} RetriesAreTransparent(script: seq<Reply<Contract>>, limit: int,
                                                 maxPages: Option<int>, after: Option<int>, page: int)
    ensures var o := Run(script, limit, maxPages, after, page);
      var d := Run(DropRetries(script), limit, maxPages, after, page);
      o.contracts == d.contracts && o.stop == d.stop
    decreases |script|
  {
    if script != [] {
      var t := DropRetries(script[1..]);
      if IsRetry(script[0]) {
        RetriesAreTransparent(script[1..], limit, maxPages, after, page);
      } else {
        var d := [script[0]] + t;
        assert d[0] == script[0] && d[1..] == t;
        match Classify(script[0])
        case Stop(reason) =>
        case Accept(items) =>
          RetriesAreTransparent(script[1..], limit, maxPages, Some(Last(items).id), page + 1);
      }
    }
  }

  /** The loop ends for a reply exactly when that reply is the last one
      it consumed, and every reply before it was retried or appended. */
  lemma {:induction false} RunStopsOnlyAtItsLastReply(script: seq<Reply<Contract>>, limit: int,
                                                      maxPages: Option<int>, after: Option<int>, page: int)
    ensures var o := Run(script, limit, maxPages, after, page);
      var n := |o.sent|;
      n <= |script|
      && (o.stop != PageCap && o.stop != ScriptEnd ==> n > 0 && Classify(script[n - 1]) == Stop(o.stop))
      && (forall j :: 0 <= j < n - 1 ==> !Classify(script[j]).Stop?)
      && (o.stop == ScriptEnd ==> n == |script| && (n == 0 || !Classify(script[n - 1]).Stop?))
    decreases |script|
  {
    var o := Run(script, limit, maxPages, after, page);
    if !CapReached(maxPages, page) && script != [] {
      var o' := match Classify(script[0])
        case Accept(items) => Run(script[1..], limit, maxPages, Some(Last(items).id), page + 1)
        case _ => Run(script[1..], limit, maxPages, after, page);
      match Classify(script[0])
      case Stop(reason) =>
      case Retry =>
        RunStopsOnlyAtItsLastReply(script[1..], limit, maxPages, after, page);
        assert o.sent == [Request(limit, after)] + o'.sent;
        forall j | 0 <= j < |o.sent| - 1 ensures !Classify(script[j]).Stop? {
          if j > 0 { assert script[j] == script[1..][j - 1]; }
        }
      case Accept(items) =>
        RunStopsOnlyAtItsLastReply(script[1..], limit, maxPages, Some(Last(items).id), page + 1);
        assert o.sent == [Request(limit, after)] + o'.sent;
        forall j | 0 <= j < |o.sent| - 1 ensures !Classify(script[j]).Stop? {
          if j > 0 { assert script[j] == script[1..][j - 1]; }
        }
    }
  }

  /** Three non-empty pages followed by an empty one: the loop returns the
      three pages in order after exactly four requests, each after the
      last contract of the page before. */
  lemma ThreePagesThenEmpty(a: seq<Contract>, b: seq<Contract>, c: seq<Contract>, limit: int)
    requires a != [] && b != [] && c != []
    ensures Run([Http(200, Entities(a)), Http(200, Entities(b)), Http(200, Entities(c)),
                 Http(200, Entities([]))], limit, None, None, 1)
         == Outcome(a + b + c,
                    [Request(limit, None), Request(limit, Some(Last(a).id)),
                     Request(limit, Some(Last(b).id)), Request(limit, Some(Last(c).id))],
                    EmptyPage)
  {
    var s := [Http(200, Entities(a)), Http(200, Entities(b)), Http(200, Entities(c)),
              Http(200, Entities([]))];
    var last := Run(s[3..], limit, None, Some(Last(c).id), 4);
    assert s[3..][1..] == [];
    assert last == Outcome([], [Request(limit, Some(Last(c).id))], EmptyPage);
    var third := Run(s[2..], limit, None, Some(Last(b).id), 3);
    assert s[2..][1..] == s[3..];
    assert third == Outcome(c, [Request(limit, Some(Last(b).id))] + last.sent, EmptyPage);
    var second := Run(s[1..], limit, None, Some(Last(a).id), 2);
    assert s[1..][1..] == s[2..];
    assert second == Outcome(b + c, [Request(limit, Some(Last(a).id))] + third.sent, EmptyPage);
    assert Run(s, limit, None, None, 1) == Outcome(a + (b + c), [Request(limit, None)] + second.sent, EmptyPage);
    ConcatAssoc(a, b, c);
  }
}
