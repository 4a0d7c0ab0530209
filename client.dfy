/**
 * The metrics refresher of up/client.go: cursor-following listing of
 * accounts and webhooks through the generated API client, then the count
 * and balance gauges.
 *
 * The upstream is a finite sequence of answers: the i-th request issued
 * receives `up[i]`. `url.Parse` is the parameter `parse`.
 */
module Client {
  import opened Wrappers
  import opened Http
  import Metrics

  /** `pageSize`: what the first request of every listing asks for. */
  const PageSize: int := 100

  /**
   * An `AccountResource`. Account and ownership type are Go string types;
   * `fmt.Sprintf("%s", ...)` renders them as their text, so they are strings here.
   */
  datatype Account = Account(
    id: string,
    displayName: string,
    accountType: string,
    ownershipType: string,
    balance: Money)

  datatype Webhook = Webhook(id: string)

  /** One page of a listing: its `Data` and its `Links.Next` cursor. */
  datatype Page<T> = Page(data: seq<T>, next: Option<string>)

  datatype Operation = GetAccounts | GetWebhooks

  /**
   * Where a request goes: the URL the generated client builds for an
   * operation and its optional `page[size]` parameter, or a URL parsed
   * from a cursor, which replaces the built one entirely.
   */
  datatype Target = Endpoint(op: Operation, pageSize: Option<int>) | Cursor(url: Url)

  /** An outgoing `*http.Request`; only its URL is modelled. */
  class HttpRequest {
    var target: Target

    constructor (op: Operation, pageSize: Option<int>)
      ensures target == Endpoint(op, pageSize)
    {
      target := Endpoint(op, pageSize);
    }
  }

  /** `updateRequestWithPageToken`: the request editor applied to every follow-up request. */
  method UpdateRequestWithPageToken(path: string, req: HttpRequest, parse: string -> Option<Url>)
    returns (err: Option<Error>)
    modifies req
    ensures parse(path).Some? ==> err == None && req.target == Cursor(parse(path).value)
    ensures parse(path).None? ==> err == Some(ParseUrl(path)) && req.target == old(req.target)
  {
    var tokenUrl := parse(path);
    if tokenUrl.None? {
      return Some(ParseUrl(path));
    }
    req.target := Cursor(tokenUrl.value);
    return None;
  }

  /**
   * The answers run out only where the chain of cursors ends: the last one is
   * an answer after which no further request is built (an error, a nil
   * `JSON200`, a page without `Links.Next`, or one whose cursor does not parse).
   */
  predicate Finite<T>(up: seq<FetchResult<Page<T>>>, parse: string -> Option<Url>)
  {
    |up| > 0 && NextUrl(up[|up| - 1], parse).None?
  }

  /** The URL a follow-up request after `r` goes to, when `r` is a page whose cursor parses. */
  function NextUrl<T>(r: FetchResult<Page<T>>, parse: string -> Option<Url>): Option<Url>
  {
    if r.Fetched? && r.json200.Some? && r.json200.value.next.Some? then parse(r.json200.value.next.value)
    else None
  }

  /** The `Data` of an answer that is a page. */
  function DataOf<T>(r: FetchResult<Page<T>>): seq<T>
  {
    if r.Fetched? && r.json200.Some? then r.json200.value.data else []
  }

  /** The `Data` of answers `i` up to (not including) `j`, concatenated in arrival order. */
  function Collected<T>(up: seq<FetchResult<Page<T>>>, i: nat, j: nat): seq<T>
    requires i <= j <= |up|
    decreases j - i
  {
    if i == j then [] else DataOf(up[i]) + Collected(up, i + 1, j)
  }

  /** How a listing ends: with every item, with the first error, or crashed by a nil-`JSON200` panic. */
  datatype Listing<T> = Listed(items: seq<T>) | Failed(err: Error) | Crashed

  /** A listing together with the URLs of the follow-up requests it sent. */
  datatype Walk<T> = Walk(listing: Listing<T>, followed: seq<Url>)

  function Prepend<T>(xs: seq<T>, l: Listing<T>): Listing<T>
  {
    if l.Listed? then Listed(xs + l.items) else l
  }

  /** The walk `before`, then one more stretch `w`. */
  function Join<T>(before: seq<T>, followed: seq<Url>, w: Walk<T>): Walk<T>
  {
    Walk(Prepend(before, w.listing), followed + w.followed)
  }

  /**
   * How the walk ends at an answer after which it sends no further request:
   * the fetch error, the nil-`JSON200` panic, the last page, or the error of
   * a cursor that does not parse.
   */
  function Verdict<T>(r: FetchResult<Page<T>>): Listing<T>
  {
    match r
    case FetchErr(e) => Failed(e)
    case Fetched(None) => Crashed
    case Fetched(Some(page)) =>
      if page.next.None? then Listed(page.data) else Failed(ParseUrl(page.next.value))
  }

  /**
   * The pagination loop of `UpdateAccountsMetrics` and `UpdateWebhookMetrics`
   * as a function of the answers, from the i-th on: a page whose cursor
   * parses contributes its `Data` and is followed; any other answer ends
   * the walk.
   */
  function FollowFrom<T>(up: seq<FetchResult<Page<T>>>, parse: string -> Option<Url>, i: nat): (w: Walk<T>)
    requires Finite(up, parse) && i < |up|
    ensures i + |w.followed| < |up|
    decreases |up| - i
  {
    match NextUrl(up[i], parse)
    case None => Walk(Verdict(up[i]), [])
    case Some(u) => Join(DataOf(up[i]), [u], FollowFrom(up, parse, i + 1))
  }

  /** The whole walk, from the answer to the first request. */
  function Follow<T>(up: seq<FetchResult<Page<T>>>, parse: string -> Option<Url>): Walk<T>
    requires Finite(up, parse)
  {
    FollowFrom(up, parse, 0)
  }

  /** Follow-up request k goes exactly to the parsed cursor of the k-th page fetched. */
  lemma {:induction false} FollowedCursors<T>(up: seq<FetchResult<Page<T>>>, parse: string -> Option<Url>, i: nat)
    requires Finite(up, parse) && i < |up|
    ensures forall k :: 0 <= k < |FollowFrom(up, parse, i).followed| ==>
      NextUrl(up[i + k], parse) == Some(FollowFrom(up, parse, i).followed[k])
    decreases |up| - i
  {
    if NextUrl(up[i], parse).Some? {
      FollowedCursors(up, parse, i + 1);
      var w, rest := FollowFrom(up, parse, i), FollowFrom(up, parse, i + 1);
      assert w.followed == [NextUrl(up[i], parse).value] + rest.followed;
      forall k | 0 <= k < |w.followed| ensures NextUrl(up[i + k], parse) == Some(w.followed[k]) {
        if k > 0 {
          var j := k - 1;
          assert 0 <= j < |rest.followed|;
          assert NextUrl(up[(i + 1) + j], parse) == Some(rest.followed[j]);
          assert w.followed[k] == rest.followed[j];
          assert i + k == (i + 1) + j;
        }
      }
    }
  }

  /** The walk from answer i ends at the first answer without a usable cursor, with that answer's verdict after every earlier page's `Data`. */
  lemma {:induction false} FollowEndsAtVerdict<T>(up: seq<FetchResult<Page<T>>>, parse: string -> Option<Url>, i: nat)
    requires Finite(up, parse) && i < |up|
    ensures var w := FollowFrom(up, parse, i);
      var n := i + |w.followed|;
      && NextUrl(up[n], parse).None?
      && w.listing == Prepend(Collected(up, i, n), Verdict(up[n]))
    decreases |up| - i
  {
    if NextUrl(up[i], parse).Some? {
      FollowEndsAtVerdict(up, parse, i + 1);
      var l := FollowFrom(up, parse, i + 1).listing;
      if l.Listed? {
        var n := i + |FollowFrom(up, parse, i).followed|;
        assert DataOf(up[i]) + (Collected(up, i + 1, n) + Verdict(up[n]).items)
            == (DataOf(up[i]) + Collected(up, i + 1, n)) + Verdict(up[n]).items;
      }
    }
  }

  /** The index of the answer that ends the listing; the listing sends one request per answer up to it. */
  function StopIndex<T>(up: seq<FetchResult<Page<T>>>, parse: string -> Option<Url>): (n: nat)
    requires Finite(up, parse)
    ensures n < |up|
  {
    |Follow(up, parse).followed|
  }

  /**
   * One request per page: every answer before the stop index was a page
   * whose cursor parsed, and the answer at the stop index decides the
   * outcome. A complete listing is every fetched page's `Data` in fetch order.
   */
  lemma ListingOutcome<T>(up: seq<FetchResult<Page<T>>>, parse: string -> Option<Url>)
    requires Finite(up, parse)
    ensures forall k :: 0 <= k < StopIndex(up, parse) ==> NextUrl(up[k], parse).Some?
    ensures NextUrl(up[StopIndex(up, parse)], parse).None?
    ensures up[StopIndex(up, parse)].FetchErr? ==>
      Follow(up, parse).listing == Failed(up[StopIndex(up, parse)].err)
    ensures up[StopIndex(up, parse)] == Fetched(None) ==>
      Follow(up, parse).listing == Crashed
    ensures up[StopIndex(up, parse)].Fetched? && up[StopIndex(up, parse)].json200.Some? ==>
      var page := up[StopIndex(up, parse)].json200.value;
      Follow(up, parse).listing ==
        if page.next.None? then Listed(Collected(up, 0, StopIndex(up, parse) + 1))
        else Failed(ParseUrl(page.next.value))
  {
    FollowedCursors(up, parse, 0);
    FollowEndsAtVerdict(up, parse, 0);
    var w := Follow(up, parse);
    var n := |w.followed|;
    forall k | 0 <= k < n ensures NextUrl(up[k], parse).Some? {
      assert NextUrl(up[0 + k], parse) == Some(w.followed[k]);
    }
    assert w.listing == Prepend(Collected(up, 0, n), Verdict(up[n]));
    if up[n].Fetched? && up[n].json200.Some? && up[n].json200.value.next.None? {
      CollectedSnoc(up, 0, n);
    }
  }

  lemma {:induction false} CollectedSnoc<T>(up: seq<FetchResult<Page<T>>>, i: nat, j: nat)
    requires i <= j < |up|
    ensures Collected(up, i, j + 1) == Collected(up, i, j) + DataOf(up[j])
    decreases j - i
  {
    if i < j {
      CollectedSnoc(up, i + 1, j);
    }
  }

  /** The first failing fetch ends the listing with its error; no request follows it. */
  lemma FirstErrorEndsListing<T>(up: seq<FetchResult<Page<T>>>, parse: string -> Option<Url>, j: nat)
    requires Finite(up, parse) && j < |up| && up[j].FetchErr?
    requires forall k :: 0 <= k < j ==> NextUrl(up[k], parse).Some?
    ensures StopIndex(up, parse) == j
    ensures Follow(up, parse).listing == Failed(up[j].err)
  {
    ListingOutcome(up, parse);
  }

  /** Following the cursor of answer i moves the walk one page on. */
  lemma FollowAdvances<T>(up: seq<FetchResult<Page<T>>>, parse: string -> Option<Url>, i: nat,
                          before: seq<T>, followed: seq<Url>, items: seq<T>, u: Url)
    requires Finite(up, parse) && i < |up| && NextUrl(up[i], parse) == Some(u)
    requires Follow(up, parse) == Join(before, followed, FollowFrom(up, parse, i))
    requires items == before + DataOf(up[i])
    ensures i + 1 < |up|
    ensures Follow(up, parse) == Join(items, followed + [u], FollowFrom(up, parse, i + 1))
  {
    var w := FollowFrom(up, parse, i + 1);
    var b := DataOf(up[i]);
    if w.listing.Listed? {
      assert before + (b + w.listing.items) == (before + b) + w.listing.items;
    }
    assert followed + ([u] + w.followed) == (followed + [u]) + w.followed;
  }

  /** At an answer without a usable cursor the walk ends with that answer's verdict. */
  lemma FollowStops<T>(up: seq<FetchResult<Page<T>>>, parse: string -> Option<Url>, i: nat,
                       before: seq<T>, followed: seq<Url>)
    requires Finite(up, parse) && i < |up| && NextUrl(up[i], parse).None?
    requires Follow(up, parse) == Join(before, followed, FollowFrom(up, parse, i))
    ensures Follow(up, parse).listing == Prepend(before, Verdict(up[i]))
    ensures Follow(up, parse).followed == followed
  {
    assert followed + [] == followed;
  }

  /** The requests a listing sends: the operation with `page[size]` first, then one per followed cursor. */
  function Targets(op: Operation, followed: seq<Url>): seq<Target>
  {
    if |followed| == 0 then [Endpoint(op, Some(PageSize))]
    else Targets(op, followed[..|followed| - 1]) + [Cursor(followed[|followed| - 1])]
  }

  /** Only the first request carries `page[size]`; request k + 1 goes to the k-th followed URL, replaced whole. */
  lemma {:induction false} TargetsShape(op: Operation, followed: seq<Url>)
    ensures |Targets(op, followed)| == |followed| + 1
    ensures Targets(op, followed)[0] == Endpoint(op, Some(PageSize))
    ensures forall k :: 1 <= k <= |followed| ==> Targets(op, followed)[k] == Cursor(followed[k - 1])
  {
    if |followed| > 0 {
      TargetsShape(op, followed[..|followed| - 1]);
    }
  }

  /**
   * The request a follow-up call `GetAccountsWithResponse(ctx, nil, editor)`
   * (or its webhooks twin) sends: built without parameters, then rewritten by
   * the editor that applies `updateRequestWithPageToken`; an editor error is
   * returned before anything is sent.
   */
  method FollowUpRequest(op: Operation, cursor: string, parse: string -> Option<Url>) returns (r: Result<Target, Error>)
    ensures parse(cursor).Some? ==> r == Success(Cursor(parse(cursor).value))
    ensures parse(cursor).None? ==> r == Failure(ParseUrl(cursor))
  {
    var req := new HttpRequest(op, None);
    var err := UpdateRequestWithPageToken(cursor, req, parse);
    if err.Some? {
      return Failure(err.value);
    }
    return Success(req.target);
  }

  /**
   * The generic listing loop shared by `UpdateAccountsMetrics` and
   * `UpdateWebhookMetrics`: returns the listing and the target of every
   * request it sent, in order.
   */
  method ListAll<T>(op: Operation, up: seq<FetchResult<Page<T>>>, parse: string -> Option<Url>)
    returns (listing: Listing<T>, sent: seq<Target>)
    requires Finite(up, parse)
    ensures listing == Follow(up, parse).listing
    ensures sent == Targets(op, Follow(up, parse).followed)
  {
    var first := new HttpRequest(op, Some(PageSize));
    sent := [first.target];
    var resp := up[0];
    if resp.FetchErr? || resp.json200.None? {
      // the error, or the panic on a nil `JSON200` in `accountsResp.JSON200.Data`
      return Verdict(resp), sent;
    }
    var items := resp.json200.value.data;
    var k := 1;
    var followed: seq<Url> := [];  // the URL of every follow-up request sent so far
    ghost var before: seq<T> := [];
    while resp.json200.value.next.Some?
      invariant 1 <= k <= |up| && resp == up[k - 1]
      invariant resp.Fetched? && resp.json200.Some?
      invariant items == before + DataOf(resp)
      invariant sent == Targets(op, followed)
      invariant Follow(up, parse) == Join(before, followed, FollowFrom(up, parse, k - 1))
      decreases |up| - k
    {
      var cursor := resp.json200.value.next.value;
      var next := FollowUpRequest(op, cursor, parse);
      if next.Failure? {
        FollowStops(up, parse, k - 1, before, followed);
        return Failed(next.error), sent;
      }
      var url := next.value.url;
      FollowAdvances(up, parse, k - 1, before, followed, items, url);
      assert (followed + [url])[..|followed|] == followed;
      before, followed := items, followed + [url];
      sent := sent + [next.value];
      resp := up[k];
      k := k + 1;
      if resp.FetchErr? || resp.json200.None? {
        FollowStops(up, parse, k - 1, before, followed);
        return Verdict(resp), sent;
      }
      items := items + resp.json200.value.data;
    }
    FollowStops(up, parse, k - 1, before, followed);
    return Listed(items), sent;
  }

  /** The gauges of up/client.go. */
  class Gauges {
    var accountsCount: int
    var accountBalance: map<AccountLabels, int>
    var webhooksCount: int

    constructor ()
      ensures accountsCount == 0 && accountBalance == map[] && webhooksCount == 0
    {
      accountsCount, accountBalance, webhooksCount := 0, map[], 0;
    }
  }

  /** The label tuple (id, display_name, account_type, ownership_type, currency_code) of `up_bank_account_balance`. */
  datatype AccountLabels = AccountLabels(
    id: string,
    displayName: string,
    accountType: string,
    ownershipType: string,
    currencyCode: string)

  function LabelsOf(a: Account): AccountLabels
  {
    AccountLabels(a.id, a.displayName, a.accountType, a.ownershipType, a.balance.currencyCode)
  }

  /** The balance gauge after setting it for every account in turn. */
  function SetBalances(m: map<AccountLabels, int>, accounts: seq<Account>): (r: map<AccountLabels, int>)
    ensures r.Keys == m.Keys + set a | a in accounts :: LabelsOf(a)
  {
    if |accounts| == 0 then m
    else
      var last := accounts[|accounts| - 1];
      var r := Metrics.Set(SetBalances(m, accounts[..|accounts| - 1]), LabelsOf(last), last.balance.valueInBaseUnits);
      assert forall a :: a in accounts <==> a in accounts[..|accounts| - 1] || a == last;
      r
  }

  /** The last account with a given label tuple decides that series' value. */
  lemma {:induction false} BalanceLastWriteWins(m: map<AccountLabels, int>, accounts: seq<Account>, i: nat)
    requires i < |accounts|
    requires forall j :: i < j < |accounts| ==> LabelsOf(accounts[j]) != LabelsOf(accounts[i])
    ensures SetBalances(m, accounts)[LabelsOf(accounts[i])] == accounts[i].balance.valueInBaseUnits
  {
    if i < |accounts| - 1 {
      var init := accounts[..|accounts| - 1];
      BalanceLastWriteWins(m, init, i);
      assert init[i] == accounts[i];
    }
  }

  /** A series no account of this refresh carries keeps its value, or stays absent. */
  lemma {:induction false} BalanceUntouched(m: map<AccountLabels, int>, accounts: seq<Account>, key: AccountLabels)
    requires forall j :: 0 <= j < |accounts| ==> LabelsOf(accounts[j]) != key
    ensures key in SetBalances(m, accounts) <==> key in m
    ensures key in m ==> SetBalances(m, accounts)[key] == m[key]
  {
    if |accounts| > 0 {
      var init := accounts[..|accounts| - 1];
      BalanceUntouched(m, init, key);
    }
  }

  /** `UpMetricsClient`; the generated client it holds is the upstream passed to each refresh. */
  class UpMetricsClient {
    const gauges: Gauges

    constructor (gauges: Gauges)
      ensures this.gauges == gauges
    {
      this.gauges := gauges;
    }

    /** `UpdateAccountsMetrics`: list every account, then set the count and one balance series per account. */
    method UpdateAccountsMetrics(up: seq<FetchResult<Page<Account>>>, parse: string -> Option<Url>)
      returns (r: Return)
      requires Finite(up, parse)
      modifies gauges`accountsCount, gauges`accountBalance
      ensures var l := Follow(up, parse).listing;
        && (l.Listed? ==>
              && r == Returned(None)
              && gauges.accountsCount == |l.items|
              && gauges.accountBalance == SetBalances(old(gauges.accountBalance), l.items))
        && (l.Failed? ==> r == Returned(Some(l.err)))
        && (l.Crashed? ==> r == Panicked)
        && (!l.Listed? ==>
              && gauges.accountsCount == old(gauges.accountsCount)
              && gauges.accountBalance == old(gauges.accountBalance))
    {
      var listing, _ := ListAll(GetAccounts, up, parse);
      if listing.Failed? {
        return Returned(Some(listing.err));
      } else if listing.Crashed? {
        return Panicked;
      }
      var accounts := listing.items;
      gauges.accountsCount := |accounts|;
      for i := 0 to |accounts|
        invariant gauges.accountsCount == |accounts|
        invariant gauges.accountBalance == SetBalances(old(gauges.accountBalance), accounts[..i])
      {
        var account := accounts[i];
        assert accounts[..i + 1][..i] == accounts[..i];
        gauges.accountBalance := Metrics.Set(gauges.accountBalance, LabelsOf(account), account.balance.valueInBaseUnits);
      }
      assert accounts[..|accounts|] == accounts;
      return Returned(None);
    }

    /** `UpdateWebhookMetrics`: list every webhook, then set the count. */
    method UpdateWebhookMetrics(up: seq<FetchResult<Page<Webhook>>>, parse: string -> Option<Url>)
      returns (r: Return)
      requires Finite(up, parse)
      modifies gauges`webhooksCount
      ensures var l := Follow(up, parse).listing;
        && (l.Listed? ==> r == Returned(None) && gauges.webhooksCount == |l.items|)
        && (l.Failed? ==> r == Returned(Some(l.err)))
        && (l.Crashed? ==> r == Panicked)
        && (!l.Listed? ==> gauges.webhooksCount == old(gauges.webhooksCount))
    {
      var listing, _ := ListAll(GetWebhooks, up, parse);
      if listing.Failed? {
        return Returned(Some(listing.err));
      } else if listing.Crashed? {
        return Panicked;
      }
      gauges.webhooksCount := |listing.items|;
      return Returned(None);
    }
  }
}
