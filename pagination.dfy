/**
 * The paginated loader of the current endpoint: the first page's
 * `total_inventory_count` decides how many further pages are requested, one
 * after another, each with the last asset id of the page before as cursor.
 * Also the `load` / `loadAndFormat` dispatch between both endpoints.
 */
module Pagination {
  import opened Wrappers
  import opened JsValues
  import opened Normalizer
  import opened Loader

  /**
   * Where the page loop stands: still paging, with the params object, the
   * requests sent and the responses gathered so far; or aborted by an error,
   * which discards the responses (each is what the client answered to the
   * request of the same position).
   */
  datatype Pager =
    | Paging(params: Params, sent: seq<Request>, responses: seq<Response>)
    | Aborted(sent: seq<Request>, error: LoadError)

  /** The page size `loadAllDataFromNewEndPoint` uses: `perPage` (default 5000) clamped. */
  function PerPage(p: Params): (count: int)
    ensures 0 <= count <= MaxCount
    ensures p.perPage.None? ==> count == MaxCount
    ensures p.perPage.Some? && 0 <= p.perPage.value <= MaxCount ==> count == p.perPage.value
    ensures p.perPage.Some? && (p.perPage.value < 0 || p.perPage.value > MaxCount) ==> count == MaxCount
  {
    ClampCount(p.perPage.GetOr(MaxCount))
  }

  /** The params object the page loop works with: the caller's values after defaults, `count` set to the page size, no cursor. */
  function FirstPageParams(p: Params): (q: Params)
    ensures q.count == Some(PerPage(p)) && q.cursor == Undefined
    ensures NewEndPointRequest(q) == InventoryPage(OrDefault(p.steamId, Str("")), OrDefault(p.appId, DefaultAppId),
                                                   OrDefault(p.contextId, DefaultContextId), OrDefault(p.language, DefaultLanguage),
                                                   PerPage(p), None)
  {
    Params(OrDefault(p.steamId, Str("")), OrDefault(p.appId, DefaultAppId), OrDefault(p.contextId, DefaultContextId),
           OrDefault(p.language, DefaultLanguage), Some(PerPage(p)), Undefined, None)
  }

  /** `body.total_inventory_count` */
  function TotalCount(response: Response): (total: Value) {
    match response.body
    case Primitive(_) => Undefined
    case Record(payload) => payload.totalInventoryCount
  }

  /**
   * Whether `totalCount <= count` fails because the total is a larger
   * number. A total that is NaN also fails that test, but then
   * `Math.ceil(NaN) - 1` is NaN and the countdown loop adds no page, so it
   * behaves as a total that fits.
   */
  function Exceeds(total: Value, count: int): (more: bool)
    ensures more ==> ToNumber(total).Some? && ToNumber(total).value > count
    ensures ToNumber(total).Some? && ToNumber(total).value > count ==> more
  {
    match ToNumber(total)
    case Some(t) => t > count
    case None => false
  }

  lemma CeilingBounds(t: int, c: int)
    requires t > c > 0
    ensures var q := (t + c - 1) / c;
      q >= 2 && (q - 1) * c < t <= q * c
  {
    var q, r := (t + c - 1) / c, (t + c - 1) % c;
    assert t + c - 1 == q * c + r && 0 <= r < c;
    assert (q - 1) * c == q * c - c;
  }

  /**
   * `Math.ceil(totalCount / count) - 1`: the number of pages still to
   * fetch after the first, which with the first covers the total exactly.
   */
  function RemainingPages(total: Value, count: int): (pages: nat)
    requires count > 0 || !Exceeds(total, count)
    ensures pages == 0 <==> !Exceeds(total, count)
    ensures Exceeds(total, count) ==> pages * count < ToNumber(total).value <= (pages + 1) * count
  {
    if Exceeds(total, count) then
      var t := ToNumber(total).value;
      CeilingBounds(t, count);
      (t + count - 1) / count - 1
    else
      0
  }

  // --------------------------------------------------------------- next page

  predicate HasLastAsset(response: Response) {
    response.body.Record? && |response.body.payload.assets| > 0
  }

  /** The `assetid` of the last asset of a page. */
  function LastAssetId(response: Response): (id: Value)
    ensures HasLastAsset(response) ==>
      var assets := response.body.payload.assets;
      id == assets[|assets| - 1].assetid
    ensures !HasLastAsset(response) ==> id == Undefined
  {
    if HasLastAsset(response) then
      var assets := response.body.payload.assets;
      assets[|assets| - 1].assetid
    else
      Undefined
  }

  /**
   * `loadFromNewEndPointNextPage`: the params object as the call leaves it
   * and the call itself. A previous page without assets throws before
   * anything is changed or sent; otherwise the cursor is set to its last
   * asset id and the request differs from the previous one in the cursor only.
   */
  function LoadFromNewEndPointNextPage(fetch: Transport, params: Params, previous: Response): (r: (Params, Trace<Response>))
    ensures !HasLastAsset(previous) ==> r == (params, Trace([], Failure(NoLastAsset)))
    ensures HasLastAsset(previous) ==>
      && r.0 == params.(cursor := LastAssetId(previous))
      && r.1 == LoadFromNewEndPoint(fetch, r.0)
      && NewEndPointRequest(params).InventoryPage?
      && NewEndPointRequest(r.0) == NewEndPointRequest(params).(startAssetId := StartAssetId(LastAssetId(previous)))
  {
    if HasLastAsset(previous) then
      var next := params.(cursor := LastAssetId(previous));
      (next, LoadFromNewEndPoint(fetch, next))
    else
      (params, Trace([], Failure(NoLastAsset)))
  }

  // --------------------------------------------------------------- page loop

  /** One turn of the page loop. */
  function Step(fetch: Transport, st: Pager): (next: Pager) {
    match st
    case Aborted(_, _) => st
    case Paging(params, sent, responses) =>
      if |responses| == 0 then Aborted(sent, NoLastAsset)
      else
        var next := LoadFromNewEndPointNextPage(fetch, params, responses[|responses| - 1]);
        match next.1.outcome
        case Failure(e) => Aborted(sent + next.1.sent, e)
        case Success(response) => Paging(next.0, sent + next.1.sent, responses + [response])
  }

  function Iterate(fetch: Transport, st: Pager, n: nat): (final: Pager)
    decreases n
  {
    if n == 0 then st else Iterate(fetch, Step(fetch, st), n - 1)
  }

  function Finish(st: Pager): (t: Trace<seq<Response>>) {
    match st
    case Paging(_, sent, responses) => Trace(sent, Success(responses))
    case Aborted(sent, e) => Trace(sent, Failure(e))
  }

  /**
   * The loop ends: a page size of 0 is only usable when the first page's
   * total is not a positive number (the source would compute
   * `Math.ceil(total / 0)`, Infinity, and count down forever).
   */
  predicate PaginationTerminates(fetch: Transport, p: Params) {
    PerPage(p) > 0 ||
    (var first := LoadFromNewEndPoint(fetch, FirstPageParams(p));
     !(first.outcome.Success? && Exceeds(TotalCount(first.outcome.value), 0)))
  }

  /** What `loadAllDataFromNewEndPoint` sends and resolves or rejects with. */
  function LoadAll(fetch: Transport, p: Params): (t: Trace<seq<Response>>)
    requires PaginationTerminates(fetch, p)
  {
    var params := FirstPageParams(p);
    match ValidateRequiredParams(params.steamId, params.appId, params.contextId)
    case Fail(e) => Trace([], Failure(InvalidArgument(e)))
    case Pass =>
      var first := LoadFromNewEndPoint(fetch, params);
      match first.outcome
      case Failure(e) => Trace(first.sent, Failure(e))
      case Success(response) =>
        Finish(Iterate(fetch, Paging(params, first.sent, [response]), RemainingPages(TotalCount(response), PerPage(p))))
  }

  // --------------------------------------------------------- loop invariant

  /**
   * Request k was answered with response k and accepted, the first request
   * is `first`, and every later request is `first` with its cursor moved to
   * the last asset id of the page before.
   */
  predicate Chained(fetch: Transport, first: Request, sent: seq<Request>, responses: seq<Response>) {
    && first.InventoryPage?
    && |sent| == |responses| > 0
    && sent[0] == first
    && (forall k | 0 <= k < |sent| :: Send(fetch, sent[k]) == Success(responses[k]))
    && (forall k | 0 <= k < |sent| - 1 :: sent[k + 1] == NextRequest(first, responses[k]))
  }

  /** The request after the page `previous`: the first request with its cursor moved to that page's last asset id. */
  function NextRequest(first: Request, previous: Response): (next: Request)
    requires first.InventoryPage?
  {
    first.(startAssetId := StartAssetId(LastAssetId(previous)))
  }

  /**
   * The requests of an aborted load: the first is `first`, and every one
   * before the last was accepted and is followed by the request for the page
   * it returned.
   */
  predicate Follows(fetch: Transport, first: Request, sent: seq<Request>) {
    && first.InventoryPage?
    && |sent| > 0
    && sent[0] == first
    && forall k | 0 <= k < |sent| - 1 ::
         Send(fetch, sent[k]).Success? && sent[k + 1] == NextRequest(first, Send(fetch, sent[k]).value)
  }

  /**
   * Why a load whose last request was `sent`'s last one rejects: that request
   * failed and its error is the load's, or it returned a page without assets
   * and reading that page's last asset threw.
   */
  predicate AbortedBy(fetch: Transport, sent: seq<Request>, error: LoadError)
    requires |sent| > 0
  {
    var last := Send(fetch, sent[|sent| - 1]);
    || (last.Failure? && error == last.error)
    || (last.Success? && !HasLastAsset(last.value) && error == NoLastAsset)
  }

  /** What holds of the page loop at every turn, for the params object `base` it started from. */
  predicate PagerInvariant(fetch: Transport, base: Params, st: Pager) {
    var first := NewEndPointRequest(base);
    && ValidateRequiredParams(first.steamId, first.appId, first.contextId).Pass?
    && match st
       case Paging(params, sent, responses) =>
         params == base.(cursor := params.cursor) && Chained(fetch, first, sent, responses)
       case Aborted(sent, error) =>
         Follows(fetch, first, sent) && AbortedBy(fetch, sent, error)
  }

  lemma StepKeepsInvariant(fetch: Transport, base: Params, st: Pager)
    requires PagerInvariant(fetch, base, st)
    ensures PagerInvariant(fetch, base, Step(fetch, st))
  {
    if st.Paging? {
      var first := NewEndPointRequest(base);
      var sent, responses := st.sent, st.responses;
      var previous := responses[|responses| - 1];
      if !HasLastAsset(previous) {
        forall k | 0 <= k < |sent| - 1
          ensures Send(fetch, sent[k]).Success? && sent[k + 1] == NextRequest(first, Send(fetch, sent[k]).value)
        {
          assert Send(fetch, sent[k]) == Success(responses[k]);
        }
        assert Send(fetch, sent[|sent| - 1]) == Success(previous);
      } else {
        var params := st.params.(cursor := LastAssetId(previous));
        assert params == base.(cursor := params.cursor);
        var request := NewEndPointRequest(params);
        assert request == NextRequest(first, previous);
        var t := LoadFromNewEndPoint(fetch, params);
        assert t.sent == [request];
        var sent' := sent + t.sent;
        if t.outcome.Failure? {
          forall k | 0 <= k < |sent'| - 1
            ensures Send(fetch, sent'[k]).Success? && sent'[k + 1] == NextRequest(first, Send(fetch, sent'[k]).value)
          {
            assert sent'[k] == sent[k];
            assert Send(fetch, sent[k]) == Success(responses[k]);
            if k + 1 < |sent| {
              assert sent'[k + 1] == sent[k + 1];
            }
          }
          assert Send(fetch, sent'[|sent'| - 1]) == t.outcome;
        } else {
          var responses' := responses + [t.outcome.value];
          forall k | 0 <= k < |sent'| ensures Send(fetch, sent'[k]) == Success(responses'[k]) {
            if k < |sent| {
              assert sent'[k] == sent[k] && responses'[k] == responses[k];
            }
          }
          forall k | 0 <= k < |sent'| - 1 ensures sent'[k + 1] == NextRequest(first, responses'[k]) {
            assert responses'[k] == responses[k];
            if k + 1 < |sent| {
              assert sent'[k + 1] == sent[k + 1];
            }
          }
        }
      }
    }
  }

  lemma {:induction false} IterateKeepsInvariant(fetch: Transport, base: Params, st: Pager, n: nat)
    requires PagerInvariant(fetch, base, st)
    ensures PagerInvariant(fetch, base, Iterate(fetch, st, n))
    decreases n
  {
    if n > 0 {
      var next := Step(fetch, st);
      StepKeepsInvariant(fetch, base, st);
      IterateKeepsInvariant(fetch, base, next, n - 1);
    }
  }

  /** One page turn sends at most one request, and adds one response unless it aborts. */
  lemma StepCounts(fetch: Transport, st: Pager)
    ensures |Step(fetch, st).sent| <= |st.sent| + 1
    ensures Step(fetch, st).Paging? ==> st.Paging? && |Step(fetch, st).responses| == |st.responses| + 1
  {
  }

  lemma {:induction false} IterateCounts(fetch: Transport, st: Pager, n: nat)
    ensures |Iterate(fetch, st, n).sent| <= |st.sent| + n
    ensures Iterate(fetch, st, n).Paging? ==> st.Paging? && |Iterate(fetch, st, n).responses| == |st.responses| + n
    decreases n
  {
    if n > 0 {
      StepCounts(fetch, st);
      IterateCounts(fetch, Step(fetch, st), n - 1);
    }
  }

  /** Once aborted, the loop sends nothing more and keeps its error. */
  lemma {:induction false} IterateAborted(fetch: Transport, st: Pager, n: nat)
    requires st.Aborted?
    ensures Iterate(fetch, st, n) == st
    decreases n
  {
    if n > 0 {
      IterateAborted(fetch, Step(fetch, st), n - 1);
    }
  }

  // -------------------------------------------------------- pagination facts

  /**
   * A successful load answered every request in order, each request after
   * the first differs from it only in carrying the previous page's last
   * asset id as cursor, and there was exactly one request when the total
   * fits the page size and ceil(total / page size) requests otherwise.
   */
  lemma LoadAllPages(fetch: Transport, p: Params)
    requires PaginationTerminates(fetch, p)
    ensures var t := LoadAll(fetch, p);
      t.outcome.Success? ==>
        var responses := t.outcome.value;
        var count := PerPage(p);
        && Chained(fetch, NewEndPointRequest(FirstPageParams(p)), t.sent, responses)
        && (!Exceeds(TotalCount(responses[0]), count) ==> |responses| == 1)
        && (Exceeds(TotalCount(responses[0]), count) ==>
              (|responses| - 1) * count < ToNumber(TotalCount(responses[0])).value <= |responses| * count)
  {
    var params := FirstPageParams(p);
    var first := LoadFromNewEndPoint(fetch, params);
    if ValidateRequiredParams(params.steamId, params.appId, params.contextId).Pass? && first.outcome.Success? {
      var response := first.outcome.value;
      var start := Paging(params, first.sent, [response]);
      var pages := RemainingPages(TotalCount(response), PerPage(p));
      assert params == params.(cursor := params.cursor);
      assert PagerInvariant(fetch, params, start);
      IterateKeepsInvariant(fetch, params, start, pages);
      IterateCounts(fetch, start, pages);
    }
  }

  /**
   * A failed load returns no pages. Either the parameters were invalid,
   * nothing was sent and the validation error is the load's; or the
   * requests sent follow the cursor chain up to the last one, and that one
   * failed with the load's error or returned a page without assets.
   */
  lemma LoadAllFailure(fetch: Transport, p: Params)
    requires PaginationTerminates(fetch, p)
    ensures var t := LoadAll(fetch, p);
      var params := FirstPageParams(p);
      var check := ValidateRequiredParams(params.steamId, params.appId, params.contextId);
      && (check.Fail? ==> t == Trace([], Failure(InvalidArgument(check.error))))
      && (check.Pass? && t.outcome.Failure? ==>
            Follows(fetch, NewEndPointRequest(params), t.sent) && AbortedBy(fetch, t.sent, t.outcome.error))
  {
    var params := FirstPageParams(p);
    var request := NewEndPointRequest(params);
    var first := LoadFromNewEndPoint(fetch, params);
    if ValidateRequiredParams(params.steamId, params.appId, params.contextId).Pass? {
      assert first.sent == [request];
      if first.outcome.Success? {
        var response := first.outcome.value;
        var start := Paging(params, first.sent, [response]);
        var pages := RemainingPages(TotalCount(response), PerPage(p));
        assert params == params.(cursor := params.cursor);
        assert PagerInvariant(fetch, params, start);
        IterateKeepsInvariant(fetch, params, start, pages);
      }
    }
  }

  /** When the first page's total fits the page size, that page is the whole result. */
  lemma LoadAllSinglePage(fetch: Transport, p: Params, response: Response)
    requires LoadFromNewEndPoint(fetch, FirstPageParams(p)).outcome == Success(response)
    requires !Exceeds(TotalCount(response), PerPage(p))
    ensures PaginationTerminates(fetch, p)
    ensures LoadAll(fetch, p) == Trace([NewEndPointRequest(FirstPageParams(p))], Success([response]))
  {
  }

  /**
   * A first page announcing 12000 items at 5000 per page is followed by two
   * more requests, each with the previous page's last asset id as cursor.
   */
  lemma TwelveThousandItemsTakeThreeRequests(fetch: Transport, p: Params, response: Response)
    requires PerPage(p) == 5000
    requires LoadFromNewEndPoint(fetch, FirstPageParams(p)).outcome == Success(response)
    requires TotalCount(response) == Num(12000)
    ensures var t := LoadAll(fetch, p);
      t.outcome.Success? ==>
        && |t.sent| == 3 && |t.outcome.value| == 3
        && t.outcome.value[0] == response
        && forall k | 0 <= k < 2 :: t.sent[k + 1].startAssetId == StartAssetId(LastAssetId(t.outcome.value[k]))
  {
    LoadAllPages(fetch, p);
    var t := LoadAll(fetch, p);
    if t.outcome.Success? {
      assert Send(fetch, t.sent[0]) == Success(t.outcome.value[0]);
      assert t.outcome.value[0] == response;
    }
  }

  /**
   * A last asset whose id is not a truthy number leaves `start_assetid` out
   * of the next request, which then asks for the first page again.
   */
  lemma UnusableCursorRepeatsFirstRequest(p: Params, previous: Response)
    requires HasLastAsset(previous)
    requires !(Truthy(LastAssetId(previous)) && IsNumeric(LastAssetId(previous)))
    ensures NextRequest(NewEndPointRequest(FirstPageParams(p)), previous) == NewEndPointRequest(FirstPageParams(p))
  {
  }

  /** Totals are compared after `Number(...)`: a string total counts, and a missing, null or non-numeric one never exceeds. */
  lemma TotalCoercionExamples()
    ensures Exceeds(Str("12000"), 5000) && !Exceeds(Str("5000"), 5000)
    ensures !Exceeds(Undefined, 0) && !Exceeds(Null, 0) && !Exceeds(Str("many"), 0)
    ensures Exceeds(Num(5001), 5000) && !Exceeds(Num(5000), 5000)
  {
    assert "12000"[..4] == "1200" && "1200"[..3] == "120" && "120"[..2] == "12" && "12"[..1] == "1";
    assert DigitsValue("12000") == 12000;
    assert "5000"[..3] == "500" && "500"[..2] == "50" && "50"[..1] == "5";
    assert DigitsValue("5000") == 5000;
  }

  /** A first page announcing 3000 items at 5000 per page ends the load. */
  lemma ThreeThousandItemsTakeOneRequest(fetch: Transport, p: Params, response: Response)
    requires PerPage(p) == 5000
    requires LoadFromNewEndPoint(fetch, FirstPageParams(p)).outcome == Success(response)
    requires TotalCount(response) == Num(3000)
    ensures LoadAll(fetch, p) == Trace([NewEndPointRequest(FirstPageParams(p))], Success([response]))
  {
    LoadAllSinglePage(fetch, p, response);
  }

  // ------------------------------------------------------ the page driver

  /**
   * `loadAllDataFromNewEndPoint`: the first request, the total check, the
   * countdown list of remaining pages, then one next-page request per entry.
   */
  method LoadAllDataFromNewEndPoint(fetch: Transport, p: Params) returns (responses: Result<seq<Response>, LoadError>, sent: seq<Request>)
    requires PaginationTerminates(fetch, p)
    ensures Trace(sent, responses) == LoadAll(fetch, p)
  {
    var params := FirstPageParams(p);
    var check := ValidateRequiredParams(params.steamId, params.appId, params.contextId);
    if check.Fail? {
      return Failure(InvalidArgument(check.error)), [];
    }
    var perPage := PerPage(p);
    var first := LoadFromNewEndPoint(fetch, params);
    sent := first.sent;
    if first.outcome.Failure? {
      return Failure(first.outcome.error), sent;
    }
    var list := [first.outcome.value];
    var totalCount := TotalCount(first.outcome.value);
    if ToNumber(totalCount).Some? && ToNumber(totalCount).value <= perPage {
      return Success(list), sent;
    }
    var pages := RemainingPages(totalCount, perPage);
    var arr: seq<nat> := [];
    var left := pages;
    while left > 0
      invariant 0 <= left <= pages && |arr| == pages - left
    {
      left := left - 1;
      arr := arr + [left];
    }
    ghost var start := Paging(params, sent, list);
    for key := 0 to |arr|
      invariant |list| > 0
      invariant Iterate(fetch, start, pages) == Iterate(fetch, Paging(params, sent, list), pages - key)
    {
      var next := LoadFromNewEndPointNextPage(fetch, params, list[|list| - 1]);
      params := next.0;
      var call := next.1;
      if call.outcome.Failure? {
        IterateAborted(fetch, Aborted(sent + call.sent, call.outcome.error), pages - key - 1);
        return Failure(call.outcome.error), sent + call.sent;
      }
      sent := sent + call.sent;
      list := list + [call.outcome.value];
    }
    responses := Success(list);
  }

  // ---------------------------------------------------------- formatting

  predicate AllRecords(responses: seq<Response>) {
    forall k | 0 <= k < |responses| :: responses[k].body.Record?
  }

  /** The records of one page: the current adapter on its body, nothing for a primitive body (which an accepted page never has). */
  function PageItems(response: Response): (items: seq<Item>) {
    match response.body
    case Primitive(_) => []
    case Record(payload) => FormattedNewEndPoint(payload)
  }

  /** The concatenation of a list of lists, in order. */
  function Flatten<T>(lists: seq<seq<T>>): (flat: seq<T>) {
    if lists == [] then [] else Flatten(lists[..|lists| - 1]) + lists[|lists| - 1]
  }

  lemma {:induction false} FlattenConcat<T>(a: seq<seq<T>>, b: seq<seq<T>>)
    ensures Flatten(a + b) == Flatten(a) + Flatten(b)
    decreases |b|
  {
    if b == [] {
      assert a + b == a;
    } else {
      var n := |b| - 1;
      assert (a + b)[..|a + b| - 1] == a + b[..n];
      assert (a + b)[|a + b| - 1] == b[n];
      calc {
        Flatten(a + b);
        Flatten(a + b[..n]) + b[n];
        { FlattenConcat(a, b[..n]); }
        (Flatten(a) + Flatten(b[..n])) + b[n];
        Flatten(a) + (Flatten(b[..n]) + b[n]);
        Flatten(a) + Flatten(b);
      }
    }
  }

  /** The formatted records of each page, page by page. */
  function PagesItems(responses: seq<Response>): (pages: seq<seq<Item>>) {
    seq(|responses|, k requires 0 <= k < |responses| => PageItems(responses[k]))
  }

  /** The records of all pages, each formatted by the current adapter, in page order. */
  function FormatPages(responses: seq<Response>): (items: seq<Item>) {
    Flatten(PagesItems(responses))
  }

  /** Formatting pages distributes over concatenation: the pages' records follow page order. */
  lemma FormatPagesConcat(a: seq<Response>, b: seq<Response>)
    ensures FormatPages(a + b) == FormatPages(a) + FormatPages(b)
  {
    assert PagesItems(a + b) == PagesItems(a) + PagesItems(b);
    FlattenConcat(PagesItems(a), PagesItems(b));
  }

  function PageAssetCount(response: Response): (n: nat) {
    match response.body
    case Primitive(_) => 0
    case Record(payload) => |payload.assets|
  }

  function AssetCount(responses: seq<Response>): (n: nat) {
    if responses == [] then 0
    else AssetCount(responses[..|responses| - 1]) + PageAssetCount(responses[|responses| - 1])
  }

  /** Every asset of every page gives exactly one record. */
  lemma {:induction false} FormatPagesLength(responses: seq<Response>)
    ensures |FormatPages(responses)| == AssetCount(responses)
  {
    if responses != [] {
      var n := |responses| - 1;
      FormatPagesLength(responses[..n]);
      assert PagesItems(responses)[..n] == PagesItems(responses[..n]);
      if responses[n].body.Record? {
        FormattedDataPreservesOrder(responses[n].body.payload.assets, IndexOf(responses[n].body.payload.descriptions));
      }
    }
  }

  /** `loadAllDataFromNewEndPointAndFormat`: all pages, then their records concatenated in page order. */
  method LoadAllDataFromNewEndPointAndFormat(fetch: Transport, p: Params) returns (items: Result<seq<Item>, LoadError>, sent: seq<Request>)
    requires PaginationTerminates(fetch, p)
    ensures var t := LoadAll(fetch, p);
      && sent == t.sent
      && (t.outcome.Failure? ==> items == Failure(t.outcome.error))
      && (t.outcome.Success? ==> AllRecords(t.outcome.value) && items == Success(FormatPages(t.outcome.value)))
  {
    var responses;
    responses, sent := LoadAllDataFromNewEndPoint(fetch, p);
    if responses.Failure? {
      return Failure(responses.error), sent;
    }
    LoadAllPages(fetch, p);
    var pages := responses.value;
    assert AllRecords(pages) by {
      forall k | 0 <= k < |pages| ensures pages[k].body.Record? {
        assert Send(fetch, sent[k]) == Success(pages[k]);
      }
    }
    var resultData: seq<Item> := [];
    for k := 0 to |pages|
      invariant resultData == FormatPages(pages[..k])
    {
      assert PagesItems(pages[..k + 1])[..k] == PagesItems(pages[..k]);
      var formatted := FormatDataFromNewEndPoint(pages[k].body.payload);
      resultData := resultData + formatted;
    }
    assert pages[..|pages|] == pages;
    items := Success(resultData);
  }

  // ------------------------------------------------------------ dispatch

  /** `useNewEndPoint = true`, then `if (useNewEndPoint)`: an omitted flag picks the current endpoint. */
  function UsesNewEndPoint(flag: Value): (current: bool)
    ensures flag.Undefined? ==> current
    ensures !flag.Undefined? ==> (current <==> Truthy(flag))
  {
    Truthy(OrDefault(flag, Bool(true)))
  }

  /** `load`: all pages of the current endpoint, or the single legacy response as a one-element list. */
  method Load(fetch: Transport, p: Params, useNewEndPoint: Value) returns (responses: Result<seq<Response>, LoadError>, sent: seq<Request>)
    requires UsesNewEndPoint(useNewEndPoint) ==> PaginationTerminates(fetch, p)
    ensures UsesNewEndPoint(useNewEndPoint) ==> Trace(sent, responses) == LoadAll(fetch, p)
    ensures !UsesNewEndPoint(useNewEndPoint) ==>
      var t := LoadFromOldEndPoint(fetch, p);
      && sent == t.sent
      && responses == (match t.outcome case Success(r) => Success([r]) case Failure(e) => Failure(e))
  {
    if UsesNewEndPoint(useNewEndPoint) {
      responses, sent := LoadAllDataFromNewEndPoint(fetch, p);
      return;
    }
    var t := LoadFromOldEndPoint(fetch, p);
    sent := t.sent;
    match t.outcome
    case Success(r) => responses := Success([r]);
    case Failure(e) => responses := Failure(e);
  }

  /** `loadAndFormat`: the formatted variant of `load`. */
  method LoadAndFormat(fetch: Transport, p: Params, useNewEndPoint: Value) returns (items: Result<seq<Item>, LoadError>, sent: seq<Request>)
    requires UsesNewEndPoint(useNewEndPoint) ==> PaginationTerminates(fetch, p)
    ensures UsesNewEndPoint(useNewEndPoint) ==>
      var t := LoadAll(fetch, p);
      && sent == t.sent
      && (t.outcome.Failure? ==> items == Failure(t.outcome.error))
      && (t.outcome.Success? ==> AllRecords(t.outcome.value) && items == Success(FormatPages(t.outcome.value)))
    ensures !UsesNewEndPoint(useNewEndPoint) ==>
      var t := LoadFromOldEndPoint(fetch, p);
      && sent == t.sent
      && (t.outcome.Failure? ==> items == Failure(t.outcome.error))
      && (t.outcome.Success? ==>
            var formatted := FormattedOldEndPoint(t.outcome.value.body.payload);
            && (formatted.Failure? ==> items == Failure(FormatFailed(formatted.error)))
            && (formatted.Success? ==> items == Success(formatted.value)))
  {
    if UsesNewEndPoint(useNewEndPoint) {
      items, sent := LoadAllDataFromNewEndPointAndFormat(fetch, p);
    } else {
      items, sent := LoadFromOldEndPointAndFormat(fetch, p);
    }
  }
}
