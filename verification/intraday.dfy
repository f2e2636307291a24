/**
 The intraday bar client: the interval clamp applied to every intraday bar
 request, the per-ticker paging loop that advances a time cursor through the
 requested range, and the multi-ticker fetch that de-duplicates and tags each
 ticker's rows. The HTTP round trip and the response parsing are a `fetch`
 oracle from the request sent to the bars it yields; times are integers.
 */
module Intraday {
  import opened Wrappers
  import opened Duplicates

  const MinInterval: int := 1
  const MaxInterval: int := 1024

  /** Iterations of the per-ticker paging loop. */
  const MaxRequests: nat := 58

  /** The defaults of `get_intradayData` and `intradayDataReq`. */
  const DefaultEvent: string := "TRADE"
  const DefaultInterval: int := 5

  /** One intraday bar as parsed from the response. */
  datatype Bar = Bar(time: int, open: real, high: real, low: real, close: real, volume: int, numEvents: int)

  /** A bar of the final table, tagged with its ticker. */
  datatype TaggedBar = TaggedBar(bar: Bar, ticker: string)

  /** The body of an IntradayBarRequest. */
  datatype IntradayBarRequest = IntradayBarRequest(
    security: string,
    eventType: string,
    interval: int,
    startDateTime: int,
    endDateTime: int)

  /** The part of a multi-ticker query shared by every ticker. */
  datatype Query = Query(startTime: int, endTime: int, event: string, interval: int)

  /** The request/response round trip: the bars the service returns for a request. */
  type Fetch = IntradayBarRequest -> seq<Bar>

  /** `max(min(1024, interval), 1)`: the interval forced into the accepted range. */
  function ClampInterval(interval: int): (r: int)
    ensures MinInterval <= r <= MaxInterval
    ensures MinInterval <= interval <= MaxInterval ==> r == interval
    ensures interval < MinInterval ==> r == MinInterval
    ensures interval > MaxInterval ==> r == MaxInterval
  {
    var capped := if interval < MaxInterval then interval else MaxInterval;
    if capped > MinInterval then capped else MinInterval
  }

  /** Clamping twice is clamping once, and clamping preserves order. */
  lemma ClampIdempotentAndMonotone(a: int, b: int)
    ensures ClampInterval(ClampInterval(a)) == ClampInterval(a)
    ensures a <= b ==> ClampInterval(a) <= ClampInterval(b)
  {
  }

  /**
   `intradayDataReq`: the body sent is the body given with its interval
   overwritten by the clamp of the function's own `interval` argument, and
   nothing else changed.
   */
  function Shape(req: IntradayBarRequest, interval: int): (sent: IntradayBarRequest)
    ensures sent.interval == ClampInterval(interval)
    ensures sent.(interval := req.interval) == req
  {
    req.(interval := ClampInterval(interval))
  }

  /**
   The interval the body carried is irrelevant: only the argument decides
   what is sent, so a body's own field is ignored when the argument is left
   at its default of 5. A body passed with its own interval, as the paging
   loop does, goes out with that interval clamped, and sending it again
   changes nothing.
   */
  lemma ShapeOverwritesBodyInterval(req: IntradayBarRequest, bodyInterval: int, interval: int)
    ensures Shape(req.(interval := bodyInterval), interval) == Shape(req, interval)
    ensures Shape(req, DefaultInterval).interval == DefaultInterval
    ensures var sent := Shape(req, req.interval);
      sent.interval == ClampInterval(req.interval) && Shape(sent, sent.interval) == sent
  {
  }

  /** The request the loop sends for a ticker from a cursor, passing the body's own interval. */
  function RequestFrom(ticker: string, q: Query, cursor: int): IntradayBarRequest
  {
    var body := IntradayBarRequest(ticker, q.event, q.interval, cursor, q.endTime);
    Shape(body, body.interval)
  }

  /** `data[-1]['time']`: the time of the last bar; only consulted on a non-empty batch. */
  function LastTime(batch: seq<Bar>): int
  {
    if |batch| == 0 then 0 else batch[|batch| - 1].time
  }

  /**
   The loop goes round again after a batch fetched from `cursor` only when the
   batch's last bar is before the end time and is not the cursor itself.
   */
  predicate Advances(batch: seq<Bar>, cursor: int, endTime: int)
  {
    |batch| > 0 && LastTime(batch) < endTime && LastTime(batch) != cursor
  }

  /** One step of the loop: `here` advanced, and `next` starts where the batch of `here` ended. */
  ghost predicate Link(fetch: Fetch, here: IntradayBarRequest, next: IntradayBarRequest, endTime: int)
  {
    && Advances(fetch(here), here.startDateTime, endTime)
    && next.startDateTime == LastTime(fetch(here))
  }

  /**
   Consecutive requests: every request but the last advanced, and the next
   one starts at the last bar time of the batch before it.
   */
  ghost predicate Chained(fetch: Fetch, sent: seq<IntradayBarRequest>, endTime: int)
  {
    forall k, k' {:trigger sent[k], sent[k']} :: 0 <= k < k' < |sent| && k + 1 == k' ==>
      Link(fetch, sent[k], sent[k'], endTime)
  }

  /** Every request is the one the loop builds for `ticker` from its own cursor. */
  predicate Shaped(ticker: string, q: Query, sent: seq<IntradayBarRequest>)
  {
    forall k :: 0 <= k < |sent| ==> sent[k] == RequestFrom(ticker, q, sent[k].startDateTime)
  }

  /** A request that advanced, put in front of a chain that starts where its batch ended, extends the chain. */
  lemma ChainedCons(fetch: Fetch, req: IntradayBarRequest, rest: seq<IntradayBarRequest>, endTime: int)
    requires Chained(fetch, rest, endTime)
    requires |rest| > 0 ==> Link(fetch, req, rest[0], endTime)
    ensures Chained(fetch, [req] + rest, endTime)
  {
    var sent := [req] + rest;
    forall k, k' | 0 <= k < k' < |sent| && k + 1 == k'
      ensures Link(fetch, sent[k], sent[k'], endTime)
    {
      if k == 0 {
        assert sent[k'] == rest[0];
      } else {
        assert sent[k] == rest[k - 1] && sent[k'] == rest[k' - 1];
      }
    }
  }

  /** The bars returned for the requests, concatenated in the order they were sent. */
  function Fetched(fetch: Fetch, sent: seq<IntradayBarRequest>): seq<Bar>
  {
    if |sent| == 0 then [] else fetch(sent[0]) + Fetched(fetch, sent[1..])
  }

  /** How the paging loop of one ticker ended. */
  datatype LoopExit =
    | Settled(rows: seq<Bar>)  // the `else` branch: rows de-duplicated
    | Exhausted                // every iteration advanced; nothing is kept
    | EmptyBatch               // a response without bars: the loop raises

  /** The requests one ticker's loop sent, and how it ended. */
  datatype TickerFetch = TickerFetch(sent: seq<IntradayBarRequest>, exit: LoopExit)

  /**
   The paging loop from `cursor` with `fuel` iterations left and the rows
   `acc` accumulated so far.
   */
  function Paginate(fetch: Fetch, ticker: string, q: Query, cursor: int, acc: seq<Bar>, fuel: nat): (r: TickerFetch)
    decreases fuel
    ensures |r.sent| <= fuel
    ensures fuel > 0 ==> |r.sent| > 0 && r.sent[0] == RequestFrom(ticker, q, cursor)
    ensures r.exit.Exhausted? ==> |r.sent| == fuel
    ensures r.exit.Settled? ==> r.exit.rows == DropDuplicates(acc + Fetched(fetch, r.sent))
  {
    if fuel == 0 then TickerFetch([], Exhausted)
    else
      var req := RequestFrom(ticker, q, cursor);
      var batch := fetch(req);
      if |batch| == 0 then TickerFetch([req], EmptyBatch)
      else
        var acc' := acc + batch;
        if LastTime(batch) < q.endTime && LastTime(batch) != cursor then
          var next := Paginate(fetch, ticker, q, LastTime(acc'), acc', fuel - 1);
          assert ([req] + next.sent)[1..] == next.sent;
          assert acc + Fetched(fetch, [req] + next.sent) == acc' + Fetched(fetch, next.sent);
          TickerFetch([req] + next.sent, next.exit)
        else
          assert Fetched(fetch, [req]) == batch;
          TickerFetch([req], Settled(DropDuplicates(acc')))
  }

  /** Every request the loop sends has the shape of `RequestFrom` for its own cursor. */
  lemma {:induction false} PaginateRequestsAreShaped(fetch: Fetch, ticker: string, q: Query, cursor: int, acc: seq<Bar>, fuel: nat)
    decreases fuel
    ensures Shaped(ticker, q, Paginate(fetch, ticker, q, cursor, acc, fuel).sent)
  {
    if fuel > 0 {
      var req := RequestFrom(ticker, q, cursor);
      var batch := fetch(req);
      if |batch| > 0 && LastTime(batch) < q.endTime && LastTime(batch) != cursor {
        var acc' := acc + batch;
        var next := Paginate(fetch, ticker, q, LastTime(acc'), acc', fuel - 1);
        PaginateRequestsAreShaped(fetch, ticker, q, LastTime(acc'), acc', fuel - 1);
        var sent := [req] + next.sent;
        assert Paginate(fetch, ticker, q, cursor, acc, fuel).sent == sent;
        forall k | 0 < k < |sent| ensures sent[k] == RequestFrom(ticker, q, sent[k].startDateTime) {
          assert sent[k] == next.sent[k - 1];
          assert next.sent[k - 1] == RequestFrom(ticker, q, next.sent[k - 1].startDateTime);
        }
      }
    }
  }

  /**
   Consecutive requests of the loop are chained: the earlier one advanced and
   the later one starts where its batch ended.
   */
  lemma {:induction false} PaginateFollowsChain(fetch: Fetch, ticker: string, q: Query, cursor: int, acc: seq<Bar>, fuel: nat)
    decreases fuel
    ensures Chained(fetch, Paginate(fetch, ticker, q, cursor, acc, fuel).sent, q.endTime)
  {
    if fuel > 0 {
      var req := RequestFrom(ticker, q, cursor);
      var batch := fetch(req);
      if |batch| > 0 && LastTime(batch) < q.endTime && LastTime(batch) != cursor {
        var acc' := acc + batch;
        var next := Paginate(fetch, ticker, q, LastTime(acc'), acc', fuel - 1);
        PaginateFollowsChain(fetch, ticker, q, LastTime(acc'), acc', fuel - 1);
        assert LastTime(acc') == LastTime(batch);
        ChainedCons(fetch, req, next.sent, q.endTime);
        assert Paginate(fetch, ticker, q, cursor, acc, fuel).sent == [req] + next.sent;
      }
    }
  }

  /**
   How the loop ended is decided by the last batch it fetched: empty for
   `EmptyBatch`, non-empty and not advancing for `Settled`, advancing for
   `Exhausted`.
   */
  lemma {:induction false} PaginateEndsOnLastBatch(fetch: Fetch, ticker: string, q: Query, cursor: int, acc: seq<Bar>, fuel: nat)
    decreases fuel
    ensures var r := Paginate(fetch, ticker, q, cursor, acc, fuel);
      var last := |r.sent| - 1;
      && (r.exit.Exhausted? && fuel > 0 ==> Advances(fetch(r.sent[last]), r.sent[last].startDateTime, q.endTime))
      && (r.exit.EmptyBatch? ==> |r.sent| > 0 && fetch(r.sent[last]) == [])
      && (r.exit.Settled? ==>
            && |r.sent| > 0
            && |fetch(r.sent[last])| > 0
            && !Advances(fetch(r.sent[last]), r.sent[last].startDateTime, q.endTime))
  {
    if fuel > 0 {
      var req := RequestFrom(ticker, q, cursor);
      var batch := fetch(req);
      if |batch| > 0 && LastTime(batch) < q.endTime && LastTime(batch) != cursor {
        var acc' := acc + batch;
        var next := Paginate(fetch, ticker, q, LastTime(acc'), acc', fuel - 1);
        PaginateEndsOnLastBatch(fetch, ticker, q, LastTime(acc'), acc', fuel - 1);
        var sent := [req] + next.sent;
        assert Paginate(fetch, ticker, q, cursor, acc, fuel) == TickerFetch(sent, next.exit);
        if |next.sent| > 0 {
          assert sent[|sent| - 1] == next.sent[|next.sent| - 1];
        } else {
          assert req.startDateTime == cursor;
        }
      }
    }
  }

  /** One ticker's loop, from the query's start time with the full iteration budget. */
  function FetchTicker(fetch: Fetch, ticker: string, q: Query): (r: TickerFetch)
    ensures 1 <= |r.sent| <= MaxRequests
    ensures r.sent[0] == RequestFrom(ticker, q, q.startTime)
    ensures r.exit.Exhausted? ==> |r.sent| == MaxRequests
    ensures r.exit.Settled? ==> r.exit.rows == DropDuplicates(Fetched(fetch, r.sent)) && Distinct(r.exit.rows)
  {
    var r := Paginate(fetch, ticker, q, q.startTime, [], MaxRequests);
    assert [] + Fetched(fetch, r.sent) == Fetched(fetch, r.sent);
    r
  }

  /** One ticker's requests are shaped and chained. */
  lemma FetchTickerIsChained(fetch: Fetch, ticker: string, q: Query)
    ensures Shaped(ticker, q, FetchTicker(fetch, ticker, q).sent)
    ensures Chained(fetch, FetchTicker(fetch, ticker, q).sent, q.endTime)
  {
    var r := Paginate(fetch, ticker, q, q.startTime, [], MaxRequests);
    assert FetchTicker(fetch, ticker, q) == r;
    PaginateRequestsAreShaped(fetch, ticker, q, q.startTime, [], MaxRequests);
    PaginateFollowsChain(fetch, ticker, q, q.startTime, [], MaxRequests);
  }

  /** How one ticker's loop ended is decided by the last batch it fetched. */
  lemma FetchTickerEndsOnLastBatch(fetch: Fetch, ticker: string, q: Query)
    ensures var r := FetchTicker(fetch, ticker, q);
      var last := |r.sent| - 1;
      && (r.exit.Exhausted? ==> Advances(fetch(r.sent[last]), r.sent[last].startDateTime, q.endTime))
      && (r.exit.EmptyBatch? ==> fetch(r.sent[last]) == [])
      && (r.exit.Settled? ==> |fetch(r.sent[last])| > 0 && !Advances(fetch(r.sent[last]), r.sent[last].startDateTime, q.endTime))
  {
    var r := Paginate(fetch, ticker, q, q.startTime, [], MaxRequests);
    assert FetchTicker(fetch, ticker, q) == r;
    PaginateEndsOnLastBatch(fetch, ticker, q, q.startTime, [], MaxRequests);
  }

  /**
   The no-progress exit: when the first batch is non-empty and its last bar
   is at the start time, or at or past the end time, exactly one request is
   sent and the ticker's rows are that batch de-duplicated.
   */
  lemma FirstBatchThatDoesNotAdvanceSettles(fetch: Fetch, ticker: string, q: Query)
    requires |fetch(RequestFrom(ticker, q, q.startTime))| > 0
    requires !Advances(fetch(RequestFrom(ticker, q, q.startTime)), q.startTime, q.endTime)
    ensures var first := RequestFrom(ticker, q, q.startTime);
      FetchTicker(fetch, ticker, q) == TickerFetch([first], Settled(DropDuplicates(fetch(first))))
  {
    var first := RequestFrom(ticker, q, q.startTime);
    assert [] + fetch(first) == fetch(first);
  }

  /** Each request after the first starts at a new cursor that is before the end time. */
  lemma CursorMovesEveryIteration(fetch: Fetch, ticker: string, q: Query, k: nat)
    ensures var sent := FetchTicker(fetch, ticker, q).sent;
      k + 1 < |sent| ==>
        && sent[k + 1].startDateTime != sent[k].startDateTime
        && sent[k + 1].startDateTime < q.endTime
        && sent[k + 1].startDateTime == LastTime(fetch(sent[k]))
  {
    var sent := FetchTicker(fetch, ticker, q).sent;
    if k + 1 < |sent| {
      FetchTickerIsChained(fetch, ticker, q);
      var here, next := sent[k], sent[k + 1];
      assert Advances(fetch(here), here.startDateTime, q.endTime);
    }
  }

  /** Possible failures of the multi-ticker fetch. */
  datatype IntradayError =
    | NoBars(ticker: string)         // a response without bars
    | EndTimeIsText(ticker: string)  // `isoformat` called on a string

  /** Every row tagged with the ticker it was fetched for. */
  function Tag(ticker: string, rows: seq<Bar>): (tagged: seq<TaggedBar>)
    ensures |tagged| == |rows|
    ensures forall k :: 0 <= k < |rows| ==> tagged[k] == TaggedBar(rows[k], ticker)
  {
    seq(|rows|, k requires 0 <= k < |rows| => TaggedBar(rows[k], ticker))
  }

  /** What a ticker adds to the table: its rows if its loop settled, nothing otherwise. */
  function Contribution(ticker: string, exit: LoopExit): (tagged: seq<TaggedBar>)
    ensures exit.Settled? ==> tagged == Tag(ticker, exit.rows)
    ensures !exit.Settled? ==> tagged == []
  {
    if exit.Settled? then Tag(ticker, exit.rows) else []
  }

  /**
   `get_intradayData` with every ticker queried over the same time range: the
   tickers' contributions in ticker order, or the first ticker whose loop met
   a response without bars.
   */
  function GetIntradayData(fetch: Fetch, tickers: seq<string>, q: Query): (r: Result<seq<TaggedBar>, IntradayError>)
    decreases |tickers|
    ensures r.Failure? ==>
      && r.error.NoBars?
      && r.error.ticker in tickers
      && FetchTicker(fetch, r.error.ticker, q).exit.EmptyBatch?
  {
    if |tickers| == 0 then Success([])
    else
      var here := FetchTicker(fetch, tickers[0], q);
      if here.exit.EmptyBatch? then Failure(NoBars(tickers[0]))
      else
        match GetIntradayData(fetch, tickers[1..], q)
        case Failure(e) => Failure(e)
        case Success(rest) => Success(Contribution(tickers[0], here.exit) + rest)
  }

  /** The call succeeds exactly when no ticker's loop met a response without bars. */
  lemma {:induction false} TableFailsOnlyOnEmptyBatch(fetch: Fetch, tickers: seq<string>, q: Query)
    decreases |tickers|
    ensures GetIntradayData(fetch, tickers, q).Success?
        <==> forall k :: 0 <= k < |tickers| ==> !FetchTicker(fetch, tickers[k], q).exit.EmptyBatch?
  {
    if |tickers| > 0 {
      TableFailsOnlyOnEmptyBatch(fetch, tickers[1..], q);
      assert forall k :: 0 < k < |tickers| ==> tickers[k] == tickers[1..][k - 1];
    }
  }

  /**
   The rows of a successful table are exactly the tagged rows of the tickers
   whose loops settled: nothing else is in it and none of them is missing.
   */
  lemma {:induction false} TableHoldsSettledRows(fetch: Fetch, tickers: seq<string>, q: Query)
    decreases |tickers|
    requires GetIntradayData(fetch, tickers, q).Success?
    ensures var table := GetIntradayData(fetch, tickers, q).value;
      && (forall row :: row in table ==>
            && row.ticker in tickers
            && FetchTicker(fetch, row.ticker, q).exit.Settled?
            && row.bar in FetchTicker(fetch, row.ticker, q).exit.rows)
      && (forall k, b :: 0 <= k < |tickers| && b in Contribution(tickers[k], FetchTicker(fetch, tickers[k], q).exit) ==>
            b in table)
  {
    if |tickers| > 0 {
      var here := FetchTicker(fetch, tickers[0], q).exit;
      var mine := Contribution(tickers[0], here);
      TableHoldsSettledRows(fetch, tickers[1..], q);
      var rest := GetIntradayData(fetch, tickers[1..], q).value;
      assert GetIntradayData(fetch, tickers, q).value == mine + rest;
      forall row | row in mine
        ensures row.ticker in tickers && here.Settled? && row.bar in here.rows
      {
        var k :| 0 <= k < |mine| && mine[k] == row;
      }
      forall k, b | 0 < k < |tickers| && b in Contribution(tickers[k], FetchTicker(fetch, tickers[k], q).exit)
        ensures b in mine + rest
      {
        assert tickers[k] == tickers[1..][k - 1];
      }
    }
  }

  /** One step of the ticker loop: the first ticker's outcome, then the rest of the list. */
  lemma GetIntradayDataStep(fetch: Fetch, tickers: seq<string>, q: Query)
    requires |tickers| > 0
    ensures var r, rest := GetIntradayData(fetch, tickers, q), GetIntradayData(fetch, tickers[1..], q);
      var here := FetchTicker(fetch, tickers[0], q).exit;
      && (here.EmptyBatch? ==> r == Failure(NoBars(tickers[0])))
      && (!here.EmptyBatch? && rest.Failure? ==> r == rest)
      && (!here.EmptyBatch? && rest.Success? ==> r == Success(Contribution(tickers[0], here) + rest.value))
  {
  }

  /**
   Concatenating ticker lists concatenates the tables, in ticker order: the
   first list's failure wins; otherwise the second list's failure; otherwise
   the first table followed by the second.
   */
  lemma {:induction false} TickersConcatenateInOrder(fetch: Fetch, a: seq<string>, b: seq<string>, q: Query)
    decreases |a|
    ensures var r, ra, rb := GetIntradayData(fetch, a + b, q), GetIntradayData(fetch, a, q), GetIntradayData(fetch, b, q);
      && (ra.Failure? ==> r == ra)
      && (ra.Success? && rb.Failure? ==> r == rb)
      && (ra.Success? && rb.Success? ==> r == Success(ra.value + rb.value))
  {
    var r, ra, rb := GetIntradayData(fetch, a + b, q), GetIntradayData(fetch, a, q), GetIntradayData(fetch, b, q);
    if |a| == 0 {
      assert a + b == b;
      assert ra == Success([]);
      if rb.Success? {
        assert [] + rb.value == rb.value;
      }
    } else {
      var ticker := a[0];
      var here := FetchTicker(fetch, ticker, q).exit;
      assert (a + b)[0] == ticker;
      assert (a + b)[1..] == a[1..] + b;
      TickersConcatenateInOrder(fetch, a[1..], b, q);
      GetIntradayDataStep(fetch, a, q);
      GetIntradayDataStep(fetch, a + b, q);
      ConcatenateStep(ticker, here.EmptyBatch?, Contribution(ticker, here),
        GetIntradayData(fetch, a[1..], q), GetIntradayData(fetch, a[1..] + b, q), r, ra, rb);
    }
  }

  /**
   The inductive step of `TickersConcatenateInOrder`, over the outcomes alone:
   if the tail's tables concatenate, so do the tables with the first ticker
   in front.
   */
  lemma ConcatenateStep(
    ticker: string, empty: bool, mine: seq<TaggedBar>,
    rest: Result<seq<TaggedBar>, IntradayError>, restAndB: Result<seq<TaggedBar>, IntradayError>,
    r: Result<seq<TaggedBar>, IntradayError>, ra: Result<seq<TaggedBar>, IntradayError>,
    rb: Result<seq<TaggedBar>, IntradayError>)
    requires empty ==> ra == Failure(NoBars(ticker)) && r == Failure(NoBars(ticker))
    requires !empty && rest.Failure? ==> ra == rest
    requires !empty && rest.Success? ==> ra == Success(mine + rest.value)
    requires !empty && restAndB.Failure? ==> r == restAndB
    requires !empty && restAndB.Success? ==> r == Success(mine + restAndB.value)
    requires rest.Failure? ==> restAndB == rest
    requires rest.Success? && rb.Failure? ==> restAndB == rb
    requires rest.Success? && rb.Success? ==> restAndB == Success(rest.value + rb.value)
    ensures ra.Failure? ==> r == ra
    ensures ra.Success? && rb.Failure? ==> r == rb
    ensures ra.Success? && rb.Success? ==> r == Success(ra.value + rb.value)
  {
    if !empty && rest.Success? && rb.Success? {
      assert mine + (rest.value + rb.value) == (mine + rest.value) + rb.value;
    }
  }

  /**
   A query with `get_intradayData`'s defaults asks first for trade bars at
   5-minute intervals from the start time.
   */
  lemma DefaultFirstRequest(fetch: Fetch, ticker: string, startTime: int, endTime: int)
    ensures FetchTicker(fetch, ticker, Query(startTime, endTime, DefaultEvent, DefaultInterval)).sent[0]
         == IntradayBarRequest(ticker, "TRADE", 5, startTime, endTime)
  {
  }

  /**
   The end time as the loop of the source holds it: the caller's moment, or
   the ISO text that `isoformat` turned it into on an earlier ticker.
   */
  datatype EndTime = Moment(time: int) | IsoText(time: int)

  /** `isoformat`: defined on a moment; on text it fails, as `str` has no such method. */
  function IsoFormat(e: EndTime): (r: Option<EndTime>)
    ensures r.Some? <==> e.Moment?
    ensures r.Some? ==> r.value.IsoText? && r.value.time == e.time
  {
    match e
    case Moment(t) => Some(IsoText(t))
    case IsoText(_) => None
  }

  /**
   `get_intradayData` as written: the end time is rebound to its ISO text
   inside the ticker loop, so the next ticker calls `isoformat` on text.
   */
  function GetIntradayDataAsWritten(fetch: Fetch, tickers: seq<string>, startTime: int, endTime: EndTime, event: string, interval: int): (r: Result<seq<TaggedBar>, IntradayError>)
    decreases |tickers|
    ensures |tickers| > 0 && endTime.IsoText? ==> r == Failure(EndTimeIsText(tickers[0]))
    ensures |tickers| == 0 ==> r == Success([])
  {
    if |tickers| == 0 then Success([])
    else
      match IsoFormat(endTime)
      case None => Failure(EndTimeIsText(tickers[0]))
      case Some(text) =>
        var here := FetchTicker(fetch, tickers[0], Query(startTime, text.time, event, interval));
        if here.exit.EmptyBatch? then Failure(NoBars(tickers[0]))
        else
          match GetIntradayDataAsWritten(fetch, tickers[1..], startTime, text, event, interval)
          case Failure(e) => Failure(e)
          case Success(rest) => Success(Contribution(tickers[0], here.exit) + rest)
  }

  /** With a single ticker the rebinding is never observed: both versions agree. */
  lemma AsWrittenAgreesOnOneTicker(fetch: Fetch, tickers: seq<string>, q: Query)
    requires |tickers| <= 1
    ensures GetIntradayDataAsWritten(fetch, tickers, q.startTime, Moment(q.endTime), q.event, q.interval)
         == GetIntradayData(fetch, tickers, q)
  {
    if |tickers| == 1 {
      assert tickers[1..] == [];
      var here := FetchTicker(fetch, tickers[0], q);
      if !here.exit.EmptyBatch? {
        assert Contribution(tickers[0], here.exit) + [] == Contribution(tickers[0], here.exit);
      }
    }
  }

  /**
   With two or more tickers the as-written call always fails: on the first
   ticker's empty batch, and otherwise on the second ticker's `isoformat`.
   */
  lemma AsWrittenFailsOnSecondTicker(fetch: Fetch, tickers: seq<string>, q: Query)
    requires |tickers| >= 2
    ensures var r := GetIntradayDataAsWritten(fetch, tickers, q.startTime, Moment(q.endTime), q.event, q.interval);
      && (FetchTicker(fetch, tickers[0], q).exit.EmptyBatch? ==> r == Failure(NoBars(tickers[0])))
      && (!FetchTicker(fetch, tickers[0], q).exit.EmptyBatch? ==> r == Failure(EndTimeIsText(tickers[1])))
  {
    assert tickers[1..][0] == tickers[1];
  }

  /** A service that answers every request with one bar at the requested end time. */
  function BarAtEnd(req: IntradayBarRequest): seq<Bar>
  {
    [Bar(req.endDateTime, 1.0, 1.0, 1.0, 1.0, 1, 1)]
  }

  /** Against that service every ticker's loop settles on its first batch. */
  lemma BarAtEndSettles(ticker: string, q: Query)
    ensures FetchTicker(BarAtEnd, ticker, q).exit == Settled([Bar(q.endTime, 1.0, 1.0, 1.0, 1.0, 1, 1)])
  {
    var bar := Bar(q.endTime, 1.0, 1.0, 1.0, 1.0, 1, 1);
    assert BarAtEnd(RequestFrom(ticker, q, q.startTime)) == [bar];
    FirstBatchThatDoesNotAdvanceSettles(BarAtEnd, ticker, q);
    assert DropDuplicates([bar]) == DropDuplicates([]) + [bar];
  }

  /** Against that service the corrected call succeeds for any tickers. */
  lemma BarAtEndNeverFails(tickers: seq<string>, q: Query)
    ensures GetIntradayData(BarAtEnd, tickers, q).Success?
  {
    forall k | 0 <= k < |tickers| ensures !FetchTicker(BarAtEnd, tickers[k], q).exit.EmptyBatch? {
      BarAtEndSettles(tickers[k], q);
    }
    TableFailsOnlyOnEmptyBatch(BarAtEnd, tickers, q);
  }

  /**
   Any two tickers against that service: each loop settles after one request,
   so the corrected call succeeds while the call as written fails on the
   second ticker.
   */
  lemma TwoTickersExposeRebinding(tickers: seq<string>, q: Query)
    requires |tickers| == 2
    ensures GetIntradayData(BarAtEnd, tickers, q).Success?
    ensures GetIntradayDataAsWritten(BarAtEnd, tickers, q.startTime, Moment(q.endTime), q.event, q.interval)
         == Failure(EndTimeIsText(tickers[1]))
  {
    BarAtEndNeverFails(tickers, q);
    BarAtEndSettles(tickers[0], q);
    AsWrittenFailsOnSecondTicker(BarAtEnd, tickers, q);
  }
}
