/** The incremental-polling cursors of `get_ohlc_data`,
    `get_recent_spread_data` and `get_recent_trades`: one table per
    operation from trading pair to the `last` marker of that pair's
    previous reply. A call without a cursor (0) uses the stored one; a
    reply's `last` overwrites the pair's entry and nothing else. */
module Cursors {
  import opened Wrappers
  import opened PyValues
  import opened Dispatch

  const OhlcPath := PublicPath("OHLC")
  const SpreadPath := PublicPath("Spread")
  const TradesPath := PublicPath("Trades")

  /** Every pair starts at 1, "from the beginning". */
  function InitialCursors(pairs: set<string>): (t: map<string, int>)
    ensures t.Keys == pairs
    ensures forall p :: p in pairs ==> t[p] == 1
  {
    map p | p in pairs :: 1
  }

  /** `r["result"][key]`. */
  function ResultEntry(r: Json, key: string): Result<Json, Error> {
    match Index(r, "result")
    case Failure(e) => Failure(e)
    case Success(result) => Index(result, key)
  }

  /** `int(r["result"]["last"])`. */
  function LastCursor(r: Json): Result<int, Error> {
    match ResultEntry(r, "last")
    case Failure(e) => Failure(e)
    case Success(last) => ToInt(last)
  }

  /** What a polling call leaves behind: its outcome, the request it sent
      (if any), and the operation's cursor table afterwards. */
  datatype Poll = Poll(outcome: Result<Json, Error>, sent: Option<Request>, table: map<string, int>)

  /** The part after the request: check the envelope, store the new cursor,
      then return `r["result"][pair]`. The cursor is stored before the pair's
      entry is looked up, so a reply without that entry still moves it. */
  function Respond(table: map<string, int>, pair: string, request: Request, reply: Json): (p: Poll)
    ensures p.sent == Some(request)
    ensures p.table ==
      if Normalize(reply).Success? && LastCursor(reply).Success? then table[pair := LastCursor(reply).value] else table
    ensures Normalize(reply).Failure? ==> p.outcome == Normalize(reply)
    ensures Normalize(reply).Success? && LastCursor(reply).Failure? ==> p.outcome == Failure(LastCursor(reply).error)
    ensures Normalize(reply).Success? && LastCursor(reply).Success? ==> p.outcome == ResultEntry(reply, pair)
  {
    match Normalize(reply)
    case Failure(e) => Poll(Failure(e), Some(request), table)
    case Success(r) =>
      match LastCursor(r)
      case Failure(e) => Poll(Failure(e), Some(request), table)
      case Success(last) => Poll(ResultEntry(r, pair), Some(request), table[pair := last])
  }

  /** The cursor a call actually uses: its own, or the stored one for 0. */
  function EffectiveSince(table: map<string, int>, pair: string, since: int): int
    requires since == 0 ==> pair in table
  {
    if since == 0 then table[pair] else since
  }

  /** `get_ohlc_data` and `get_recent_spread_data` on table `table`: `query`
      is the request without its `since` entry. A zero `since` re-enters
      the call with the stored cursor; if that is 0 too the recursion never
      ends. */
  function SincePoll(table: map<string, int>, pair: string, since: int, reply: Json,
                     path: string, query: map<string, Value>): (p: Poll)
    ensures since == 0 && pair !in table ==> p == Poll(Failure(KeyError(pair)), None, table)
    ensures p.sent.Some? <==> since != 0 || (pair in table && table[pair] != 0)
    // an effective cursor of 0 re-enters the call forever
    ensures p.sent.None? && !(since == 0 && pair !in table) ==> p == Poll(Failure(RecursionError), None, table)
    // once sent, the outcome and the table are those of the reply
    ensures p.sent.Some? ==> p == Respond(table, pair, p.sent.value, reply)
    ensures p.sent.Some? ==>
      p.sent.value == Get(KrakUrl + path, query["since" := Text(IntToString(EffectiveSince(table, pair, since)))])
    // only the pair's entry can change, and only to the reply's `last`
    ensures p.table ==
      if p.sent.Some? && Normalize(reply).Success? && LastCursor(reply).Success?
      then table[pair := LastCursor(reply).value] else table
  {
    if since == 0 && pair !in table then Poll(Failure(KeyError(pair)), None, table)
    else
      var cursor := EffectiveSince(table, pair, since);
      if cursor == 0 then Poll(Failure(RecursionError), None, table)
      else Respond(table, pair, Get(KrakUrl + path, query["since" := Text(IntToString(cursor))]), reply)
  }

  function OhlcQuery(pair: string, interval: Value): map<string, Value> {
    map["pair" := Text(pair), "interval" := Text(ValueStr(interval))]
  }

  function SpreadQuery(pair: string): map<string, Value> {
    map["pair" := Text(pair)]
  }

  /** `get_ohlc_data(pair, interval, since)`. */
  function OhlcPoll(table: map<string, int>, pair: string, interval: Value, since: int, reply: Json): Poll {
    SincePoll(table, pair, since, reply, OhlcPath, OhlcQuery(pair, interval))
  }

  /** `get_recent_spread_data(pair, since)`. */
  function SpreadPoll(table: map<string, int>, pair: string, since: int, reply: Json): Poll {
    SincePoll(table, pair, since, reply, SpreadPath, SpreadQuery(pair))
  }

  /** `get_recent_trades(pair, i)`. Unlike the other two it reads the stored
      cursor even for a non-zero `i`, and leaves `since` out of the request
      while the stored cursor is still 1. */
  function TradesPoll(table: map<string, int>, pair: string, i: int, reply: Json): (p: Poll)
    ensures pair !in table ==> p == Poll(Failure(KeyError(pair)), None, table)
    ensures p.sent.Some? <==> pair in table && EffectiveSince(table, pair, i) != 0
    ensures p.sent.None? && pair in table ==> p == Poll(Failure(RecursionError), None, table)
    ensures p.sent.Some? ==> p == Respond(table, pair, p.sent.value, reply)
    ensures p.sent.Some? ==>
      && p.sent.value.Get?
      && p.sent.value.url == KrakUrl + TradesPath
      && "pair" in p.sent.value.query && p.sent.value.query["pair"] == Text(pair)
      && ("since" in p.sent.value.query <==> table[pair] != 1)
      && ("since" in p.sent.value.query ==> p.sent.value.query["since"] == Text(IntToString(EffectiveSince(table, pair, i))))
      && p.sent.value.query.Keys <= {"pair", "since"}
    ensures p.table ==
      if p.sent.Some? && Normalize(reply).Success? && LastCursor(reply).Success?
      then table[pair := LastCursor(reply).value] else table
  {
    if pair !in table then Poll(Failure(KeyError(pair)), None, table)
    else
      var cursor := EffectiveSince(table, pair, i);
      if cursor == 0 then Poll(Failure(RecursionError), None, table)
      else
        var query := if table[pair] != 1 then map["pair" := Text(pair), "since" := Text(IntToString(cursor))]
                     else map["pair" := Text(pair)];
        Respond(table, pair, Get(KrakUrl + TradesPath, query), reply)
  }

  /** A call without a cursor is the call with the stored cursor. */
  lemma SinceZeroUsesStoredCursor(table: map<string, int>, pair: string, reply: Json,
                                  path: string, query: map<string, Value>)
    requires pair in table
    ensures SincePoll(table, pair, 0, reply, path, query) == SincePoll(table, pair, table[pair], reply, path, query)
  {
  }

  lemma TradesZeroUsesStoredCursor(table: map<string, int>, pair: string, reply: Json)
    requires pair in table
    ensures TradesPoll(table, pair, 0, reply) == TradesPoll(table, pair, table[pair], reply)
  {
  }

  /** After a reply whose `last` is `n`, the next call without a cursor
      asks for data since `n`. */
  lemma NextPollResumesFromLast(table: map<string, int>, pair: string, since: int, reply: Json,
                                next: Json, path: string, query: map<string, Value>)
    requires SincePoll(table, pair, since, reply, path, query).sent.Some?
    requires Normalize(reply).Success? && LastCursor(reply).Success? && LastCursor(reply).value != 0
    ensures var p := SincePoll(table, pair, since, reply, path, query);
      SincePoll(p.table, pair, 0, next, path, query).sent ==
        Some(Get(KrakUrl + path, query["since" := Text(IntToString(LastCursor(reply).value))]))
  {
  }

  /** The same for trades, once the stored cursor has left 1. */
  lemma NextTradesPollResumesFromLast(table: map<string, int>, pair: string, i: int, reply: Json, next: Json)
    requires TradesPoll(table, pair, i, reply).sent.Some?
    requires Normalize(reply).Success? && LastCursor(reply).Success?
    requires LastCursor(reply).value != 0 && LastCursor(reply).value != 1
    ensures TradesPoll(TradesPoll(table, pair, i, reply).table, pair, 0, next).sent ==
      Some(Get(KrakUrl + TradesPath, map["pair" := Text(pair), "since" := Text(IntToString(LastCursor(reply).value))]))
  {
  }
}
