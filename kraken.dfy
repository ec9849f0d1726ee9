/** The client object (`class Api`): its three cursor tables and its
    credentials change in place; every endpoint method takes the decoded
    reply of its single HTTP exchange as an argument, and the private ones
    also take the clock reading used as nonce and the key file's contents. */
module Kraken {
  import opened Wrappers
  import opened PyValues
  import opened Signing
  import opened Dispatch
  import opened Facade
  import opened Cursors
  import opened Txids

  const AddOrderPath := PrivatePath("AddOrder")
  const ClosedOrdersPath := PrivatePath("ClosedOrders")
  const QueryOrdersPath := PrivatePath("QueryOrders")
  const TradesHistoryPath := PrivatePath("TradesHistory")
  const QueryTradesPath := PrivatePath("QueryTrades")
  const OpenPositionsPath := PrivatePath("OpenPositions")
  const LedgersPath := PrivatePath("Ledgers")
  const TradeVolumePath := PrivatePath("TradeVolume")

  class Api {
    /** `self.pairs`: the trading pairs known when the client was created,
        which key the three cursor tables. */
    const pairs: set<string>
    /** The hashing, HMAC, base64 and form-encoding routines. */
    const prims: Primitives

    var lastUpdateOhlc: map<string, int>
    var lastUpdateSpread: map<string, int>
    var lastUpdateTrades: map<string, int>
    var key: string
    var secret: string

    ghost function Creds(): Credentials
      reads this
    {
      Credentials(key, secret)
    }

    constructor (pairs: set<string>, prims: Primitives)
      ensures this.pairs == pairs && this.prims == prims
      ensures lastUpdateOhlc == InitialCursors(pairs)
      ensures lastUpdateSpread == InitialCursors(pairs)
      ensures lastUpdateTrades == InitialCursors(pairs)
      ensures key == "" && secret == ""
    {
      this.pairs := pairs;
      this.prims := prims;
      lastUpdateOhlc := InitialCursors(pairs);
      lastUpdateSpread := InitialCursors(pairs);
      lastUpdateTrades := InitialCursors(pairs);
      key := "";
      secret := "";
    }

    /** `send_api_request`: a GET of `path` with `postData` as the query. */
    method SendApiRequest(path: string, postData: map<string, Value>, reply: Json)
      returns (outcome: Result<Json, Error>, sent: Request)
      ensures sent == Get(KrakUrl + path, postData)
      ensures outcome == Normalize(reply)
    {
      sent := Get(KrakUrl + path, postData);
      match Index(reply, "error")
      case Failure(e) =>
        outcome := Failure(e);
      case Success(error) =>
        if error != JArray([]) || "result" !in reply.fields {
          outcome := Failure(ApiError(error));
        } else {
          outcome := Success(reply);
        }
    }

    /** `send_private_api_request`: lazy key load, nonce injection, signing
      and a POST of the same map. */
    method SendPrivateApiRequest(path: string, postData: map<string, Value>, nonce: int, file: KeyFile, reply: Json)
      returns (outcome: Result<Json, Error>, sent: Option<Request>)
      modifies this`key, this`secret
      ensures Private(outcome, sent, Creds()) == PrivateDispatch(prims, old(Creds()), path, postData, nonce, file, reply)
    {
      if secret == "" || key == "" {
        match file
        case NoKeyFile =>
          return Failure(Failed(MissingKeyFileMessage)), None;
        case KeyLines(k, s) =>
          key := k;
          secret := s;
          if key == "" || secret == "" {
            return Failure(Failed(EmptyKeyMessage)), None;
          }
      }
      var data := postData["nonce" := Number(nonce)];
      var signature := Sign(prims, secret, data, path);
      if signature.Failure? {
        return Failure(signature.error), None;
      }
      sent := Some(Post(KrakUrl + path, data, key, signature.value));
      outcome := Normalize(reply);
    }

    /** `get_ohlc_data(pair, interval, since)`. */
    method GetOhlcData(pair: string, interval: Value, since: int, reply: Json)
      returns (outcome: Result<Json, Error>, sent: Option<Request>)
      modifies this`lastUpdateOhlc
      ensures Poll(outcome, sent, lastUpdateOhlc) == OhlcPoll(old(lastUpdateOhlc), pair, interval, since, reply)
    {
      var cursor := since;
      if since == 0 {
        if pair !in lastUpdateOhlc {
          return Failure(KeyError(pair)), None;
        }
        cursor := lastUpdateOhlc[pair];
        if cursor == 0 {
          return Failure(RecursionError), None;
        }
      }
      var query := map["pair" := Text(pair), "interval" := Text(ValueStr(interval)), "since" := Text(IntToString(cursor))];
      var r, request := SendApiRequest(OhlcPath, query, reply);
      sent := Some(request);
      if r.Failure? {
        return r, sent;
      }
      var last := LastCursor(r.value);
      if last.Failure? {
        return Failure(last.error), sent;
      }
      lastUpdateOhlc := lastUpdateOhlc[pair := last.value];
      outcome := ResultEntry(r.value, pair);
    }

    /** `get_recent_spread_data(pair, since)`. */
    method GetRecentSpreadData(pair: string, since: int, reply: Json)
      returns (outcome: Result<Json, Error>, sent: Option<Request>)
      modifies this`lastUpdateSpread
      ensures Poll(outcome, sent, lastUpdateSpread) == SpreadPoll(old(lastUpdateSpread), pair, since, reply)
    {
      var cursor := since;
      if since == 0 {
        if pair !in lastUpdateSpread {
          return Failure(KeyError(pair)), None;
        }
        cursor := lastUpdateSpread[pair];
        if cursor == 0 {
          return Failure(RecursionError), None;
        }
      }
      var query := map["pair" := Text(pair), "since" := Text(IntToString(cursor))];
      var r, request := SendApiRequest(SpreadPath, query, reply);
      sent := Some(request);
      if r.Failure? {
        return r, sent;
      }
      var last := LastCursor(r.value);
      if last.Failure? {
        return Failure(last.error), sent;
      }
      lastUpdateSpread := lastUpdateSpread[pair := last.value];
      outcome := ResultEntry(r.value, pair);
    }

    /** `get_recent_trades(pair, i)`. */
    method GetRecentTrades(pair: string, i: int, reply: Json)
      returns (outcome: Result<Json, Error>, sent: Option<Request>)
      modifies this`lastUpdateTrades
      ensures Poll(outcome, sent, lastUpdateTrades) == TradesPoll(old(lastUpdateTrades), pair, i, reply)
    {
      if pair !in lastUpdateTrades {
        return Failure(KeyError(pair)), None;
      }
      var cursor := if i == 0 then lastUpdateTrades[pair] else i;
      if cursor == 0 {
        return Failure(RecursionError), None;
      }
      var query;
      if lastUpdateTrades[pair] != 1 {
        query := map["pair" := Text(pair), "since" := Text(IntToString(cursor))];
      } else {
        query := map["pair" := Text(pair)];
      }
      var r, request := SendApiRequest(TradesPath, query, reply);
      sent := Some(request);
      if r.Failure? {
        return r, sent;
      }
      var last := LastCursor(r.value);
      if last.Failure? {
        return Failure(last.error), sent;
      }
      lastUpdateTrades := lastUpdateTrades[pair := last.value];
      outcome := ResultEntry(r.value, pair);
    }

    /** `add_order(...)`. `leverage`, `starttm` and `expiretm` are accepted
      and ignored, as in the source. */
    method AddOrder(pair: Value, type2: Value, ordertype: Value, volume: Value, price: Value, price2: Value,
                    leverage: Value, oflags: Value, starttm: Value, expiretm: Value, userref: Value,
                    validate: Value, closeOrdertype: Value, closePrice: Value, closePrice2: Value,
                    nonce: int, file: KeyFile, reply: Json)
      returns (outcome: Result<Json, Error>, sent: Option<Request>)
      modifies this`key, this`secret
      ensures Private(outcome, sent, Creds()) ==
        PrivateCall(prims, old(Creds()), AddOrderPath,
                    AddOrderParams(pair, type2, ordertype, volume, price, price2, oflags, userref, validate,
                                   closeOrdertype, closePrice, closePrice2), nonce, file, reply)
    {
      // the checks come first: nothing is loaded or sent for refused arguments
      var params := AddOrderParams(pair, type2, ordertype, volume, price, price2, oflags, userref, validate,
                                   closeOrdertype, closePrice, closePrice2);
      if params.Failure? {
        return Failure(params.error), None;
      }
      outcome, sent := SendPrivateApiRequest(AddOrderPath, params.value, nonce, file, reply);
    }

    /** `get_closed_orders(ofs, trades, userref, start, end, closetime)`. */
    method GetClosedOrders(ofs: Value, trades: Value, userref: Value, start: Value, end: Value, closetime: Value,
                           nonce: int, file: KeyFile, reply: Json)
      returns (outcome: Result<Json, Error>, sent: Option<Request>)
      modifies this`key, this`secret
      ensures Private(outcome, sent, Creds()) ==
        PrivateCall(prims, old(Creds()), ClosedOrdersPath, ClosedOrdersParams(ofs, trades, userref, start, end, closetime),
                    nonce, file, reply)
    {
      var data := map["trades" := trades, "ofs" := ofs, "closetime" := closetime];
      if start != Text("") {
        if end == Text("") {
          return Failure(ApiError(JStr(RangeMessage))), None;
        }
        data := data["start" := start];
        data := data["end" := end];
      }
      if userref != Null {
        data := data["userref" := userref];
      }
      outcome, sent := SendPrivateApiRequest(ClosedOrdersPath, data, nonce, file, reply);
    }

    /** `query_orders_info(txid, trades, userref)`. */
    method QueryOrdersInfo(txid: string, trades: Value, userref: Value, nonce: int, file: KeyFile, reply: Json)
      returns (outcome: Result<Json, Error>, sent: Option<Request>)
      modifies this`key, this`secret
      ensures Private(outcome, sent, Creds()) ==
        PrivateCall(prims, old(Creds()), QueryOrdersPath, QueryOrdersParams(txid, trades, userref), nonce, file, reply)
    {
      if TooManyTxids(txid) {
        return Failure(ApiError(JStr(TooManyTxidsMessage))), None;
      }
      var data := map["txid" := Text(txid), "trades" := trades];
      if userref != Null {
        data := data["userref" := userref];
      }
      outcome, sent := SendPrivateApiRequest(QueryOrdersPath, data, nonce, file, reply);
    }

    /** `get_trades_history(ofs, type2, trades, start, end)`. */
    method GetTradesHistory(ofs: Value, type2: Value, trades: Value, start: Value, end: Value,
                            nonce: int, file: KeyFile, reply: Json)
      returns (outcome: Result<Json, Error>, sent: Option<Request>)
      modifies this`key, this`secret
      ensures Private(outcome, sent, Creds()) ==
        PrivateCall(prims, old(Creds()), TradesHistoryPath, TradesHistoryParams(ofs, type2, trades, start, end),
                    nonce, file, reply)
    {
      var data := map["trades" := trades, "ofs" := ofs, "type" := type2];
      if start != Null {
        if end == Null {
          return Failure(ApiError(JStr(RangeMessage))), None;
        }
        data := data["start" := start];
        data := data["end" := end];
      }
      outcome, sent := SendPrivateApiRequest(TradesHistoryPath, data, nonce, file, reply);
    }

    /** `query_trades_info(txid, trades)`. */
    method QueryTradesInfo(txid: string, trades: Value, nonce: int, file: KeyFile, reply: Json)
      returns (outcome: Result<Json, Error>, sent: Option<Request>)
      modifies this`key, this`secret
      ensures Private(outcome, sent, Creds()) ==
        PrivateCall(prims, old(Creds()), QueryTradesPath, QueryTradesParams(txid, trades), nonce, file, reply)
    {
      if TooManyTxids(txid) {
        return Failure(ApiError(JStr(TooManyTxidsMessage))), None;
      }
      outcome, sent := SendPrivateApiRequest(QueryTradesPath, map["txid" := Text(txid), "trades" := trades],
                                             nonce, file, reply);
    }

    /** `get_open_positions(txid, docalcs)`. */
    method GetOpenPositions(txid: string, docalcs: Value, nonce: int, file: KeyFile, reply: Json)
      returns (outcome: Result<Json, Error>, sent: Option<Request>)
      modifies this`key, this`secret
      ensures Private(outcome, sent, Creds()) ==
        PrivateCall(prims, old(Creds()), OpenPositionsPath, OpenPositionsParams(txid, docalcs), nonce, file, reply)
    {
      if TooManyTxids(txid) {
        return Failure(ApiError(JStr(TooManyTxidsMessage))), None;
      }
      outcome, sent := SendPrivateApiRequest(OpenPositionsPath, map["txid" := Text(txid), "docalcs" := docalcs],
                                             nonce, file, reply);
    }

    /** `get_ledgers_infos(ofs, aclass, asset, type2, start, end)`. */
    method GetLedgersInfos(ofs: Value, aclass: Value, asset: Value, type2: Value, start: Value, end: Value,
                           nonce: int, file: KeyFile, reply: Json)
      returns (outcome: Result<Json, Error>, sent: Option<Request>)
      modifies this`key, this`secret
      ensures Private(outcome, sent, Creds()) ==
        PrivateCall(prims, old(Creds()), LedgersPath, LedgersParams(ofs, aclass, asset, type2, start, end),
                    nonce, file, reply)
    {
      var data := map["aclass" := aclass, "asset" := asset, "type2" := TypeBuiltin, "ofs" := ofs];
      if start != Null {
        if end == Null {
          return Failure(ApiError(JStr(RangeMessage))), None;
        }
        data := data["start" := start];
        data := data["end" := end];
      }
      outcome, sent := SendPrivateApiRequest(LedgersPath, data, nonce, file, reply);
    }

    /** `get_trade_volume(pair, fee_info)`. */
    method GetTradeVolume(pair: Value, feeInfo: Value, nonce: int, file: KeyFile, reply: Json)
      returns (outcome: Result<Json, Error>, sent: Option<Request>)
      modifies this`key, this`secret
      ensures Private(outcome, sent, Creds()) ==
        PrivateDispatch(prims, old(Creds()), TradeVolumePath, TradeVolumeParams(pair, feeInfo), nonce, file, reply)
    {
      var data := map[];
      if pair != Null {
        data := data["pair" := pair];
      }
      if feeInfo != Null {
        data := data["fee-info" := feeInfo];
      }
      outcome, sent := SendPrivateApiRequest(TradeVolumePath, data, nonce, file, reply);
    }
  }
}
