/** The local argument checks and the parameter maps of the private
    endpoint wrappers: which arguments are refused before any request, and
    which keys the request dictionary then holds. */
module Facade {
  import opened Wrappers
  import opened PyValues
  import opened Txids

  const OrderSides: set<string> := {"buy", "sell"}

  /** The order types `add_order` accepts. The source list lacks a comma
      between "stop-loss-profit-limit" and "stop-loss-limit", so Python
      joins the two literals into one string and the list has 11 entries. */
  const OrderTypes: set<string> := {
    "market", "limit", "stop-loss", "take-profit", "stop-loss-profit",
    "stop-loss-profit-limitstop-loss-limit", "take-profit-limit", "trailing-stop",
    "trailing-stop-limit", "stop-loss-and-limit", "settle-position"}

  const OrderFlags: set<string> := {"viqc", "fcib", "fciq", "nompp", "post"}

  const BadSideMessage := "type must be 'buy' or 'sell'."
  const BadOrderTypeMessage := "Invalid ordertype."
  const BadFlagsMessage := "Invalid oflags."
  const RangeMessage := "Start is set whereas end is not."
  const TooManyTxidsMessage := "Too much transactions in txid (>20)."

  /** `str(type)`: what `get_ledgers_infos` stores under "type2". */
  const TypeBuiltin := Builtin("<class 'type'>")

  /** Python's `v in [..options..]` for a list of strings. */
  predicate IsOneOf(v: Value, options: set<string>) {
    v.Text? && v.s in options
  }

  /** The key is present exactly when the argument is not None, and then
      holds the argument. */
  predicate Given(data: map<string, Value>, key: string, v: Value) {
    (key in data <==> v != Null) && (key in data ==> data[key] == v)
  }

  /** `if v != None: data[key] = v`. */
  function PutGiven(data: map<string, Value>, key: string, v: Value): map<string, Value> {
    if v != Null then data[key := v] else data
  }

  lemma OrderTypesAsWritten()
    ensures |OrderTypes| == 11
    ensures "stop-loss-profit-limit" !in OrderTypes && "stop-loss-limit" !in OrderTypes
    ensures "stop-loss-profit-limitstop-loss-limit" in OrderTypes
  {
  }

  /** The keys an `add_order` request can carry (before the nonce). */
  const AddOrderKeys: set<string> := {
    "pair", "type", "ordertype", "volume", "price", "price2", "oflags", "userref", "validate",
    "close[ordertype]", "close[price]", "close[price2]"}

  /** The entries of `all` that `add_order` puts in its request: the
      required ones always, the others when not None. */
  function Supplied(all: map<string, Value>): map<string, Value> {
    map k | k in all && (k in RequiredOrderKeys || all[k] != Null) :: all[k]
  }

  /** `add_order`'s request dictionary once its arguments have passed. */
  function AddOrderData(pair: Value, type2: Value, ordertype: Value, volume: Value, price: Value,
                        price2: Value, oflags: Value, userref: Value, validate: Value,
                        closeOrdertype: Value, closePrice: Value, closePrice2: Value)
    : (d: map<string, Value>)
    ensures d.Keys <= AddOrderKeys
    ensures RequiredOrderKeys <= d.Keys
    ensures d["pair"] == pair && d["type"] == type2 && d["ordertype"] == ordertype && d["volume"] == volume
  {
    Supplied(map[
      "pair" := pair, "type" := type2, "ordertype" := ordertype, "volume" := volume,
      "price" := price, "price2" := price2, "oflags" := oflags, "userref" := userref, "validate" := validate,
      "close[ordertype]" := closeOrdertype, "close[price]" := closePrice, "close[price2]" := closePrice2])
  }

  /** Each optional key of the `add_order` request is present exactly when
      its argument is not None, and then holds it. */
  lemma AddOrderDataOptional(pair: Value, type2: Value, ordertype: Value, volume: Value, price: Value,
                             price2: Value, oflags: Value, userref: Value, validate: Value,
                             closeOrdertype: Value, closePrice: Value, closePrice2: Value)
    ensures var d := AddOrderData(pair, type2, ordertype, volume, price, price2, oflags, userref, validate,
                                  closeOrdertype, closePrice, closePrice2);
      && Given(d, "price", price) && Given(d, "price2", price2) && Given(d, "oflags", oflags)
      && Given(d, "userref", userref) && Given(d, "validate", validate)
      && Given(d, "close[ordertype]", closeOrdertype) && Given(d, "close[price]", closePrice)
      && Given(d, "close[price2]", closePrice2)
  {
    var all := map[
      "pair" := pair, "type" := type2, "ordertype" := ordertype, "volume" := volume,
      "price" := price, "price2" := price2, "oflags" := oflags, "userref" := userref, "validate" := validate,
      "close[ordertype]" := closeOrdertype, "close[price]" := closePrice, "close[price2]" := closePrice2];
    SuppliedOptional(all, "price");
    SuppliedOptional(all, "price2");
    SuppliedOptional(all, "oflags");
    SuppliedOptional(all, "userref");
    SuppliedOptional(all, "validate");
    SuppliedOptional(all, "close[ordertype]");
    SuppliedOptional(all, "close[price]");
    SuppliedOptional(all, "close[price2]");
  }

  /** An optional entry is kept by `Supplied` exactly when it is not None. */
  lemma SuppliedOptional(all: map<string, Value>, key: string)
    requires key in all && key !in RequiredOrderKeys
    ensures Given(Supplied(all), key, all[key])
  {
  }

  const RequiredOrderKeys: set<string> := {"pair", "type", "ordertype", "volume"}

  /** `add_order`'s checks (side, then order type, then flags) and its
      request dictionary. Its `leverage`, `starttm` and `expiretm`
      arguments are never used, so they are not parameters here. */
  function AddOrderParams(pair: Value, type2: Value, ordertype: Value, volume: Value, price: Value,
                          price2: Value, oflags: Value, userref: Value, validate: Value,
                          closeOrdertype: Value, closePrice: Value, closePrice2: Value)
    : (r: Result<map<string, Value>, Error>)
    ensures r.Success? <==>
      IsOneOf(type2, OrderSides) && IsOneOf(ordertype, OrderTypes) && (oflags == Null || IsOneOf(oflags, OrderFlags))
    ensures !IsOneOf(type2, OrderSides) ==> r == Failure(Failed(BadSideMessage))
    ensures IsOneOf(type2, OrderSides) && !IsOneOf(ordertype, OrderTypes) ==> r == Failure(Failed(BadOrderTypeMessage))
    ensures IsOneOf(type2, OrderSides) && IsOneOf(ordertype, OrderTypes) && r.Failure? ==>
      r == Failure(Failed(BadFlagsMessage))
    ensures r.Success? ==>
      r.value == AddOrderData(pair, type2, ordertype, volume, price, price2, oflags, userref, validate,
                              closeOrdertype, closePrice, closePrice2)
  {
    if !IsOneOf(type2, OrderSides) then Failure(Failed(BadSideMessage))
    else if !IsOneOf(ordertype, OrderTypes) then Failure(Failed(BadOrderTypeMessage))
    else if !IsOneOf(oflags, OrderFlags) && oflags != Null then Failure(Failed(BadFlagsMessage))
    else
      Success(AddOrderData(pair, type2, ordertype, volume, price, price2, oflags, userref, validate,
                           closeOrdertype, closePrice, closePrice2))
  }

  /** The start/end rule: a start (anything but `unset`) without an end is
      refused; with a start, both keys are added; otherwise neither. */
  function WithRange(data: map<string, Value>, start: Value, end: Value, unset: Value)
    : (r: Result<map<string, Value>, Error>)
    ensures r.Failure? <==> start != unset && end == unset
    ensures r.Failure? ==> r.error == ApiError(JStr(RangeMessage))
  {
    if start != unset then
      if end == unset then Failure(ApiError(JStr(RangeMessage)))
      else Success(data["start" := start]["end" := end])
    else Success(data)
  }

  /** An accepted range leaves the other entries alone: without a start the
      data is unchanged, with one exactly "start" and "end" are set. */
  lemma WithRangeEntries(data: map<string, Value>, start: Value, end: Value, unset: Value)
    requires WithRange(data, start, end, unset).Success?
    ensures var d := WithRange(data, start, end, unset).value;
      && (start == unset ==> d == data)
      && (start != unset ==>
            d.Keys == data.Keys + {"start", "end"} && d["start"] == start && d["end"] == end &&
            forall k :: k in data && k != "start" && k != "end" ==> d[k] == data[k])
  {
  }

  /** `get_closed_orders`: the range rule with "" as the unset value, so the
      default None arguments add both keys, holding None. */
  function ClosedOrdersParams(ofs: Value, trades: Value, userref: Value, start: Value, end: Value,
                              closetime: Value): (r: Result<map<string, Value>, Error>)
    ensures r.Failure? <==> start != Text("") && end == Text("")
    ensures r.Failure? ==> r.error == ApiError(JStr(RangeMessage))
  {
    match WithRange(map["trades" := trades, "ofs" := ofs, "closetime" := closetime], start, end, Text(""))
    case Failure(e) => Failure(e)
    case Success(d) => Success(PutGiven(d, "userref", userref))
  }

  /** The keys of an accepted `get_closed_orders` request and what they hold. */
  lemma ClosedOrdersParamsKeys(ofs: Value, trades: Value, userref: Value, start: Value, end: Value,
                               closetime: Value)
    ensures var r := ClosedOrdersParams(ofs, trades, userref, start, end, closetime);
      r.Success? ==>
      var d := r.value;
      && d.Keys == {"trades", "ofs", "closetime"} + (if start != Text("") then {"start", "end"} else {})
                   + (if userref != Null then {"userref"} else {})
      && d["trades"] == trades && d["ofs"] == ofs && d["closetime"] == closetime
      && (start != Text("") ==> d["start"] == start && d["end"] == end)
      && Given(d, "userref", userref)
  {
    var base := map["trades" := trades, "ofs" := ofs, "closetime" := closetime];
    if WithRange(base, start, end, Text("")).Success? {
      WithRangeEntries(base, start, end, Text(""));
    }
  }

  lemma ClosedOrdersDefaultsSendRange(ofs: Value, trades: Value, closetime: Value)
    ensures var r := ClosedOrdersParams(ofs, trades, Null, Null, Null, closetime);
      r.Success? && r.value["start"] == Null && r.value["end"] == Null
  {
  }

  /** `get_trades_history`: the range rule with None as the unset value. */
  function TradesHistoryParams(ofs: Value, type2: Value, trades: Value, start: Value, end: Value)
    : (r: Result<map<string, Value>, Error>)
    ensures r.Failure? <==> start != Null && end == Null
    ensures r.Failure? ==> r.error == ApiError(JStr(RangeMessage))
    ensures r.Success? ==>
      var d := r.value;
      && d.Keys == {"trades", "ofs", "type"} + (if start != Null then {"start", "end"} else {})
      && d["trades"] == trades && d["ofs"] == ofs && d["type"] == type2
      && (start != Null ==> d["start"] == start && d["end"] == end)
  {
    WithRange(map["trades" := trades, "ofs" := ofs, "type" := type2], start, end, Null)
  }

  /** `get_ledgers_infos`: the range rule with None as the unset value. The
      source stores the builtin `type`, not its `type2` argument, under
      "type2", so that argument never reaches the request. */
  function LedgersParams(ofs: Value, aclass: Value, asset: Value, type2: Value, start: Value, end: Value)
    : (r: Result<map<string, Value>, Error>)
    ensures r.Failure? <==> start != Null && end == Null
    ensures r.Failure? ==> r.error == ApiError(JStr(RangeMessage))
    ensures r.Success? ==>
      var d := r.value;
      && d.Keys == {"aclass", "asset", "type2", "ofs"} + (if start != Null then {"start", "end"} else {})
      && d["aclass"] == aclass && d["asset"] == asset && d["type2"] == TypeBuiltin && d["ofs"] == ofs
      && (start != Null ==> d["start"] == start && d["end"] == end)
  {
    WithRange(map["aclass" := aclass, "asset" := asset, "type2" := TypeBuiltin, "ofs" := ofs], start, end, Null)
  }

  /** The txid guard shared by the three txid endpoints: refused exactly
      when the list has more than 20 segments, i.e. 20 or more commas. */
  function CheckTxids(txid: string): (r: Option<Error>)
    ensures r.Some? <==> multiset(txid)[','] >= MaxTxids
    ensures r.Some? <==> TooManyTxids(txid)
    ensures r.Some? ==> r.value == ApiError(JStr(TooManyTxidsMessage))
  {
    TooManyTxidsIffCommas(txid);
    if TooManyTxids(txid) then Some(ApiError(JStr(TooManyTxidsMessage))) else None
  }

  /** `query_orders_info`. */
  function QueryOrdersParams(txid: string, trades: Value, userref: Value)
    : (r: Result<map<string, Value>, Error>)
    ensures r.Failure? <==> multiset(txid)[','] >= MaxTxids
    ensures r.Failure? ==> r.error == ApiError(JStr(TooManyTxidsMessage))
    ensures r.Success? ==>
      r.value.Keys == {"txid", "trades"} + (if userref != Null then {"userref"} else {}) &&
      r.value["txid"] == Text(txid) && r.value["trades"] == trades && Given(r.value, "userref", userref)
  {
    match CheckTxids(txid)
    case Some(e) => Failure(e)
    case None => Success(PutGiven(map["txid" := Text(txid), "trades" := trades], "userref", userref))
  }

  /** `query_trades_info`. */
  function QueryTradesParams(txid: string, trades: Value): (r: Result<map<string, Value>, Error>)
    ensures r.Failure? <==> multiset(txid)[','] >= MaxTxids
    ensures r.Failure? ==> r.error == ApiError(JStr(TooManyTxidsMessage))
    ensures r.Success? ==> r.value.Keys == {"txid", "trades"} && r.value["txid"] == Text(txid) && r.value["trades"] == trades
  {
    match CheckTxids(txid)
    case Some(e) => Failure(e)
    case None => Success(map["txid" := Text(txid), "trades" := trades])
  }

  /** `get_open_positions`. */
  function OpenPositionsParams(txid: string, docalcs: Value): (r: Result<map<string, Value>, Error>)
    ensures r.Failure? <==> multiset(txid)[','] >= MaxTxids
    ensures r.Failure? ==> r.error == ApiError(JStr(TooManyTxidsMessage))
    ensures r.Success? ==> r.value.Keys == {"txid", "docalcs"} && r.value["txid"] == Text(txid) && r.value["docalcs"] == docalcs
  {
    match CheckTxids(txid)
    case Some(e) => Failure(e)
    case None => Success(map["txid" := Text(txid), "docalcs" := docalcs])
  }

  /** Twenty comma-free ids pass the guard; twenty-one do not. */
  lemma TwentyTxidsPass(ids: seq<string>)
    requires |ids| >= 1
    requires forall i :: 0 <= i < |ids| ==> NoComma(ids[i])
    ensures CheckTxids(Join(ids)).None? <==> |ids| <= MaxTxids
  {
    TooManyTxidsOfJoin(ids);
  }

  /** `get_trade_volume`: both keys optional. */
  function TradeVolumeParams(pair: Value, feeInfo: Value): (r: map<string, Value>)
    ensures r.Keys <= {"pair", "fee-info"}
    ensures Given(r, "pair", pair) && Given(r, "fee-info", feeInfo)
  {
    PutGiven(PutGiven(map[], "pair", pair), "fee-info", feeInfo)
  }
}
