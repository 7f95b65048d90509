/** The quote store of the TV screen: the `market-data` handler keeps the
    latest feed record per symbol, merging each message over the stored
    record and flagging whether the bid went up or down. */
module MarketData {
  import opened Wrappers

  /** A JSON value a feed record carries: a number, a string or null. */
  datatype Value = Num(x: real) | Str(s: string) | Null

  /** A record: its fields by name. A field that is absent is `undefined`. */
  type Record = map<string, Value>

  /** The `marketData` state: the latest record per symbol. */
  type Store = map<string, Record>

  const SymbolField: string := "symbol"
  const BidField: string := "bid"
  const FlagField: string := "bidChanged"

  const Up: Value := Str("up")
  const Down: Value := Str("down")

  /** The values `bidChanged` can take. */
  predicate IsFlag(v: Value) {
    v == Up || v == Down || v == Null
  }

  /** `r.f`: the field's value, `None` for `undefined`. */
  function Field(r: Record, f: string): (v: Option<Value>)
    ensures v.Some? <==> f in r
    ensures f in r ==> v.value == r[f]
  {
    if f in r then Some(r[f]) else None
  }

  /** `data && data.symbol`: the symbol of a message that exists and whose
      symbol is a non-empty string; `None` for a message the handler only
      warns about. */
  function SymbolOf(msg: Option<Record>): (s: Option<string>)
    ensures s.Some? ==> msg.Some? && Field(msg.value, SymbolField) == Some(Str(s.value)) && s.value != ""
    ensures msg.None? || SymbolField !in msg.value ==> s.None?
    ensures (msg.Some? && Field(msg.value, SymbolField).Some? && Field(msg.value, SymbolField).value.Str? &&
             Field(msg.value, SymbolField).value.s != "") ==>
            s == Some(Field(msg.value, SymbolField).value.s)
  {
    match msg
    case None => None
    case Some(m) =>
      match Field(m, SymbolField)
      case Some(Str(s)) => if s != "" then Some(s) else None
      case _ => None
  }

  /** JavaScript's `a > b` on two field values: numbers compare as numbers,
      null counts as 0, and `undefined` makes the comparison false. */
  function Above(a: Option<Value>, b: Option<Value>): (r: bool)
    ensures r ==> a != b
  {
    match (a, b)
    case (Some(Num(x)), Some(Num(y))) => x > y
    case (Some(Num(x)), Some(Null)) => x > 0.0
    case (Some(Null), Some(Num(y))) => 0.0 > y
    case _ => false
  }

  /** The `bidChanged` value of an update: null on first sight or when the
      bid is unchanged, "up" or "down" otherwise by `>`. */
  function Direction(prev: Option<Record>, msg: Record): (v: Value)
    ensures IsFlag(v)
    ensures v == Up <==> prev.Some? && Above(Field(msg, BidField), Field(prev.value, BidField))
    ensures v == Down <==> prev.Some? && Field(msg, BidField) != Field(prev.value, BidField) &&
                           !Above(Field(msg, BidField), Field(prev.value, BidField))
    ensures v == Null <==> prev.None? || Field(msg, BidField) == Field(prev.value, BidField)
  {
    match prev
    case None => Null
    case Some(stored) =>
      var bid, oldBid := Field(msg, BidField), Field(stored, BidField);
      if bid != oldBid then (if Above(bid, oldBid) then Up else Down) else Null
  }

  /** The `setMarketData` updater: the new store after message `msg`. */
  function ApplyUpdate(store: Store, msg: Option<Record>): (r: Store)
    ensures SymbolOf(msg).None? ==> r == store
    ensures SymbolOf(msg).Some? ==> r.Keys == store.Keys + {SymbolOf(msg).value}
    ensures forall t :: t in store && Some(t) != SymbolOf(msg) ==> r[t] == store[t]
  {
    match SymbolOf(msg)
    case None => store
    case Some(s) =>
      var prev := if s in store then Some(store[s]) else None;
      var base: Record := if s in store then store[s] else map[];
      store[s := (base + msg.value)[FlagField := Direction(prev, msg.value)]]
  }

  // ---------------------------------------------------------------------
  // One update

  /** The record stored for the message's symbol: every field of the
      message, every other field of the stored record, and the flag. */
  lemma UpdatedRecord(store: Store, msg: Option<Record>, f: string)
    requires SymbolOf(msg).Some?
    ensures var s := SymbolOf(msg).value;
      var r := ApplyUpdate(store, msg)[s];
      var m := msg.value;
      (f != FlagField && f in m ==> f in r && r[f] == m[f]) &&
      (f != FlagField && f !in m && s in store && f in store[s] ==> f in r && r[f] == store[s][f]) &&
      (f in r <==> f == FlagField || f in m || (s in store && f in store[s])) &&
      FlagField in r
  {
  }

  /** First sight of a symbol stores the message with a null flag. */
  lemma FirstSight(store: Store, msg: Option<Record>)
    requires SymbolOf(msg).Some? && SymbolOf(msg).value !in store
    ensures ApplyUpdate(store, msg)[SymbolOf(msg).value] == msg.value[FlagField := Null]
  {
    assert map[] + msg.value == msg.value;
  }

  /** For a symbol already stored, a numeric bid above the stored one flags
      "up", one below it "down", and an equal one null. */
  lemma BidDirection(store: Store, msg: Option<Record>, x: real, y: real)
    requires SymbolOf(msg).Some? && SymbolOf(msg).value in store
    requires Field(msg.value, BidField) == Some(Num(x))
    requires Field(store[SymbolOf(msg).value], BidField) == Some(Num(y))
    ensures var flag := ApplyUpdate(store, msg)[SymbolOf(msg).value][FlagField];
      (x > y ==> flag == Up) && (x < y ==> flag == Down) && (x == y ==> flag == Null)
  {
  }

  /** A message that does not exist or names no symbol leaves the store as
      it was. */
  lemma MalformedIgnored(store: Store, msg: Option<Record>)
    requires msg.None? || Field(msg.value, SymbolField).None? || Field(msg.value, SymbolField) == Some(Str(""))
    ensures ApplyUpdate(store, msg) == store
  {
  }

  /** A message without a bid for a stored symbol with a numeric bid keeps
      the stored bid yet flags "down", since `undefined > y` is false. */
  lemma MissingBidReadsAsDown(store: Store, msg: Option<Record>, y: real)
    requires SymbolOf(msg).Some? && SymbolOf(msg).value in store
    requires BidField !in msg.value
    requires Field(store[SymbolOf(msg).value], BidField) == Some(Num(y))
    ensures var r := ApplyUpdate(store, msg)[SymbolOf(msg).value];
      r[FlagField] == Down && r[BidField] == Num(y)
  {
  }

  // ---------------------------------------------------------------------
  // The store over time

  /** Every stored record is filed under its own symbol and carries a flag. */
  ghost predicate WellFormed(store: Store) {
    forall s :: s in store ==>
      Field(store[s], SymbolField) == Some(Str(s)) &&
      FlagField in store[s] && IsFlag(store[s][FlagField])
  }

  lemma UpdateKeepsWellFormed(store: Store, msg: Option<Record>)
    requires WellFormed(store)
    ensures WellFormed(ApplyUpdate(store, msg))
  {
    if SymbolOf(msg).Some? {
      UpdatedRecord(store, msg, SymbolField);
    }
  }

  /** The flag reflects only the last update: re-sending the current bid
      after a rise gives null, not a stale "up". */
  lemma NoStaleDirection(store: Store, msg: Option<Record>, msg': Option<Record>)
    requires SymbolOf(msg).Some? && SymbolOf(msg') == SymbolOf(msg)
    requires BidField in msg.value
    requires Field(msg'.value, BidField) == Field(msg.value, BidField)
    ensures ApplyUpdate(ApplyUpdate(store, msg), msg')[SymbolOf(msg).value][FlagField] == Null
  {
    UpdatedRecord(store, msg, BidField);
  }

  function Quote(symbol: string, bid: real): Record {
    map[SymbolField := Str(symbol), BidField := Num(bid)]
  }

  /** GOLD at 2000, then 2010, then 2010 again: null, "up", null. */
  lemma GoldScenario()
    ensures var s1 := ApplyUpdate(map[], Some(Quote("GOLD", 2000.0)));
      var s2 := ApplyUpdate(s1, Some(Quote("GOLD", 2010.0)));
      var s3 := ApplyUpdate(s2, Some(Quote("GOLD", 2010.0)));
      s1["GOLD"][FlagField] == Null && s2["GOLD"][FlagField] == Up && s3["GOLD"][FlagField] == Null &&
      s3["GOLD"][BidField] == Num(2010.0)
  {
    var s1 := ApplyUpdate(map[], Some(Quote("GOLD", 2000.0)));
    var s2 := ApplyUpdate(s1, Some(Quote("GOLD", 2010.0)));
    UpdatedRecord(map[], Some(Quote("GOLD", 2000.0)), BidField);
    BidDirection(s1, Some(Quote("GOLD", 2010.0)), 2010.0, 2000.0);
    NoStaleDirection(s1, Some(Quote("GOLD", 2010.0)), Some(Quote("GOLD", 2010.0)));
    UpdatedRecord(s2, Some(Quote("GOLD", 2010.0)), BidField);
  }

  // ---------------------------------------------------------------------
  // The component state

  /** The `marketData` state and the `market-data` event that replaces it. */
  class MarketFeed {
    var quotes: Store

    ghost predicate Valid()
      reads this
    {
      WellFormed(quotes)
    }

    constructor ()
      ensures Valid() && quotes == map[]
    {
      quotes := map[];
    }

    method OnMarketData(msg: Option<Record>)
      requires Valid()
      modifies this
      ensures Valid()
      ensures quotes == ApplyUpdate(old(quotes), msg)
    {
      UpdateKeepsWellFormed(quotes, msg);
      quotes := ApplyUpdate(quotes, msg);
    }
  }
}
