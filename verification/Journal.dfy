/** Vocabulary of the trade journal: log events, snapshots, order rows and stop events. */
module Journal {
  import opened Basics

  /** Times are whole microseconds in Korean time. */
  type Time = int

  const SECOND := 1000000
  const DAY := 86400 * SECOND

  function Date(t: Time): int { t / DAY }

  function TimeOfDay(t: Time): int { t % DAY }

  datatype Side = Buy | Sell

  // ---- log events ------------------------------------------------------------------------

  /** What an exit-reason line says; absent numbers are None. */
  datatype ExitInfo = ExitInfo(
    phrase: string, code: string, mode: Option<string>, buyPrice: Option<real>, pct: Option<real>,
    threshold: Option<real>, line: Option<real>, currentPrice: Option<real>, target: Option<real>, raw: string)

  datatype Event =
    | BuySignal(ts: Time, strategy: string, ticker: string, signalPrice: Option<real>)
    | ExitReason(ts: Time, strategy: string, ticker: string, info: ExitInfo)
    | NdcDefer(ts: Time, strategy: string, ticker: string, reasonSub: string, gap: Option<real>,
               threshold: Option<real>)
    | StatusExit(ts: Time, strategy: string, ticker: string, reason: Option<string>)
    | OrderNotice(ts: Time, orderNo: string, noticeSide: Side, rctf: string, division: Option<string>)
    | OrderDone(ts: Time, orderNo: string, doneSide: Side, ticker: string, qty: int)
    | BuyAccept(ts: Time, orderNo: string, strategy: string, ticker: string, price: real)
    | SellAccept(ts: Time, orderNo: string, strategy: string, ticker: string, signal: string)
    | ManualSell(ts: Time, orderNo: string, strategy: string, ticker: string)
    | SellFallback(ts: Time, orderNo: string, strategy: string, ticker: string, price: real)
    | BuyFallback(ts: Time, ticker: string, price: real)
    | Reorder(ts: Time, ticker: string, qty: int)

  // ---- snapshots -------------------------------------------------------------------------

  datatype Signal = Signal(ticker: string, time: int, price: Option<real>)

  datatype StrategyState = StrategyState(enabled: bool, params: map<string, real>, signals: seq<Signal>)

  datatype G0 = G0(running: bool, phase: string, strategies: map<string, StrategyState>)

  /** One holding as the exit-line snapshot shows it. */
  datatype Item = Item(
    strategy: string, ticker: string, stopPrice: Option<real>, stopSource: Option<string>, buyPrice: Option<real>,
    buyDate: Option<int>, orderNo: Option<string>, targetPrice: Option<real>, targetSource: Option<string>,
    armPrice: Option<real>)
  {
    function Key(): (string, string) { (strategy, ticker) }

    predicate TargetHit() { targetSource == Some("measured_move_hit") }
  }

  type G1 = seq<Item>

  /** An engine in its main session, with no strategy shown. */
  function InSession(): G0 { G0(true, "main_trading", map[]) }

  /** A holding of which nothing but its name is shown. */
  function BareItem(strategy: string, ticker: string): Item {
    Item(strategy, ticker, None, None, None, None, None, None, None, None)
  }

  // ---- stop events -----------------------------------------------------------------------

  datatype StopRow = StopRow(stopPrice: Option<real>, stopKind: Option<string>, targetPrice: Option<real>,
                             targetHit: bool, armPrice: Option<real>)

  datatype StopKind = First | Boot | Paused | Eod | Change | ExitStop

  /** `sellNo` is the sell order an exit event belongs to. */
  datatype StopEvent = StopEvent(strategy: string, ticker: string, buyDate: Option<int>, posNo: Option<string>,
                                 observedAt: Time, kind: StopKind, row: StopRow, sellNo: Option<string>)

  // ---- order rows ------------------------------------------------------------------------

  datatype Source = LogHarvest | ManualApi | FallbackInferred | ReorderInferred | LogRestore | Unmatched | External

  /** Sources of rows filled in from the trade history, before a log line is found for them. */
  predicate IsEmpty(s: Source) { s == Unmatched || s == External }

  datatype SellSignal = SellSignal(
    name: Option<string>, exit: Option<ExitInfo>, judgeSrc: Option<string>, gap: Option<real>,
    gapThreshold: Option<real>, judgeUpper: Option<real>, snapshotAge: Option<int>, stopKind: Option<string>)

  datatype Value =
    | Text(text: string)
    | Num(x: real)
    | SellNote(signal: SellSignal, path: string, strategySrc: Option<string>)
    | BuyNote(src: string, ring: Option<Signal>, path: string, strategySrc: Option<string>)
    | ParamNote(params: map<string, real>)

  /** The nullable columns of an order row. */
  datatype Field = ReasonCode | ReasonSub | JudgePrice | OrderPrice | Division | Exchange | ParentNo
                 | FiredLine | EffectiveLine | SignalNote | ParamsNote

  datatype Key = Key(date: int, no: string, side: Side)

  const UNKNOWN := "unknown"

  /** An order row; a column missing from `cells` is NULL. */
  datatype Row = Row(key: Key, strategy: string, ticker: string, source: Source, cells: map<Field, Value>,
                     notedAt: Time)

  function WithText(m: map<Field, Value>, f: Field, v: Option<string>): map<Field, Value> {
    if v.Some? then m[f := Text(v.value)] else m
  }

  function WithNum(m: map<Field, Value>, f: Field, v: Option<real>): map<Field, Value> {
    if v.Some? then m[f := Num(v.value)] else m
  }
}
