/** The records the detectors read and the findings they produce.

    The source passes Python dictionaries read with `.get(key, default)`.
    Here each kind of record is a datatype; a missing timestamp is `None`
    (read as 0 by `TimeOf`), a missing string field is the empty string and
    a missing amount or price is 0, which is what the `.get` defaults give
    the detectors. */
module Events {
  import opened Common

  /** One entry of `recent_transactions`: timestamp, amount and type. */
  datatype Transaction = Transaction(timestamp: Option<real>, amount: real, txType: string)

  /** One entry of `function_calls`. `callType` is the entry's `type` field,
      which rule 3 requires to be "function_call". */
  datatype FunctionCall = FunctionCall(timestamp: Option<real>, callType: string, functionName: string, caller: string)

  /** One administrative event (rule 6). `details` is the event's free-form
      `details` dictionary, its values as text; a missing one is empty. */
  datatype AdminEvent = AdminEvent(timestamp: Option<real>, eventType: string, functionName: string, caller: string,
                                   details: map<string, string>)

  /** One price sample (rule 7). */
  datatype PriceSample = PriceSample(timestamp: Option<real>, price: real)

  // The timestamp field of each record, as a named function so that filters
  // over the same list are the same term wherever they are written.
  function TxTime(t: Transaction): Option<real> { t.timestamp }
  function CallTime(c: FunctionCall): Option<real> { c.timestamp }
  function EventTime(e: AdminEvent): Option<real> { e.timestamp }
  function SampleTime(p: PriceSample): Option<real> { p.timestamp }
  /** The sort key of `recent_prices.sort(key=lambda x: x.get('timestamp', 0))`. */
  function SampleKey(p: PriceSample): real { TimeOf(p.timestamp) }
  /** The key of `timestamps.sort()` on a list of numbers. */
  function Identity(x: real): real { x }

  /** One monitoring cycle's view of a contract, as the data source returns it. */
  datatype Snapshot = Snapshot(
    balance: real,
    transactions: seq<Transaction>,
    functionCalls: seq<FunctionCall>,
    adminEvents: seq<AdminEvent>,
    priceSamples: seq<PriceSample>)

  datatype Severity = Info | Warning | Danger

  /** The severity string the source stores and sends. */
  function SeverityName(s: Severity): string {
    match s
    case Info => "info"
    case Warning => "warning"
    case Danger => "danger"
  }

  /** The `data` dictionary of a finding: the evidence that triggered it. */
  datatype Evidence =
    | BalanceEvidence(previousBalance: real, currentBalance: real, dropFraction: real)
    | VolumeEvidence(transactionCount: nat, threshold: nat)
    | CallEvidence(call: FunctionCall)
    | ReentrancyEvidence(functionName: string, callCount: nat, span: real, timestamps: seq<real>)
    | FlashLoanEvidence(loanAmount: real, subsequentTransactions: nat, loanTimestamp: Option<real>)
    | OwnershipEvidence(event: AdminEvent)
    | PriceEvidence(previousPrice: real, currentPrice: real, change: real, increased: bool, timeDiff: real)

  /** A detector's result. The human-readable description is a rendering of
      `evidence` and is not modelled. */
  datatype Finding = Finding(ruleId: nat, ruleName: string, title: string, severity: Severity, evidence: Evidence)

  /** The one-hour window every detector applies (TRANSACTION_TIME_WINDOW). */
  const TimeWindow: real := 3600.0

  /** True iff a record with timestamp `t` is inside the window ending at
      `now`: strictly after `now - 3600`. */
  predicate InWindow(t: Option<real>, now: real) {
    TimeOf(t) > now - TimeWindow
  }
}
