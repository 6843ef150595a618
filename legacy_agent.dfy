/** The single-file agent (fetch/agent.py). It repeats, as the same code,
    rules 1 to 3 of fetch/agent/monitoring_rules.py, `update_contract`,
    `get_contract` and `add_transaction` of fetch/agent/contract_data.py
    (its store has no `add_contract`, `get_all_contracts` or
    `remove_contract`), and the monitoring loop of
    fetch/agent/contract_monitor.py with module globals in place of `self`
    fields. It adds the colour table of its Discord notifier.

    Rules 2 and 3 are written out here literally: build the filtered list,
    then count it or scan it. Each is proved equal to the single-pass
    definitions `MonitoringRules.TransactionVolume` and
    `MonitoringRules.SuspiciousCall`. Rule 1 is `MonitoringRules.BalanceDrop`
    as it stands. The agent's globals `contract_data` and `contract_monitor`
    are instances of `ContractStore.ContractData` and
    `Monitor.ContractMonitor`, whose methods model the repeated code. */
module LegacyAgent {
  import opened Common
  import opened Text
  import opened Events
  import opened MonitoringRules
  import opened ContractStore
  import opened Monitor

  /** MONITORING_INTERVAL: five minutes. */
  const MonitoringInterval: real := 300.0

  /* ====================================================================== */
  /* Rules 2 and 3 written out as filter, then count or scan               */
  /* ====================================================================== */

  /** Rule 2 as both files write it: build the list of transactions of the
      last hour, then compare its length with the limit. */
  function CheckTransactionVolume(txs: seq<Transaction>, now: real): Option<Finding> {
    var recent := RecentTransactions(txs, now);
    if |recent| > TransactionVolumeLimit then
      Some(Finding(2, "High Transaction Volume", "Unusual Transaction Activity", Warning,
                   VolumeEvidence(|recent|, TransactionVolumeLimit)))
    else None
  }

  /** The filter-then-count form of rule 2 gives the single-pass result on
      every input. */
  lemma TransactionVolumeCopiesAgree(txs: seq<Transaction>, now: real)
    ensures CheckTransactionVolume(txs, now) == TransactionVolume(txs, now)
  {
    RecentCountIsLength(txs, now);
  }

  /** The calls rule 3 looks at: inside the window and of type
      "function_call", in their original order. */
  function RecentFunctionCalls(calls: seq<FunctionCall>, now: real): (r: seq<FunctionCall>)
    ensures forall c :: c in r <==> c in calls && InWindow(c.timestamp, now) && c.callType == "function_call"
    ensures |r| <= |calls|
  {
    if calls == [] then []
    else if InWindow(calls[0].timestamp, now) && calls[0].callType == "function_call" then
      [calls[0]] + RecentFunctionCalls(calls[1..], now)
    else RecentFunctionCalls(calls[1..], now)
  }

  /** The scan over the filtered list: the first call whose lower-cased name
      contains a suspicious keyword. */
  function FirstSuspiciousName(calls: seq<FunctionCall>): Option<Finding> {
    if calls == [] then None
    else if ContainsAny(Lower(calls[0].functionName), SuspiciousFunctions) then Some(SuspiciousCallFinding(calls[0]))
    else FirstSuspiciousName(calls[1..])
  }

  /** Rule 3 as both files write it: filter, then scan. */
  function CheckFunctionCalls(calls: seq<FunctionCall>, now: real): Option<Finding> {
    FirstSuspiciousName(RecentFunctionCalls(calls, now))
  }

  /** The filter-then-scan form of rule 3 gives the single-pass result on
      every input: it meets the same first flagged call as the single scan
      of `MonitoringRules.SuspiciousCall`. */
  lemma {:induction false} FunctionCallCopiesAgree(calls: seq<FunctionCall>, now: real)
    ensures CheckFunctionCalls(calls, now) == SuspiciousCall(calls, now)
  {
    if calls != [] {
      FunctionCallCopiesAgree(calls[1..], now);
      var rest := RecentFunctionCalls(calls[1..], now);
      if InWindow(calls[0].timestamp, now) && calls[0].callType == "function_call" {
        assert RecentFunctionCalls(calls, now) == [calls[0]] + rest;
        assert ([calls[0]] + rest)[1..] == rest;
      }
    }
  }

  /** The three rule results of a fetched snapshot, computed in the
      filter-first form; they are the results the monitor dispatches. */
  lemma RuleCopiesAgree(balances: map<string, real>, c: Contract, s: Snapshot, now: real)
    ensures [BalanceDrop(s.balance, PreviousBalance(balances, Key(c), s.balance)),
             CheckTransactionVolume(s.transactions, now),
             CheckFunctionCalls(s.functionCalls, now)] == RuleResults(balances, c, s, now)
  {
    TransactionVolumeCopiesAgree(s.transactions, now);
    FunctionCallCopiesAgree(s.functionCalls, now);
  }

  /* ====================================================================== */
  /* The store and the monitor                                              */
  /* ====================================================================== */

  /** The global `contract_monitor = ContractMonitor()`: inactive, with no
      calls made yet, sharing the global store and sleeping five minutes
      between passes. */
  method NewMonitor(data: ContractData) returns (m: ContractMonitor)
    ensures fresh(m)
    ensures !m.monitoringActive && m.effects == []
    ensures m.contractData == data && m.monitoringInterval == MonitoringInterval
  {
    m := new ContractMonitor(data, MonitoringInterval);
  }

  /** `check_rule_2_transactions` over the module globals, computing rule 2
      in the filter-first form: it dispatches what the monitor's own method
      dispatches. */
  method CheckRule2Transactions(m: ContractMonitor, c: Contract, data: Snapshot, now: real, raising: set<Effect>)
    modifies m`effects
    ensures m.effects == old(m.effects) + Dispatched(c, TransactionVolume(data.transactions, now), raising)
  {
    var alert := CheckTransactionVolume(data.transactions, now);
    TransactionVolumeCopiesAgree(data.transactions, now);
    if alert.Some? {
      m.HandleAlert(c, alert.value, raising);
    }
  }

  /** `check_rule_3_functions` over the module globals, computing rule 3
      in the filter-first form: it dispatches what the monitor's own method
      dispatches. */
  method CheckRule3Functions(m: ContractMonitor, c: Contract, data: Snapshot, now: real, raising: set<Effect>)
    modifies m`effects
    ensures m.effects == old(m.effects) + Dispatched(c, SuspiciousCall(data.functionCalls, now), raising)
  {
    var alert := CheckFunctionCalls(data.functionCalls, now);
    FunctionCallCopiesAgree(data.functionCalls, now);
    if alert.Some? {
      m.HandleAlert(c, alert.value, raising);
    }
  }

  /** Every cycle of the agent's loop ends with a five-minute sleep, or with
      a one-minute sleep after a pass that raised. */
  lemma LoopPauses(balances: map<string, real>, cycle: CycleInput)
    ensures var e := CycleOutcome(balances, MonitoringInterval, cycle).effects;
      |e| >= 1 && e[|e| - 1] == Slept(if cycle.passRaised then 60.0 else 300.0)
  {
    CycleEndsWithPause(balances, MonitoringInterval, cycle);
  }

  /* ====================================================================== */
  /* The notifier's colour table                                            */
  /* ====================================================================== */

  const DefaultColor: int := 0x6B7280

  /** The embed colour per severity string. */
  const Palette: map<string, int> := map["danger" := 0xDC2626, "warning" := 0xF59E0B, "info" := 0x3B82F6]

  /** `_get_color`: the palette entry, grey for any other severity string. */
  function Color(severity: string): (r: int)
    ensures r == DefaultColor <==> severity !in Palette
    ensures r in Palette.Values || r == DefaultColor
  {
    if severity in Palette then Palette[severity] else DefaultColor
  }

  /** The three severities a finding carries get three different colours,
      none of them the grey fallback: red for danger, amber for warning and
      blue for info. */
  lemma SeverityColors(a: Severity, b: Severity)
    ensures Color(SeverityName(a)) != DefaultColor
    ensures Color(SeverityName(a)) == Color(SeverityName(b)) <==> a == b
    ensures Color(SeverityName(Danger)) == 0xDC2626
    ensures Color(SeverityName(Warning)) == 0xF59E0B
    ensures Color(SeverityName(Info)) == 0x3B82F6
  {
  }
}
