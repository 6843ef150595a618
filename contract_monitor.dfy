/** The monitoring loop (`ContractMonitor` of fetch/agent/contract_monitor.py):
    each cycle lists the watched contracts, fetches a snapshot per contract,
    runs rules 1 to 3 on it, dispatches every finding to the alert store and
    the notification channel, and sleeps for the monitoring interval.

    The collaborators are inputs. `CycleInput.contracts` is what
    `get_contracts` returns, `CycleInput.snapshots` maps a contract address
    to the data fetched for it (a missing address is a fetch that returned
    nothing), and the calls made to the outside world are recorded, in
    order, as `Effect`s. */
module Monitor {
  import opened Common
  import opened Text
  import opened Events
  import opened MonitoringRules
  import opened ContractStore

  /** The default `monitoring_interval`: five minutes. */
  const DefaultInterval: real := 300.0

  /** A contract as the canister lists it; a missing field is None. The id
      is kept in its printed form. */
  datatype Contract = Contract(id: Option<string>, address: Option<string>, nickname: Option<string>, status: Option<string>)

  /** `contract.get(field, otherwise)`. */
  function OrElse(field: Option<string>, otherwise: string): string {
    if field.Some? then field.value else otherwise
  }

  /** `str(contract.get('id', ''))`: the key the rules read and write. */
  function Key(c: Contract): string {
    OrElse(c.id, "")
  }

  /** `contract.get('id', 0)`: the id `handle_alert` sends with the alert and
      the status update, so a contract without one is reported as contract 0. */
  function AlertId(c: Contract): string {
    OrElse(c.id, "0")
  }

  /** A call to the outside world. */
  datatype Effect =
    | StoredAlert(contractId: string, ruleId: nat, title: string, severity: Severity)
    | SentNotification(title: string, severity: Severity, contractAddress: string, contractNickname: string, ruleName: string)
    | StatusUpdated(contractId: string, status: string)
    | Slept(seconds: real)

  /** What the collaborators answer during one pass over the contracts: the
      clock, the data fetched per address (a missing address is a fetch that
      returned nothing), and the calls that raise. The shipped clients catch
      their own errors and return False, so for them `raising` is empty; the
      monitor accepts any client objects, and one that raises is modelled by
      putting the call it raises on into `raising`. */
  datatype Answers = Answers(now: real, snapshots: map<string, Snapshot>, raising: set<Effect>)

  /** The coarse status `handle_alert` writes back for a finding. */
  function NewStatus(severity: Severity): (r: string)
    ensures r == "critical" <==> severity == Danger
    ensures r == "warning" <==> severity != Danger
  {
    if severity == Danger then "critical" else "warning"
  }

  /** The three calls `handle_alert` makes for a finding, in order: store the
      alert, send the notification, update the status. */
  function AlertRequests(c: Contract, f: Finding): seq<Effect> {
    [ StoredAlert(AlertId(c), f.ruleId, f.title, f.severity),
      SentNotification(f.title, f.severity, OrElse(c.address, ""), OrElse(c.nickname, "Unknown Contract"), f.ruleName),
      StatusUpdated(AlertId(c), NewStatus(f.severity)) ]
  }

  /** The calls of `calls` that are made when they share one try block: each
      in turn, up to and including the first that raises. */
  function UntilRaise(calls: seq<Effect>, raising: set<Effect>): (r: seq<Effect>)
    ensures r <= calls
    ensures forall i :: 0 <= i < |r| - 1 ==> r[i] !in raising
    ensures |r| < |calls| ==> r != [] && r[|r| - 1] in raising
    ensures (forall i :: 0 <= i < |calls| ==> calls[i] !in raising) ==> r == calls
  {
    if calls == [] then []
    else if calls[0] in raising then [calls[0]]
    else [calls[0]] + UntilRaise(calls[1..], raising)
  }

  /** `handle_alert`: its three calls share one try block, so a call that
      raises ends the handler and the calls after it are not made. */
  function AlertEffects(c: Contract, f: Finding, raising: set<Effect>): seq<Effect> {
    UntilRaise(AlertRequests(c, f), raising)
  }

  /** What a rule check dispatches for a detector result. */
  function Dispatched(c: Contract, alert: Option<Finding>, raising: set<Effect>): seq<Effect> {
    if alert.Some? then AlertEffects(c, alert.value, raising) else []
  }

  /** Each result dispatched in turn. */
  function DispatchAll(c: Contract, results: seq<Option<Finding>>, raising: set<Effect>): seq<Effect> {
    if results == [] then [] else Dispatched(c, results[0], raising) + DispatchAll(c, results[1..], raising)
  }

  lemma DispatchThree(c: Contract, first: Option<Finding>, second: Option<Finding>, third: Option<Finding>, raising: set<Effect>)
    ensures DispatchAll(c, [first, second, third], raising) ==
      Dispatched(c, first, raising) + Dispatched(c, second, raising) + Dispatched(c, third, raising)
  {
    assert [first, second, third][1..] == [second, third];
    assert [second, third][1..] == [third];
    assert [third][1..] == [];
    assert DispatchAll(c, [third], raising) == Dispatched(c, third, raising);
    assert DispatchAll(c, [second, third], raising) == Dispatched(c, second, raising) + Dispatched(c, third, raising);
  }

  /** Dispatching only stores alerts, sends notifications and updates
      statuses; it never sleeps. */
  lemma {:induction false} DispatchNeverSleeps(c: Contract, results: seq<Option<Finding>>, raising: set<Effect>)
    ensures NoSleep(DispatchAll(c, results, raising))
  {
    if results != [] {
      DispatchNeverSleeps(c, results[1..], raising);
      if results[0].Some? {
        var calls := AlertRequests(c, results[0].value);
        var made := AlertEffects(c, results[0].value, raising);
        assert forall i :: 0 <= i < |made| ==> made[i] == calls[i];
      }
    }
  }

  /** The new last-balance map and the effects of some steps of the loop. */
  datatype Outcome = Outcome(balances: map<string, real>, effects: seq<Effect>)

  /** `last_balances.get(contract_id, current_balance)`. */
  function PreviousBalance(balances: map<string, real>, id: string, current: real): real {
    if id in balances then balances[id] else current
  }

  /** `check_rule_1_balance`: compare with the last balance seen (the current
      one when there is none), then record the current one. `handle_alert`
      swallows its own errors, so the balance is recorded in any case. */
  function BalanceRuleOutcome(balances: map<string, real>, c: Contract, s: Snapshot, raising: set<Effect>): Outcome {
    Outcome(balances[Key(c) := s.balance],
            Dispatched(c, BalanceDrop(s.balance, PreviousBalance(balances, Key(c), s.balance)), raising))
  }

  /** The results of rules 1, 2 and 3 for a fetched snapshot, in that order. */
  function RuleResults(balances: map<string, real>, c: Contract, s: Snapshot, now: real): seq<Option<Finding>> {
    [BalanceDrop(s.balance, PreviousBalance(balances, Key(c), s.balance)),
     TransactionVolume(s.transactions, now),
     SuspiciousCall(s.functionCalls, now)]
  }

  /** `check_contract_rules`: nothing when no data could be fetched for the
      contract's address; otherwise rules 1, 2 and 3 in that order. */
  function ContractOutcome(balances: map<string, real>, c: Contract, answers: Answers): Outcome {
    var address := OrElse(c.address, "");
    if address !in answers.snapshots then Outcome(balances, [])
    else
      var s := answers.snapshots[address];
      Outcome(balances[Key(c) := s.balance], DispatchAll(c, RuleResults(balances, c, s, answers.now), answers.raising))
  }

  /** `monitor_contracts`: the contracts in list order, each seeing the
      balances the earlier ones left. */
  function PassOutcome(balances: map<string, real>, contracts: seq<Contract>, answers: Answers): Outcome {
    if contracts == [] then Outcome(balances, [])
    else
      var before := PassOutcome(balances, contracts[..|contracts| - 1], answers);
      var last := ContractOutcome(before.balances, contracts[|contracts| - 1], answers);
      Outcome(last.balances, before.effects + last.effects)
  }

  /** The fixed pause after a cycle that raised. */
  const RecoveryPause: real := 60.0

  /** What the outside world does during one cycle: the contract list, the
      collaborators' answers, whether an exception escapes the pass, and
      whether `stop_monitoring` is called while the loop sleeps after it.
      `monitor_contracts` catches every exception itself, so `passRaised` is
      the only way into the loop's own handler: the pass is taken to have run
      to its end and then raised. */
  datatype CycleInput = CycleInput(contracts: seq<Contract>, answers: Answers, passRaised: bool, stopRequested: bool)

  /** The sleep that ends a cycle: the monitoring interval after a normal
      pass, one minute after one that raised. */
  function CyclePause(interval: real, cycle: CycleInput): real {
    if cycle.passRaised then RecoveryPause else interval
  }

  /** One turn of the loop: a pass over the contracts, then the sleep. */
  function CycleOutcome(balances: map<string, real>, interval: real, cycle: CycleInput): Outcome {
    var pass := PassOutcome(balances, cycle.contracts, cycle.answers);
    Outcome(pass.balances, pass.effects + [Slept(CyclePause(interval, cycle))])
  }

  /** Several turns of the loop, in order. */
  function CyclesOutcome(balances: map<string, real>, interval: real, cycles: seq<CycleInput>): Outcome {
    if cycles == [] then Outcome(balances, [])
    else
      var before := CyclesOutcome(balances, interval, cycles[..|cycles| - 1]);
      var last := CycleOutcome(before.balances, interval, cycles[|cycles| - 1]);
      Outcome(last.balances, before.effects + last.effects)
  }

  /** The index of the first cycle after which a stop is requested, or the
      number of cycles when there is none. */
  function FirstStop(cycles: seq<CycleInput>): (n: nat)
    ensures n <= |cycles|
  {
    if cycles == [] then 0
    else if cycles[0].stopRequested then 0
    else 1 + FirstStop(cycles[1..])
  }

  lemma {:induction false} FirstStopIndex(cycles: seq<CycleInput>, i: nat)
    requires i < |cycles|
    ensures i < FirstStop(cycles) ==> !cycles[i].stopRequested
    ensures i == FirstStop(cycles) ==> cycles[i].stopRequested
  {
    if i > 0 && !cycles[0].stopRequested {
      FirstStopIndex(cycles[1..], i - 1);
    }
  }

  /** How many cycles the loop runs: up to and including the first one after
      which a stop is requested, or all of them. */
  function CyclesRun(cycles: seq<CycleInput>): nat {
    if FirstStop(cycles) < |cycles| then FirstStop(cycles) + 1 else |cycles|
  }

  /** One more contract of a pass. */
  lemma PassStep(balances: map<string, real>, contracts: seq<Contract>, i: nat, answers: Answers)
    requires i < |contracts|
    ensures PassOutcome(balances, contracts[..i + 1], answers) ==
      Outcome(ContractOutcome(PassOutcome(balances, contracts[..i], answers).balances, contracts[i], answers).balances,
              PassOutcome(balances, contracts[..i], answers).effects
              + ContractOutcome(PassOutcome(balances, contracts[..i], answers).balances, contracts[i], answers).effects)
  {
    assert contracts[..i + 1][..i] == contracts[..i];
  }

  /** One more cycle of the loop. */
  lemma CycleStep(balances: map<string, real>, interval: real, cycles: seq<CycleInput>, i: nat)
    requires i < |cycles|
    ensures CyclesOutcome(balances, interval, cycles[..i + 1]) ==
      Outcome(CycleOutcome(CyclesOutcome(balances, interval, cycles[..i]).balances, interval, cycles[i]).balances,
              CyclesOutcome(balances, interval, cycles[..i]).effects
              + CycleOutcome(CyclesOutcome(balances, interval, cycles[..i]).balances, interval, cycles[i]).effects)
  {
    assert cycles[..i + 1][..i] == cycles[..i];
  }

  /** Regrouping a concatenation. Stated once as a lemma so that the loops
      below get the one fact they need without the solver searching the
      sequence axioms in their large contexts. */
  lemma AppendAssociates(a: seq<Effect>, b: seq<Effect>, c: seq<Effect>)
    ensures (a + b) + c == a + (b + c)
  {
  }

  class ContractMonitor {
    const contractData: ContractData
    const monitoringInterval: real
    var monitoringActive: bool
    /** The calls made to the outside world so far, oldest first. */
    var effects: seq<Effect>

    constructor(contractData: ContractData, monitoringInterval: real)
      ensures this.contractData == contractData && this.monitoringInterval == monitoringInterval
      ensures !monitoringActive && effects == []
    {
      this.contractData := contractData;
      this.monitoringInterval := monitoringInterval;
      monitoringActive := false;
      effects := [];
    }

    /** `handle_alert`: store, notify, update the status, stopping at the
        first call that raises. */
    method HandleAlert(c: Contract, alert: Finding, raising: set<Effect>)
      modifies this`effects
      ensures effects == old(effects) + AlertEffects(c, alert, raising)
    {
      var contractAddress := OrElse(c.address, "");
      var contractNickname := OrElse(c.nickname, "Unknown Contract");
      ghost var calls := AlertRequests(c, alert);
      assert calls[1..][1..] == [calls[2]];
      var stored := StoredAlert(AlertId(c), alert.ruleId, alert.title, alert.severity);
      effects := effects + [stored];
      if stored in raising {
        return;
      }
      var sent := SentNotification(alert.title, alert.severity, contractAddress, contractNickname, alert.ruleName);
      effects := effects + [sent];
      if sent in raising {
        assert UntilRaise(calls[1..], raising) == [sent];
        return;
      }
      var newStatus := if alert.severity == Danger then "critical" else "warning";
      effects := effects + [StatusUpdated(AlertId(c), newStatus)];
    }

    method CheckRule1Balance(c: Contract, data: Snapshot, raising: set<Effect>)
      modifies this`effects, contractData`lastBalances
      ensures contractData.lastBalances == BalanceRuleOutcome(old(contractData.lastBalances), c, data, raising).balances
      ensures effects == old(effects) + BalanceRuleOutcome(old(contractData.lastBalances), c, data, raising).effects
    {
      var currentBalance := data.balance;
      var previousBalance := if Key(c) in contractData.lastBalances then contractData.lastBalances[Key(c)] else currentBalance;
      var alert := BalanceDrop(currentBalance, previousBalance);
      if alert.Some? {
        HandleAlert(c, alert.value, raising);
      }
      contractData.lastBalances := contractData.lastBalances[Key(c) := currentBalance];
    }

    method CheckRule2Transactions(c: Contract, data: Snapshot, now: real, raising: set<Effect>)
      modifies this`effects
      ensures effects == old(effects) + Dispatched(c, TransactionVolume(data.transactions, now), raising)
    {
      var alert := TransactionVolume(data.transactions, now);
      if alert.Some? {
        HandleAlert(c, alert.value, raising);
      }
    }

    method CheckRule3Functions(c: Contract, data: Snapshot, now: real, raising: set<Effect>)
      modifies this`effects
      ensures effects == old(effects) + Dispatched(c, SuspiciousCall(data.functionCalls, now), raising)
    {
      var alert := SuspiciousCall(data.functionCalls, now);
      if alert.Some? {
        HandleAlert(c, alert.value, raising);
      }
    }

    method CheckContractRules(c: Contract, answers: Answers)
      modifies this`effects, contractData`lastBalances
      ensures contractData.lastBalances == ContractOutcome(old(contractData.lastBalances), c, answers).balances
      ensures effects == old(effects) + ContractOutcome(old(contractData.lastBalances), c, answers).effects
    {
      var contractAddress := OrElse(c.address, "");
      if contractAddress !in answers.snapshots {
        return;
      }
      var data := answers.snapshots[contractAddress];
      var raising := answers.raising;
      ghost var results := RuleResults(contractData.lastBalances, c, data, answers.now);
      ghost var d0, d1, d2 := Dispatched(c, results[0], raising), Dispatched(c, results[1], raising), Dispatched(c, results[2], raising);
      CheckRule1Balance(c, data, raising);
      assert effects == old(effects) + d0;
      CheckRule2Transactions(c, data, answers.now, raising);
      assert effects == old(effects) + d0 + d1;
      CheckRule3Functions(c, data, answers.now, raising);
      assert effects == old(effects) + d0 + d1 + d2;
      DispatchThree(c, results[0], results[1], results[2], raising);
      AppendAssociates(old(effects), d0 + d1, d2);
      AppendAssociates(old(effects), d0, d1);
    }

    method MonitorContracts(contracts: seq<Contract>, answers: Answers)
      modifies this`effects, contractData`lastBalances
      ensures contractData.lastBalances == PassOutcome(old(contractData.lastBalances), contracts, answers).balances
      ensures effects == old(effects) + PassOutcome(old(contractData.lastBalances), contracts, answers).effects
    {
      if |contracts| == 0 {
        return;
      }
      ghost var start := contractData.lastBalances;
      for i := 0 to |contracts|
        invariant contractData.lastBalances == PassOutcome(start, contracts[..i], answers).balances
        invariant effects == old(effects) + PassOutcome(start, contracts[..i], answers).effects
      {
        ghost var before := PassOutcome(start, contracts[..i], answers);
        ghost var step := ContractOutcome(before.balances, contracts[i], answers);
        ghost var effectsBefore := effects;
        PassStep(start, contracts, i, answers);
        CheckContractRules(contracts[i], answers);
        assert effects == effectsBefore + step.effects;
        AppendAssociates(old(effects), before.effects, step.effects);
      }
      assert contracts[..|contracts|] == contracts;
    }

    /** `start_monitoring`: run cycles, sleeping after each, until a stop is
        requested. The source loops forever; here the loop also ends when the
        supplied cycles run out. */
    method StartMonitoring(cycles: seq<CycleInput>)
      modifies this, contractData`lastBalances
      ensures contractData.lastBalances ==
        CyclesOutcome(old(contractData.lastBalances), monitoringInterval, cycles[..CyclesRun(cycles)]).balances
      ensures effects == old(effects) + CyclesOutcome(old(contractData.lastBalances), monitoringInterval, cycles[..CyclesRun(cycles)]).effects
      ensures monitoringActive <==> FirstStop(cycles) == |cycles|
    {
      ghost var start := contractData.lastBalances;
      monitoringActive := true;
      var i := 0;
      while monitoringActive && i < |cycles|
        invariant 0 <= i <= |cycles|
        invariant monitoringActive <==> i <= FirstStop(cycles)
        invariant !monitoringActive ==> i == FirstStop(cycles) + 1
        invariant contractData.lastBalances == CyclesOutcome(start, monitoringInterval, cycles[..i]).balances
        invariant effects == old(effects) + CyclesOutcome(start, monitoringInterval, cycles[..i]).effects
        decreases |cycles| - i
      {
        ghost var before := CyclesOutcome(start, monitoringInterval, cycles[..i]);
        ghost var step := CycleOutcome(before.balances, monitoringInterval, cycles[i]);
        ghost var effectsBefore := effects;
        FirstStopIndex(cycles, i);
        CycleStep(start, monitoringInterval, cycles, i);
        RunCycle(cycles[i]);
        assert effects == effectsBefore + step.effects;
        AppendAssociates(old(effects), before.effects, step.effects);
        if cycles[i].stopRequested {
          StopMonitoring();
        }
        i := i + 1;
      }
      assert i == CyclesRun(cycles);
    }

    /** One turn of the loop's body with its exception handler. */
    method RunCycle(cycle: CycleInput)
      modifies this`effects, contractData`lastBalances
      ensures contractData.lastBalances == CycleOutcome(old(contractData.lastBalances), monitoringInterval, cycle).balances
      ensures effects == old(effects) + CycleOutcome(old(contractData.lastBalances), monitoringInterval, cycle).effects
    {
      MonitorContracts(cycle.contracts, cycle.answers);
      if cycle.passRaised {
        effects := effects + [Slept(RecoveryPause)];
      } else {
        effects := effects + [Slept(monitoringInterval)];
      }
    }

    method StopMonitoring()
      modifies this`monitoringActive
      ensures !monitoringActive
    {
      monitoringActive := false;
    }
  }

  /* ---------------------------------------------------------------------- */
  /* Properties of the loop                                                 */
  /* ---------------------------------------------------------------------- */

  /** `handle_alert` stores the alert first, then notifies, then updates the
      status, and stops at the first call that raises: the calls made are a
      non-empty prefix of the three, and the status is updated iff neither
      the store nor the notification raised. */
  lemma HandleAlertInOrder(c: Contract, f: Finding, raising: set<Effect>)
    ensures 1 <= |AlertEffects(c, f, raising)| <= 3
    ensures AlertEffects(c, f, raising) == AlertRequests(c, f)[..|AlertEffects(c, f, raising)|]
    ensures AlertEffects(c, f, raising)[0] == StoredAlert(AlertId(c), f.ruleId, f.title, f.severity)
    ensures |AlertEffects(c, f, raising)| == 3 <==>
      AlertRequests(c, f)[0] !in raising && AlertRequests(c, f)[1] !in raising
  {
    var calls := AlertRequests(c, f);
    var made := AlertEffects(c, f, raising);
    assert calls[1..][1..] == [calls[2]];
    assert made == calls[..|made|];
  }

  /** With collaborators that do not raise (the shipped clients report
      failure by returning False), all three calls are made, and the status
      written is "critical" iff the finding is a danger. */
  lemma HandleAlertWithoutRaise(c: Contract, f: Finding)
    ensures AlertEffects(c, f, {}) == AlertRequests(c, f)
    ensures AlertEffects(c, f, {})[2] == StatusUpdated(AlertId(c), if f.severity == Danger then "critical" else "warning")
  {
  }

  /** The three calls share one try block: a notification that raises means
      the status is never updated, although storing the alert succeeded. */
  lemma NotifyRaiseSkipsStatus(c: Contract, f: Finding, raising: set<Effect>)
    requires AlertRequests(c, f)[0] !in raising && AlertRequests(c, f)[1] in raising
    ensures AlertEffects(c, f, raising) == AlertRequests(c, f)[..2]
    ensures forall i :: 0 <= i < |AlertEffects(c, f, raising)| ==> !AlertEffects(c, f, raising)[i].StatusUpdated?
  {
    var calls := AlertRequests(c, f);
    assert calls[1..][1..] == [calls[2]];
  }

  /** The first time a contract is seen there is no earlier balance, the
      current one stands in for it, and rule 1 stays silent; the balance is
      recorded for the next cycle. */
  lemma FirstSightingIsSilent(balances: map<string, real>, c: Contract, s: Snapshot, raising: set<Effect>)
    requires Key(c) !in balances
    ensures BalanceRuleOutcome(balances, c, s, raising).effects == []
    ensures BalanceRuleOutcome(balances, c, s, raising).balances == balances[Key(c) := s.balance]
  {
    BalanceDropIff(s.balance, s.balance);
  }

  /** A contract `add_contract` has just put in the store has a recorded
      balance of 0, and against it rule 1 stays silent whatever balance is
      fetched; the fetched balance is recorded for the next cycle. The store
      being tracked guarantees the monitored contract has a recorded
      balance. */
  lemma AddedContractIsQuiet(data: ContractData, c: Contract, s: Snapshot, raising: set<Effect>)
    requires data.Tracked() && Key(c) in data.contracts
    requires data.lastBalances[Key(c)] == 0.0
    ensures BalanceRuleOutcome(data.lastBalances, c, s, raising).effects == []
    ensures BalanceRuleOutcome(data.lastBalances, c, s, raising).balances == data.lastBalances[Key(c) := s.balance]
  {
  }

  /** Rule 1 compares against the balance recorded in the previous cycle:
      for a positive recorded balance it raises an alert iff the balance has
      fallen below half of it; the alert is stored first and, when no call
      raises, the contract is marked critical. */
  lemma BalanceComparedAcrossCycles(balances: map<string, real>, c: Contract, s: Snapshot, raising: set<Effect>)
    requires Key(c) in balances && balances[Key(c)] > 0.0
    ensures BalanceRuleOutcome(balances, c, s, raising).effects != [] <==> 2.0 * s.balance < balances[Key(c)]
    ensures BalanceRuleOutcome(balances, c, s, raising).effects != [] ==>
      BalanceRuleOutcome(balances, c, s, raising).effects[0] ==
        StoredAlert(AlertId(c), 1, "Large Balance Drop Detected", Danger)
    ensures raising == {} && BalanceRuleOutcome(balances, c, s, raising).effects != [] ==>
      BalanceRuleOutcome(balances, c, s, raising).effects[2] == StatusUpdated(AlertId(c), "critical")
  {
    BalanceDropIff(s.balance, balances[Key(c)]);
    var alert := BalanceDrop(s.balance, balances[Key(c)]);
    if alert.Some? {
      HandleAlertInOrder(c, alert.value, raising);
      HandleAlertWithoutRaise(c, alert.value);
    }
  }

  /** Within a contract's check, a balance drop is dispatched first: its
      calls come before anything rules 2 and 3 report, and the current
      balance is recorded either way. */
  lemma BalanceDropAlertComesFirst(balances: map<string, real>, c: Contract, answers: Answers)
    requires OrElse(c.address, "") in answers.snapshots
    requires Key(c) in balances && balances[Key(c)] > 0.0
    requires 2.0 * answers.snapshots[OrElse(c.address, "")].balance < balances[Key(c)]
    ensures AlertEffects(c, BalanceDrop(answers.snapshots[OrElse(c.address, "")].balance, balances[Key(c)]).value, answers.raising)
      <= ContractOutcome(balances, c, answers).effects
    ensures answers.raising == {} ==>
      |ContractOutcome(balances, c, answers).effects| >= 3
      && ContractOutcome(balances, c, answers).effects[2] == StatusUpdated(AlertId(c), "critical")
    ensures ContractOutcome(balances, c, answers).balances == balances[Key(c) := answers.snapshots[OrElse(c.address, "")].balance]
  {
    var s := answers.snapshots[OrElse(c.address, "")];
    var rs := RuleResults(balances, c, s, answers.now);
    var raising := answers.raising;
    BalanceDropIff(s.balance, balances[Key(c)]);
    DispatchThree(c, rs[0], rs[1], rs[2], raising);
    var first := AlertEffects(c, rs[0].value, raising);
    var rest := Dispatched(c, rs[1], raising) + Dispatched(c, rs[2], raising);
    assert first + Dispatched(c, rs[1], raising) + Dispatched(c, rs[2], raising) == first + rest;
    HandleAlertWithoutRaise(c, rs[0].value);
  }

  /** A contract whose data could not be fetched is skipped entirely. */
  lemma UnfetchedContractIsSkipped(balances: map<string, real>, c: Contract, answers: Answers)
    requires OrElse(c.address, "") !in answers.snapshots
    ensures ContractOutcome(balances, c, answers) == Outcome(balances, [])
  {
  }

  /** A left-to-right pass over `contracts`, threading the balance map
      through `step` and concatenating the effects. */
  function Fold(balances: map<string, real>, contracts: seq<Contract>, step: (map<string, real>, Contract) -> Outcome): Outcome {
    if contracts == [] then Outcome(balances, [])
    else
      var before := Fold(balances, contracts[..|contracts| - 1], step);
      var last := step(before.balances, contracts[|contracts| - 1]);
      Outcome(last.balances, before.effects + last.effects)
  }

  /** The per-contract step of a pass at time `now`. */
  function CheckStep(answers: Answers): (map<string, real>, Contract) -> Outcome {
    (balances: map<string, real>, c: Contract) => ContractOutcome(balances, c, answers)
  }

  lemma {:induction false} PassIsFold(balances: map<string, real>, contracts: seq<Contract>, answers: Answers)
    ensures PassOutcome(balances, contracts, answers) == Fold(balances, contracts, CheckStep(answers))
  {
    if contracts != [] {
      PassIsFold(balances, contracts[..|contracts| - 1], answers);
    }
  }

  lemma {:induction false} FoldIsSequential(balances: map<string, real>, a: seq<Contract>, b: seq<Contract>,
                                            step: (map<string, real>, Contract) -> Outcome, afterA: Outcome)
    requires afterA == Fold(balances, a, step)
    ensures Fold(balances, a + b, step) ==
      Outcome(Fold(afterA.balances, b, step).balances, afterA.effects + Fold(afterA.balances, b, step).effects)
    decreases |b|
  {
    if b == [] {
      assert a + b == a;
    } else {
      assert (a + b)[..|a + b| - 1] == a + b[..|b| - 1];
      assert (a + b)[|a + b| - 1] == b[|b| - 1];
      FoldIsSequential(balances, a, b[..|b| - 1], step, afterA);
    }
  }

  /** A pass over `a + b` is a pass over `a` followed by a pass over `b`
      from the balances `a` left: contracts are processed one at a time, and
      one contract's alerts never change another's checks. */
  lemma PassIsSequential(balances: map<string, real>, a: seq<Contract>, b: seq<Contract>,
                         answers: Answers, afterA: Outcome)
    requires afterA == PassOutcome(balances, a, answers)
    ensures PassOutcome(balances, a + b, answers) ==
      Outcome(PassOutcome(afterA.balances, b, answers).balances,
              afterA.effects + PassOutcome(afterA.balances, b, answers).effects)
  {
    PassIsFold(balances, a, answers);
    PassIsFold(balances, a + b, answers);
    PassIsFold(afterA.balances, b, answers);
    FoldIsSequential(balances, a, b, CheckStep(answers), afterA);
  }

  /** The ids of the contracts of `contracts` whose data was fetched. */
  function FetchedIds(contracts: seq<Contract>, snapshots: map<string, Snapshot>): set<string> {
    set i | 0 <= i < |contracts| && OrElse(contracts[i].address, "") in snapshots :: Key(contracts[i])
  }

  /** After a pass, exactly the fetched contracts have joined the balance
      map, and every other entry keeps its value. */
  lemma {:induction false} PassTracksFetchedContracts(balances: map<string, real>, contracts: seq<Contract>,
                                                      answers: Answers)
    ensures PassOutcome(balances, contracts, answers).balances.Keys == balances.Keys + FetchedIds(contracts, answers.snapshots)
    ensures forall id :: id in balances && id !in FetchedIds(contracts, answers.snapshots) ==>
      PassOutcome(balances, contracts, answers).balances[id] == balances[id]
  {
    if contracts != [] {
      var prefix := contracts[..|contracts| - 1];
      PassTracksFetchedContracts(balances, prefix, answers);
      var last := contracts[|contracts| - 1];
      assert forall i :: 0 <= i < |prefix| ==> prefix[i] == contracts[i];
      if OrElse(last.address, "") in answers.snapshots {
        assert FetchedIds(contracts, answers.snapshots) == FetchedIds(prefix, answers.snapshots) + {Key(last)};
      } else {
        assert FetchedIds(contracts, answers.snapshots) == FetchedIds(prefix, answers.snapshots);
      }
    }
  }

  /** The number of sleeps in a list of effects. */
  function SleepCount(effects: seq<Effect>): nat {
    if effects == [] then 0
    else SleepCount(effects[..|effects| - 1]) + (if effects[|effects| - 1].Slept? then 1 else 0)
  }

  lemma {:induction false} SleepCountConcat(a: seq<Effect>, b: seq<Effect>)
    ensures SleepCount(a + b) == SleepCount(a) + SleepCount(b)
    decreases |b|
  {
    if b == [] {
      assert a + b == a;
    } else {
      assert (a + b)[..|a + b| - 1] == a + b[..|b| - 1];
      SleepCountConcat(a, b[..|b| - 1]);
    }
  }

  /** None of the effects is a sleep. */
  predicate NoSleep(effects: seq<Effect>) {
    forall i :: 0 <= i < |effects| ==> !effects[i].Slept?
  }

  lemma {:induction false} NoSleepCountsZero(effects: seq<Effect>)
    requires NoSleep(effects)
    ensures SleepCount(effects) == 0
    decreases |effects|
  {
    if effects != [] {
      NoSleepCountsZero(effects[..|effects| - 1]);
    }
  }

  /** A pass over the contracts only stores alerts, sends notifications and
      updates statuses; it never sleeps. */
  lemma {:induction false} PassNeverSleeps(balances: map<string, real>, contracts: seq<Contract>,
                                           answers: Answers)
    ensures NoSleep(PassOutcome(balances, contracts, answers).effects)
  {
    if contracts != [] {
      var before := PassOutcome(balances, contracts[..|contracts| - 1], answers);
      var c := contracts[|contracts| - 1];
      PassNeverSleeps(balances, contracts[..|contracts| - 1], answers);
      var address := OrElse(c.address, "");
      if address in answers.snapshots {
        DispatchNeverSleeps(c, RuleResults(before.balances, c, answers.snapshots[address], answers.now), answers.raising);
      }
    }
  }

  /** Every cycle ends with its sleep: the monitoring interval after a
      normal pass, a fixed minute after a pass that raised. */
  lemma CycleEndsWithPause(balances: map<string, real>, interval: real, cycle: CycleInput)
    ensures var e := CycleOutcome(balances, interval, cycle).effects;
      |e| >= 1 && e[|e| - 1] == Slept(if cycle.passRaised then 60.0 else interval)
  {
  }

  /** The loop sleeps exactly once per cycle it runs. */
  lemma {:induction false} OneSleepPerCycle(balances: map<string, real>, interval: real, cycles: seq<CycleInput>)
    ensures SleepCount(CyclesOutcome(balances, interval, cycles).effects) == |cycles|
  {
    if cycles != [] {
      var prefix := cycles[..|cycles| - 1];
      var before := CyclesOutcome(balances, interval, prefix);
      var cycle := cycles[|cycles| - 1];
      var pass := PassOutcome(before.balances, cycle.contracts, cycle.answers);
      var pause := Slept(CyclePause(interval, cycle));
      OneSleepPerCycle(balances, interval, prefix);
      PassNeverSleeps(before.balances, cycle.contracts, cycle.answers);
      NoSleepCountsZero(pass.effects);
      SleepCountConcat(pass.effects, [pause]);
      assert [pause][..0] == [];
      SleepCountConcat(before.effects, pass.effects + [pause]);
    }
  }

  /* ---------------------------------------------------------------------- */
  /* Status summary                                                         */
  /* ---------------------------------------------------------------------- */

  /** `s[:n]`. */
  function Take(s: string, n: nat): (r: string)
    ensures r <= s
    ensures |r| == if |s| <= n then |s| else n
  {
    if |s| <= n then s else s[..n]
  }

  /** One line of the summary: nickname, the first ten characters of the
      address, and the status, with the source's defaults for missing ones. */
  function StatusLine(c: Contract): string {
    "• " + OrElse(c.nickname, "Unknown") + " (" + Take(OrElse(c.address, "N/A"), 10) + "...): " + OrElse(c.status, "N/A")
  }

  function SummaryHeader(count: nat): string {
    "\U{1F426} Monitoring " + NatToString(count) + " contracts:"
  }

  function StatusLines(contracts: seq<Contract>): (r: seq<string>)
    ensures |r| == |contracts|
    ensures forall i :: 0 <= i < |r| ==> r[i] == StatusLine(contracts[i])
  {
    seq(|contracts|, i requires 0 <= i < |contracts| => StatusLine(contracts[i]))
  }

  const NoContractsMessage: string := "No contracts are currently being monitored."
  const StatusErrorMessage: string := "Error retrieving contract status."

  /** `get_status_summary`; `contracts` is None when listing the contracts
      raised. The three outcomes can be told apart: the error message iff
      the listing raised, the "no contracts" message iff the list is empty,
      and otherwise a text opening with the header line. */
  function StatusSummary(contracts: Option<seq<Contract>>): (r: string)
    ensures r == StatusErrorMessage <==> contracts.None?
    ensures r == NoContractsMessage <==> contracts == Some([])
    ensures contracts.Some? && contracts.value != [] ==> SummaryHeader(|contracts.value|) + "\n" <= r
  {
    match contracts
    case None => StatusErrorMessage
    case Some(cs) =>
      if cs == [] then NoContractsMessage
      else
        var r := SummaryHeader(|cs|) + "\n" + Join(StatusLines(cs), '\n');
        assert r[0] == '\U{1F426}';
        r
  }

  /** No field of the contract holds a line break. */
  predicate SingleLine(c: Contract) {
    (c.nickname.Some? ==> '\n' !in c.nickname.value)
    && (c.address.Some? ==> '\n' !in c.address.value)
    && (c.status.Some? ==> '\n' !in c.status.value)
  }

  lemma StatusLineIsSingleLine(c: Contract)
    requires SingleLine(c)
    ensures '\n' !in StatusLine(c)
  {
    var address := OrElse(c.address, "N/A");
    assert forall k :: 0 <= k < |Take(address, 10)| ==> Take(address, 10)[k] == address[k];
  }

  lemma HeaderIsSingleLine(count: nat)
    ensures '\n' !in SummaryHeader(count)
  {
    var digits := NatToString(count);
    assert forall k :: 0 <= k < |digits| ==> IsDigit(digits[k]);
  }

  /** The summary of a non-empty list is a header line reporting how many
      contracts there are, then one line per contract in list order. */
  lemma SummaryLayout(contracts: seq<Contract>)
    requires contracts != []
    requires forall i :: 0 <= i < |contracts| ==> SingleLine(contracts[i])
    ensures Split(StatusSummary(Some(contracts)), '\n') == [SummaryHeader(|contracts|)] + StatusLines(contracts)
    ensures ParseInt(NatToString(|contracts|)) == Some(|contracts|)
  {
    var lines := StatusLines(contracts);
    forall i | 0 <= i < |lines| ensures '\n' !in lines[i] {
      StatusLineIsSingleLine(contracts[i]);
    }
    SplitJoin(lines, '\n');
    HeaderIsSingleLine(|contracts|);
    SplitAfterHead(SummaryHeader(|contracts|), '\n', Join(lines, '\n'));
    assert SummaryHeader(|contracts|) + "\n" + Join(lines, '\n') == SummaryHeader(|contracts|) + ['\n'] + Join(lines, '\n');
    ParseIntToString(|contracts|);
  }
}
