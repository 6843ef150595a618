/** The seven windowed anomaly detectors, the registry that runs them in rule
    order, and the table that describes them to users (the `MonitoringRules`
    class of fetch/agent/monitoring_rules.py).

    Every detector of the source reads the wall clock itself; here the
    current time is the parameter `now`, which makes each detector a total,
    deterministic function of its inputs. */
module MonitoringRules {
  import opened Common
  import opened Text
  import opened Events

  const BalanceDropThreshold: real := 0.5
  const TransactionVolumeLimit: nat := 10
  const ReentrancyCallLimit: nat := 3
  /** Rule 4 flags calls whose first-to-last span is below one minute. */
  const ReentrancySpanLimit: real := 60.0
  const FlashLoanAmountThreshold: real := 1000000.0
  /** Rule 5 counts follow-on transactions less than five minutes after the loan. */
  const FlashLoanFollowOnWindow: real := 300.0
  const FlashLoanFollowOnMinimum: nat := 3
  const PriceChangeThreshold: real := 0.3

  const SuspiciousFunctions: seq<string> := ["upgrade", "admin", "owner", "destroy", "migrate"]
  const OwnershipKeywords: seq<string> := ["owner", "admin", "permission", "role", "access", "upgrade", "migrate"]

  function Abs(x: real): real { if x < 0.0 then -x else x }

  /* ====================================================================== */
  /* Rule 1: balance drop                                                   */
  /* ====================================================================== */

  /** `check_balance_drop`: no finding for a zero previous balance; otherwise
      a danger finding iff the relative drop exceeds one half. */
  function BalanceDrop(current: real, previous: real): (r: Option<Finding>)
    ensures previous == 0.0 ==> r.None?
    ensures r.Some? ==> r.value.ruleId == 1 && r.value.severity == Danger
    ensures r.Some? ==> r.value.evidence.BalanceEvidence? && r.value.evidence.dropFraction > BalanceDropThreshold
  {
    if previous == 0.0 then None
    else
      var drop := (previous - current) / previous;
      if drop > BalanceDropThreshold then
        Some(Finding(1, "Balance Drop Alert", "Large Balance Drop Detected", Danger,
                     BalanceEvidence(previous, current, drop)))
      else None
  }

  /** The relative-drop test without division: for a positive previous
      balance the rule fires iff the balance fell below half of it (for a
      negative one, iff it rose above half of it). */
  lemma BalanceDropIff(current: real, previous: real)
    ensures BalanceDrop(current, previous).Some? <==>
      (previous > 0.0 && 2.0 * current < previous) || (previous < 0.0 && 2.0 * current > previous)
  {
    if previous != 0.0 {
      var drop := (previous - current) / previous;
      assert drop * previous == previous - current;
      if previous > 0.0 {
        assert drop > 0.5 <==> drop * previous > 0.5 * previous;
      } else {
        assert drop > 0.5 <==> drop * previous < 0.5 * previous;
      }
    }
  }

  /** Scenario: 1000 then 400 is a 60% drop, a danger finding. */
  lemma BalanceDropScenario()
    ensures BalanceDrop(400.0, 1000.0) == Some(Finding(1, "Balance Drop Alert", "Large Balance Drop Detected",
                                                   Danger, BalanceEvidence(1000.0, 400.0, 0.6)))
  {
  }

  /* ====================================================================== */
  /* Rule 2: transaction volume                                             */
  /* ====================================================================== */

  /** The transactions of the last hour: `timestamp > now - 3600`. */
  function RecentTransactions(txs: seq<Transaction>, now: real): seq<Transaction> {
    Within(txs, TxTime, now - TimeWindow)
  }

  /** How many transactions fall inside the window, counted without building
      the filtered list (see `RecentCountIsLength`). */
  function RecentCount(txs: seq<Transaction>, now: real): nat {
    if txs == [] then 0
    else (if InWindow(txs[0].timestamp, now) then 1 else 0) + RecentCount(txs[1..], now)
  }

  lemma {:induction false} RecentCountIsLength(txs: seq<Transaction>, now: real)
    ensures RecentCount(txs, now) == |RecentTransactions(txs, now)|
  {
    if txs != [] {
      RecentCountIsLength(txs[1..], now);
    }
  }

  lemma {:induction false} RecentCountConcat(a: seq<Transaction>, b: seq<Transaction>, now: real)
    ensures RecentCount(a + b, now) == RecentCount(a, now) + RecentCount(b, now)
    decreases |a|
  {
    if a == [] {
      assert a + b == b;
    } else {
      assert (a + b)[1..] == a[1..] + b;
      RecentCountConcat(a[1..], b, now);
    }
  }

  lemma {:induction false} StaleCountIsZero(txs: seq<Transaction>, now: real)
    requires forall i :: 0 <= i < |txs| ==> !InWindow(txs[i].timestamp, now)
    ensures RecentCount(txs, now) == 0
  {
    if txs != [] {
      StaleCountIsZero(txs[1..], now);
    }
  }

  /** `check_transaction_volume`: a warning iff more than ten transactions
      fall inside the window; the finding reports that count. */
  function TransactionVolume(txs: seq<Transaction>, now: real): (r: Option<Finding>)
    ensures r.Some? <==> RecentCount(txs, now) > TransactionVolumeLimit
    ensures r.Some? ==> r.value.ruleId == 2 && r.value.severity == Warning
    ensures r.Some? ==> r.value.evidence == VolumeEvidence(RecentCount(txs, now), TransactionVolumeLimit)
  {
    var count := RecentCount(txs, now);
    if count > TransactionVolumeLimit then
      Some(Finding(2, "High Transaction Volume", "Unusual Transaction Activity", Warning,
                   VolumeEvidence(count, TransactionVolumeLimit)))
    else None
  }

  /** Rule 2 in the source's terms: a warning iff the list of transactions
      of the last hour has more than ten entries, reporting its length. */
  lemma TransactionVolumeIff(txs: seq<Transaction>, now: real)
    ensures TransactionVolume(txs, now).Some? <==> |RecentTransactions(txs, now)| > TransactionVolumeLimit
    ensures TransactionVolume(txs, now).Some? ==>
      TransactionVolume(txs, now).value.evidence == VolumeEvidence(|RecentTransactions(txs, now)|, TransactionVolumeLimit)
  {
    RecentCountIsLength(txs, now);
  }

  /** A list whose every entry is inside the window is kept whole. */
  lemma {:induction false} AllRecentKept(txs: seq<Transaction>, now: real)
    requires forall i :: 0 <= i < |txs| ==> InWindow(txs[i].timestamp, now)
    ensures RecentTransactions(txs, now) == txs
  {
    if txs != [] {
      AllRecentKept(txs[1..], now);
      assert txs == [txs[0]] + txs[1..];
    }
  }

  /** A list whose every entry is outside the window is dropped whole. */
  lemma {:induction false} AllStaleDropped(txs: seq<Transaction>, now: real)
    requires forall i :: 0 <= i < |txs| ==> !InWindow(txs[i].timestamp, now)
    ensures RecentTransactions(txs, now) == []
  {
    if txs != [] {
      AllStaleDropped(txs[1..], now);
    }
  }

  /** Transactions outside the window never change rule 2's verdict, wherever
      they sit in the list. */
  lemma VolumeIgnoresStale(before: seq<Transaction>, stale: seq<Transaction>, after: seq<Transaction>, now: real)
    requires forall i :: 0 <= i < |stale| ==> !InWindow(stale[i].timestamp, now)
    ensures TransactionVolume(before + stale + after, now) == TransactionVolume(before + after, now)
  {
    RecentCountConcat(before + stale, after, now);
    RecentCountConcat(before, stale, now);
    RecentCountConcat(before, after, now);
    StaleCountIsZero(stale, now);
  }

  /** A timestamp exactly one hour old is outside the window, and so is a
      missing one once the clock is past 3600. */
  lemma WindowBoundaryExcluded(now: real)
    ensures !InWindow(Some(now - TimeWindow), now)
    ensures now >= TimeWindow ==> !InWindow(None, now)
  {
  }

  /** Scenario: eleven transactions inside the window and a twelfth
      an hour or more old give a warning reporting eleven. */
  lemma VolumeScenario(recent: seq<Transaction>, stale: Transaction, now: real)
    requires |recent| == 11 && forall i :: 0 <= i < |recent| ==> InWindow(recent[i].timestamp, now)
    requires stale.timestamp.Some? && stale.timestamp.value <= now - TimeWindow
    ensures TransactionVolume(recent + [stale], now) ==
      Some(Finding(2, "High Transaction Volume", "Unusual Transaction Activity", Warning, VolumeEvidence(11, 10)))
  {
    AllRecentKept(recent, now);
    RecentCountIsLength(recent, now);
    VolumeIgnoresStale(recent, [stale], [], now);
    assert recent + [stale] + [] == recent + [stale];
    assert recent + [] == recent;
  }

  /* ====================================================================== */
  /* Rule 3: suspicious function call                                       */
  /* ====================================================================== */

  /** A call rule 3 flags: inside the window, of type "function_call", and
      its lower-cased name contains one of the suspicious keywords. */
  predicate IsSuspiciousCall(c: FunctionCall, now: real) {
    InWindow(c.timestamp, now) && c.callType == "function_call"
    && ContainsAny(Lower(c.functionName), SuspiciousFunctions)
  }

  function SuspiciousCallFinding(c: FunctionCall): Finding {
    Finding(3, "Suspicious Function Call", "Potentially Dangerous Function Called", Warning, CallEvidence(c))
  }

  /** `check_function_calls`: the first flagged call, in list order. Filtering
      the list first and then scanning it, as the source does, meets the same
      first call. */
  function SuspiciousCall(calls: seq<FunctionCall>, now: real): (r: Option<Finding>)
    ensures r.Some? ==> (r.value.ruleId == 3 && r.value.severity == Warning
      && r.value.ruleName == "Suspicious Function Call")
  {
    if calls == [] then None
    else if IsSuspiciousCall(calls[0], now) then Some(SuspiciousCallFinding(calls[0]))
    else SuspiciousCall(calls[1..], now)
  }

  /** Rule 3 reports the FIRST flagged call, and reports nothing iff no call is
      flagged. */
  lemma {:induction false} SuspiciousCallIsFirstMatch(calls: seq<FunctionCall>, now: real)
    ensures SuspiciousCall(calls, now).None? <==> forall i :: 0 <= i < |calls| ==> !IsSuspiciousCall(calls[i], now)
    ensures SuspiciousCall(calls, now).Some? ==>
      exists i :: 0 <= i < |calls| && IsSuspiciousCall(calls[i], now)
        && (forall j :: 0 <= j < i ==> !IsSuspiciousCall(calls[j], now))
        && SuspiciousCall(calls, now).value == SuspiciousCallFinding(calls[i])
  {
    if calls != [] && !IsSuspiciousCall(calls[0], now) {
      SuspiciousCallIsFirstMatch(calls[1..], now);
      if SuspiciousCall(calls[1..], now).Some? {
        var i :| 0 <= i < |calls[1..]| && IsSuspiciousCall(calls[1..][i], now)
          && (forall j :: 0 <= j < i ==> !IsSuspiciousCall(calls[1..][j], now))
          && SuspiciousCall(calls[1..], now).value == SuspiciousCallFinding(calls[1..][i]);
        assert forall j :: 0 <= j < i + 1 ==> !IsSuspiciousCall(calls[j], now) by {
          forall j | 0 <= j < i + 1 ensures !IsSuspiciousCall(calls[j], now) {
            if j > 0 { assert calls[j] == calls[1..][j - 1]; }
          }
        }
      }
      assert forall i :: 1 <= i < |calls| ==> calls[i] == calls[1..][i - 1];
    }
  }

  lemma AdminUpgradeIsSuspicious(t: real, now: real, caller: string)
    requires t > now - TimeWindow
    ensures IsSuspiciousCall(FunctionCall(Some(t), "function_call", "admin_upgrade", caller), now)
  {
    assert Lower("admin_upgrade") == "admin_upgrade";
    assert "admin" <= "admin_upgrade";
    assert SuspiciousFunctions[1] == "admin";
  }

  /* ====================================================================== */
  /* Rule 4: reentrancy                                                     */
  /* ====================================================================== */

  function RecentCalls(calls: seq<FunctionCall>, now: real): seq<FunctionCall> {
    Within(calls, CallTime, now - TimeWindow)
  }

  /** The distinct non-empty function names of `s` in order of first
      occurrence: the key order of the dictionary the source builds. */
  function Names(s: seq<FunctionCall>): seq<string> {
    if s == [] then []
    else
      var before := Names(s[..|s| - 1]);
      var name := s[|s| - 1].functionName;
      if name != "" && name !in before then before + [name] else before
  }

  /** The timestamps, in list order, of the calls of `s` named `name`. */
  function Group(s: seq<FunctionCall>, name: string): seq<real> {
    if s == [] then []
    else Group(s[..|s| - 1], name)
         + (if s[|s| - 1].functionName == name then [TimeOf(s[|s| - 1].timestamp)] else [])
  }

  /** First-to-last span of a sorted list of timestamps. */
  function Span(sorted: seq<real>): real
    requires |sorted| > 0
  {
    sorted[|sorted| - 1] - sorted[0]
  }

  /** The source's test: at least three calls, and after sorting, the last
      minus the first is below 60 seconds. */
  predicate Rapid(ts: seq<real>) {
    |ts| >= ReentrancyCallLimit && Span(SortBy(ts, Identity)) < ReentrancySpanLimit
  }

  /** Every two timestamps lie less than a minute apart. */
  ghost predicate WithinMinute(ts: seq<real>) {
    forall i, j :: 0 <= i < |ts| && 0 <= j < |ts| ==> ts[i] - ts[j] < ReentrancySpanLimit
  }

  function ReentrancyFinding(name: string, ts: seq<real>): Finding
    requires |ts| > 0
  {
    var sorted := SortBy(ts, Identity);
    Finding(4, "Reentrancy Attack Detection", "Potential Reentrancy Attack Detected", Danger,
            ReentrancyEvidence(name, |ts|, Span(sorted), sorted))
  }

  function FirstRapid(recent: seq<FunctionCall>, names: seq<string>): (r: Option<Finding>)
    ensures r.Some? ==> (r.value.ruleId == 4 && r.value.severity == Danger
      && r.value.ruleName == "Reentrancy Attack Detection")
  {
    if names == [] then None
    else if Rapid(Group(recent, names[0])) then Some(ReentrancyFinding(names[0], Group(recent, names[0])))
    else FirstRapid(recent, names[1..])
  }

  /** `check_reentrancy_attack` as a function: the first name, in order of
      first occurrence, whose group of in-window calls is rapid. */
  function Reentrancy(calls: seq<FunctionCall>, now: real): (r: Option<Finding>)
    ensures r.Some? ==> r.value.ruleId == 4 && r.value.severity == Danger
  {
    var recent := RecentCalls(calls, now);
    FirstRapid(recent, Names(recent))
  }

  /** The source's first loop: the in-window calls grouped by non-empty
      name into a dictionary, whose keys come in order of first occurrence. */
  method GroupByName(recent: seq<FunctionCall>) returns (names: seq<string>, groups: map<string, seq<real>>)
    ensures names == Names(recent)
    ensures forall n :: n in groups <==> n in names
    ensures forall n :: n in groups ==> groups[n] == Group(recent, n)
  {
    names := [];
    groups := map[];
    for i := 0 to |recent|
      invariant names == Names(recent[..i])
      invariant forall n :: n in groups <==> n in names
      invariant "" !in groups
      invariant forall n :: n in groups ==> groups[n] == Group(recent[..i], n)
    {
      assert recent[..i + 1][..i] == recent[..i];
      var name := recent[i].functionName;
      if name != "" {
        if name !in groups {
          NamesCoverGroups(recent[..i], name);
          names := names + [name];
          groups := groups[name := []];
        }
        groups := groups[name := groups[name] + [TimeOf(recent[i].timestamp)]];
      }
    }
    assert recent[..|recent|] == recent;
  }

  /** `check_reentrancy_attack`: group the in-window calls by name, then
      test each group in key order. */
  method CheckReentrancyAttack(calls: seq<FunctionCall>, now: real) returns (r: Option<Finding>)
    ensures r == Reentrancy(calls, now)
  {
    var recent := RecentCalls(calls, now);
    var names, groups := GroupByName(recent);
    r := ScanGroups(recent, names, groups);
  }

  /** The source's second loop: the groups in key order, each sorted and
      tested for three or more calls within a minute. */
  method ScanGroups(recent: seq<FunctionCall>, names: seq<string>, groups: map<string, seq<real>>) returns (r: Option<Finding>)
    requires forall n :: n in names ==> n in groups && groups[n] == Group(recent, n)
    ensures r == FirstRapid(recent, names)
  {
    var j := 0;
    while j < |names|
      invariant 0 <= j <= |names|
      invariant FirstRapid(recent, names) == FirstRapid(recent, names[j..])
    {
      assert names[j] in names;
      var timestamps := groups[names[j]];
      FirstRapidStep(recent, names, j);
      if |timestamps| >= ReentrancyCallLimit {
        var sorted := SortBy(timestamps, Identity);
        var timeDiff := sorted[|sorted| - 1] - sorted[0];
        if timeDiff < ReentrancySpanLimit {
          return Some(ReentrancyFinding(names[j], timestamps));
        }
      }
      j := j + 1;
    }
    assert names[j..] == [];
    return None;
  }

  /** One step of the scan over the group keys. */
  lemma FirstRapidStep(recent: seq<FunctionCall>, names: seq<string>, j: nat)
    requires j < |names|
    ensures FirstRapid(recent, names[j..]) ==
      if Rapid(Group(recent, names[j])) then Some(ReentrancyFinding(names[j], Group(recent, names[j])))
      else FirstRapid(recent, names[j + 1..])
  {
    assert names[j..][1..] == names[j + 1..];
  }

  /** A non-empty name is among the group keys iff some call carries it. */
  lemma {:induction false} NamesCoverGroups(s: seq<FunctionCall>, name: string)
    requires name != ""
    ensures name in Names(s) <==> |Group(s, name)| > 0
  {
    if s != [] {
      NamesCoverGroups(s[..|s| - 1], name);
    }
  }

  /** The group keys are distinct. */
  lemma {:induction false} NamesDistinct(s: seq<FunctionCall>)
    ensures forall i, j :: 0 <= i < j < |Names(s)| ==> Names(s)[i] != Names(s)[j]
    ensures forall i :: 0 <= i < |Names(s)| ==> Names(s)[i] != ""
  {
    if s != [] {
      NamesDistinct(s[..|s| - 1]);
    }
  }

  /** The sorted first-to-last span is below a minute iff every two of the
      timestamps are less than a minute apart. */
  lemma RapidIff(ts: seq<real>)
    requires |ts| >= ReentrancyCallLimit
    ensures Rapid(ts) <==> WithinMinute(ts)
  {
    if Rapid(ts) {
      RapidIsWithinMinute(ts);
    }
    if WithinMinute(ts) {
      WithinMinuteIsRapid(ts);
    }
  }

  lemma RapidIsWithinMinute(ts: seq<real>)
    requires Rapid(ts)
    ensures WithinMinute(ts)
  {
    forall i, j | 0 <= i < |ts| && 0 <= j < |ts| ensures ts[i] - ts[j] < ReentrancySpanLimit {
      SortedSpan(ts, Identity, i, j);
    }
  }

  lemma WithinMinuteIsRapid(ts: seq<real>)
    requires |ts| >= ReentrancyCallLimit && WithinMinute(ts)
    ensures Rapid(ts)
  {
    var sorted := SortBy(ts, Identity);
    SortedEndsFrom(ts, Identity);
    var i, j :| 0 <= i < |ts| && 0 <= j < |ts| && sorted[|sorted| - 1] == ts[i] && sorted[0] == ts[j];
    assert ts[i] - ts[j] < ReentrancySpanLimit;
  }


  /** The position in `names` of the first rapid group, `|names|` if none. */
  function FirstRapidIndex(recent: seq<FunctionCall>, names: seq<string>): (k: nat)
    ensures k <= |names|
  {
    if names == [] then 0
    else if Rapid(Group(recent, names[0])) then 0
    else 1 + FirstRapidIndex(recent, names[1..])
  }

  /** `FirstRapid` reports the group at `FirstRapidIndex`, which is the first
      rapid one. */
  lemma {:induction false} FirstRapidAtIndex(recent: seq<FunctionCall>, names: seq<string>)
    ensures forall j :: 0 <= j < FirstRapidIndex(recent, names) ==> !Rapid(Group(recent, names[j]))
    ensures FirstRapidIndex(recent, names) < |names| ==>
      Rapid(Group(recent, names[FirstRapidIndex(recent, names)]))
      && FirstRapid(recent, names) ==
         Some(ReentrancyFinding(names[FirstRapidIndex(recent, names)], Group(recent, names[FirstRapidIndex(recent, names)])))
    ensures FirstRapidIndex(recent, names) == |names| ==> FirstRapid(recent, names).None?
  {
    if names != [] && !Rapid(Group(recent, names[0])) {
      FirstRapidAtIndex(recent, names[1..]);
      assert forall j :: 1 <= j < |names| ==> names[j] == names[1..][j - 1];
    }
  }

  /** Soundness of rule 4: a finding names a function called at least three
      times inside the window, all within one minute, reports that many calls,
      and is the first such name in order of first occurrence. */
  lemma ReentrancySound(calls: seq<FunctionCall>, now: real, f: Finding)
    requires Reentrancy(calls, now) == Some(f)
    ensures f.ruleId == 4 && f.severity == Danger && f.evidence.ReentrancyEvidence?
    ensures exists k :: (0 <= k < |Names(RecentCalls(calls, now))|
      && f.evidence.functionName == Names(RecentCalls(calls, now))[k] && f.evidence.functionName != ""
      && f.evidence.callCount == |Group(RecentCalls(calls, now), Names(RecentCalls(calls, now))[k])| >= ReentrancyCallLimit
      && WithinMinute(Group(RecentCalls(calls, now), Names(RecentCalls(calls, now))[k]))
      && forall j :: 0 <= j < k ==> !Rapid(Group(RecentCalls(calls, now), Names(RecentCalls(calls, now))[j])))
  {
    var recent := RecentCalls(calls, now);
    var names := Names(recent);
    NamesDistinct(recent);
    FirstRapidAtIndex(recent, names);
    var k := FirstRapidIndex(recent, names);
    assert k < |names|;
    RapidIff(Group(recent, names[k]));
  }

  /** Completeness of rule 4: any non-empty name with at least three in-window
      calls, all within one minute, yields a finding. */
  lemma ReentrancyComplete(calls: seq<FunctionCall>, now: real, name: string)
    requires name != ""
    requires |Group(RecentCalls(calls, now), name)| >= ReentrancyCallLimit
    requires WithinMinute(Group(RecentCalls(calls, now), name))
    ensures Reentrancy(calls, now).Some?
  {
    var recent := RecentCalls(calls, now);
    var names := Names(recent);
    NamesCoverGroups(recent, name);
    RapidIff(Group(recent, name));
    var k :| 0 <= k < |names| && names[k] == name;
    FirstRapidAtIndex(recent, names);
    assert FirstRapidIndex(recent, names) <= k;
  }

  function WithdrawCall(t: real): FunctionCall {
    FunctionCall(Some(t), "function_call", "withdraw", "attacker")
  }

  /** Scenario: three calls at t, t+10, t+20 are flagged ... */
  lemma ReentrancyScenarioFlagged(t: real, now: real)
    requires t > now - TimeWindow
    ensures Reentrancy([WithdrawCall(t), WithdrawCall(t + 10.0), WithdrawCall(t + 20.0)], now).Some?
  {
    var calls := [WithdrawCall(t), WithdrawCall(t + 10.0), WithdrawCall(t + 20.0)];
    AllCallsRecent(calls, now);
    assert calls[..2][..1] == calls[..1] && calls[..1][..0] == [] && calls[..3] == calls;
    assert Group(calls[..1], "withdraw") == [t];
    assert Group(calls[..2], "withdraw") == [t, t + 10.0];
    assert Group(calls, "withdraw") == [t, t + 10.0, t + 20.0];
    ReentrancyComplete(calls, now, "withdraw");
  }

  /** ... while the same three calls at t, t+40, t+90 are not. */
  lemma ReentrancyScenarioSpread(t: real, now: real)
    requires t > now - TimeWindow
    ensures Reentrancy([WithdrawCall(t), WithdrawCall(t + 40.0), WithdrawCall(t + 90.0)], now).None?
  {
    var calls := [WithdrawCall(t), WithdrawCall(t + 40.0), WithdrawCall(t + 90.0)];
    AllCallsRecent(calls, now);
    assert calls[..2][..1] == calls[..1] && calls[..1][..0] == [] && calls[..3] == calls;
    assert Names(calls[..1]) == ["withdraw"];
    assert Names(calls[..2]) == ["withdraw"];
    assert Names(calls) == ["withdraw"];
    assert Group(calls[..1], "withdraw") == [t];
    assert Group(calls[..2], "withdraw") == [t, t + 40.0];
    var g := Group(calls, "withdraw");
    assert g == [t, t + 40.0, t + 90.0];
    SpreadNotRapid(g, 2, 0);
    FirstRapidSingle(calls, "withdraw");
  }

  /** With one name only, the scan tests that name's group alone. */
  lemma FirstRapidSingle(recent: seq<FunctionCall>, name: string)
    ensures !Rapid(Group(recent, name)) ==> FirstRapid(recent, [name]).None?
  {
    assert [name][1..] == [];
  }

  /** Two timestamps a minute or more apart rule out a rapid group. */
  lemma SpreadNotRapid(ts: seq<real>, i: int, j: int)
    requires |ts| >= ReentrancyCallLimit && 0 <= i < |ts| && 0 <= j < |ts|
    requires ts[i] - ts[j] >= ReentrancySpanLimit
    ensures !Rapid(ts)
  {
    RapidIff(ts);
  }

  lemma {:induction false} AllCallsRecent(calls: seq<FunctionCall>, now: real)
    requires forall i :: 0 <= i < |calls| ==> InWindow(calls[i].timestamp, now)
    ensures RecentCalls(calls, now) == calls
  {
    if calls != [] {
      AllCallsRecent(calls[1..], now);
      assert calls == [calls[0]] + calls[1..];
    }
  }

  /* ====================================================================== */
  /* Rule 5: flash-loan pattern                                             */
  /* ====================================================================== */

  /** A transaction that can start the pattern: an amount above one million
      and a lower-cased type containing "borrow" or "loan". */
  predicate IsLargeLoan(tx: Transaction) {
    tx.amount > FlashLoanAmountThreshold
    && (IsInfix("borrow", Lower(tx.txType)) || IsInfix("loan", Lower(tx.txType)))
  }

  /** How many of `rest` have a timestamp less than 300 seconds after `base`.
      There is no lower bound: an earlier timestamp counts too. */
  function FollowOns(rest: seq<Transaction>, base: real): (n: nat)
    ensures n <= |rest|
  {
    if rest == [] then 0
    else (if TimeOf(rest[0].timestamp) - base < FlashLoanFollowOnWindow then 1 else 0) + FollowOns(rest[1..], base)
  }

  /** Position `i` of the in-window list starts the pattern: a large loan with
      at least three follow-ons among the LATER positions. */
  predicate FlashPattern(recent: seq<Transaction>, i: int)
    requires 0 <= i < |recent|
  {
    IsLargeLoan(recent[i]) && FollowOns(recent[i + 1..], TimeOf(recent[i].timestamp)) >= FlashLoanFollowOnMinimum
  }

  function FlashLoanFinding(recent: seq<Transaction>, i: int): Finding
    requires 0 <= i < |recent|
  {
    Finding(5, "Flash Loan Attack Pattern", "Potential Flash Loan Attack Pattern", Danger,
            FlashLoanEvidence(recent[i].amount, FollowOns(recent[i + 1..], TimeOf(recent[i].timestamp)),
                              recent[i].timestamp))
  }

  function FlashLoanFrom(recent: seq<Transaction>, i: nat): (r: Option<Finding>)
    ensures r.Some? ==> (r.value.ruleId == 5 && r.value.severity == Danger
      && r.value.ruleName == "Flash Loan Attack Pattern")
    ensures r.Some? ==> (r.value.evidence.FlashLoanEvidence? && r.value.evidence.loanAmount > FlashLoanAmountThreshold
      && r.value.evidence.subsequentTransactions >= FlashLoanFollowOnMinimum)
    decreases |recent| - i
  {
    if i >= |recent| then None
    else if FlashPattern(recent, i) then Some(FlashLoanFinding(recent, i))
    else FlashLoanFrom(recent, i + 1)
  }

  /** `check_flash_loan_attack`: the first in-window position that starts
      the pattern. */
  function FlashLoan(txs: seq<Transaction>, now: real): (r: Option<Finding>)
    ensures r.Some? ==> r.value.ruleId == 5 && r.value.severity == Danger
    ensures r.Some? ==> (r.value.evidence.FlashLoanEvidence? && r.value.evidence.loanAmount > FlashLoanAmountThreshold
      && r.value.evidence.subsequentTransactions >= FlashLoanFollowOnMinimum)
  {
    FlashLoanFrom(RecentTransactions(txs, now), 0)
  }

  /** The first position from `i` on that starts the pattern, `|recent|`
      if none does. */
  function FirstFlashIndex(recent: seq<Transaction>, i: nat): (k: nat)
    requires i <= |recent|
    ensures i <= k <= |recent|
    decreases |recent| - i
  {
    if i == |recent| then i
    else if FlashPattern(recent, i) then i
    else FirstFlashIndex(recent, i + 1)
  }

  /** `FlashLoanFrom` reports the position `FirstFlashIndex`, which is the
      first one from `i` on that starts the pattern. */
  lemma {:induction false} FlashLoanFromFirst(recent: seq<Transaction>, i: nat)
    requires i <= |recent|
    ensures forall j :: i <= j < FirstFlashIndex(recent, i) ==> !FlashPattern(recent, j)
    ensures FirstFlashIndex(recent, i) < |recent| ==>
      FlashPattern(recent, FirstFlashIndex(recent, i))
      && FlashLoanFrom(recent, i) == Some(FlashLoanFinding(recent, FirstFlashIndex(recent, i)))
    ensures FirstFlashIndex(recent, i) == |recent| ==> FlashLoanFrom(recent, i).None?
    decreases |recent| - i
  {
    if i < |recent| && !FlashPattern(recent, i) {
      FlashLoanFromFirst(recent, i + 1);
    }
  }

  /** Rule 5 reports the first in-window position that starts the pattern,
      and nothing iff there is none. */
  lemma FlashLoanIsFirstPattern(txs: seq<Transaction>, now: real)
    ensures FlashLoan(txs, now).None? <==>
      forall k :: 0 <= k < |RecentTransactions(txs, now)| ==> !FlashPattern(RecentTransactions(txs, now), k)
    ensures FlashLoan(txs, now).Some? ==>
      exists k :: 0 <= k < |RecentTransactions(txs, now)| && FlashPattern(RecentTransactions(txs, now), k)
        && (forall j :: 0 <= j < k ==> !FlashPattern(RecentTransactions(txs, now), j))
        && FlashLoan(txs, now).value == FlashLoanFinding(RecentTransactions(txs, now), k)
  {
    var recent := RecentTransactions(txs, now);
    FlashLoanFromFirst(recent, 0);
    var k := FirstFlashIndex(recent, 0);
    if k < |recent| {
      assert FlashPattern(recent, k) && (forall j :: 0 <= j < k ==> !FlashPattern(recent, j));
    }
  }

  /** Follow-ons need no lower bound: a loan followed in the list by three
      transactions stamped well BEFORE it is still flagged. */
  lemma FlashLoanCountsEarlierFollowOns(now: real)
    ensures FlashLoan([Transaction(Some(now - 10.0), 1500000.0, "borrow")]
                      + seq(3, _ => Transaction(Some(now - 1000.0), 50.0, "transfer")), now).Some?
  {
    var loan := Transaction(Some(now - 10.0), 1500000.0, "borrow");
    var early := Transaction(Some(now - 1000.0), 50.0, "transfer");
    var txs := [loan, early, early, early];
    assert txs == [loan] + seq(3, _ => early);
    assert RecentTransactions(txs, now) == txs by {
      AllRecentKept(txs, now);
    }
    assert Lower("borrow") == "borrow";
    assert IsLargeLoan(loan);
    assert txs[1..] == [early, early, early];
    assert [early, early, early][1..] == [early, early] && [early, early][1..] == [early];
    assert FollowOns([early], now - 10.0) == 1;
    assert FollowOns([early, early], now - 10.0) == 2;
    assert FollowOns(txs[1..], now - 10.0) == 3;
    assert FlashPattern(txs, 0);
  }

  /* ====================================================================== */
  /* Rule 6: ownership change                                               */
  /* ====================================================================== */

  /** An event rule 6 flags: inside the window, and its lower-cased event
      type or function name contains one of the seven keywords. */
  predicate IsOwnershipEvent(e: AdminEvent, now: real) {
    InWindow(e.timestamp, now)
    && (ContainsAny(Lower(e.eventType), OwnershipKeywords) || ContainsAny(Lower(e.functionName), OwnershipKeywords))
  }

  function OwnershipFinding(e: AdminEvent): Finding {
    Finding(6, "Ownership Change Alert", "Contract Ownership/Permission Change Detected", Warning,
            OwnershipEvidence(e))
  }

  /** `check_ownership_change`: the first flagged event in list order. */
  function OwnershipChange(events: seq<AdminEvent>, now: real): (r: Option<Finding>)
    ensures r.Some? ==> (r.value.ruleId == 6 && r.value.severity == Warning
      && r.value.ruleName == "Ownership Change Alert")
  {
    if events == [] then None
    else if IsOwnershipEvent(events[0], now) then Some(OwnershipFinding(events[0]))
    else OwnershipChange(events[1..], now)
  }

  /** Rule 6 reports the FIRST flagged event, and nothing iff none is flagged. */
  lemma {:induction false} OwnershipChangeIsFirstMatch(events: seq<AdminEvent>, now: real)
    ensures OwnershipChange(events, now).None? <==> forall i :: 0 <= i < |events| ==> !IsOwnershipEvent(events[i], now)
    ensures OwnershipChange(events, now).Some? ==>
      exists i :: 0 <= i < |events| && IsOwnershipEvent(events[i], now)
        && (forall j :: 0 <= j < i ==> !IsOwnershipEvent(events[j], now))
        && OwnershipChange(events, now).value == OwnershipFinding(events[i])
  {
    if events != [] && !IsOwnershipEvent(events[0], now) {
      OwnershipChangeIsFirstMatch(events[1..], now);
      if OwnershipChange(events[1..], now).Some? {
        var i :| 0 <= i < |events[1..]| && IsOwnershipEvent(events[1..][i], now)
          && (forall j :: 0 <= j < i ==> !IsOwnershipEvent(events[1..][j], now))
          && OwnershipChange(events[1..], now).value == OwnershipFinding(events[1..][i]);
        assert forall j :: 0 <= j < i + 1 ==> !IsOwnershipEvent(events[j], now) by {
          forall j | 0 <= j < i + 1 ensures !IsOwnershipEvent(events[j], now) {
            if j > 0 { assert events[j] == events[1..][j - 1]; }
          }
        }
      }
      assert forall i :: 1 <= i < |events| ==> events[i] == events[1..][i - 1];
    }
  }

  /* ====================================================================== */
  /* Rule 7: price manipulation                                             */
  /* ====================================================================== */

  /** An adjacent pair rule 7 flags: a positive previous price and a relative
      change above 30%. */
  predicate Jump(prev: PriceSample, curr: PriceSample) {
    prev.price > 0.0 && Abs(curr.price - prev.price) > 0.3 * prev.price
  }

  /** For a positive previous price, the relative change `|curr - prev| / prev`
      of the source, compared with the threshold, is the test of `Jump`. */
  lemma JumpIsRelativeChange(prev: PriceSample, curr: PriceSample)
    requires prev.price > 0.0
    ensures Jump(prev, curr) <==> Abs(curr.price - prev.price) / prev.price > PriceChangeThreshold
  {
    var change := Abs(curr.price - prev.price) / prev.price;
    assert change * prev.price == Abs(curr.price - prev.price);
    assert change > PriceChangeThreshold <==> change * prev.price > PriceChangeThreshold * prev.price;
  }

  function PriceFinding(prev: PriceSample, curr: PriceSample): Finding
    requires prev.price > 0.0
  {
    var change := Abs(curr.price - prev.price) / prev.price;
    Finding(7, "Price Manipulation Alert", "Abnormal Price Change Detected", Warning,
            PriceEvidence(prev.price, curr.price, change, curr.price > prev.price,
                          TimeOf(curr.timestamp) - TimeOf(prev.timestamp)))
  }

  /** The in-window samples in timestamp order (a stable sort). */
  function SortedRecentPrices(samples: seq<PriceSample>, now: real): seq<PriceSample> {
    SortBy(Within(samples, SampleTime, now - TimeWindow), SampleKey)
  }

  function PriceScan(sorted: seq<PriceSample>, i: nat): (r: Option<Finding>)
    requires i >= 1
    ensures r.Some? ==> (r.value.ruleId == 7 && r.value.severity == Warning
      && r.value.ruleName == "Price Manipulation Alert")
    decreases |sorted| - i
  {
    if i >= |sorted| then None
    else if Jump(sorted[i - 1], sorted[i]) then Some(PriceFinding(sorted[i - 1], sorted[i]))
    else PriceScan(sorted, i + 1)
  }

  /** `check_price_manipulation` as a function. */
  function PriceManipulation(samples: seq<PriceSample>, now: real): (r: Option<Finding>)
    ensures r.Some? ==> r.value.ruleId == 7 && r.value.severity == Warning
  {
    if |samples| < 2 then None
    else
      var recent := Within(samples, SampleTime, now - TimeWindow);
      if |recent| < 2 then None
      else PriceScan(SortBy(recent, SampleKey), 1)
  }

  /** The source's index loop over the sorted samples. */
  method CheckPriceManipulation(samples: seq<PriceSample>, now: real) returns (r: Option<Finding>)
    ensures r == PriceManipulation(samples, now)
  {
    if |samples| < 2 {
      return None;
    }
    var recent := Within(samples, SampleTime, now - TimeWindow);
    if |recent| < 2 {
      return None;
    }
    var sorted := SortBy(recent, SampleKey);
    for i := 1 to |sorted|
      invariant PriceScan(sorted, 1) == PriceScan(sorted, i)
    {
      var prevPrice := sorted[i - 1].price;
      var currPrice := sorted[i].price;
      if prevPrice > 0.0 {
        var priceChange := Abs(currPrice - prevPrice) / prevPrice;
        JumpIsRelativeChange(sorted[i - 1], sorted[i]);
        if priceChange > PriceChangeThreshold {
          return Some(PriceFinding(sorted[i - 1], sorted[i]));
        }
      }
    }
    return None;
  }

  lemma {:induction false} PriceScanNone(sorted: seq<PriceSample>, i: nat)
    requires i >= 1
    ensures PriceScan(sorted, i).None? <==> forall k :: i <= k < |sorted| ==> !Jump(sorted[k - 1], sorted[k])
    decreases |sorted| - i
  {
    if i < |sorted| && !Jump(sorted[i - 1], sorted[i]) {
      PriceScanNone(sorted, i + 1);
    }
  }

  lemma {:induction false} PriceScanFirstJump(sorted: seq<PriceSample>, i: nat, k: nat)
    requires 1 <= i <= k < |sorted| && Jump(sorted[k - 1], sorted[k])
    requires forall j :: i <= j < k ==> !Jump(sorted[j - 1], sorted[j])
    ensures PriceScan(sorted, i) == Some(PriceFinding(sorted[k - 1], sorted[k]))
    decreases k - i
  {
    if i < k {
      PriceScanFirstJump(sorted, i + 1, k);
    }
  }

  /** Rule 7 reports nothing for fewer than two samples, and otherwise reports
      something iff some adjacent pair of the time-sorted in-window samples
      changes by more than 30% of a positive previous price. */
  lemma PriceManipulationSpec(samples: seq<PriceSample>, now: real)
    ensures |samples| < 2 ==> PriceManipulation(samples, now).None?
    ensures PriceManipulation(samples, now).Some? <==>
      exists k :: 1 <= k < |SortedRecentPrices(samples, now)|
        && Jump(SortedRecentPrices(samples, now)[k - 1], SortedRecentPrices(samples, now)[k])
  {
    var recent := Within(samples, SampleTime, now - TimeWindow);
    if |samples| >= 2 && |recent| >= 2 {
      PriceScanNone(SortedRecentPrices(samples, now), 1);
    }
  }

  /** The finding is for the FIRST qualifying adjacent pair of the time-sorted
      in-window samples; its direction is "increased" iff the later price is
      higher, and the reported change exceeds 30%. */
  lemma PriceFindingIsFirstJump(samples: seq<PriceSample>, now: real, k: nat)
    requires 1 <= k < |SortedRecentPrices(samples, now)|
    requires Jump(SortedRecentPrices(samples, now)[k - 1], SortedRecentPrices(samples, now)[k])
    requires forall j :: 1 <= j < k ==> !Jump(SortedRecentPrices(samples, now)[j - 1], SortedRecentPrices(samples, now)[j])
    ensures PriceManipulation(samples, now) ==
      Some(PriceFinding(SortedRecentPrices(samples, now)[k - 1], SortedRecentPrices(samples, now)[k]))
    ensures var e := PriceManipulation(samples, now).value.evidence;
      e.change > PriceChangeThreshold && (e.increased <==> e.currentPrice > e.previousPrice)
  {
    var sorted := SortedRecentPrices(samples, now);
    var recent := Within(samples, SampleTime, now - TimeWindow);
    assert |recent| == |sorted| && |samples| >= |recent|;
    PriceScanFirstJump(sorted, 1, k);
    JumpIsRelativeChange(sorted[k - 1], sorted[k]);
  }

  /* ====================================================================== */
  /* Registry and descriptor table                                          */
  /* ====================================================================== */

  /** The stand-in previous balance of `check_all_rules`: ten percent above the
      current one. */
  function StandInPrevious(current: real): real { current * 1.1 }

  /** `acc`, extended by the finding of `result` if there is one: one
      `if violation: violations.append(violation)` step. */
  function Appended(acc: seq<Finding>, result: Option<Finding>): seq<Finding> {
    if result.Some? then acc + [result.value] else acc
  }

  /** The non-empty results, in order. */
  function Collect(results: seq<Option<Finding>>): (r: seq<Finding>)
    ensures |r| <= |results|
    ensures forall f :: f in r <==> Some(f) in results
  {
    if results == [] then []
    else
      var prefix := results[..|results| - 1];
      assert results == prefix + [results[|results| - 1]];
      Appended(Collect(prefix), results[|results| - 1])
  }

  /** The seven detector results for one snapshot, in rule order. */
  function DetectorResults(snapshot: Snapshot, now: real): (r: seq<Option<Finding>>)
    ensures |r| == 7
  {
    [ BalanceDrop(snapshot.balance, StandInPrevious(snapshot.balance)),
      TransactionVolume(snapshot.transactions, now),
      SuspiciousCall(snapshot.functionCalls, now),
      Reentrancy(snapshot.functionCalls, now),
      FlashLoan(snapshot.transactions, now),
      OwnershipChange(snapshot.adminEvents, now),
      PriceManipulation(snapshot.priceSamples, now) ]
  }

  /** What `check_all_rules` returns when nothing raises. */
  function AllFindings(snapshot: Snapshot, now: real): seq<Finding> {
    Collect(DetectorResults(snapshot, now))
  }

  /** `check_all_rules`: runs the seven rules in order and appends each
      finding. `failingRule` is the rule, if any, whose evaluation raises:
      the source then discards what it collected and returns []. */
  method CheckAllRules(snapshot: Snapshot, now: real, failingRule: Option<nat>) returns (violations: seq<Finding>)
    ensures violations == if failingRule.Some? && 1 <= failingRule.value <= 7 then [] else AllFindings(snapshot, now)
  {
    if failingRule.Some? && 1 <= failingRule.value <= 7 {
      return [];
    }
    violations := [];
    var current := snapshot.balance;
    var previous := StandInPrevious(current);
    var balanceViolation := BalanceDrop(current, previous);
    violations := Appended(violations, balanceViolation);
    var volumeViolation := TransactionVolume(snapshot.transactions, now);
    violations := Appended(violations, volumeViolation);
    var functionViolation := SuspiciousCall(snapshot.functionCalls, now);
    violations := Appended(violations, functionViolation);
    var reentrancyViolation := CheckReentrancyAttack(snapshot.functionCalls, now);
    violations := Appended(violations, reentrancyViolation);
    var flashLoanViolation := FlashLoan(snapshot.transactions, now);
    violations := Appended(violations, flashLoanViolation);
    var ownershipViolation := OwnershipChange(snapshot.adminEvents, now);
    violations := Appended(violations, ownershipViolation);
    var priceViolation := CheckPriceManipulation(snapshot.priceSamples, now);
    violations := Appended(violations, priceViolation);
    CollectSeven(DetectorResults(snapshot, now));
  }

  /** Collecting seven results is appending them one after the other. */
  lemma CollectSeven(rs: seq<Option<Finding>>)
    requires |rs| == 7
    ensures Collect(rs) ==
      Appended(Appended(Appended(Appended(Appended(Appended(Appended([], rs[0]), rs[1]), rs[2]), rs[3]), rs[4]), rs[5]), rs[6])
  {
    assert rs[..0] == [];
    CollectPrefix(rs, 0);
    CollectPrefix(rs, 1);
    CollectPrefix(rs, 2);
    CollectPrefix(rs, 3);
    CollectPrefix(rs, 4);
    CollectPrefix(rs, 5);
    CollectPrefix(rs, 6);
    assert rs[..7] == rs;
  }

  lemma CollectPrefix(rs: seq<Option<Finding>>, k: nat)
    requires k < |rs|
    ensures Collect(rs[..k + 1]) == Appended(Collect(rs[..k]), rs[k])
  {
    assert rs[..k + 1][..k] == rs[..k];
  }

  /** One append step of the registry: collecting one more result appends
      its finding, if any. */
  lemma CollectSnoc(rs: seq<Option<Finding>>, r: Option<Finding>)
    ensures Collect(rs + [r]) == Appended(Collect(rs), r)
  {
    assert (rs + [r])[..|rs|] == rs;
  }

  /** The rule ids of the collected results increase strictly when the result
      at position k carries id `first + k`. */
  lemma {:induction false} CollectOrdered(rs: seq<Option<Finding>>, first: nat)
    requires forall k :: 0 <= k < |rs| && rs[k].Some? ==> rs[k].value.ruleId == first + k
    ensures forall f :: f in Collect(rs) ==> first <= f.ruleId < first + |rs|
    ensures forall i, j :: 0 <= i < j < |Collect(rs)| ==> Collect(rs)[i].ruleId < Collect(rs)[j].ruleId
  {
    if rs != [] {
      var prefix := rs[..|rs| - 1];
      assert forall k :: 0 <= k < |prefix| ==> prefix[k] == rs[k];
      CollectOrdered(prefix, first);
    }
  }

  /** The registry's findings come in strictly increasing rule-id order, each
      id between 1 and 7, so at most one finding per rule. */
  lemma RegistryOrdered(snapshot: Snapshot, now: real)
    ensures |AllFindings(snapshot, now)| <= 7
    ensures forall f :: f in AllFindings(snapshot, now) ==> 1 <= f.ruleId <= 7
    ensures forall i, j :: 0 <= i < j < |AllFindings(snapshot, now)| ==>
      AllFindings(snapshot, now)[i].ruleId < AllFindings(snapshot, now)[j].ruleId
  {
    DetectorResultsMatchTable(snapshot, now);
    CollectOrdered(DetectorResults(snapshot, now), 1);
  }

  /** The stand-in previous balance is only 10% above the current one, a drop
      of 1/11, so the registry's balance rule can never fire. */
  lemma StandInNeverDrops(current: real)
    ensures BalanceDrop(current, StandInPrevious(current)).None?
  {
    BalanceDropIff(current, StandInPrevious(current));
  }

  lemma RegistryHasNoBalanceFinding(snapshot: Snapshot, now: real)
    ensures forall f :: f in AllFindings(snapshot, now) ==> f.ruleId != 1
  {
    StandInNeverDrops(snapshot.balance);
    var rs := DetectorResults(snapshot, now);
    DetectorResultsMatchTable(snapshot, now);
    forall f | f in AllFindings(snapshot, now) ensures f.ruleId != 1 {
      assert Some(f) in rs;
      var k :| 0 <= k < 7 && rs[k] == Some(f);
      assert k != 0;
      assert MatchesTable(rs[k], k);
    }
  }

  datatype RuleDescriptor = RuleDescriptor(id: nat, name: string, severity: Severity, enabled: bool)

  /** `get_all_rule_descriptions`. The description texts render the
      thresholds and are not modelled. */
  function RuleDescriptions(): (r: seq<RuleDescriptor>)
    ensures |r| == 7
    ensures forall k :: 0 <= k < 7 ==> r[k].id == k + 1 && r[k].enabled
  {
    [ RuleDescriptor(1, "Balance Drop Alert", Danger, true),
      RuleDescriptor(2, "High Transaction Volume", Warning, true),
      RuleDescriptor(3, "Suspicious Function Calls", Warning, true),
      RuleDescriptor(4, "Reentrancy Attack Detection", Danger, true),
      RuleDescriptor(5, "Flash Loan Attack Pattern", Danger, true),
      RuleDescriptor(6, "Ownership Change Alert", Warning, true),
      RuleDescriptor(7, "Price Manipulation Alert", Warning, true) ]
  }

  /** Every finding of the registry has the severity its table entry
      advertises; the names agree too, except rule 3, whose table entry says
      "Suspicious Function Calls" while its findings say "Suspicious Function
      Call". */
  lemma DescriptorsMatchFindings(snapshot: Snapshot, now: real)
    ensures forall f :: f in AllFindings(snapshot, now) ==>
      1 <= f.ruleId <= 7 && RuleDescriptions()[f.ruleId - 1].id == f.ruleId
      && RuleDescriptions()[f.ruleId - 1].severity == f.severity
      && (f.ruleId != 3 ==> RuleDescriptions()[f.ruleId - 1].name == f.ruleName)
  {
    var rs := DetectorResults(snapshot, now);
    DetectorResultsMatchTable(snapshot, now);
    forall f | f in AllFindings(snapshot, now)
      ensures 1 <= f.ruleId <= 7 && RuleDescriptions()[f.ruleId - 1].id == f.ruleId
      ensures RuleDescriptions()[f.ruleId - 1].severity == f.severity
      ensures f.ruleId != 3 ==> RuleDescriptions()[f.ruleId - 1].name == f.ruleName
    {
      assert Some(f) in rs;
      var k :| 0 <= k < 7 && rs[k] == Some(f);
      assert MatchesTable(rs[k], k);
    }
  }

  /** The result at position k of the registry, when present, is a finding of
      rule k + 1 with the severity of table entry k, and its name too except
      for rule 3. */
  ghost predicate MatchesTable(r: Option<Finding>, k: nat)
    requires k < 7
  {
    r.Some? ==> (r.value.ruleId == k + 1 && r.value.severity == RuleDescriptions()[k].severity
      && (k != 2 ==> r.value.ruleName == RuleDescriptions()[k].name))
  }

  lemma DetectorResultsMatchTable(snapshot: Snapshot, now: real)
    ensures forall k :: 0 <= k < 7 ==> MatchesTable(DetectorResults(snapshot, now)[k], k)
  {
    var rs := DetectorResults(snapshot, now);
    assert MatchesTable(rs[0], 0);
    assert MatchesTable(rs[1], 1);
    assert MatchesTable(rs[2], 2);
    assert MatchesTable(rs[3], 3);
    assert MatchesTable(rs[4], 4);
    assert MatchesTable(rs[5], 5);
    assert MatchesTable(rs[6], 6) by {
      if rs[6].Some? {
        assert rs[6].value.ruleName == "Price Manipulation Alert";
      }
    }
  }

}
