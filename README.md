# Canary contract guardian: the detection core in Dafny

This project models the anomaly-detection core of the Canary contract
guardian. The guardian is a Python agent that watches smart contracts on the
Internet Computer and raises alerts. The model covers:

- **The seven windowed detectors** of `fetch/agent/monitoring_rules.py`:
  balance drop, transaction volume, suspicious function call, reentrancy,
  flash loan, ownership change and price manipulation. It also covers
  `check_all_rules`, which runs them in rule order, and the rule description
  table (`MonitoringRules`, in `monitoring_rules.dfy`).
- **The in-memory store** `ContractData` of `fetch/agent/contract_data.py`
  (`ContractStore`, in `contract_data.dfy`).
- **The monitoring loop** `ContractMonitor` of `fetch/agent/contract_monitor.py`
  (`Monitor`, in `contract_monitor.dfy`). Each cycle:
  - lists the contracts;
  - fetches a snapshot for each;
  - runs rules 1 to 3;
  - hands every finding to `handle_alert`, which stores the alert, notifies
    and updates the contract's status;
  - then sleeps.
- **The single-file agent** `fetch/agent.py` (`LegacyAgent`, in
  `legacy_agent.dfy`). It repeats rules 1 to 3, part of the store and the
  monitor as the same code as the modular files. `LegacyAgent` writes rules
  2 and 3 out literally (filter into a list, then count or scan) and proves
  them equal to the single-pass `MonitoringRules.TransactionVolume` and
  `MonitoringRules.SuspiciousCall`. The module also holds the notifier's
  colour table.
- **The standalone delta monitor** `simple_monitor.py` (`SimpleMonitor`, in
  `simple_monitor.dfy`). It parses the `dfx` reply for a balance and a
  transaction count, compares them with the previous tick and files alerts.

Shared pieces live in three further modules:

- `Common` (`common.dfy`) holds `Option` and the strict time filter `Within`.
  It also holds a stable insertion sort, used for Python's `list.sort`.
- `Text` (`text.dfy`) holds the string operations the source relies on:
  - ASCII lower-casing;
  - substring test;
  - `split`/`join`;
  - whitespace tokens;
  - `int()`/`str()` on integers.
- `Events` (`events.dfy`) holds the record types, `Finding` and the one-hour
  window.

How the model stands in for the outside world:

- **The clock is the parameter `now`.** Every "within the last hour" test is
  `timestamp > now - 3600`. A missing timestamp reads as 0.
- **What the collaborators answer is an input.** The canister client, the
  data fetcher and the notifier become `Answers` and `CycleInput`: the
  contract list, the snapshots fetched per address and the calls that raise.
- **What the monitors do to the outside world is recorded.** Stored alerts,
  notifications, status updates and sleeps are appended in order to an
  `effects` sequence.
- **Each loop is proved against a fold.** A fold over the inputs from the
  back (`PassOutcome`, `CyclesOutcome`, `LoopOutcome`) specifies each loop.
  The properties are then proved about those functions.

Where the code and its design description disagree, the model follows the
code:

- **`handle_alert` is one try block.** The stored alert, the notification
  and the status update are therefore not independent: a call that raises
  skips the ones after it (`Monitor.NotifyRaiseSkipsStatus`). The shipped
  clients catch their own errors and return False, so with them all three
  calls are always made (`Monitor.HandleAlertWithoutRaise`).
- **There is no escalation.** No file has a consecutive-danger counter or
  an automatic pause, so none is modelled.
- **`check_all_rules` never reports a balance drop.** Its stand-in previous
  balance is 1.1 times the current one, so rule 1 can never fire there
  (`MonitoringRules.StandInNeverDrops`).

## Model

| member | source | states |
|---|---|---|
| `Common.Within` | fetch/agent/monitoring_rules.py:37 | the time filter keeps exactly the entries stamped strictly after the cutoff (a missing stamp reads as 0) and never lengthens the list |
| `Common.WithinConcat` | fetch/agent/contract_data.py:51-54 | filtering a concatenation is concatenating the filtered parts |
| `Common.SortBy` | fetch/agent/monitoring_rules.py:204 | the sort returns a list of the same length, sorted by the key |
| `Common.SortByStable` | fetch/agent/monitoring_rules.py:204 | the sort is stable: for every key value, the elements carrying it come out in their input order (price samples sharing a timestamp keep their order) |
| `Common.SortByPermutes` | fetch/agent/monitoring_rules.py:204 | the sort returns a permutation of its input (same multiset) |
| `Common.SortedSpan` | fetch/agent/monitoring_rules.py:98-99 | in a sorted list, last minus first bounds the distance of every two entries |
| `Text.Lower` | fetch/agent/monitoring_rules.py:59 | lower-casing keeps the length and maps each character through ASCII lower-case |
| `Text.LowerIdempotent` | fetch/agent/monitoring_rules.py:166-167 | lower-casing twice is lower-casing once |
| `Text.InfixIffOccurs` | fetch/agent/monitoring_rules.py:60 | Python's `in` on strings holds iff the needle occurs at some position |
| `Text.Split` | simple_monitor.py:52 | `split(sep)` returns at least one piece and no piece holds the separator; a text without the separator is returned whole, one with it gives two or more pieces |
| `Text.SplitJoin` | simple_monitor.py:52 | splitting the join of separator-free pieces gives the pieces back |
| `Text.FirstToken` | simple_monitor.py:58 | `strip().split()[0]` is the first maximal run of non-space characters: only whitespace precedes it, and whitespace or the end of the text follows it; there is none (Python's IndexError) iff the text is blank |
| `Text.Without` | simple_monitor.py:58 | `replace(c, '')` leaves no `c`, and leaves a text without `c` unchanged |
| `Text.WithoutKeepsOthers` | simple_monitor.py:58 | `replace(c, '')` keeps every other character as often as it occurs (the multiset of the text with `c` removed) |
| `Text.WithoutConcat` | simple_monitor.py:58 | `replace(c, '')` works piece by piece, so the kept characters stay in order |
| `Text.ParseInt` | simple_monitor.py:58 | `int()` succeeds iff the text is an optional sign followed by at least one digit; the value is the decimal value of the digits, negated after a `-` |
| `Text.ParseIntToString` | fetch/agent/contract_monitor.py:228 | `int(str(n)) == n` for every integer |
| `Text.GroupedWithoutSeparators` | simple_monitor.py:58 | deleting the `_` separators from `dfx`'s grouped rendering of a `nat` (`1_000_000`) leaves its plain decimal digits |
| `Text.ParseGroupedNat` | simple_monitor.py:58 | `int(g.replace('_', ''))` gives `n` back for the grouped rendering `g` of every `nat` `n` |
| `MonitoringRules.BalanceDrop` | fetch/agent/monitoring_rules.py:16-33 | no finding for a zero previous balance; a finding is rule 1, danger, with a drop fraction above 0.5 |
| `MonitoringRules.BalanceDropIff` | fetch/agent/monitoring_rules.py:19-20 | for a positive previous balance the rule fires iff the balance fell below half of it (both directions; the negative case too) |
| `MonitoringRules.BalanceDropScenario` | fetch/agent/monitoring_rules.py:16-33 | 1000 then 400 is a 60% drop and a danger finding |
| `MonitoringRules.TransactionVolume` | fetch/agent/monitoring_rules.py:34-52 | a finding iff more than ten transactions are inside the window; it is rule 2, warning, and reports the count |
| `MonitoringRules.TransactionVolumeIff` | fetch/agent/monitoring_rules.py:37-38 | the same verdict in the source's terms: the filtered list has more than ten entries, and its length is reported |
| `MonitoringRules.VolumeIgnoresStale` | fetch/agent/monitoring_rules.py:37 | transactions outside the window never change rule 2's verdict, wherever they sit |
| `MonitoringRules.WindowBoundaryExcluded` | fetch/agent/monitoring_rules.py:37 | a timestamp exactly an hour old and a missing timestamp are outside the window |
| `MonitoringRules.VolumeScenario` | fetch/agent/monitoring_rules.py:34-52 | eleven recent transactions and one stale one give a warning reporting eleven |
| `MonitoringRules.SuspiciousCall` | fetch/agent/monitoring_rules.py:53-74 | a finding is rule 3, warning, "Suspicious Function Call" |
| `MonitoringRules.SuspiciousCallIsFirstMatch` | fetch/agent/monitoring_rules.py:57-60 | no finding iff no in-window `function_call` has a suspicious name; otherwise the finding is for the first such call |
| `MonitoringRules.AdminUpgradeIsSuspicious` | fetch/agent/monitoring_rules.py:58-60 | a recent call named `admin_upgrade` is flagged |
| `MonitoringRules.Reentrancy` | fetch/agent/monitoring_rules.py:76-114 | a finding is rule 4, danger |
| `MonitoringRules.GroupByName` | fetch/agent/monitoring_rules.py:86-92 | the loop yields the distinct non-empty names in first-seen order and, per name, its timestamps in list order |
| `MonitoringRules.CheckReentrancyAttack` | fetch/agent/monitoring_rules.py:76-114 | the grouping loop and the scan over groups return exactly `Reentrancy` |
| `MonitoringRules.ScanGroups` | fetch/agent/monitoring_rules.py:95-114 | the scan over the groups in key order returns the first group with three or more calls whose sorted span is below 60 s |
| `MonitoringRules.NamesCoverGroups` | fetch/agent/monitoring_rules.py:88-91 | a non-empty name is a group key iff some in-window call carries it |
| `MonitoringRules.NamesDistinct` | fetch/agent/monitoring_rules.py:90-91 | the group keys are distinct and non-empty |
| `MonitoringRules.RapidIff` | fetch/agent/monitoring_rules.py:96-100 | for three or more calls, sorted last minus first below 60 iff every two calls lie less than a minute apart |
| `MonitoringRules.FirstRapidAtIndex` | fetch/agent/monitoring_rules.py:95-101 | the scan reports the first group, in first-seen order, that is rapid |
| `MonitoringRules.ReentrancySound` | fetch/agent/monitoring_rules.py:95-113 | a finding names a function with at least three in-window calls, all within a minute, and reports them sorted |
| `MonitoringRules.ReentrancyComplete` | fetch/agent/monitoring_rules.py:95-113 | any name with three or more in-window calls all within a minute gives a finding |
| `MonitoringRules.ReentrancyScenarioFlagged` | fetch/agent/monitoring_rules.py:96-100 | calls at t, t+10 and t+20 are flagged |
| `MonitoringRules.ReentrancyScenarioSpread` | fetch/agent/monitoring_rules.py:96-100 | calls at t, t+40 and t+90 are not |
| `MonitoringRules.FlashLoan` | fetch/agent/monitoring_rules.py:116-152 | a finding is rule 5, danger, for a loan above one million |
| `MonitoringRules.FlashLoanFromFirst` | fetch/agent/monitoring_rules.py:126-139 | the scan reports the first position that starts the pattern |
| `MonitoringRules.FlashLoanIsFirstPattern` | fetch/agent/monitoring_rules.py:126-139 | no finding iff no in-window position starts the pattern; otherwise the first one is reported |
| `MonitoringRules.FlashLoanCountsEarlierFollowOns` | fetch/agent/monitoring_rules.py:133-136 | follow-ons stamped before the loan count too (only an upper bound of 300 s applies) |
| `MonitoringRules.OwnershipChange` | fetch/agent/monitoring_rules.py:154-186 | a finding is rule 6, warning |
| `MonitoringRules.OwnershipChangeIsFirstMatch` | fetch/agent/monitoring_rules.py:165-171 | no finding iff no in-window event has a keyword in its type or function name; otherwise the first such event |
| `MonitoringRules.JumpIsRelativeChange` | fetch/agent/monitoring_rules.py:211-214 | for a positive previous price a pair is flagged iff its relative change exceeds 0.3 |
| `MonitoringRules.PriceManipulation` | fetch/agent/monitoring_rules.py:188-230 | a finding is rule 7, warning |
| `MonitoringRules.CheckPriceManipulation` | fetch/agent/monitoring_rules.py:188-230 | the sort and the index loop return exactly `PriceManipulation` |
| `MonitoringRules.PriceManipulationSpec` | fetch/agent/monitoring_rules.py:193-214 | fewer than two samples give nothing; otherwise a finding iff some adjacent pair of the time-sorted in-window samples jumps |
| `MonitoringRules.PriceFindingIsFirstJump` | fetch/agent/monitoring_rules.py:207-229 | the finding is for the first jumping pair and reports its prices, direction and time difference |
| `MonitoringRules.CheckAllRules` | fetch/agent/monitoring_rules.py:232-374 | the appended violations are the non-empty results in rule order, or nothing when a detector raises |
| `MonitoringRules.Collect` | fetch/agent/monitoring_rules.py:251-365 | the collected findings are exactly the present results |
| `MonitoringRules.RegistryOrdered` | fetch/agent/monitoring_rules.py:247-367 | at most seven findings, ids between 1 and 7, strictly increasing |
| `MonitoringRules.StandInNeverDrops` | fetch/agent/monitoring_rules.py:245-252 | a stand-in previous balance 10% above the current one never triggers rule 1 |
| `MonitoringRules.RegistryHasNoBalanceFinding` | fetch/agent/monitoring_rules.py:245-252 | the registry never reports rule 1 |
| `MonitoringRules.RuleDescriptions` | fetch/agent/monitoring_rules.py:376-431 | seven entries with ids 1 to 7, all enabled |
| `MonitoringRules.DescriptorsMatchFindings` | fetch/agent/monitoring_rules.py:376-431 | each registry finding has the severity of its table entry and, except rule 3, its name |
| `MonitoringRules.DetectorResultsMatchTable` | fetch/agent/monitoring_rules.py:376-431 | every detector's finding agrees with its table entry in id and severity |
| `ContractStore.ContractData.constructor` | fetch/agent/contract_data.py:5-9 | the store starts empty |
| `ContractStore.ContractData.AddContract` | fetch/agent/contract_data.py:11-23 | the record is rewritten as healthy; an existing history and balance are kept, missing ones start empty and at 0 |
| `ContractStore.ContractData.AllContracts` | fetch/agent/contract_data.py:25-27 | the map from every monitored id to its nickname |
| `ContractStore.ContractData.RemoveContract` | fetch/agent/contract_data.py:29-38 | true iff the id was monitored; its record, history and last balance are then gone, else nothing changes |
| `ContractStore.ContractData.UpdateContract` | fetch/agent/contract_data.py:40-41 | only the record of that id changes |
| `ContractStore.ContractData.GetContract` | fetch/agent/contract_data.py:43-44 | the record, or None iff the id is unknown |
| `ContractStore.ContractData.AddTransaction` | fetch/agent/contract_data.py:46-54 | the contract's history becomes the old one plus the transaction, pruned to the last 24 hours; other histories are untouched |
| `ContractStore.AddedTransactionIsLast` | fetch/agent/contract_data.py:49-54 | a recent transaction ends up last after the pruned old history; an old one is dropped |
| `ContractStore.PruneTwiceIsPruneOnce` | fetch/agent/contract_data.py:51-54 | pruning again at the same time changes nothing |
| `Monitor.NewStatus` | fetch/agent/contract_monitor.py:203 | the status is "critical" iff the severity is danger, else "warning" |
| `Monitor.UntilRaise` | fetch/agent/contract_monitor.py:167-207 | the calls made in one try block are a prefix that stops at the first call that raises |
| `Monitor.ContractMonitor.constructor` | fetch/agent/contract_monitor.py:13-19 | a new monitor is inactive, has the given interval and has made no calls |
| `Monitor.ContractMonitor.HandleAlert` | fetch/agent/contract_monitor.py:165-207 | store, notify and update the status, in that order, stopping at a call that raises |
| `Monitor.ContractMonitor.CheckRule1Balance` | fetch/agent/contract_monitor.py:117-135 | compares with the last balance (the current one when unknown), dispatches a drop, and records the current balance |
| `Monitor.ContractMonitor.CheckRule2Transactions` | fetch/agent/contract_monitor.py:137-149 | dispatches rule 2's finding, if any |
| `Monitor.ContractMonitor.CheckRule3Functions` | fetch/agent/contract_monitor.py:151-163 | dispatches rule 3's finding, if any |
| `Monitor.ContractMonitor.CheckContractRules` | fetch/agent/contract_monitor.py:51-75 | an unfetched contract is skipped; otherwise rules 1, 2 and 3 are dispatched in that order |
| `Monitor.ContractMonitor.MonitorContracts` | fetch/agent/contract_monitor.py:34-49 | the contracts are checked in list order, each seeing the balances the earlier ones left |
| `Monitor.ContractMonitor.StartMonitoring` | fetch/agent/contract_monitor.py:21-32 | sets the flag and runs cycles until the one after which a stop is requested; the flag is left set iff none was |
| `Monitor.ContractMonitor.RunCycle` | fetch/agent/contract_monitor.py:26-32 | a pass, then a sleep of the interval, or of 60 s after a pass that raised |
| `Monitor.ContractMonitor.StopMonitoring` | fetch/agent/contract_monitor.py:209-212 | clears the flag |
| `Monitor.HandleAlertInOrder` | fetch/agent/contract_monitor.py:174-204 | the calls are a non-empty prefix of store, notify, status; the store comes first; all three are made iff neither the store nor the notification raised |
| `Monitor.HandleAlertWithoutRaise` | fetch/agent/contract_monitor.py:174-204 | with collaborators that do not raise, all three calls are made and the status is critical iff danger |
| `Monitor.NotifyRaiseSkipsStatus` | fetch/agent/contract_monitor.py:167-207 | a notification that raises leaves the alert stored and the status not updated |
| `Monitor.DispatchNeverSleeps` | fetch/agent/contract_monitor.py:165-207 | dispatching findings never sleeps |
| `Monitor.FirstSightingIsSilent` | fetch/agent/contract_monitor.py:120-132 | a contract seen for the first time raises no balance alert, and its balance is recorded |
| `Monitor.AddedContractIsQuiet` | fetch/agent/contract_data.py:11-23 | a monitored contract of a tracked store whose recorded balance is the 0 `add_contract` gives it raises no balance alert, whatever balance is fetched, and the fetched balance is recorded |
| `Monitor.BalanceComparedAcrossCycles` | fetch/agent/contract_monitor.py:120-132 | against a positive recorded balance, rule 1 alerts iff the balance fell below half; the alert is stored first and the contract is marked critical |
| `Monitor.BalanceDropAlertComesFirst` | fetch/agent/contract_monitor.py:65-72 | a balance-drop alert's calls come before anything rules 2 and 3 dispatch, and the balance is recorded |
| `Monitor.UnfetchedContractIsSkipped` | fetch/agent/contract_monitor.py:59-63 | a contract whose data could not be fetched changes nothing |
| `Monitor.PassIsSequential` | fetch/agent/contract_monitor.py:45-46 | a pass over `a + b` is a pass over `a` followed by one over `b` |
| `Monitor.PassTracksFetchedContracts` | fetch/agent/contract_monitor.py:45-46 | after a pass, exactly the fetched contracts have joined the balance map, and other balances are kept |
| `Monitor.PassNeverSleeps` | fetch/agent/contract_monitor.py:34-49 | a pass over the contracts never sleeps |
| `Monitor.CycleEndsWithPause` | fetch/agent/contract_monitor.py:28-32 | every cycle ends with a sleep of the interval, or of 60 s after a pass that raised |
| `Monitor.OneSleepPerCycle` | fetch/agent/contract_monitor.py:26-32 | the loop sleeps exactly once per cycle |
| `Monitor.Take` | fetch/agent/contract_monitor.py:226 | `s[:n]` is the prefix of `s` of length `min(n, len(s))` |
| `Monitor.StatusLines` | fetch/agent/contract_monitor.py:221-226 | one status line per contract, in order |
| `Monitor.StatusSummary` | fetch/agent/contract_monitor.py:214-231 | the error message iff listing the contracts raised, the "no contracts" message iff the list is empty, otherwise a text opening with the header line |
| `Monitor.SummaryLayout` | fetch/agent/contract_monitor.py:214-228 | a non-empty summary splits into a header that reports the count, then one line per contract |
| `LegacyAgent.TransactionVolumeCopiesAgree` | fetch/agent.py:329-353 | rule 2 written as filter-then-count equals the single-pass `MonitoringRules.TransactionVolume` on every input |
| `LegacyAgent.RecentFunctionCalls` | fetch/agent.py:361-365 | the filter keeps exactly the in-window calls of type `function_call` |
| `LegacyAgent.FunctionCallCopiesAgree` | fetch/agent.py:355-386 | rule 3 written as filter-then-scan equals the single-pass `MonitoringRules.SuspiciousCall` on every input |
| `LegacyAgent.RuleCopiesAgree` | fetch/agent.py:302-386 | the three rule results computed in the filter-first form are the ones the monitor dispatches |
| `LegacyAgent.NewMonitor` | fetch/agent.py:394-398 | the global monitor starts inactive, with a five-minute interval |
| `LegacyAgent.CheckRule2Transactions` | fetch/agent.py:521-533 | over the module globals, with rule 2 in the filter-first form, it dispatches what the monitor's own method dispatches |
| `LegacyAgent.CheckRule3Functions` | fetch/agent.py:535-547 | over the module globals, with rule 3 in the filter-first form, it dispatches what the monitor's own method dispatches |
| `LegacyAgent.LoopPauses` | fetch/agent.py:400-411 | each cycle ends with a 300 s sleep, or 60 s after a pass that raised |
| `LegacyAgent.Color` | fetch/agent.py:286-293 | the grey fallback iff the severity string is not in the palette |
| `LegacyAgent.SeverityColors` | fetch/agent.py:288-293 | danger is red, warning amber and info blue, all distinct and none grey |
| `SimpleMonitor.ParseLineEffect` | simple_monitor.py:56-60 | a line fails iff it names a key whose value does not parse; otherwise it sets that field |
| `SimpleMonitor.MalformedLineFails` | simple_monitor.py:50-65 | one malformed line makes the whole parse fail |
| `SimpleMonitor.ParseLinesSpec` | simple_monitor.py:52-62 | the parse fails iff some key line is malformed; otherwise each field is the value of its last line, None if absent |
| `SimpleMonitor.ParseFailureSticks` | simple_monitor.py:56-65 | once a prefix fails, the whole reply fails |
| `SimpleMonitor.FieldLineValue` | simple_monitor.py:58 | the value is read back from a rendered `name = n : nat;` line, whose digits `dfx` groups with `_` |
| `SimpleMonitor.RenderedInfoRoundTrip` | simple_monitor.py:45-66 | parsing a rendered record, its numbers grouped as `dfx` prints them, gives back its balance and transaction count |
| `SimpleMonitor.BalanceCheckIff` | simple_monitor.py:82-95 | alerts iff the previous balance is positive and the current one is below half of it; it raises iff the previous is 0 and the current negative |
| `SimpleMonitor.SimpleContractMonitor.constructor` | simple_monitor.py:20-25 | starts with no remembered values and the flag set |
| `SimpleMonitor.SimpleContractMonitor.GetContractInfo` | simple_monitor.py:45-66 | the parsing loop returns exactly the parse of the reply |
| `SimpleMonitor.SimpleContractMonitor.CreateAlert` | simple_monitor.py:68-80 | one call to the alert canister, against contract 3 and rule 1 |
| `SimpleMonitor.SimpleContractMonitor.CheckBalanceChanges` | simple_monitor.py:82-95 | returns the check's verdict and files one alert iff it alerted |
| `SimpleMonitor.SimpleContractMonitor.CheckHighActivity` | simple_monitor.py:97-109 | alerts iff ten or more transactions were added since the last tick, filing one alert |
| `SimpleMonitor.SimpleContractMonitor.RunCycle` | simple_monitor.py:120-161 | one tick: read, check, report, remember, sleep 30 s, or sleep 10 s after an exception |
| `SimpleMonitor.SimpleContractMonitor.RunChecks` | simple_monitor.py:125-153 | both checks, the report, then the new remembered values |
| `SimpleMonitor.SimpleContractMonitor.MonitorLoop` | simple_monitor.py:111-161 | ticks in order until the user interrupts, which clears the flag |
| `SimpleMonitor.FailedReadKeepsMemory` | simple_monitor.py:148-153 | a failed read keeps the remembered values and sleeps 30 s |
| `SimpleMonitor.MemoryUpdatedAfterChecks` | simple_monitor.py:144-146 | the remembered values change only on a tick whose checks both returned, and then become the values read |
| `SimpleMonitor.CycleReportsItsAlerts` | simple_monitor.py:131-142 | every tick ends with a sleep, and a completed tick reports exactly the alerts it filed |
| `SimpleMonitor.BalanceDropScenario` | simple_monitor.py:82-95 | 1000 then 400 files one balance alert and remembers 400 |
| `SimpleMonitor.FirstTickIsSilent` | simple_monitor.py:84-101 | the first successful tick files no alert and remembers the values read |

## Left out

- **Randomised and mock data.** `fetch_contract_data` returns random
  balances (fetch/agent/contract_monitor.py:77-115, fetch/agent.py:458-499).
  The snapshots are inputs (`Answers.snapshots`) instead. The mock lists
  inside `check_all_rules` depend on `hash(contract_id)`, which Python
  randomises per process. Every mock list becomes the caller's `Snapshot`;
  only the stand-in previous balance is kept.
- **Input and output.** Logging, printing, the HTTP and `dfx` calls, the
  webhook POST and the chat front end are left out. Only their order and
  arguments are kept, as `Effect`s.
- **Rendered text.** Alert descriptions and formatted numbers
  (`{:.1%}`, `{:,.2f}`) are not modelled. Findings carry the numbers
  themselves in `Evidence`. The timestamp of the Discord message is left
  out too.
- **Numbers and characters.** Floats are modelled as exact reals, so there
  is no rounding and no NaN. `lower()` is modelled on ASCII letters only.
  `Text.ParseInt` reads ASCII digits only, where Python's `int()` also
  accepts other Unicode decimal digits (`"١٢"` reads as 12).
  `Text.IsSpace` is ASCII whitespace only. The Unicode whitespace that
  `split()` and `strip()` also honour (`\x85`, `\xa0`, `\u2000` to `\u200a`
  and others) is read as part of a token.
- **Exceptions in `check_contract_rules`.** `handle_alert`, each rule
  check, `check_contract_rules` and `monitor_contracts` all catch their own
  exceptions. A collaborator that raises inside `handle_alert`'s try block
  cuts the remaining calls short (`Answers.raising`). Nothing escapes
  `handle_alert`. The loop's 60-second handler is kept as the input flag
  `CycleInput.passRaised`. A pass that raised is taken to have completed.
- **Raising calls are keyed by value.** `Answers.raising` names the calls
  that raise by their arguments. Two identical calls in one pass (the same
  finding dispatched twice) therefore both raise or both succeed. A
  collaborator that fails on one call and not on an identical later one is
  not modelled.
- **Infinite loops.** `start_monitoring` and `monitor_loop` loop until
  stopped. Here they run over a finite sequence of cycles and also end when
  the sequence does.
- **Interrupts inside a tick of `monitor_loop`.** The model takes a
  KeyboardInterrupt only between ticks. In the source it can arrive during
  `time.sleep(30)` or in the middle of the checks (simple_monitor.py:111-161),
  after alerts are filed but before the values are remembered. Those partial
  ticks are not modelled.
- **`stop_monitoring` from outside.** `stop_monitoring` is called from
  elsewhere while the loop sleeps. This is modelled as a flag of the cycle.
- **Repeated code in `fetch/agent.py`.** Its `ContractData`
  (fetch/agent.py:111-137) has only `update_contract`, `get_contract` and
  `add_transaction`. These are the same code as the modular store's and are
  modelled by `ContractStore.ContractData`; its `add_transaction`
  (fetch/agent.py:126-137) is `ContractStore.ContractData.AddTransaction`.
  Its `ContractMonitor` (fetch/agent.py:394-596) is the modular monitor's
  code with module globals in place of `self` fields and a fixed interval
  of 300 s, and is modelled by `Monitor.ContractMonitor`. Its rules 1 to 3
  (fetch/agent.py:305-386) are the same code as the modular rules.
- **Detectors that read the clock.** In the source each detector calls
  `time.time()` itself, so two detectors of one `check_all_rules` call can
  see slightly different times. Here they all see the one `now`.
