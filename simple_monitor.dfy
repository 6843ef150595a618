/** The standalone delta monitor (`SimpleContractMonitor` of
    simple_monitor.py): every tick it reads the dummy contract's info through
    `dfx`, parses the balance and the transaction count out of the reply,
    compares them with the values of the previous successful tick, files an
    alert for a balance drop of more than half or for ten or more new
    transactions, and then remembers the new values.

    The `dfx` reply is an input: `None` where `run_dfx_command` returns None
    (the command failed), otherwise the stripped standard output. Calls to the
    alert canister and the sleeps are recorded as `Effect`s. */
module SimpleMonitor {
  import opened Common
  import opened Text

  const DummyCanisterId: string := "uzt4z-lp777-77774-qaabq-cai"
  const BackendCanisterId: string := "uxrrr-q7777-77774-qaaaq-cai"

  /** `create_alert` always files against contract 3 and rule 1. */
  const AlertContractId: nat := 3
  const AlertRuleId: nat := 1

  const BalanceKey: string := "balance ="
  const TransactionsKey: string := "transactions ="

  /** The seconds slept after a normal tick and after an exception. */
  const TickPause: nat := 30
  const ErrorPause: nat := 10

  /** What `get_contract_info` returns on success; a key no line mentions
      stays None. */
  datatype ContractInfo = ContractInfo(balance: Option<int>, transactions: Option<int>)

  /* ---------------------------------------------------------------------- */
  /* The reply parser                                                       */
  /* ---------------------------------------------------------------------- */

  /** `int(line.split('=')[1].strip().split()[0].replace('_', '').replace(':', ''))`:
      the first token after the first `=`, with every `_` and `:` deleted,
      read as a decimal integer; None where Python raises. */
  function FieldValue(line: string): Option<int> {
    var parts := Split(line, '=');
    if |parts| < 2 then None
    else
      match FirstToken(parts[1])
      case None => None
      case Some(token) => ParseInt(Without(Without(token, '_'), ':'))
  }

  /** One turn of the parser's loop: a line mentioning `balance =` sets the
      balance, otherwise one mentioning `transactions =` sets the count;
      a value that does not parse aborts the whole parse. */
  function ParseLine(info: ContractInfo, line: string): Option<ContractInfo> {
    if IsInfix(BalanceKey, line) then
      var v := FieldValue(line);
      if v.None? then None else Some(info.(balance := v))
    else if IsInfix(TransactionsKey, line) then
      var v := FieldValue(line);
      if v.None? then None else Some(info.(transactions := v))
    else Some(info)
  }

  /** The parser's loop over the lines, in order. */
  function ParseLines(lines: seq<string>): Option<ContractInfo> {
    if lines == [] then Some(ContractInfo(None, None))
    else
      var before := ParseLines(lines[..|lines| - 1]);
      if before.None? then None else ParseLine(before.value, lines[|lines| - 1])
  }

  /** `get_contract_info` on the command's output: nothing for a failed or
      empty reply, otherwise the parse of its lines. */
  function ParseContractInfo(output: Option<string>): Option<ContractInfo> {
    if output.None? || output.value == "" then None
    else ParseLines(Split(output.value, '\n'))
  }

  /* The parser's specification: which line each field comes from. */

  datatype Field = BalanceField | TransactionsField

  /** A line the parser reads into `field`. A line naming both keys is a
      balance line. */
  predicate IsLineOf(field: Field, line: string) {
    match field
    case BalanceField => IsInfix(BalanceKey, line)
    case TransactionsField => !IsInfix(BalanceKey, line) && IsInfix(TransactionsKey, line)
  }

  /** A line naming a key whose value does not parse. */
  predicate Malformed(line: string) {
    (IsInfix(BalanceKey, line) || IsInfix(TransactionsKey, line)) && FieldValue(line).None?
  }

  /** The value of the LAST line of `lines` that names `field`, None if no
      line does. */
  function LastValue(lines: seq<string>, field: Field): Option<int> {
    if lines == [] then None
    else if IsLineOf(field, lines[|lines| - 1]) then FieldValue(lines[|lines| - 1])
    else LastValue(lines[..|lines| - 1], field)
  }

  /** One line fails to parse iff it is malformed; otherwise it sets the
      field it names. */
  lemma ParseLineEffect(info: ContractInfo, line: string)
    ensures ParseLine(info, line).None? <==> Malformed(line)
    ensures ParseLine(info, line).Some? ==> ParseLine(info, line).value == ContractInfo(
      if IsLineOf(BalanceField, line) then FieldValue(line) else info.balance,
      if IsLineOf(TransactionsField, line) then FieldValue(line) else info.transactions)
  {
  }

  /** Lines that end with a malformed line fail to parse. */
  lemma MalformedLastLineFails(lines: seq<string>)
    requires |lines| > 0 && Malformed(lines[|lines| - 1])
    ensures ParseLines(lines).None?
  {
    var before := ParseLines(lines[..|lines| - 1]);
    if before.Some? {
      ParseLineEffect(before.value, lines[|lines| - 1]);
    }
  }

  /** A malformed line makes the whole parse fail. */
  lemma {:induction false} MalformedLineFails(lines: seq<string>, i: nat)
    requires i < |lines| && Malformed(lines[i])
    ensures ParseLines(lines).None?
  {
    if i == |lines| - 1 {
      MalformedLastLineFails(lines);
    } else {
      var prefix := lines[..|lines| - 1];
      assert prefix[i] == lines[i];
      MalformedLineFails(prefix, i);
    }
  }

  /** Without a malformed line the parse succeeds. */
  lemma {:induction false} WellFormedParses(lines: seq<string>)
    requires forall i :: 0 <= i < |lines| ==> !Malformed(lines[i])
    ensures ParseLines(lines).Some?
  {
    if lines != [] {
      var prefix := lines[..|lines| - 1];
      assert forall i :: 0 <= i < |prefix| ==> prefix[i] == lines[i];
      WellFormedParses(prefix);
      ParseLineEffect(ParseLines(prefix).value, lines[|lines| - 1]);
    }
  }

  lemma ParseFailsIffMalformed(lines: seq<string>)
    ensures ParseLines(lines).None? <==> exists i :: 0 <= i < |lines| && Malformed(lines[i])
  {
    if i :| 0 <= i < |lines| && Malformed(lines[i]) {
      MalformedLineFails(lines, i);
    } else {
      WellFormedParses(lines);
    }
  }

  lemma {:induction false} ParsedValuesAreLast(lines: seq<string>)
    requires ParseLines(lines).Some?
    ensures ParseLines(lines).value == ContractInfo(LastValue(lines, BalanceField), LastValue(lines, TransactionsField))
  {
    if lines != [] {
      var prefix := lines[..|lines| - 1];
      ParsedValuesAreLast(prefix);
      ParseLineEffect(ParseLines(prefix).value, lines[|lines| - 1]);
    }
  }

  /** The parse fails iff some key line is malformed; otherwise each field
      holds the value of the last line naming it (a later line overwrites an
      earlier one) and None if no line names it. */
  lemma ParseLinesSpec(lines: seq<string>)
    ensures ParseLines(lines).None? <==> exists i :: 0 <= i < |lines| && Malformed(lines[i])
    ensures ParseLines(lines).Some? ==>
      ParseLines(lines).value == ContractInfo(LastValue(lines, BalanceField), LastValue(lines, TransactionsField))
  {
    ParseFailsIffMalformed(lines);
    if ParseLines(lines).Some? {
      ParsedValuesAreLast(lines);
    }
  }

  /** Once a prefix of the lines fails to parse, the whole reply does. */
  lemma {:induction false} ParseFailureSticks(lines: seq<string>, i: nat)
    requires i <= |lines| && ParseLines(lines[..i]).None?
    ensures ParseLines(lines).None?
    decreases |lines| - i
  {
    if i == |lines| {
      assert lines[..i] == lines;
    } else {
      var prefix := lines[..|lines| - 1];
      assert prefix[..i] == lines[..i];
      ParseFailureSticks(prefix, i);
    }
  }

  /** One field line of `dfx`'s rendering of a record: `  <name> = <n> : nat;`,
      with the number's digits grouped by `_` as `dfx` prints a `nat`. */
  function FieldLine(name: string, n: nat): string {
    "  " + name + " = " + GroupedNatToString(n) + " : nat;"
  }

  /** A representative reply: `dfx`'s rendering of the contract's record. */
  function RenderedLines(balance: nat, transactions: nat): seq<string> {
    ["(record {", FieldLine("balance", balance), FieldLine("transactions", transactions), "})"]
  }

  function RenderedInfo(balance: nat, transactions: nat): string {
    Join(RenderedLines(balance, transactions), '\n')
  }

  /** A rendered number holds only digits and group separators. */
  lemma RenderedNatChars(n: nat, c: char)
    requires !IsDigit(c) && c != '_'
    ensures c !in GroupedNatToString(n)
  {
    var r := GroupedNatToString(n);
    forall k | 0 <= k < |r| ensures r[k] != c {
      assert IsDigit(r[k]) || r[k] == '_';
    }
  }

  /** The parser reads the token after `= ` as the line's value. */
  lemma FieldValueOfToken(head: string, token: string, suffix: string)
    requires '=' !in head && '=' !in token && '=' !in suffix
    requires token != [] && forall i :: 0 <= i < |token| ==> !IsSpace(token[i])
    requires suffix == [] || IsSpace(suffix[0])
    ensures FieldValue(head + ['='] + (" " + token + suffix)) == ParseInt(Without(Without(token, '_'), ':'))
  {
    var tail := " " + token + suffix;
    assert '=' !in tail;
    SplitAfterHead(head, '=', tail);
    FirstTokenAfterSpace(token, suffix);
  }

  /** The parser reads `n` back from a field line, whatever the field's name
      (as long as it holds no `=`): deleting the `_` separators `dfx` puts
      between digit groups is what makes `int()` accept the token. */
  lemma FieldLineValue(name: string, n: nat)
    requires '=' !in name
    ensures FieldValue(FieldLine(name, n)) == Some(n)
  {
    var token := GroupedNatToString(n);
    var head := "  " + name + " ";
    assert FieldLine(name, n) == head + ['='] + (" " + token + " : nat;");
    RenderedNatChars(n, '=');
    forall i | 0 <= i < |token| ensures !IsSpace(token[i]) {
      assert IsDigit(token[i]) || token[i] == '_';
    }
    FieldValueOfToken(head, token, " : nat;");
    GroupedWithoutSeparators(n);
    var digits := NatToString(n);
    assert ':' !in digits by {
      assert forall k :: 0 <= k < |digits| ==> IsDigit(digits[k]);
    }
    ParseGroupedNat(n);
  }

  /** The balance line names the balance key. */
  lemma BalanceLineKeys(balance: nat)
    ensures IsInfix(BalanceKey, FieldLine("balance", balance))
  {
    assert FieldLine("balance", balance) == "  " + BalanceKey + (" " + GroupedNatToString(balance) + " : nat;");
    InfixAt(BalanceKey, "  ", " " + GroupedNatToString(balance) + " : nat;");
  }

  /** The transactions line names the transactions key and not the balance
      key. */
  lemma TransactionsLineKeys(transactions: nat)
    ensures !IsInfix(BalanceKey, FieldLine("transactions", transactions))
    ensures IsInfix(TransactionsKey, FieldLine("transactions", transactions))
  {
    var rest := " " + GroupedNatToString(transactions) + " : nat;";
    assert FieldLine("transactions", transactions) == "  " + TransactionsKey + rest;
    InfixAt(TransactionsKey, "  ", rest);
    assert 'b' !in rest by {
      RenderedNatChars(transactions, 'b');
    }
    LineWithoutB("  " + TransactionsKey, rest);
  }

  /** A line without the letter `b` does not name the balance key. */
  lemma LineWithoutB(head: string, rest: string)
    requires 'b' !in head && 'b' !in rest
    ensures !IsInfix(BalanceKey, head + rest)
  {
    assert BalanceKey[0] == 'b';
    NotInfixWithoutFirstChar(BalanceKey, head + rest);
  }

  /** The record's opening and closing lines name no key. */
  lemma FrameLineKeys(line: string)
    requires line == "(record {" || line == "})"
    ensures !IsInfix(BalanceKey, line) && !IsInfix(TransactionsKey, line)
  {
    assert BalanceKey[0] == 'b' && TransactionsKey[0] == 't';
    assert 'b' !in line && 't' !in line;
    NotInfixWithoutFirstChar(BalanceKey, line);
    NotInfixWithoutFirstChar(TransactionsKey, line);
  }

  /** The reply splits back into its four lines. */
  lemma RenderedInfoSplits(balance: nat, transactions: nat)
    ensures Split(RenderedInfo(balance, transactions), '\n') == RenderedLines(balance, transactions)
  {
    var lines := RenderedLines(balance, transactions);
    RenderedNatChars(balance, '\n');
    RenderedNatChars(transactions, '\n');
    assert forall i :: 0 <= i < |lines| ==> '\n' !in lines[i];
    SplitJoin(lines, '\n');
  }

  /** Parsing one more line. */
  lemma ParseLinesSnoc(lines: seq<string>, line: string)
    ensures ParseLines(lines + [line]) ==
      if ParseLines(lines).None? then None else ParseLine(ParseLines(lines).value, line)
  {
    assert (lines + [line])[..|lines|] == lines;
  }

  lemma ParseFrameLine(info: ContractInfo, line: string)
    requires line == "(record {" || line == "})"
    ensures ParseLine(info, line) == Some(info)
  {
    FrameLineKeys(line);
  }

  lemma ParseBalanceLine(info: ContractInfo, balance: nat)
    ensures ParseLine(info, FieldLine("balance", balance)) == Some(info.(balance := Some(balance)))
  {
    BalanceLineKeys(balance);
    FieldLineValue("balance", balance);
  }

  lemma ParseTransactionsLine(info: ContractInfo, transactions: nat)
    ensures ParseLine(info, FieldLine("transactions", transactions)) == Some(info.(transactions := Some(transactions)))
  {
    TransactionsLineKeys(transactions);
    FieldLineValue("transactions", transactions);
  }

  /** Four lines parsed one at a time. */
  lemma ParseFourLines(l0: string, l1: string, l2: string, l3: string, i0: ContractInfo, i1: ContractInfo, i2: ContractInfo, i3: ContractInfo)
    requires ParseLine(ContractInfo(None, None), l0) == Some(i0)
    requires ParseLine(i0, l1) == Some(i1) && ParseLine(i1, l2) == Some(i2) && ParseLine(i2, l3) == Some(i3)
    ensures ParseLines([l0, l1, l2, l3]) == Some(i3)
  {
    ParseLinesSnoc([], l0);
    assert [] + [l0] == [l0];
    ParseLinesSnoc([l0], l1);
    assert [l0] + [l1] == [l0, l1];
    ParseLinesSnoc([l0, l1], l2);
    assert [l0, l1] + [l2] == [l0, l1, l2];
    ParseLinesSnoc([l0, l1, l2], l3);
    assert [l0, l1, l2] + [l3] == [l0, l1, l2, l3];
  }

  /** The four rendered lines parse to both numbers. */
  lemma ParseRenderedLines(balance: nat, transactions: nat)
    ensures ParseLines(RenderedLines(balance, transactions)) == Some(ContractInfo(Some(balance), Some(transactions)))
  {
    var empty := ContractInfo(None, None);
    var withBalance := ContractInfo(Some(balance), None);
    var full := ContractInfo(Some(balance), Some(transactions));
    ParseFrameLine(empty, "(record {");
    ParseBalanceLine(empty, balance);
    ParseTransactionsLine(withBalance, transactions);
    ParseFrameLine(full, "})");
    ParseFourLines("(record {", FieldLine("balance", balance), FieldLine("transactions", transactions), "})",
                   empty, withBalance, full, full);
  }

  /** Parsing a rendered record gives back both numbers. */
  lemma RenderedInfoRoundTrip(balance: nat, transactions: nat)
    ensures ParseContractInfo(Some(RenderedInfo(balance, transactions))) == Some(ContractInfo(Some(balance), Some(transactions)))
  {
    RenderedInfoSplits(balance, transactions);
    ParseRenderedLines(balance, transactions);
    assert RenderedInfo(balance, transactions) != "" by {
      assert |Split(RenderedInfo(balance, transactions), '\n')| == 4;
      assert Split("", '\n') == [""];
    }
  }

  /* ---------------------------------------------------------------------- */
  /* The two checks                                                         */
  /* ---------------------------------------------------------------------- */

  /** A check's outcome: it alerted (returned True), stayed quiet (returned
      False), or raised, which ends the tick in the loop's error handler. */
  datatype CheckResult = Quiet | Alerted | Raised

  /** `check_balance_changes`: with a known previous balance above the
      current one, alert iff the percentage drop exceeds 50. A previous
      balance of 0 then divides by zero. */
  function BalanceCheck(last: Option<int>, current: int): CheckResult {
    if last.None? || current >= last.value then Quiet
    else if last.value == 0 then Raised
    else if ((last.value - current) as real / last.value as real) * 100.0 > 50.0 then Alerted
    else Quiet
  }

  /** The percentage test without division: for a positive previous balance
      the check alerts iff the balance fell below half of it; for a negative
      one it never alerts. */
  lemma BalanceCheckIff(last: Option<int>, current: int)
    ensures BalanceCheck(last, current) == Alerted <==> last.Some? && last.value > 0 && 2 * current < last.value
    ensures BalanceCheck(last, current) == Raised <==> last.Some? && last.value == 0 && current < 0
  {
    if last.Some? && current < last.value && last.value != 0 {
      PercentageDrop(last.value as real, current as real);
    }
  }

  lemma PercentageDrop(l: real, c: real)
    requires l != 0.0 && c < l
    ensures ((l - c) / l) * 100.0 > 50.0 <==> l > 0.0 && 2.0 * c < l
  {
    var drop := (l - c) / l;
    assert drop * l == l - c;
    if l > 0.0 {
      DividedAboveHalf(l - c, l);
    } else {
      assert drop < 0.0 by { NegativeQuotient(l - c, l); }
    }
  }

  lemma DividedAboveHalf(x: real, l: real)
    requires l > 0.0
    ensures x / l * 100.0 > 50.0 <==> 2.0 * x > l
  {
    var q := x / l;
    assert q * l == x;
    if q > 0.5 {
      assert (q - 0.5) * l > 0.0;
    } else {
      assert (0.5 - q) * l >= 0.0;
    }
  }

  lemma NegativeQuotient(x: real, l: real)
    requires x > 0.0 && l < 0.0
    ensures x / l < 0.0
  {
    assert x / l == -(x / -l);
    assert x / -l > 0.0;
  }

  /** `check_high_activity`: with a known previous count, alert iff at least
      ten transactions were added. A missing current count cannot be
      subtracted and raises. */
  function ActivityCheck(last: Option<int>, current: Option<int>): CheckResult {
    if last.None? then Quiet
    else if current.None? then Raised
    else if current.value - last.value >= 10 then Alerted
    else Quiet
  }

  /* ---------------------------------------------------------------------- */
  /* One tick of the loop                                                   */
  /* ---------------------------------------------------------------------- */

  datatype Effect =
    | CreateAlertCall(canisterId: string, contractId: nat, ruleId: nat, title: string, severity: string)
    | AlertsReported(count: nat)
    | Slept(seconds: nat)

  const BalanceAlertTitle: string := "\U{1F6A8} Significant Balance Drop Detected"
  const ActivityAlertTitle: string := "\U{1F6A8} High Transaction Activity Detected"

  function AlertCall(title: string, severity: string): Effect {
    CreateAlertCall(BackendCanisterId, AlertContractId, AlertRuleId, title, severity)
  }

  /** The alert a check files: one `create_alert` call when it alerted. */
  function CheckEffects(r: CheckResult, title: string, severity: string): seq<Effect> {
    if r == Alerted then [AlertCall(title, severity)] else []
  }

  /** 1 for a check that returned True, else 0. */
  function Hit(r: CheckResult): nat {
    if r == Alerted then 1 else 0
  }

  /** The values remembered between ticks. */
  datatype Memory = Memory(lastBalance: Option<int>, lastTransactionCount: Option<int>)

  datatype Outcome = Outcome(memory: Memory, effects: seq<Effect>)

  /** One pass of `monitor_loop`'s body:
      - a failed read prints an error and waits 30 seconds;
      - a reply without a balance raises while printing it (formatting None
        with `,`), and so does a check that raises: the handler waits 10
        seconds, and the alert already filed stays filed;
      - otherwise both checks run against the remembered values, the number
        of alerts is reported, the new values are remembered (a missing count
        is remembered as None) and the loop waits 30 seconds. */
  function CycleOutcome(m: Memory, output: Option<string>): Outcome {
    var info := ParseContractInfo(output);
    if info.None? then Outcome(m, [Slept(TickPause)])
    else if info.value.balance.None? then Outcome(m, [Slept(ErrorPause)])
    else ChecksOutcome(m, info.value.balance.value, info.value.transactions)
  }

  /** The rest of the tick once a balance was read. */
  function ChecksOutcome(m: Memory, balance: int, transactions: Option<int>): Outcome {
    var b := BalanceCheck(m.lastBalance, balance);
    if b == Raised then Outcome(m, [Slept(ErrorPause)])
    else
      var a := ActivityCheck(m.lastTransactionCount, transactions);
      var alerts := CheckEffects(b, BalanceAlertTitle, "high");
      if a == Raised then Outcome(m, alerts + [Slept(ErrorPause)])
      else
        Outcome(Memory(Some(balance), transactions),
                alerts + CheckEffects(a, ActivityAlertTitle, "medium")
                + [AlertsReported(Hit(b) + Hit(a)), Slept(TickPause)])
  }

  /** What the loop is given to read: a reply, or the user's Ctrl-C. */
  datatype Tick = Reply(output: Option<string>) | Interrupt

  /** The index of the first interrupt, `|ticks|` if there is none. */
  function FirstInterrupt(ticks: seq<Tick>): (n: nat)
    ensures n <= |ticks|
  {
    if ticks == [] then 0
    else if ticks[0].Interrupt? then 0
    else 1 + FirstInterrupt(ticks[1..])
  }

  lemma {:induction false} FirstInterruptIndex(ticks: seq<Tick>, i: nat)
    requires i < |ticks|
    ensures i < FirstInterrupt(ticks) ==> ticks[i].Reply?
    ensures i == FirstInterrupt(ticks) ==> ticks[i].Interrupt?
  {
    if i > 0 && !ticks[0].Interrupt? {
      FirstInterruptIndex(ticks[1..], i - 1);
    }
  }

  /** How many ticks a loop entered with `monitoring == active` reads: up to
      the first interrupt, or none once an earlier interrupt has cleared the
      flag. */
  function Processed(active: bool, ticks: seq<Tick>): nat {
    if active then FirstInterrupt(ticks) else 0
  }

  /** Ticks in order; an interrupt contributes nothing. */
  function LoopOutcome(m: Memory, ticks: seq<Tick>): Outcome {
    if ticks == [] then Outcome(m, [])
    else
      var before := LoopOutcome(m, ticks[..|ticks| - 1]);
      var last := ticks[|ticks| - 1];
      if last.Interrupt? then before
      else
        var step := CycleOutcome(before.memory, last.output);
        Outcome(step.memory, before.effects + step.effects)
  }

  lemma LoopStep(m: Memory, ticks: seq<Tick>, i: nat)
    requires i < |ticks| && ticks[i].Reply?
    ensures LoopOutcome(m, ticks[..i + 1]) ==
      Outcome(CycleOutcome(LoopOutcome(m, ticks[..i]).memory, ticks[i].output).memory,
              LoopOutcome(m, ticks[..i]).effects + CycleOutcome(LoopOutcome(m, ticks[..i]).memory, ticks[i].output).effects)
  {
    assert ticks[..i + 1][..i] == ticks[..i];
  }

  /** Regrouping a concatenation. Stated once as a lemma so that the loop
      below gets the one fact it needs without the solver searching the
      sequence axioms in its large context. */
  lemma AppendAssociates(a: seq<Effect>, b: seq<Effect>, c: seq<Effect>)
    ensures (a + b) + c == a + (b + c)
  {
  }

  class SimpleContractMonitor {
    const dummyCanisterId: string := DummyCanisterId
    const backendCanisterId: string := BackendCanisterId
    var lastBalance: Option<int>
    var lastTransactionCount: Option<int>
    var monitoring: bool
    /** The alert-canister calls, reports and sleeps so far, oldest first. */
    var effects: seq<Effect>

    constructor()
      ensures lastBalance.None? && lastTransactionCount.None? && monitoring
      ensures effects == []
    {
      lastBalance := None;
      lastTransactionCount := None;
      monitoring := true;
      effects := [];
    }

    function Remembered(): Memory
      reads this
    {
      Memory(lastBalance, lastTransactionCount)
    }

    /** `get_contract_info`'s parsing loop; it changes nothing. */
    method GetContractInfo(output: Option<string>) returns (info: Option<ContractInfo>)
      ensures info == ParseContractInfo(output)
    {
      if output.None? || output.value == "" {
        return None;
      }
      var lines := Split(output.value, '\n');
      var balance: Option<int> := None;
      var transactions: Option<int> := None;
      for i := 0 to |lines|
        invariant ParseLines(lines[..i]) == Some(ContractInfo(balance, transactions))
      {
        assert lines[..i + 1][..i] == lines[..i];
        var line := lines[i];
        if IsInfix(BalanceKey, line) {
          var v := FieldValue(line);
          if v.None? {
            ParseFailureSticks(lines, i + 1);
            return None;
          }
          balance := v;
        } else if IsInfix(TransactionsKey, line) {
          var v := FieldValue(line);
          if v.None? {
            ParseFailureSticks(lines, i + 1);
            return None;
          }
          transactions := v;
        }
      }
      assert lines[..|lines|] == lines;
      return Some(ContractInfo(balance, transactions));
    }

    /** `create_alert`: one call to the alert canister. Its result is only
        logged. */
    method CreateAlert(title: string, severity: string)
      modifies this`effects
      ensures effects == old(effects) + [AlertCall(title, severity)]
    {
      effects := effects + [CreateAlertCall(backendCanisterId, AlertContractId, AlertRuleId, title, severity)];
    }

    method CheckBalanceChanges(currentBalance: int) returns (r: CheckResult)
      modifies this`effects
      ensures r == BalanceCheck(lastBalance, currentBalance)
      ensures effects == old(effects) + CheckEffects(r, BalanceAlertTitle, "high")
    {
      if lastBalance.Some? {
        if currentBalance < lastBalance.value {
          if lastBalance.value == 0 {
            return Raised;
          }
          var percentageDrop := ((lastBalance.value - currentBalance) as real / lastBalance.value as real) * 100.0;
          if percentageDrop > 50.0 {
            CreateAlert(BalanceAlertTitle, "high");
            return Alerted;
          }
        }
      }
      return Quiet;
    }

    method CheckHighActivity(currentTransactions: Option<int>) returns (r: CheckResult)
      modifies this`effects
      ensures r == ActivityCheck(lastTransactionCount, currentTransactions)
      ensures effects == old(effects) + CheckEffects(r, ActivityAlertTitle, "medium")
    {
      if lastTransactionCount.Some? {
        if currentTransactions.None? {
          return Raised;
        }
        var transactionIncrease := currentTransactions.value - lastTransactionCount.value;
        if transactionIncrease >= 10 {
          CreateAlert(ActivityAlertTitle, "medium");
          return Alerted;
        }
      }
      return Quiet;
    }

    /** One pass of `monitor_loop`'s body, including its exception handler. */
    method RunCycle(output: Option<string>)
      modifies this`effects, this`lastBalance, this`lastTransactionCount
      ensures Remembered() == CycleOutcome(old(Remembered()), output).memory
      ensures effects == old(effects) + CycleOutcome(old(Remembered()), output).effects
    {
      var contractInfo := GetContractInfo(output);
      if contractInfo.None? {
        effects := effects + [Slept(TickPause)];
        return;
      }
      if contractInfo.value.balance.None? {
        effects := effects + [Slept(ErrorPause)];
        return;
      }
      RunChecks(contractInfo.value.balance.value, contractInfo.value.transactions);
    }

    /** The rest of the pass once a balance was read: both checks, the
        report, the new remembered values and the pause. */
    method RunChecks(currentBalance: int, currentTransactions: Option<int>)
      modifies this`effects, this`lastBalance, this`lastTransactionCount
      ensures Remembered() == ChecksOutcome(old(Remembered()), currentBalance, currentTransactions).memory
      ensures effects == old(effects) + ChecksOutcome(old(Remembered()), currentBalance, currentTransactions).effects
    {
      var alertsTriggered: nat := 0;
      var balanceResult := CheckBalanceChanges(currentBalance);
      if balanceResult == Raised {
        effects := effects + [Slept(ErrorPause)];
        return;
      }
      if balanceResult == Alerted {
        alertsTriggered := alertsTriggered + 1;
      }
      ghost var afterBalance := effects;
      var activityResult := CheckHighActivity(currentTransactions);
      if activityResult == Raised {
        effects := effects + [Slept(ErrorPause)];
        return;
      }
      if activityResult == Alerted {
        alertsTriggered := alertsTriggered + 1;
      }
      assert alertsTriggered == Hit(balanceResult) + Hit(activityResult);
      effects := effects + [AlertsReported(alertsTriggered)];
      lastBalance := Some(currentBalance);
      lastTransactionCount := currentTransactions;
      effects := effects + [Slept(TickPause)];
    }

    /** `monitor_loop`: ticks in order until the user interrupts, which clears
        `monitoring`. The source loops forever; here the loop also ends when
        the supplied ticks run out. */
    method MonitorLoop(ticks: seq<Tick>)
      modifies this`effects, this`lastBalance, this`lastTransactionCount, this`monitoring
      ensures Remembered() == LoopOutcome(old(Remembered()), ticks[..Processed(old(monitoring), ticks)]).memory
      ensures effects == old(effects) + LoopOutcome(old(Remembered()), ticks[..Processed(old(monitoring), ticks)]).effects
      ensures monitoring <==> old(monitoring) && FirstInterrupt(ticks) == |ticks|
    {
      ghost var start := Remembered();
      var i := 0;
      while monitoring && i < |ticks|
        invariant 0 <= i <= Processed(old(monitoring), ticks)
        invariant monitoring ==> old(monitoring)
        invariant !monitoring ==> !old(monitoring) || i == FirstInterrupt(ticks) < |ticks|
        invariant Remembered() == LoopOutcome(start, ticks[..i]).memory
        invariant effects == old(effects) + LoopOutcome(start, ticks[..i]).effects
        decreases |ticks| - i
      {
        FirstInterruptIndex(ticks, i);
        if ticks[i].Interrupt? {
          monitoring := false;
          break;
        }
        ghost var before := LoopOutcome(start, ticks[..i]);
        ghost var step := CycleOutcome(before.memory, ticks[i].output);
        ghost var effectsBefore := effects;
        LoopStep(start, ticks, i);
        RunCycle(ticks[i].output);
        assert effects == effectsBefore + step.effects;
        AppendAssociates(old(effects), before.effects, step.effects);
        i := i + 1;
      }
    }
  }

  /* ---------------------------------------------------------------------- */
  /* Properties of a tick                                                   */
  /* ---------------------------------------------------------------------- */

  /** A failed read leaves the remembered values unchanged and waits the
      normal pause. */
  lemma FailedReadKeepsMemory(m: Memory, output: Option<string>)
    requires ParseContractInfo(output).None?
    ensures CycleOutcome(m, output) == Outcome(m, [Slept(TickPause)])
  {
  }

  /** The remembered values change only on a tick whose reply parsed with a
      balance and whose checks both returned; they then become the reply's
      values, and the checks were run against the OLD values. */
  lemma MemoryUpdatedAfterChecks(m: Memory, output: Option<string>)
    ensures CycleOutcome(m, output).memory == m || (
      ParseContractInfo(output).Some? && ParseContractInfo(output).value.balance.Some?
      && BalanceCheck(m.lastBalance, ParseContractInfo(output).value.balance.value) != Raised
      && ActivityCheck(m.lastTransactionCount, ParseContractInfo(output).value.transactions) != Raised
      && CycleOutcome(m, output).memory ==
         Memory(ParseContractInfo(output).value.balance, ParseContractInfo(output).value.transactions))
  {
  }

  /** How many `create_alert` calls `effects` holds. */
  function AlertCalls(effects: seq<Effect>): nat {
    if effects == [] then 0
    else AlertCalls(effects[..|effects| - 1]) + (if effects[|effects| - 1].CreateAlertCall? then 1 else 0)
  }

  lemma {:induction false} AlertCallsConcat(a: seq<Effect>, b: seq<Effect>)
    ensures AlertCalls(a + b) == AlertCalls(a) + AlertCalls(b)
    decreases |b|
  {
    if b == [] {
      assert a + b == a;
    } else {
      assert (a + b)[..|a + b| - 1] == a + b[..|b| - 1];
      AlertCallsConcat(a, b[..|b| - 1]);
    }
  }

  lemma AlertCallsOfOne(e: Effect)
    ensures AlertCalls([e]) == if e.CreateAlertCall? then 1 else 0
  {
    assert [e][..0] == [];
  }

  lemma AlertCallsOfCheck(r: CheckResult, title: string, severity: string)
    ensures AlertCalls(CheckEffects(r, title, severity)) == Hit(r)
  {
    if r == Alerted {
      AlertCallsOfOne(AlertCall(title, severity));
    }
  }

  /** Every tick ends with a sleep; a tick files at most two alerts; the
      count it reports is the number of alerts it filed. */
  ghost predicate ReportsItsAlerts(e: seq<Effect>) {
    |e| >= 1 && e[|e| - 1].Slept? && AlertCalls(e) <= 2
    && forall k :: 0 <= k < |e| && e[k].AlertsReported? ==> e[k].count == AlertCalls(e)
  }

  /** The effects of a tick whose activity check raised. */
  lemma RaisedActivityReports(b: CheckResult)
    ensures ReportsItsAlerts(CheckEffects(b, BalanceAlertTitle, "high") + [Slept(ErrorPause)])
  {
    var first := CheckEffects(b, BalanceAlertTitle, "high");
    AlertCallsOfCheck(b, BalanceAlertTitle, "high");
    AlertCallsOfOne(Slept(ErrorPause));
    AlertCallsConcat(first, [Slept(ErrorPause)]);
    var e := first + [Slept(ErrorPause)];
    forall k | 0 <= k < |e| ensures !e[k].AlertsReported? {
      if k < |first| {
        assert e[k] == first[k];
      }
    }
  }

  /** The effects of a tick whose checks both returned. */
  lemma CompletedTickReports(b: CheckResult, a: CheckResult)
    ensures ReportsItsAlerts(CheckEffects(b, BalanceAlertTitle, "high") + CheckEffects(a, ActivityAlertTitle, "medium")
                             + [AlertsReported(Hit(b) + Hit(a)), Slept(TickPause)])
  {
    var first := CheckEffects(b, BalanceAlertTitle, "high");
    var second := CheckEffects(a, ActivityAlertTitle, "medium");
    var tail := [AlertsReported(Hit(b) + Hit(a)), Slept(TickPause)];
    var e := first + second + tail;
    AlertCallsOfCheck(b, BalanceAlertTitle, "high");
    AlertCallsOfCheck(a, ActivityAlertTitle, "medium");
    AlertCallsOfOne(AlertsReported(Hit(b) + Hit(a)));
    AlertCallsOfOne(Slept(TickPause));
    AlertCallsConcat([AlertsReported(Hit(b) + Hit(a))], [Slept(TickPause)]);
    assert tail == [AlertsReported(Hit(b) + Hit(a))] + [Slept(TickPause)];
    AlertCallsConcat(first, second);
    AlertCallsConcat(first + second, tail);
    forall k | 0 <= k < |first| + |second| ensures !e[k].AlertsReported? {
      if k < |first| {
        assert e[k] == first[k];
      } else {
        assert e[k] == second[k - |first|];
      }
    }
    assert e[|e| - 2] == AlertsReported(Hit(b) + Hit(a));
    assert e[|e| - 1] == Slept(TickPause);
  }

  lemma ChecksReportTheirAlerts(m: Memory, balance: int, transactions: Option<int>)
    ensures ReportsItsAlerts(ChecksOutcome(m, balance, transactions).effects)
  {
    var b := BalanceCheck(m.lastBalance, balance);
    var a := ActivityCheck(m.lastTransactionCount, transactions);
    if b == Raised {
      AlertCallsOfOne(Slept(ErrorPause));
    } else if a == Raised {
      RaisedActivityReports(b);
    } else {
      CompletedTickReports(b, a);
    }
  }

  lemma CycleReportsItsAlerts(m: Memory, output: Option<string>)
    ensures ReportsItsAlerts(CycleOutcome(m, output).effects)
  {
    var info := ParseContractInfo(output);
    if info.None? {
      AlertCallsOfOne(Slept(TickPause));
    } else if info.value.balance.None? {
      AlertCallsOfOne(Slept(ErrorPause));
    } else {
      ChecksReportTheirAlerts(m, info.value.balance.value, info.value.transactions);
    }
  }

  /** Scenario: after a reply with balance 1000, a reply with balance 400
      files one high-severity alert and reports one alert. */
  lemma BalanceDropScenario(t: nat)
    ensures CycleOutcome(Memory(Some(1000), Some(t)), Some(RenderedInfo(400, t))).effects ==
      [AlertCall(BalanceAlertTitle, "high"), AlertsReported(1), Slept(TickPause)]
    ensures CycleOutcome(Memory(Some(1000), Some(t)), Some(RenderedInfo(400, t))).memory == Memory(Some(400), Some(t))
  {
    RenderedInfoRoundTrip(400, t);
    BalanceCheckIff(Some(1000), 400);
  }

  /** The first successful tick has nothing to compare with and files no
      alert. */
  lemma FirstTickIsSilent(output: Option<string>)
    requires ParseContractInfo(output).Some? && ParseContractInfo(output).value.balance.Some?
    ensures AlertCalls(CycleOutcome(Memory(None, None), output).effects) == 0
    ensures CycleOutcome(Memory(None, None), output).memory ==
      Memory(ParseContractInfo(output).value.balance, ParseContractInfo(output).value.transactions)
  {
    CycleReportsItsAlerts(Memory(None, None), output);
    var e := CycleOutcome(Memory(None, None), output).effects;
    assert e[0] == AlertsReported(0);
  }
}
