/** The agent's in-memory store (`ContractData` of fetch/agent/contract_data.py):
    the monitored contracts, the last balance seen for each, and a 24-hour
    transaction history per contract. The clock is the parameter `now`. */
module ContractStore {
  import opened Common
  import opened Events

  /** How long `add_transaction` keeps a transaction: 24 hours. */
  const HistoryRetention: real := 86400.0

  /** The record `add_contract` stores for a contract. */
  datatype ContractRecord = ContractRecord(id: string, nickname: string, addedAt: real, status: string, lastCheck: real)

  /** The history after pruning at time `now`: the entries stamped strictly
      after `now - 86400`, in their original order. */
  function Pruned(history: seq<Transaction>, now: real): seq<Transaction> {
    Within(history, TxTime, now - HistoryRetention)
  }

  /** What `add_transaction` leaves as the history of a contract whose
      history was `history` (missing: None). */
  function HistoryAfterAdd(history: Option<seq<Transaction>>, tx: Transaction, now: real): seq<Transaction> {
    Pruned((if history.Some? then history.value else []) + [tx], now)
  }

  class ContractData {
    var contracts: map<string, ContractRecord>
    var lastBalances: map<string, real>
    var transactionHistory: map<string, seq<Transaction>>
    var lastCheckTime: real

    /** Every monitored contract has a history and a last balance, as
        `add_contract` arranges. */
    ghost predicate Tracked()
      reads this
    {
      contracts.Keys <= transactionHistory.Keys && contracts.Keys <= lastBalances.Keys
    }

    constructor(now: real)
      ensures contracts == map[] && lastBalances == map[] && transactionHistory == map[]
      ensures lastCheckTime == now
      ensures Tracked()
    {
      contracts := map[];
      lastBalances := map[];
      transactionHistory := map[];
      lastCheckTime := now;
    }

    /** `add_contract`: (re)writes the record as healthy, added and checked at
        `now`; an existing history and last balance are kept, missing ones
        start empty and at 0. */
    method AddContract(contractId: string, nickname: string, now: real)
      modifies this
      ensures contracts == old(contracts)[contractId := ContractRecord(contractId, nickname, now, "healthy", now)]
      ensures transactionHistory ==
        if contractId in old(transactionHistory) then old(transactionHistory) else old(transactionHistory)[contractId := []]
      ensures lastBalances ==
        if contractId in old(lastBalances) then old(lastBalances) else old(lastBalances)[contractId := 0.0]
      ensures lastCheckTime == old(lastCheckTime)
      ensures old(Tracked()) ==> Tracked()
      ensures contractId in contracts && contractId in transactionHistory && contractId in lastBalances
    {
      contracts := contracts[contractId := ContractRecord(contractId, nickname, now, "healthy", now)];
      if contractId !in transactionHistory {
        transactionHistory := transactionHistory[contractId := []];
      }
      if contractId !in lastBalances {
        lastBalances := lastBalances[contractId := 0.0];
      }
    }

    /** `get_all_contracts`: contract id to nickname. */
    function AllContracts(): (r: map<string, string>)
      reads this
      ensures r.Keys == contracts.Keys
      ensures forall id :: id in r ==> r[id] == contracts[id].nickname
    {
      map id | id in contracts :: contracts[id].nickname
    }

    /** `remove_contract`: true iff the contract was monitored; it then loses
        its record, its history and its last balance. */
    method RemoveContract(contractId: string) returns (removed: bool)
      modifies this
      ensures removed == (contractId in old(contracts))
      ensures removed ==> (contracts == old(contracts) - {contractId}
        && lastBalances == old(lastBalances) - {contractId}
        && transactionHistory == old(transactionHistory) - {contractId})
      ensures !removed ==> (contracts == old(contracts) && lastBalances == old(lastBalances)
        && transactionHistory == old(transactionHistory))
      ensures lastCheckTime == old(lastCheckTime)
      ensures old(Tracked()) ==> Tracked()
    {
      if contractId in contracts {
        contracts := contracts - {contractId};
        if contractId in lastBalances {
          lastBalances := lastBalances - {contractId};
        }
        if contractId in transactionHistory {
          transactionHistory := transactionHistory - {contractId};
        }
        return true;
      }
      return false;
    }

    /** `update_contract`: replaces (or adds) the record, touching nothing
        else; this can add a contract without history or balance. */
    method UpdateContract(contractId: string, data: ContractRecord)
      modifies this`contracts
      ensures contracts == old(contracts)[contractId := data]
    {
      contracts := contracts[contractId := data];
    }

    /** `get_contract`: the record, or None for an unknown id. */
    function GetContract(contractId: string): (r: Option<ContractRecord>)
      reads this
      ensures r.Some? <==> contractId in contracts
      ensures r.Some? ==> r.value == contracts[contractId]
    {
      if contractId in contracts then Some(contracts[contractId]) else None
    }

    /** `add_transaction`: appends, then prunes the contract's history to the
        last 24 hours; other contracts' histories are not pruned. */
    method AddTransaction(contractId: string, transaction: Transaction, now: real)
      modifies this`transactionHistory
      ensures transactionHistory == old(transactionHistory)[contractId :=
        HistoryAfterAdd(if contractId in old(transactionHistory) then Some(old(transactionHistory)[contractId]) else None,
                        transaction, now)]
      ensures old(Tracked()) ==> Tracked()
    {
      if contractId !in transactionHistory {
        transactionHistory := transactionHistory[contractId := []];
      }
      var history := transactionHistory[contractId] + [transaction];
      var cutoffTime := now - HistoryRetention;
      transactionHistory := transactionHistory[contractId := Within(history, TxTime, cutoffTime)];
    }
  }

  /** Adding a transaction of the last 24 hours puts it at the end of the
      pruned history; an older one leaves only the pruned old history. */
  lemma AddedTransactionIsLast(history: seq<Transaction>, tx: Transaction, now: real)
    ensures TimeOf(tx.timestamp) > now - HistoryRetention ==>
      HistoryAfterAdd(Some(history), tx, now) == Pruned(history, now) + [tx]
    ensures TimeOf(tx.timestamp) <= now - HistoryRetention ==>
      HistoryAfterAdd(Some(history), tx, now) == Pruned(history, now)
  {
    WithinConcat(history, [tx], TxTime, now - HistoryRetention);
    assert [tx][1..] == [];
  }

  /** Pruning again at the same time changes nothing. */
  lemma PruneTwiceIsPruneOnce(history: seq<Transaction>, now: real)
    ensures Pruned(Pruned(history, now), now) == Pruned(history, now)
  {
    WithinIdempotent(history, TxTime, now - HistoryRetention);
  }
}
