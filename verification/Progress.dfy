// The lock order rules out deadlock, and every batch ends.
module Progress {
  import opened Common
  import opened Locking
  import opened Serial

  // An upper bound on the steps a transaction still has to take.
  function Remaining(pc: Pc): nat {
    match pc
    case Done(_) => 0
    case WriteRows(_, _) => 1
    case CheckOwner => 2
    case Count(_, _) => 3
    case ReadKeeps(_) => 4
    case AwaitRole => 4
    case AwaitTeam(_) => 5
    case AwaitOrg(_) => 6
    case Begin => 7
  }

  ghost function Total(txs: map<TxId, Tx>): nat
    decreases |txs|
  {
    if txs == map[] then 0
    else
      var i :| i in txs;
      Remaining(txs[i].pc) + Total(txs - {i})
  }

  lemma {:induction false} TotalAt(txs: map<TxId, Tx>, i: TxId)
    requires i in txs
    ensures Total(txs) == Remaining(txs[i].pc) + Total(txs - {i})
    decreases |txs|
  {
    var j :| j in txs && Total(txs) == Remaining(txs[j].pc) + Total(txs - {j});
    if j != i {
      TotalAt(txs - {j}, i);
      TotalAt(txs - {i}, j);
      assert txs - {j} - {i} == txs - {i} - {j};
    }
  }

  lemma {:induction false} TotalAtMost(txs: map<TxId, Tx>)
    ensures Total(txs) <= 7 * |txs|
    decreases |txs|
  {
    if txs != map[] {
      var i :| i in txs;
      TotalAt(txs, i);
      TotalAtMost(txs - {i});
      assert |txs - {i}| == |txs| - 1 by { assert (txs - {i}).Keys == txs.Keys - {i}; }
    }
  }

  lemma StepDescends(s: Sys, i: TxId, newId: Id, s': Sys)
    requires Next(s, i, newId) == Some(s')
    ensures Remaining(s'.txs[i].pc) < Remaining(s.txs[i].pc)
  {
  }

  // A run is never longer than the phases its transactions have left.
  lemma {:induction false} RunsAreShort(s: Sys, picks: seq<Pick>)
    requires RunOf(s, picks).Some?
    ensures |picks| + Total(RunOf(s, picks).value.txs) <= Total(s.txs)
    decreases picks
  {
    if picks != [] {
      var i, s' := picks[0].tx, Next(s, picks[0].tx, picks[0].newId).value;
      NextMoves(s, i, picks[0].newId);
      StepDescends(s, i, picks[0].newId, s');
      RunsAreShort(s', picks[1..]);
      TotalAt(s.txs, i);
      TotalAt(s'.txs, i);
      assert s'.txs - {i} == s.txs - {i};
    }
  }

  // ---- deadlock freedom ---------------------------------------------------------------------

  predicate Waiting(pc: Pc) {
    pc.AwaitOrg? || pc.AwaitTeam? || pc.AwaitRole?
  }

  lemma {:induction false} SomeFreshId(used: set<Id>) returns (newId: Id)
    ensures newId !in used && forall x :: x in used ==> x < newId
    decreases |used|
  {
    if used == {} {
      newId := 0;
    } else {
      var x :| x in used;
      var y := SomeFreshId(used - {x});
      newId := if x < y then y else x + 1;
      assert forall z :: z in used ==> z == x || z in used - {x};
    }
  }

  lemma UnlockedSteps(s: Sys, i: TxId, newId: Id)
    requires i in s.txs && !Waiting(s.txs[i].pc) && !s.txs[i].pc.Done? && newId !in s.used
    ensures Next(s, i, newId).Some?
  {
  }

  // A waiting transaction that cannot step waits for a key that another one holds.
  lemma BlockedBy(s: Sys, i: TxId, newId: Id) returns (k: Key)
    requires LocksInv(s) && i in s.txs && TxInv(s, s.txs[i])
    requires Waiting(s.txs[i].pc) && Next(s, i, newId).None?
    ensures k in s.locks && s.locks[k] in s.txs && k in Held(s.txs[s.locks[k]])
    ensures s.txs[i].pc.AwaitTeam? ==> k.TeamKey?
    ensures s.txs[i].pc.AwaitRole? ==> k.RoleKey?
  {
    var Tx(call, pc) := s.txs[i];
    var keys := if pc.AwaitOrg? then OrgKeys(call, pc.team)
                else if pc.AwaitTeam? then {TeamKey(call.team)} else AllKeys(call, None);
    k :| k in keys && k in s.locks;
    assert s.locks[k] in Holdings(s.txs);
  }

  // The holder of a key waits for a team key at most, and of a team or role key for nothing.
  lemma HolderWaits(s: Sys, j: TxId, k: Key)
    requires j in s.txs && k in Held(s.txs[j])
    ensures !s.txs[j].pc.Done? && (Waiting(s.txs[j].pc) ==> s.txs[j].pc.AwaitTeam? && k.OrgKey?)
  {
  }

  // The transaction that holds the key another one waits for, if that one cannot step.
  lemma Holder(s: Sys, i: TxId, newId: Id) returns (j: TxId)
    requires Inv(s) && i in s.txs && !s.txs[i].pc.Done? && newId !in s.used && Next(s, i, newId).None?
    ensures j in s.txs && !s.txs[j].pc.Done? && (Waiting(s.txs[j].pc) ==> s.txs[j].pc.AwaitTeam?)
    ensures s.txs[i].pc.AwaitTeam? ==> !Waiting(s.txs[j].pc)
  {
    if !Waiting(s.txs[i].pc) {
      UnlockedSteps(s, i, newId);
    }
    assert TxInv(s, s.txs[i]);
    var k := BlockedBy(s, i, newId);
    j := s.locks[k];
    HolderWaits(s, j, k);
  }

  // In every reachable state with a transaction still running, some transaction can step:
  // a chain of waiting transactions is at most two long.
  lemma NoDeadlock(s: Sys, i: TxId) returns (j: TxId, newId: Id)
    requires Inv(s) && i in s.txs && !s.txs[i].pc.Done?
    ensures Next(s, j, newId).Some?
  {
    newId := SomeFreshId(s.used);
    j := i;
    if Next(s, j, newId).None? {
      j := Holder(s, j, newId);
    }
    if Next(s, j, newId).None? {
      j := Holder(s, j, newId);
    }
    if !Waiting(s.txs[j].pc) {
      UnlockedSteps(s, j, newId);
    }
  }

  // A finite batch finishes: no run of it takes more than seven steps per transaction, and
  // a run that cannot be extended has ended every one of them.
  lemma EveryBatchEnds(s: Sys, picks: seq<Pick>)
    requires Initial(s) && RunOf(s, picks).Some?
    ensures |picks| <= 7 * |s.txs|
    ensures var final := RunOf(s, picks).value;
            (forall j, n :: Next(final, j, n).None?) ==> forall i :: i in final.txs ==> final.txs[i].pc.Done?
  {
    var final := RunOf(s, picks).value;
    RunsAreShort(s, picks);
    TotalAtMost(s.txs);
    InitialInv(s);
    RunKeepsInv(s, picks);
    if i :| i in final.txs && !final.txs[i].pc.Done? {
      var j, n := NoDeadlock(final, i);
    }
  }
}
