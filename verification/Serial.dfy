// Every interleaving is equivalent to running the calls one at a time.
module Serial {
  import opened Common
  import opened Tables
  import opened Consistency
  import opened Locking

  // ---- one step keeps the invariant -----------------------------------------------------

  // What every step of transaction i looks like to the other transactions.
  ghost predicate Moved(s: Sys, s': Sys, i: TxId) {
    && i in s.txs && i in s'.txs
    && s.used <= s'.used
    && s'.txs == s.txs[i := Tx(s.txs[i].call, s'.txs[i].pc)]
  }

  lemma NextMoves(s: Sys, i: TxId, newId: Id)
    requires Next(s, i, newId).Some?
    ensures Moved(s, Next(s, i, newId).value, i)
  {
  }

  lemma MovedSameCalls(s: Sys, s': Sys, i: TxId)
    requires Moved(s, s', i)
    ensures RolesFixed(s') <==> RolesFixed(s)
  {
    assert forall j :: j in s.txs ==> s'.txs[j].call == s.txs[j].call;
    assert forall j :: j in s'.txs ==> s.txs[j].call == s'.txs[j].call;
  }

  lemma OwnCount(s: Sys, i: TxId, newId: Id, s': Sys)
    requires Next(s, i, newId) == Some(s') && TxInv(s, s.txs[i]) && s.txs[i].pc.Count?
    requires RolesFixed(s') <==> RolesFixed(s)
    ensures PcInv(s', s'.txs[i].call, s'.txs[i].pc)
  {
    assert s'.db == s.db;
  }

  // Where a step that writes nothing leaves the transaction.
  lemma OwnMove(s: Sys, i: TxId, newId: Id, s': Sys)
    requires Next(s, i, newId) == Some(s') && TxInv(s, s.txs[i]) && !s.txs[i].pc.WriteRows?
    requires RolesFixed(s') <==> RolesFixed(s)
    ensures PcInv(s', s'.txs[i].call, s'.txs[i].pc)
  {
    if s.txs[i].pc.Count? {
      OwnCount(s, i, newId, s');
    } else {
      assert s'.db == s.db;
    }
  }

  lemma OwnProgress(s: Sys, i: TxId, newId: Id, s': Sys)
    requires Next(s, i, newId) == Some(s') && TxInv(s, s.txs[i])
    requires RolesFixed(s') <==> RolesFixed(s)
    ensures TxInv(s', s'.txs[i])
  {
    assert s'.txs[i].call == s.txs[i].call && Named(s.txs[i].call) <= s'.used;
    if s.txs[i].pc.WriteRows? {
      assert s'.txs[i].pc.Done?;
    } else {
      OwnMove(s, i, newId, s');
    }
  }

  lemma OthersProgress(s: Sys, s': Sys, i: TxId)
    requires Moved(s, s', i) && LocksInv(s) && TeamSeatsOk(s.db)
    requires forall j :: j in s.txs ==> TxInv(s, s.txs[j])
    requires s'.db == s.db || Spares(s, s'.db, Held(s.txs[i]))
    requires RolesFixed(s') <==> RolesFixed(s)
    ensures forall j :: j in s'.txs && j != i ==> TxInv(s', s'.txs[j])
  {
    forall j | j in s'.txs && j != i ensures TxInv(s', s'.txs[j]) {
      HoldersDiffer(s.locks, Holdings(s.txs), i, j);
      assert Held(s.txs[i]) !! Held(s.txs[j]);
      var held := if s'.db == s.db then {} else Held(s.txs[i]);
      TxSurvives(s, s', held, s.txs[j]);
    }
  }

  // The tables either stay as they are, or a transaction that passed its guard writes.
  lemma NextTables(s: Sys, i: TxId, newId: Id, s': Sys)
    requires Next(s, i, newId) == Some(s')
    ensures s'.db == s.db || (s.txs[i].pc.WriteRows? && s'.db == Write(s.db, s.txs[i].call, newId).db)
    ensures s.txs[i].pc.WriteRows? && Generates(s.txs[i].call) ==> newId !in s.used && newId in s'.used
  {
  }

  // ---- a completed call has its atomic effect ---------------------------------------------

  // Each local decision is the one the atomic version would take now.
  lemma GuardAgrees(s: Sys, call: Call, team: Option<Team>, keeps: bool)
    requires RowStands(s, call, team) && FlagStands(s, call, keeps)
    requires RolesFixed(s) && !call.DeleteRole?
    ensures Guard(s.db, call) == GuardWith(s.db, call, team, keeps)
  {
  }

  lemma WriteIsAtomic(s: Sys, tx: Tx, newId: Id)
    requires TxInv(s, tx) && tx.pc.WriteRows?
    ensures Write(s.db, tx.call, newId).db == s.db ||
            Atomic(s.db, tx.call, newId) == Write(s.db, tx.call, newId)
    ensures RolesFixed(s) && !ChangesRoles(tx.call) ==>
              Atomic(s.db, tx.call, newId) == Write(s.db, tx.call, newId)
  {
    if RolesFixed(s) && !ChangesRoles(tx.call) {
      GuardAgrees(s, tx.call, tx.pc.team, tx.pc.keeps);
    }
  }

  lemma WriteCommits(db: Db, call: Call, newId: Id)
    ensures Write(db, call, newId).db != db ==> Write(db, call, newId).outcome.Committed?
    ensures var db' := Write(db, call, newId).db;
            db'.teams.Keys + db'.roles.Keys <=
            db.teams.Keys + db.roles.Keys + if Generates(call) then {newId} else {}
  {
  }

  // The tables only ever change by the committed atomic effect of the call that steps,
  // whatever else is in flight and however the role tables move.
  lemma StepIsAtomic(s: Sys, i: TxId, newId: Id, s': Sys)
    requires Next(s, i, newId) == Some(s') && TxInv(s, s.txs[i])
    ensures s'.db == s.db || Atomic(s.db, s.txs[i].call, newId) == Result(s'.db, Committed)
  {
    NextTables(s, i, newId, s');
    if s'.db != s.db {
      WriteIsAtomic(s, s.txs[i], newId);
      WriteCommits(s.db, s.txs[i].call, newId);
    }
  }

  lemma NextKeepsInv(s: Sys, i: TxId, newId: Id, s': Sys)
    requires Inv(s) && Next(s, i, newId) == Some(s')
    ensures Inv(s')
  {
    NextMoves(s, i, newId);
    MovedSameCalls(s, s', i);
    NextTables(s, i, newId, s');
    assert TxInv(s, s.txs[i]);
    assert LocksInv(s') by { NextLocks(s, i, newId); }
    assert TxInv(s', s'.txs[i]) by { OwnProgress(s, i, newId, s'); }
    assert Consistent(s'.db) by {
      StepIsAtomic(s, i, newId, s');
      AtomicKeepsConsistent(s.db, s.txs[i].call, newId);
    }
    assert s'.db == s.db || Spares(s, s'.db, Held(s.txs[i])) by {
      if s'.db != s.db {
        WriteSpares(s, s.txs[i], newId);
      }
    }
    assert s'.db.teams.Keys + s'.db.roles.Keys <= s'.used by {
      WriteCommits(s.db, s.txs[i].call, newId);
    }
    OthersProgress(s, s', i);
  }

  // With the role tables fixed, a call also ends with the outcome it would have had alone
  // at that very point: successes at their commit, failed guards at their count.
  lemma StepOutcome(s: Sys, i: TxId, newId: Id, s': Sys)
    requires RolesFixed(s) && Next(s, i, newId) == Some(s') && TxInv(s, s.txs[i])
    ensures if s'.txs[i].pc.Done?
            then Atomic(s.db, s.txs[i].call, newId) == Result(s'.db, s'.txs[i].pc.outcome)
            else s'.db == s.db
  {
    var Tx(call, pc) := s.txs[i];
    assert !ChangesRoles(call);
    if pc.WriteRows? {
      WriteIsAtomic(s, s.txs[i], newId);
    } else if pc.Count? {
      GuardAgrees(s, call, pc.team, pc.keeps);
    }
  }

  // ---- whole runs -----------------------------------------------------------------------

  // Which transaction steps, and the uuid generated for it.
  datatype Pick = Pick(tx: TxId, newId: Id)

  // The state after a schedule; None when a pick could not step.
  ghost function RunOf(s: Sys, picks: seq<Pick>): Option<Sys>
    decreases picks
  {
    if picks == [] then Some(s)
    else
      match Next(s, picks[0].tx, picks[0].newId)
      case None => None
      case Some(s') => RunOf(s', picks[1..])
  }

  datatype Entry = Entry(tx: TxId, call: Call, newId: Id, outcome: Outcome)

  // The calls in the order in which they ended.
  ghost function Log(s: Sys, picks: seq<Pick>): seq<Entry>
    requires RunOf(s, picks).Some?
    decreases picks
  {
    if picks == [] then []
    else
      var i, s' := picks[0].tx, Next(s, picks[0].tx, picks[0].newId).value;
      var here := if s'.txs[i].pc.Done?
                  then [Entry(i, s.txs[i].call, picks[0].newId, s'.txs[i].pc.outcome)] else [];
      here + Log(s', picks[1..])
  }

  // The calls that changed the tables, in the order in which they did.
  ghost function Effects(s: Sys, picks: seq<Pick>): seq<Entry>
    requires RunOf(s, picks).Some?
    decreases picks
  {
    if picks == [] then []
    else
      var i, s' := picks[0].tx, Next(s, picks[0].tx, picks[0].newId).value;
      var here := if s'.db != s.db then [Entry(i, s.txs[i].call, picks[0].newId, Committed)] else [];
      here + Effects(s', picks[1..])
  }

  // Runs the calls of a log one at a time, checking each recorded outcome.
  ghost function Replay(db: Db, log: seq<Entry>): Option<Db>
    decreases log
  {
    if log == [] then Some(db)
    else
      var result := Atomic(db, log[0].call, log[0].newId);
      if result.outcome == log[0].outcome then Replay(result.db, log[1..]) else None
  }

  lemma {:induction false} RunKeepsInv(s: Sys, picks: seq<Pick>)
    requires Inv(s) && RunOf(s, picks).Some?
    ensures Inv(RunOf(s, picks).value)
    decreases picks
  {
    if picks != [] {
      var s' := Next(s, picks[0].tx, picks[0].newId).value;
      NextKeepsInv(s, picks[0].tx, picks[0].newId, s');
      RunKeepsInv(s', picks[1..]);
    }
  }

  // Every interleaving of a batch that leaves the role tables alone is a serial run: same
  // tables, same error codes.
  lemma {:induction false} Serializable(s: Sys, picks: seq<Pick>)
    requires Inv(s) && RolesFixed(s) && RunOf(s, picks).Some?
    ensures Replay(s.db, Log(s, picks)) == Some(RunOf(s, picks).value.db)
    decreases picks
  {
    if picks != [] {
      var i, s' := picks[0].tx, Next(s, picks[0].tx, picks[0].newId).value;
      NextMoves(s, i, picks[0].newId);
      MovedSameCalls(s, s', i);
      NextKeepsInv(s, i, picks[0].newId, s');
      Serializable(s', picks[1..]);
      StepOutcome(s, i, picks[0].newId, s');
      if s'.txs[i].pc.Done? {
        assert Log(s, picks)[1..] == Log(s', picks[1..]);
      } else {
        assert Log(s, picks) == Log(s', picks[1..]);
      }
    }
  }

  // Even when roles are created, extended and deleted alongside, the tables are those of a
  // serial run of the calls that changed them.
  lemma {:induction false} EffectsSerializable(s: Sys, picks: seq<Pick>)
    requires Inv(s) && RunOf(s, picks).Some?
    ensures Replay(s.db, Effects(s, picks)) == Some(RunOf(s, picks).value.db)
    decreases picks
  {
    if picks != [] {
      var i, s' := picks[0].tx, Next(s, picks[0].tx, picks[0].newId).value;
      NextKeepsInv(s, i, picks[0].newId, s');
      EffectsSerializable(s', picks[1..]);
      StepIsAtomic(s, i, picks[0].newId, s');
      if s'.db != s.db {
        assert Effects(s, picks)[1..] == Effects(s', picks[1..]);
      } else {
        assert Effects(s, picks) == Effects(s', picks[1..]);
      }
    }
  }

  lemma {:induction false} DoneStays(s: Sys, picks: seq<Pick>, i: TxId)
    requires RunOf(s, picks).Some? && i in s.txs
    ensures i in RunOf(s, picks).value.txs && RunOf(s, picks).value.txs[i].call == s.txs[i].call
    ensures s.txs[i].pc.Done? ==>
              && RunOf(s, picks).value.txs[i] == s.txs[i]
              && forall k :: 0 <= k < |Log(s, picks)| ==> Log(s, picks)[k].tx != i
    decreases picks
  {
    if picks != [] {
      var s' := Next(s, picks[0].tx, picks[0].newId).value;
      NextMoves(s, picks[0].tx, picks[0].newId);
      DoneStays(s', picks[1..], i);
    }
  }

  // Everyone who ended is in the log.
  ghost predicate Listed(s: Sys, final: Sys, log: seq<Entry>) {
    forall i :: i in s.txs && i in final.txs && !s.txs[i].pc.Done? && final.txs[i].pc.Done? ==>
      exists k :: 0 <= k < |log| && log[k].tx == i
  }

  // One entry, with its outcome, for each transaction that ended between two states, and
  // none for any other.
  ghost predicate IsHistory(s: Sys, final: Sys, log: seq<Entry>) {
    && (forall k :: 0 <= k < |log| ==>
          && log[k].tx in s.txs && !s.txs[log[k].tx].pc.Done?
          && log[k].tx in final.txs && final.txs[log[k].tx] == Tx(log[k].call, Done(log[k].outcome)))
    && (forall k, l :: 0 <= k < l < |log| ==> log[k].tx != log[l].tx)
    && Listed(s, final, log)
  }

  lemma ListedExtends(s: Sys, s': Sys, final: Sys, i: TxId, rest: seq<Entry>, log: seq<Entry>)
    requires Moved(s, s', i) && Listed(s', final, rest)
    requires if s'.txs[i].pc.Done? then log != [] && log[0].tx == i && log[1..] == rest else log == rest
    ensures Listed(s, final, log)
  {
    forall j | j in s.txs && j in final.txs && !s.txs[j].pc.Done? && final.txs[j].pc.Done?
      ensures exists k :: 0 <= k < |log| && log[k].tx == j
    {
      if !(s'.txs[i].pc.Done? && j == i) {
        var k :| 0 <= k < |rest| && rest[k].tx == j;
        assert log[if s'.txs[i].pc.Done? then k + 1 else k].tx == j;
      }
    }
  }

  lemma HistoryExtends(s: Sys, s': Sys, final: Sys, i: TxId, newId: Id, rest: seq<Entry>)
    requires Moved(s, s', i) && !s.txs[i].pc.Done? && IsHistory(s', final, rest)
    requires s'.txs[i].pc.Done? ==> i in final.txs && final.txs[i] == s'.txs[i]
    ensures IsHistory(s, final, if s'.txs[i].pc.Done?
                                then [Entry(i, s.txs[i].call, newId, s'.txs[i].pc.outcome)] + rest else rest)
  {
    var log := if s'.txs[i].pc.Done? then [Entry(i, s.txs[i].call, newId, s'.txs[i].pc.outcome)] + rest else rest;
    ListedExtends(s, s', final, i, rest, log);
  }

  // The log is the history of the batch.
  lemma {:induction false} LogIsHistory(s: Sys, picks: seq<Pick>)
    requires RunOf(s, picks).Some?
    ensures IsHistory(s, RunOf(s, picks).value, Log(s, picks))
    decreases picks
  {
    if picks != [] {
      var i, s' := picks[0].tx, Next(s, picks[0].tx, picks[0].newId).value;
      NextMoves(s, i, picks[0].newId);
      LogIsHistory(s', picks[1..]);
      DoneStays(s', picks[1..], i);
      HistoryExtends(s, s', RunOf(s, picks).value, i, picks[0].newId, Log(s', picks[1..]));
      if !s'.txs[i].pc.Done? {
        assert Log(s, picks) == Log(s', picks[1..]);
      }
    }
  }
}
