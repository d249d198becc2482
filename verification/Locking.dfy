// The calls as concurrent transactions: every statement is a step of its own under Read
// Committed (PostgreSQL 17, section 13.2.1), and the transaction-level advisory locks of
// section 13.3.5 are taken org first, then team, and released when the transaction ends.
module Locking {
  import opened Common
  import opened Tables
  import opened Consistency

  type TxId = nat

  // What a key hashes. Distinct ids are taken to have distinct hashes.
  datatype Key = OrgKey(id: Id) | TeamKey(id: Id) | RoleKey(id: Id)

  // Where a transaction stands, with the local variables it has read: the team row of a
  // team call (absent when the select found none) and the `keeps_...` flag.
  datatype Pc =
    | Begin
    | AwaitOrg(team: Option<Team>)
    | AwaitTeam(team: Option<Team>)
    | AwaitRole
    | ReadKeeps(team: Option<Team>)
    | Count(team: Option<Team>, keeps: bool)
    | CheckOwner
    | WriteRows(team: Option<Team>, keeps: bool)
    | Done(outcome: Outcome)

  datatype Tx = Tx(call: Call, pc: Pc)

  // `used` holds every team and role id that exists, existed, or was named by a begun
  // call: a generated uuid is never one of them.
  datatype Sys = Sys(db: Db, locks: map<Key, TxId>, used: set<Id>, txs: map<TxId, Tx>)

  predicate IsOrgCall(call: Call) {
    call.RemoveOrgMember? || call.ChangeOrgRole?
  }

  predicate Generates(call: Call) {
    call.CreateTeam? || call.CreateRole? || call.CreateOrg?
  }

  function Named(call: Call): set<Id> {
    match call
    case ChangeOrgRole(_, _, r) => {r}
    case RemoveTeamMember(t, _, _) => {t}
    case ChangeTeamRole(t, _, r, _) => {t, r}
    case DeleteTeam(t) => {t}
    case DeleteRole(r) => {r}
    case AddOrgMember(_, _, r) => {r}
    case AddTeamMember(t, _, r) => {t, r}
    case GrantCapabilities(r, _) => {r}
    case _ => {}
  }

  // pg_advisory_xact_lock is strict: with the null org of an absent team it locks nothing.
  function OrgKeys(call: Call, team: Option<Team>): set<Key> {
    if IsOrgCall(call) then {OrgKey(call.org)}
    else if IsTeamCall(call) && team.Some? then {OrgKey(team.value.org)}
    else {}
  }

  function AllKeys(call: Call, team: Option<Team>): set<Key> {
    if IsTeamCall(call) then OrgKeys(call, team) + {TeamKey(call.team)}
    else if call.DeleteRole? then {RoleKey(call.role)}
    else OrgKeys(call, team)
  }

  // The keys a transaction holds, read off its position.
  function Held(tx: Tx): set<Key> {
    match tx.pc
    case AwaitTeam(team) => OrgKeys(tx.call, team)
    case ReadKeeps(team) => AllKeys(tx.call, team)
    case Count(team, _) => AllKeys(tx.call, team)
    case CheckOwner => AllKeys(tx.call, None)
    case WriteRows(team, keeps) =>
      if tx.call.ChangeOrgRole? && keeps then {} else AllKeys(tx.call, team)
    case _ => {}
  }

  // ---- steps ------------------------------------------------------------------------

  function FirstRead(db: Db, call: Call): Pc {
    if call.ChangeOrgRole? && Keeps(db, call) then WriteRows(None, true)
    else if IsOrgCall(call) then AwaitOrg(None)
    else if IsTeamCall(call) then AwaitOrg(TeamRow(db, call.team))
    else if call.DeleteRole? then AwaitRole
    else WriteRows(None, false)
  }

  function Goto(s: Sys, i: TxId, pc: Pc): Sys
    requires i in s.txs
  {
    s.(txs := s.txs[i := s.txs[i].(pc := pc)])
  }

  // Waits while another transaction has a key.
  function Acquire(s: Sys, i: TxId, keys: set<Key>, pc: Pc): Option<Sys>
    requires i in s.txs
  {
    if exists k :: k in keys && k in s.locks then None
    else Some(Goto(s.(locks := s.locks + map k | k in keys :: i), i, pc))
  }

  // Commit or roll back, releasing every lock.
  function Finish(s: Sys, i: TxId, db: Db, outcome: Outcome): Sys
    requires i in s.txs
  {
    Goto(s.(db := db, locks := map k | k in s.locks && s.locks[k] != i :: s.locks[k]), i, Done(outcome))
  }

  ghost function CountStep(s: Sys, i: TxId): Sys
    requires i in s.txs && s.txs[i].pc.Count?
  {
    var Tx(call, Count(team, keeps)) := s.txs[i];
    if call.DeleteRole? then
      if InUse(s.db, call.role) then Finish(s, i, s.db, Raised(ZA004)) else Goto(s, i, CheckOwner)
    else
      var guard := GuardWith(s.db, call, team, keeps);
      if guard.Some? then Finish(s, i, s.db, Raised(guard.value)) else Goto(s, i, WriteRows(team, keeps))
  }

  ghost function WriteStep(s: Sys, i: TxId, newId: Id): Option<Sys>
    requires i in s.txs
  {
    var call := s.txs[i].call;
    if Generates(call) && newId in s.used then None
    else
      var result := Write(s.db, call, newId);
      Some(Finish(s.(used := if Generates(call) then s.used + {newId} else s.used), i, result.db, result.outcome))
  }

  // One step of transaction i; None when it waits or has ended. `newId` is the uuid the
  // server generates, should the step insert a row that needs one.
  ghost function Next(s: Sys, i: TxId, newId: Id): Option<Sys> {
    if i !in s.txs then None
    else
      var Tx(call, pc) := s.txs[i];
      match pc
      case Begin => Some(Goto(s.(used := s.used + Named(call)), i, FirstRead(s.db, call)))
      case AwaitOrg(team) =>
        Acquire(s, i, OrgKeys(call, team), if IsTeamCall(call) then AwaitTeam(team) else Count(team, false))
      case AwaitTeam(team) =>
        if !IsTeamCall(call) then None
        else Acquire(s, i, {TeamKey(call.team)}, if call.ChangeTeamRole? then ReadKeeps(team) else Count(team, false))
      case AwaitRole =>
        Acquire(s, i, AllKeys(call, None), Count(None, false))
      case ReadKeeps(team) => Some(Goto(s, i, Count(team, Keeps(s.db, call))))
      case Count(_, _) => Some(CountStep(s, i))
      case CheckOwner =>
        if call.DeleteRole? && call.role in s.db.roles && s.db.roles[call.role].owner.Some?
        then Some(Goto(s, i, WriteRows(None, false)))
        else Some(Finish(s, i, s.db, Raised(ZA004)))
      case WriteRows(_, _) => WriteStep(s, i, newId)
      case Done(_) => None
  }

  // ---- the invariant --------------------------------------------------------------------

  predicate ChangesRoles(call: Call) {
    call.DeleteRole? || call.CreateRole? || call.GrantCapabilities?
  }

  // No transaction of the batch touches the role tables.
  ghost predicate RolesFixed(s: Sys) {
    forall i :: i in s.txs ==> !ChangesRoles(s.txs[i].call)
  }

  // A team row read earlier is still the team's row, unless the team was deleted; a
  // default team never is; and a team that was absent never appears.
  predicate RowStands(s: Sys, call: Call, team: Option<Team>) {
    IsTeamCall(call) ==>
      && (team.None? ==> call.team !in s.db.teams)
      && (team.Some? && call.team in s.db.teams ==> s.db.teams[call.team] == team.value)
      && (team.Some? && team.value.isDefault ==> call.team in s.db.teams)
  }

  // A flag read earlier may only have turned from false to true, or the role is gone.
  ghost predicate FlagStands(s: Sys, call: Call, keeps: bool) {
    call.ChangeOrgRole? || call.ChangeTeamRole? ==>
      && (keeps && call.role in s.db.roles ==> Keeps(s.db, call))
      && (RolesFixed(s) ==> keeps == Keeps(s.db, call))
  }

  // A guard that passed still passes.
  ghost predicate GuardStands(s: Sys, call: Call, team: Option<Team>, keeps: bool) {
    if call.DeleteRole? then call.role in s.db.roles && s.db.roles[call.role].owner.Some?
    else GuardWith(s.db, call, team, keeps).None?
  }

  ghost predicate TxInv(s: Sys, tx: Tx) {
    tx.pc.Begin? || (Named(tx.call) <= s.used && PcInv(s, tx.call, tx.pc))
  }

  ghost predicate PcInv(s: Sys, call: Call, pc: Pc) {
    match pc
    case Begin => true
    case AwaitOrg(team) =>
      (IsTeamCall(call) || (IsOrgCall(call) && FlagStands(s, call, false))) && RowStands(s, call, team)
    case AwaitTeam(team) => IsTeamCall(call) && RowStands(s, call, team)
    case AwaitRole => call.DeleteRole?
    case ReadKeeps(team) => call.ChangeTeamRole? && RowStands(s, call, team)
    case Count(team, keeps) =>
      && (IsTeamCall(call) || IsOrgCall(call) || call.DeleteRole?)
      && (call.DeleteRole? ==> team == None)
      && (call.ChangeOrgRole? ==> !keeps)
      && RowStands(s, call, team) && FlagStands(s, call, keeps)
    case CheckOwner => call.DeleteRole?
    case WriteRows(team, keeps) =>
      && (call.DeleteRole? ==> team == None)
      && RowStands(s, call, team) && FlagStands(s, call, keeps) && GuardStands(s, call, team, keeps)
    case Done(_) => true
  }

  ghost function Holdings(txs: map<TxId, Tx>): map<TxId, set<Key>> {
    map i | i in txs :: Held(txs[i])
  }

  // The lock table says exactly what the positions say, so no key has two holders.
  ghost predicate Agree(locks: map<Key, TxId>, holdings: map<TxId, set<Key>>) {
    && (forall k :: k in locks ==> locks[k] in holdings && k in holdings[locks[k]])
    && (forall i, k :: i in holdings && k in holdings[i] ==> k in locks && locks[k] == i)
  }

  ghost predicate LocksInv(s: Sys) {
    Agree(s.locks, Holdings(s.txs))
  }

  ghost predicate Inv(s: Sys) {
    && Consistent(s.db)
    && LocksInv(s)
    && s.db.teams.Keys + s.db.roles.Keys <= s.used
    && forall i :: i in s.txs ==> TxInv(s, s.txs[i])
  }

  // A batch of calls, none begun.
  ghost predicate Initial(s: Sys) {
    && Consistent(s.db)
    && s.locks == map[]
    && s.db.teams.Keys + s.db.roles.Keys <= s.used
    && forall i :: i in s.txs ==> s.txs[i].pc == Begin
  }

  lemma InitialInv(s: Sys)
    requires Initial(s)
    ensures Inv(s)
  {
  }

  // ---- what a transaction may do to the others -----------------------------------------

  ghost predicate SparesOrgAdmins(db: Db, db': Db, held: set<Key>) {
    forall o, u :: IsOrgAdmin(db, o, u) && OrgKey(o) !in held ==> IsOrgAdmin(db', o, u)
  }

  ghost predicate SparesTeamAdmins(db: Db, db': Db, held: set<Key>) {
    forall t, u ::
      (IsTeamAdmin(db, t, u) && TeamKey(t) !in held && t in db.teams && OrgKey(db.teams[t].org) !in held)
      ==> IsTeamAdmin(db', t, u)
  }

  predicate SparesTeams(db: Db, db': Db, used: set<Id>) {
    forall t :: t in used ==>
      && (t in db'.teams ==> t in db.teams && db'.teams[t] == db.teams[t])
      && (t in db.teams && db.teams[t].isDefault ==> t in db'.teams)
  }

  predicate SparesRoles(db: Db, db': Db, used: set<Id>, held: set<Key>) {
    forall r :: r in used ==>
      && (r in db'.roles ==> r in db.roles && db.roles[r].caps <= db'.roles[r].caps)
      && (r in db.roles && RoleKey(r) !in held ==> r in db'.roles && db'.roles[r].owner == db.roles[r].owner)
  }

  // The guarantee of a transaction that holds `held`, and what the others rely on.
  ghost predicate Spares(s: Sys, db': Db, held: set<Key>) {
    && SparesOrgAdmins(s.db, db', held)
    && SparesTeamAdmins(s.db, db', held)
    && SparesTeams(s.db, db', s.used)
    && SparesRoles(s.db, db', s.used, held)
    && (RolesFixed(s) ==> db'.roles == s.db.roles)
  }

  lemma WriteSparesOrgAdmins(db: Db, call: Call, newId: Id, held: set<Key>)
    requires call.RemoveOrgMember? ==> OrgKey(call.org) in held
    requires call.ChangeOrgRole? ==> OrgKey(call.org) in held || (call.role in db.roles ==> Keeps(db, call))
    ensures SparesOrgAdmins(db, Write(db, call, newId).db, held)
  {
    var db' := Write(db, call, newId).db;
    forall o, u | IsOrgAdmin(db, o, u) && OrgKey(o) !in held ensures IsOrgAdmin(db', o, u) {
      assert db.orgMembers[Seat(o, u)] in db.orgMembers.Values;
    }
  }

  lemma WriteSparesTeamAdmins(db: Db, call: Call, newId: Id, held: set<Key>)
    requires call.RemoveOrgMember? ==> OrgKey(call.org) in held
    requires IsTeamCall(call) ==> TeamKey(call.team) in held
    ensures SparesTeamAdmins(db, Write(db, call, newId).db, held)
  {
    var db' := Write(db, call, newId).db;
    forall t, u | IsTeamAdmin(db, t, u) && TeamKey(t) !in held && t in db.teams && OrgKey(db.teams[t].org) !in held
      ensures IsTeamAdmin(db', t, u)
    {
      assert db.teamMembers[Seat(t, u)] in db.teamMembers.Values;
    }
  }

  lemma WriteSparesTeams(db: Db, call: Call, newId: Id, used: set<Id>)
    requires db.teams.Keys <= used
    requires Generates(call) ==> newId !in used
    requires call.DeleteTeam? && call.team in db.teams ==> !db.teams[call.team].isDefault
    ensures SparesTeams(db, Write(db, call, newId).db, used)
  {
  }

  lemma WriteSparesRoles(db: Db, call: Call, newId: Id, used: set<Id>, held: set<Key>)
    requires db.roles.Keys <= used
    requires Generates(call) ==> newId !in used
    requires call.DeleteRole? ==> RoleKey(call.role) in held
    ensures SparesRoles(db, Write(db, call, newId).db, used, held)
  {
  }

  lemma WriteFixesRoles(db: Db, call: Call, newId: Id)
    requires !ChangesRoles(call)
    ensures Write(db, call, newId).db.roles == db.roles
  {
  }

  lemma WriteSpares(s: Sys, tx: Tx, newId: Id)
    requires s.db.teams.Keys + s.db.roles.Keys <= s.used
    requires tx.pc.WriteRows? && TxInv(s, tx)
    requires Generates(tx.call) ==> newId !in s.used
    requires RolesFixed(s) ==> !ChangesRoles(tx.call)
    ensures Spares(s, Write(s.db, tx.call, newId).db, Held(tx))
  {
    var call, held := tx.call, Held(tx);
    WriteSparesOrgAdmins(s.db, call, newId, held);
    WriteSparesTeamAdmins(s.db, call, newId, held);
    WriteSparesTeams(s.db, call, newId, s.used);
    WriteSparesRoles(s.db, call, newId, s.used, held);
    if RolesFixed(s) {
      WriteFixesRoles(s.db, call, newId);
    }
  }

  // ---- stability: what one transaction spares, another may rely on ---------------------

  lemma GuardSurvives(s: Sys, db': Db, held: set<Key>, call: Call, team: Option<Team>, keeps: bool)
    requires TeamSeatsOk(s.db) && Spares(s, db', held)
    requires RowStands(s, call, team) && GuardStands(s, call, team, keeps)
    requires Named(call) <= s.used
    requires (call.ChangeOrgRole? && keeps) || AllKeys(call, team) !! held
    ensures GuardStands(s.(db := db'), call, team, keeps)
  {
    if IsOrgCall(call) && !keeps {
      var u :| u != call.user && IsOrgAdmin(s.db, call.org, u);
      assert OrgKey(call.org) in AllKeys(call, team);
      assert IsOrgAdmin(db', call.org, u);
    } else if (call.RemoveTeamMember? || call.ChangeTeamRole?) && OtherTeamAdmin(s.db, call.team, call.user) {
      var u :| u != call.user && IsTeamAdmin(s.db, call.team, u);
      assert Seat(call.team, u).place in s.db.teams;
      assert TeamKey(call.team) in AllKeys(call, team) && OrgKey(team.value.org) in AllKeys(call, team);
      assert IsTeamAdmin(db', call.team, u);
    } else if call.DeleteRole? {
      assert RoleKey(call.role) in AllKeys(call, team);
    }
  }

  lemma TxSurvives(s: Sys, s': Sys, held: set<Key>, tx: Tx)
    requires TeamSeatsOk(s.db) && Spares(s, s'.db, held)
    requires s.used <= s'.used && (RolesFixed(s') ==> RolesFixed(s))
    requires TxInv(s, tx) && Held(tx) !! held
    ensures TxInv(s', tx)
  {
    if tx.pc.WriteRows? {
      GuardSurvives(s, s'.db, held, tx.call, tx.pc.team, tx.pc.keeps);
    }
  }

  // ---- one step keeps the invariant -----------------------------------------------------

  lemma ReleaseAgrees(locks: map<Key, TxId>, holdings: map<TxId, set<Key>>, i: TxId)
    requires Agree(locks, holdings)
    ensures Agree(map k | k in locks && locks[k] != i :: locks[k], holdings[i := {}])
  {
  }

  lemma GrantAgrees(locks: map<Key, TxId>, holdings: map<TxId, set<Key>>, i: TxId, keys: set<Key>)
    requires Agree(locks, holdings) && i in holdings
    requires forall k :: k in keys ==> k !in locks
    ensures Agree(locks + map k | k in keys :: i, holdings[i := holdings[i] + keys])
  {
  }

  lemma HoldersDiffer(locks: map<Key, TxId>, holdings: map<TxId, set<Key>>, i: TxId, j: TxId)
    requires Agree(locks, holdings) && i in holdings && j in holdings && i != j
    ensures holdings[i] !! holdings[j]
  {
    forall k | k in holdings[i] ensures k !in holdings[j] {
      assert locks[k] == i;
    }
  }

  lemma FinishLocks(s: Sys, i: TxId, db: Db, outcome: Outcome)
    requires LocksInv(s) && i in s.txs
    ensures LocksInv(Finish(s, i, db, outcome))
  {
    ReleaseAgrees(s.locks, Holdings(s.txs), i);
    assert Holdings(Finish(s, i, db, outcome).txs) == Holdings(s.txs)[i := {}];
  }

  lemma AcquireLocks(s: Sys, i: TxId, keys: set<Key>, pc: Pc)
    requires LocksInv(s) && i in s.txs && Acquire(s, i, keys, pc).Some?
    requires Held(s.txs[i].(pc := pc)) == Held(s.txs[i]) + keys
    ensures LocksInv(Acquire(s, i, keys, pc).value)
  {
    GrantAgrees(s.locks, Holdings(s.txs), i, keys);
    assert Holdings(Acquire(s, i, keys, pc).value.txs) == Holdings(s.txs)[i := Held(s.txs[i]) + keys];
  }

  lemma GotoLocks(s: Sys, i: TxId, pc: Pc)
    requires LocksInv(s) && i in s.txs && Held(s.txs[i].(pc := pc)) == Held(s.txs[i])
    ensures LocksInv(Goto(s, i, pc))
  {
    assert Holdings(Goto(s, i, pc).txs) == Holdings(s.txs);
  }

  lemma AwaitLocks(s: Sys, i: TxId, newId: Id)
    requires LocksInv(s) && Next(s, i, newId).Some? && TxInv(s, s.txs[i])
    requires s.txs[i].pc.AwaitOrg? || s.txs[i].pc.AwaitTeam? || s.txs[i].pc.AwaitRole?
    ensures LocksInv(Next(s, i, newId).value)
  {
    var Tx(call, pc) := s.txs[i];
    match pc
    case AwaitOrg(team) =>
      AcquireLocks(s, i, OrgKeys(call, team), if IsTeamCall(call) then AwaitTeam(team) else Count(team, false));
    case AwaitTeam(team) =>
      AcquireLocks(s, i, {TeamKey(call.team)},
                   if call.ChangeTeamRole? then ReadKeeps(team) else Count(team, false));
    case AwaitRole => AcquireLocks(s, i, AllKeys(call, None), Count(None, false));
  }

  // A step without a lock to wait for either moves on with the keys it has or ends.
  lemma MoveOrEndLocks(s: Sys, i: TxId, s': Sys)
    requires LocksInv(s) && i in s.txs && i in s'.txs
    requires || (s' == Goto(s, i, s'.txs[i].pc) && Held(s'.txs[i]) == Held(s.txs[i]))
             || (s'.txs[i].pc.Done? && s' == Finish(s, i, s'.db, s'.txs[i].pc.outcome))
    ensures LocksInv(s')
  {
    if s'.txs[i].pc.Done? && s' == Finish(s, i, s'.db, s'.txs[i].pc.outcome) {
      FinishLocks(s, i, s'.db, s'.txs[i].pc.outcome);
    } else {
      GotoLocks(s, i, s'.txs[i].pc);
    }
  }

  lemma NextLocks(s: Sys, i: TxId, newId: Id)
    requires LocksInv(s) && Next(s, i, newId).Some? && TxInv(s, s.txs[i])
    ensures LocksInv(Next(s, i, newId).value)
  {
    var pc, s' := s.txs[i].pc, Next(s, i, newId).value;
    if pc.AwaitOrg? || pc.AwaitTeam? || pc.AwaitRole? {
      AwaitLocks(s, i, newId);
    } else {
      MoveOrEndLocks(s.(used := s'.used), i, s');
    }
  }
}
