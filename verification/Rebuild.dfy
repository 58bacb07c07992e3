/**
 Recover: a sequence of durable writes that can stop after any of them and be run again. A budget says
 after how many writes the process crashes.
 */
module Rebuild {
  import opened Common
  import opened Text
  import opened Ledger
  import opened Addresses
  import opened Recovery
  import opened AddressSafety

  datatype Outcome = Refused | Failed | Crashed | Recovered

  /** One audited recovery: the installation, the operator's overrides, the marks they lead to and the
      addresses the mapping checksum stands for. */
  datatype Audit = Audit(
    id: Token, overrides: map<Token, nat>, targets: map<Token, nat>, addresses: map<Token, seq<string>>)

  /** Where an order moves the marks. */
  function Goals(m: Manifest, overrides: map<Token, nat>): (r: map<Token, nat>)
    ensures r.Keys == m.Keys
    ensures forall w | w in m :: r[w] == if w in overrides then overrides[w] else m[w].next
  {
    map w | w in m :: if w in overrides then overrides[w] else m[w].next
  }

  /** Overrides may raise a mark, never lower it. */
  function RecoveryTargets(m: Manifest, overrides: map<Token, nat>): Option<map<Token, nat>> {
    if forall id | id in overrides :: id in m && m[id].next <= overrides[id] <= INDEX_SPACE then
      Some(Goals(m, overrides))
    else None
  }

  predicate GoodAudit(a: Audit) {
    && a.addresses.Keys == a.targets.Keys
    && forall w | w in a.targets ::
       a.targets[w] <= INDEX_SPACE && |a.addresses[w]| == a.targets[w] && GoodAddresses(a.addresses[w])
  }

  predicate Wanted(a: Audit, s: Slot) {
    s.wallet in a.targets && s.index < a.targets[s.wallet]
  }

  predicate RowsAgree(d: Database, a: Audit)
    requires GoodAudit(a)
  {
    forall s | s in d.rows :: Wanted(a, s) && d.rows[s] == a.addresses[s.wallet][s.index] && s.wallet in d.next
  }

  /** An unbound database that is empty or holds part of this recovery. */
  predicate HalfBuilt(d: Database, a: Audit)
    requires GoodAudit(a)
  {
    && d.bound.None? && !d.sealed && d.other == 0 && d.marker == Some(a.id)
    && d.next.Keys <= a.targets.Keys && (forall w | w in d.next :: d.next[w] <= a.targets[w])
    && RowsAgree(d, a)
  }

  /** A ledger from which the same overrides lead to the same marks. */
  predicate SameTargets(m: Manifest, a: Audit) {
    GoodManifest(m) && RecoveryTargets(m, a.overrides) == Some(a.targets)
  }

  predicate Resumable(m: Manifest, d: Database, a: Audit)
    requires GoodAudit(a)
  {
    SameTargets(m, a) && (d == EMPTY_DATABASE || HalfBuilt(d, a))
  }

  predicate WalletDone(d: Database, a: Audit, w: Token)
    requires w in a.targets
  {
    w in d.next && d.next[w] == a.targets[w] && forall i :: 0 <= i < a.targets[w] ==> Slot(w, i) in d.rows
  }

  /** The registry a recovery ends in: every wanted row and no other, no skips, the next allocation at
      the target, the database bound and the coordinator sealed. */
  ghost predicate Rebuilt(m: Manifest, d: Database, a: Audit)
    requires GoodAudit(a)
  {
    && m == (map w | w in a.targets :: WalletState(a.targets[w], []))
    && d.next == a.targets && d.bound == Some(a.id) && d.marker == None && d.sealed && d.other == 0
    && forall s: Slot ::
       if Wanted(a, s) then s in d.rows && d.rows[s] == a.addresses[s.wallet][s.index] else s !in d.rows
  }

  /** There is only one such registry, so every interrupted recovery ends where a clean one ends. */
  lemma RebuiltIsUnique(m1: Manifest, d1: Database, m2: Manifest, d2: Database, a: Audit)
    requires GoodAudit(a) && Rebuilt(m1, d1, a) && Rebuilt(m2, d2, a)
    ensures m1 == m2 && d1 == d2
  {
    forall s | s in d1.rows ensures s in d2.rows && d1.rows[s] == d2.rows[s] { assert Wanted(a, s); }
    forall s | s in d2.rows ensures s in d1.rows { assert Wanted(a, s); }
    assert d1.rows == d2.rows;
  }

  /** A rebuilt registry serves: its coverage is exact without skips and the next reservation of a
      wallet is its target, which no row has. */
  lemma RebuiltServes(m: Manifest, d: Database, a: Audit, w: Token, present: seq<nat>)
    requires GoodAudit(a) && Rebuilt(m, d, a) && w in a.targets && Lists(d.rows, w, present)
    ensures Covers(m[w].next, m[w].skipped, present)
    ensures a.targets[w] < INDEX_SPACE ==>
            ReserveIndex(m, w).1 == Some(a.targets[w]) && Slot(w, a.targets[w]) !in d.rows
  {
    ListsMembers(d, w, present);
    forall x: int ensures x in present <==> 0 <= x < a.targets[w] {
      if x >= 0 { assert Slot(w, x) in d.rows <==> Wanted(a, Slot(w, x)); }
    }
    assert !Wanted(a, Slot(w, a.targets[w]));
  }

  /** How many writes the wallets take: one row for the wallet and one per address. */
  function WritesFor(a: Audit, wallets: seq<Token>): nat {
    if wallets == [] then 0
    else
      var last := wallets[|wallets| - 1];
      WritesFor(a, wallets[..|wallets| - 1]) + 1 + if last in a.targets then a.targets[last] else 0
  }

  lemma {:induction false} WritesForPrefix(a: Audit, wallets: seq<Token>, k: nat)
    requires k <= |wallets|
    ensures WritesFor(a, wallets[..k]) <= WritesFor(a, wallets)
  {
    if k < |wallets| {
      assert wallets[..|wallets| - 1][..k] == wallets[..k];
      WritesForPrefix(a, wallets[..|wallets| - 1], k);
    } else {
      assert wallets[..k] == wallets;
    }
  }

  lemma AllocateWanted(d: Database, a: Audit, s: Slot)
    requires GoodAudit(a) && HalfBuilt(d, a) && Wanted(a, s) && s.wallet in d.next
    ensures var (d', ok) := AllocateWith(d, s, Some(a.addresses[s.wallet][s.index]), Commits);
            && ok && HalfBuilt(d', a) && s in d'.rows && d'.next.Keys == d.next.Keys
            && (forall x | x in d.rows :: x in d'.rows)
            && (forall w | w in d.next && w != s.wallet :: d'.next[w] == d.next[w])
            && d'.next[s.wallet] == Max(d.next[s.wallet], s.index + 1)
  {
    var address := a.addresses[s.wallet][s.index];
    assert Trim(address) == address && address != "";
    if s !in d.rows {
      forall x | x in d.rows && x.wallet == s.wallet ensures d.rows[x] != address {
        assert x.index != s.index;
      }
    }
  }

  /** Only rows and the mark of one wallet were added. */
  predicate Extends(before: Database, after: Database, wallet: Token) {
    && after.next.Keys == before.next.Keys
    && (forall w | w in before.next && w != wallet :: after.next[w] == before.next[w])
    && forall s | s in before.rows :: s in after.rows
  }

  predicate Progress(start: Database, d: Database, a: Audit, wallet: Token, index: nat)
    requires GoodAudit(a)
  {
    && HalfBuilt(d, a) && Extends(start, d, wallet) && wallet in d.next && index <= d.next[wallet]
    && forall i :: 0 <= i < index ==> Slot(wallet, i) in d.rows
  }

  lemma ProgressGoesOn(start: Database, d: Database, a: Audit, wallet: Token, index: nat)
    requires GoodAudit(a) && wallet in a.targets && index < a.targets[wallet] && Progress(start, d, a, wallet, index)
    ensures var (d', ok) := AllocateWith(d, Slot(wallet, index), Some(a.addresses[wallet][index]), Commits);
            ok && Progress(start, d', a, wallet, index + 1)
  {
    AllocateWanted(d, a, Slot(wallet, index));
  }

  lemma EnsureStarts(d: Database, a: Audit, wallet: Token)
    requires GoodAudit(a) && wallet in a.targets && HalfBuilt(d, a)
    ensures Progress(EnsureWallet(d, wallet), EnsureWallet(d, wallet), a, wallet, 0)
    ensures forall w | w in a.targets && w != wallet && WalletDone(d, a, w) :: WalletDone(EnsureWallet(d, wallet), a, w)
  {
  }

  lemma OthersStayDone(start: Database, d: Database, a: Audit, wallet: Token)
    requires GoodAudit(a) && Extends(start, d, wallet)
    ensures forall w | w in a.targets && w != wallet && WalletDone(start, a, w) :: WalletDone(d, a, w)
  {
  }

  // ---------- The writes as steps of the world ----------

  /** Where a sequence of steps leads, if each is enabled when it comes. */
  ghost function EndOf(w: World, trace: seq<Action>): Option<World> {
    if trace == [] then Some(w)
    else
      var before := EndOf(w, trace[..|trace| - 1]);
      if before.Some? && Enabled(before.value, trace[|trace| - 1]) then Some(Next(before.value, trace[|trace| - 1]))
         else None
  }

  /** The steps taken so far lead to this ledger and this database. */
  ghost predicate Told(w: World, trace: seq<Action>, m: Manifest, d: Database) {
    var now := EndOf(w, trace);
    now.Some? && now.value.manifest == m && now.value.db == d
  }

  lemma EndOne(w: World, trace: seq<Action>, a: Action)
    requires EndOf(w, trace).Some? && Enabled(EndOf(w, trace).value, a)
    ensures EndOf(w, trace + [a]) == Some(Next(EndOf(w, trace).value, a))
  {
    assert (trace + [a])[..|trace|] == trace;
  }

  lemma TellStart(w: World, trace: seq<Action>, m: Manifest, d: Database, id: Token)
    requires Told(w, trace, m, d)
    ensures Told(w, trace + [Start(id)], m, BeginRecovery(d, id).0)
  {
    EndOne(w, trace, Start(id));
  }

  lemma TellRaise(w: World, trace: seq<Action>, m: Manifest, d: Database, targets: map<Token, nat>)
    requires Told(w, trace, m, d)
    ensures Told(w, trace + [Raise(targets)], RaiseHighWater(m, targets).0, d)
  {
    EndOne(w, trace, Raise(targets));
  }

  lemma TellWallet(w: World, trace: seq<Action>, m: Manifest, d: Database, wallet: Token)
    requires Told(w, trace, m, d)
    ensures Told(w, trace + [AddWallet(wallet)], m, EnsureWallet(d, wallet))
  {
    EndOne(w, trace, AddWallet(wallet));
  }

  lemma TellRow(w: World, trace: seq<Action>, m: Manifest, d: Database, slot: Slot, raw: Option<string>)
    requires Told(w, trace, m, d) && Reserved(m, slot)
    ensures Told(w, trace + [Action.Rebuild(slot, raw)], m, AllocateWith(d, slot, raw, Commits).0)
  {
    EndOne(w, trace, Action.Rebuild(slot, raw));
  }

  lemma TellClear(w: World, trace: seq<Action>, m: Manifest, d: Database)
    requires Told(w, trace, m, d)
    ensures Told(w, trace + [Clear], ClearSkipped(m).0, d)
  {
    EndOne(w, trace, Clear);
  }

  /** A binding whose coverage check passed loses nothing. */
  lemma TellFinish(w: World, trace: seq<Action>, m: Manifest, d: Database, id: Token)
    requires Told(w, trace, m, d) && d.bound.None? && Bind(d, id, true).1
    requires forall v | v in m :: forall x: nat :: Slot(v, x) in d.rows <==> x < m[v].next
    ensures Told(w, trace + [Finish(id, true)], m, Bind(d, id, true).0)
            && EndOf(w, trace + [Finish(id, true)]).value.lost == {}
  {
    EndOne(w, trace, Finish(id, true));
    var now := EndOf(w, trace).value;
    forall s ensures s !in Gaps(now.manifest, now.db.rows) { SlotsAreReserved(now.manifest, s); }
  }

  /** Rebuilds one wallet row by row. */
  method RebuildWallet(store: AddressStore, a: Audit, wallet: Token, budget: nat, ghost w0: World,
                       ghost told: seq<Action>, ghost m: Manifest)
    returns (left: nat, outcome: Outcome, ghost trace: seq<Action>)
    requires GoodAudit(a) && wallet in a.targets
    requires Told(w0, told, m, store.db) && wallet in m && a.targets[wallet] <= m[wallet].next && store.db.bound.None?
    modifies store
    ensures Told(w0, trace, m, store.db) && told <= trace && store.db.bound.None?
    ensures outcome.Recovered? || outcome.Crashed? || outcome.Failed?
    ensures HalfBuilt(old(store.db), a) ==> HalfBuilt(store.db, a) && !outcome.Failed?
    ensures HalfBuilt(old(store.db), a) && outcome.Recovered? ==> WalletDone(store.db, a, wallet)
    ensures HalfBuilt(old(store.db), a) ==>
              forall w | w in a.targets && w != wallet && WalletDone(old(store.db), a, w) :: WalletDone(store.db, a, w)
    ensures outcome.Recovered? ==> left + 1 + a.targets[wallet] == budget
    ensures outcome.Crashed? ==> budget < 1 + a.targets[wallet]
  {
    ghost var sane := HalfBuilt(store.db, a);
    trace := told;
    if budget == 0 { return budget, Crashed, trace; }
    left := budget - 1;
    if sane { EnsureStarts(store.db, a, wallet); }
    TellWallet(w0, trace, m, store.db, wallet);
    trace := trace + [AddWallet(wallet)];
    store.db := EnsureWallet(store.db, wallet);
    ghost var start := store.db;
    var index := 0;
    while index < a.targets[wallet]
      invariant index <= a.targets[wallet] && left + 1 + index == budget
      invariant sane ==> Progress(start, store.db, a, wallet, index)
      invariant Told(w0, trace, m, store.db) && told <= trace && store.db.bound.None?
    {
      if left == 0 {
        if sane { OthersStayDone(start, store.db, a, wallet); }
        return left, Crashed, trace;
      }
      left := left - 1;
      if sane { ProgressGoesOn(start, store.db, a, wallet, index); }
      TellRow(w0, trace, m, store.db, Slot(wallet, index), Some(a.addresses[wallet][index]));
      trace := trace + [Action.Rebuild(Slot(wallet, index), Some(a.addresses[wallet][index]))];
      AllocateWithRows(store.db, Slot(wallet, index), Some(a.addresses[wallet][index]), Commits);
      var ok := store.AllocateAddressAt(Slot(wallet, index), Some(a.addresses[wallet][index]), Commits);
      if !ok { return left, Failed, trace; }
      index := index + 1;
    }
    if sane { OthersStayDone(start, store.db, a, wallet); }
    return left, Recovered, trace;
  }

  /** The rows of a wallet in ascending order. */
  method AddressIndices(d: Database, wallet: Token, bound: nat) returns (present: seq<nat>)
    requires forall s | s in d.rows && s.wallet == wallet :: s.index < bound
    ensures Lists(d.rows, wallet, present)
  {
    present := [];
    var index := 0;
    while index < bound
      invariant index <= bound && Increasing(present)
      invariant forall i | 0 <= i < |present| :: present[i] < index && Slot(wallet, present[i]) in d.rows
      invariant forall s | s in d.rows && s.wallet == wallet && s.index < index :: s.index in present
    {
      if Slot(wallet, index) in d.rows { present := present + [index]; }
      index := index + 1;
    }
  }

  predicate AllWalletsDone(d: Database, a: Audit, wallets: seq<Token>) {
    forall w | w in wallets :: w in a.targets && WalletDone(d, a, w)
  }

  lemma OneMoreDone(before: Database, d: Database, a: Audit, wallets: seq<Token>, k: nat)
    requires k < |wallets| && wallets[k] in a.targets && AllWalletsDone(before, a, wallets[..k])
             && WalletDone(d, a, wallets[k])
    requires forall w | w in a.targets && w != wallets[k] && WalletDone(before, a, w) :: WalletDone(d, a, w)
    ensures AllWalletsDone(d, a, wallets[..k + 1])
  {
    assert wallets[..k + 1] == wallets[..k] + [wallets[k]];
  }

  lemma WritesForOne(a: Audit, wallets: seq<Token>, k: nat)
    requires k < |wallets| && wallets[k] in a.targets
    ensures WritesFor(a, wallets[..k + 1]) == WritesFor(a, wallets[..k]) + 1 + a.targets[wallets[k]]
  {
    assert wallets[..k + 1][..k] == wallets[..k];
  }

  predicate MarksReach(m: Manifest, a: Audit) {
    forall w | w in a.targets :: w in m && a.targets[w] <= m[w].next
  }

  /** Every configured wallet in turn. */
  method RebuildAll(store: AddressStore, a: Audit, wallets: seq<Token>, budget: nat, ghost w0: World,
                    ghost told: seq<Action>, ghost m: Manifest)
    returns (left: nat, outcome: Outcome, ghost trace: seq<Action>)
    requires GoodAudit(a) && forall w :: w in wallets ==> w in a.targets
    requires Told(w0, told, m, store.db) && MarksReach(m, a) && store.db.bound.None?
    modifies store
    ensures Told(w0, trace, m, store.db) && told <= trace && store.db.bound.None?
    ensures outcome.Recovered? || outcome.Crashed? || outcome.Failed?
    ensures HalfBuilt(old(store.db), a) ==> HalfBuilt(store.db, a) && !outcome.Failed?
    ensures HalfBuilt(old(store.db), a) && outcome.Recovered? ==> AllWalletsDone(store.db, a, wallets)
    ensures outcome.Recovered? ==> left + WritesFor(a, wallets) == budget
    ensures outcome.Crashed? ==> budget < WritesFor(a, wallets)
  {
    ghost var sane := HalfBuilt(store.db, a);
    left, trace := budget, told;
    var k := 0;
    while k < |wallets|
      invariant Told(w0, trace, m, store.db) && told <= trace && store.db.bound.None?
      invariant k <= |wallets| && left + WritesFor(a, wallets[..k]) == budget
      invariant sane ==> HalfBuilt(store.db, a) && AllWalletsDone(store.db, a, wallets[..k])
    {
      var wallet := wallets[k];
      assert wallet in a.targets by { assert wallet in wallets; }
      WritesForOne(a, wallets, k);
      WritesForPrefix(a, wallets, k + 1);
      ghost var before := store.db;
      left, outcome, trace := RebuildWallet(store, a, wallet, left, w0, trace, m);
      if !outcome.Recovered? { return; }
      if sane { OneMoreDone(before, store.db, a, wallets, k); }
      k := k + 1;
    }
    assert wallets[..k] == wallets;
    outcome := Recovered;
  }

  lemma BeginMarks(d: Database, a: Audit)
    requires GoodAudit(a) && (d == EMPTY_DATABASE || HalfBuilt(d, a))
    ensures BeginRecovery(d, a.id).1 && HalfBuilt(BeginRecovery(d, a.id).0, a)
  {
  }

  lemma BeginAccepts(d: Database, id: Token)
    ensures BeginRecovery(d, id).1 <==> d == EMPTY_DATABASE || d.marker == Some(id)
    ensures BeginRecovery(d, id).0.bound == d.bound
  {
  }

  /** The first two writes: the marker and the raised marks. */
  method Prepare(ledger: Ledger.Store, store: AddressStore, a: Audit, budget: nat, ghost w0: World,
                 ghost told: seq<Action>)
    returns (ready: bool, outcome: Outcome, ghost trace: seq<Action>)
    requires GoodAudit(a) && SameTargets(ledger.wallets, a) && store.db.bound.None?
    requires Told(w0, told, ledger.wallets, store.db)
    modifies ledger, store
    ensures Told(w0, trace, ledger.wallets, store.db) && told <= trace && store.db.bound.None?
            && SameTargets(ledger.wallets, a)
    ensures ready ==>
            budget >= 2 && ledger.wallets.Keys == a.targets.Keys
            && (forall w | w in a.targets :: ledger.wallets[w].next == a.targets[w])
    ensures ready ==> old(store.db) == EMPTY_DATABASE || old(store.db).marker == Some(a.id)
    ensures !ready && budget > 0 ==> (outcome.Refused? <==> !BeginRecovery(old(store.db), a.id).1)
    ensures ready ==> BeginRecovery(old(store.db), a.id).1
    ensures !ready ==>
            (outcome.Refused? && ledger.wallets == old(ledger.wallets) && store.db == old(store.db))
            || (outcome.Crashed? && budget < 2)
    ensures Resumable(old(ledger.wallets), old(store.db), a) ==>
              if ready then HalfBuilt(store.db, a) else outcome.Crashed? && Resumable(ledger.wallets, store.db, a)
  {
    ghost var sane := Resumable(ledger.wallets, store.db, a);
    ready, outcome, trace := false, Crashed, told;
    if budget == 0 { return; }
    if sane { BeginMarks(store.db, a); }
    BeginAccepts(store.db, a.id);
    var (marked, ok) := BeginRecovery(store.db, a.id);
    if !ok { return false, Refused, trace; }
    TellStart(w0, trace, ledger.wallets, store.db, a.id);
    trace := trace + [Start(a.id)];
    store.db := marked;
    if budget == 1 { return; }
    RaiseReaches(ledger.wallets, a);
    TellRaise(w0, trace, ledger.wallets, store.db, a.targets);
    trace := trace + [Raise(a.targets)];
    ok := ledger.RaiseHighWaterMarks(a.targets);
    ready := true;
  }

  /** The writes of a recovery, from the marker to the binding. Each is an enabled step of the world, whatever
      the database holds, and the binding loses nothing. */
  method Execute(ledger: Ledger.Store, store: AddressStore, a: Audit, wallets: seq<Token>, budget: nat,
                 ghost w0: World, ghost told: seq<Action>)
    returns (outcome: Outcome, ghost trace: seq<Action>)
    requires GoodAudit(a) && forall w :: w in wallets <==> w in a.targets
    requires SameTargets(ledger.wallets, a) && store.db.bound.None?
    requires Told(w0, told, ledger.wallets, store.db)
    modifies ledger, store
    ensures Told(w0, trace, ledger.wallets, store.db) && told <= trace
    ensures outcome.Recovered? ==> EndOf(w0, trace).value.lost == {}
    ensures outcome.Refused? ==> ledger.wallets == old(ledger.wallets) && store.db == old(store.db)
    ensures budget > 0 ==> (outcome.Refused? <==> !BeginRecovery(old(store.db), a.id).1)
    ensures outcome.Failed? ==> old(store.db).marker == Some(a.id) && !HalfBuilt(old(store.db), a)
    ensures Resumable(old(ledger.wallets), old(store.db), a) ==>
              && !outcome.Refused? && !outcome.Failed?
              && (outcome.Crashed? ==> Resumable(ledger.wallets, store.db, a) && budget < 4 + WritesFor(a, wallets))
              && (outcome.Recovered? ==> Rebuilt(ledger.wallets, store.db, a))
  {
    var ready;
    ready, outcome, trace := Prepare(ledger, store, a, budget, w0, told);
    if !ready { return; }
    var left;
    left, outcome, trace := RebuildAll(store, a, wallets, budget - 2, w0, trace, ledger.wallets);
    if outcome.Recovered? {
      outcome, trace := Conclude(ledger, store, a, left, w0, trace);
    }
  }

  lemma MayRaiseToTargets(m: Manifest, a: Audit)
    requires SameTargets(m, a)
    ensures m.Keys == a.targets.Keys && MayRaise(m, a.targets)
    ensures forall w | w in a.overrides :: w in m && a.targets[w] == a.overrides[w]
  {
    assert forall w | w in m :: GoodWallet(m[w]);
  }

  /** Raising to the audited marks keeps the audit's targets. */
  lemma RaiseReaches(m: Manifest, a: Audit)
    requires GoodAudit(a) && SameTargets(m, a)
    ensures RaiseHighWater(m, a.targets).1
    ensures SameTargets(RaiseHighWater(m, a.targets).0, a)
    ensures RaiseHighWater(m, a.targets).0.Keys == a.targets.Keys
    ensures forall w | w in a.targets :: w in m && RaiseHighWater(m, a.targets).0[w].next == a.targets[w]
  {
    MayRaiseToTargets(m, a);
    var m' := RaiseHighWater(m, a.targets).0;
    OperationsKeepManifest(m, 0, 0, a.targets);
    ReachedTargets(m', a);
  }

  lemma ReachedTargets(m: Manifest, a: Audit)
    requires GoodAudit(a) && m.Keys == a.targets.Keys && forall w | w in m :: m[w].next == a.targets[w]
    requires forall w | w in a.overrides :: w in m && a.targets[w] == a.overrides[w]
    ensures RecoveryTargets(m, a.overrides) == Some(a.targets)
  {
    assert RecoveryTargets(m, a.overrides).value == a.targets;
  }

  predicate AllDone(m: Manifest, d: Database, a: Audit)
    requires GoodAudit(a)
  {
    && SameTargets(m, a) && HalfBuilt(d, a) && m.Keys == a.targets.Keys
    && forall w | w in a.targets :: m[w].next == a.targets[w] && WalletDone(d, a, w)
  }

  /** What is left once every wallet has its rows: drop the skips, check the coverage, bind. */
  method Conclude(ledger: Ledger.Store, store: AddressStore, a: Audit, left: nat, ghost w0: World,
                  ghost told: seq<Action>)
    returns (outcome: Outcome, ghost trace: seq<Action>)
    requires GoodAudit(a) && SameTargets(ledger.wallets, a)
    requires Told(w0, told, ledger.wallets, store.db) && store.db.bound.None?
    modifies ledger, store
    ensures Told(w0, trace, ledger.wallets, store.db) && told <= trace
    ensures outcome.Recovered? ==> EndOf(w0, trace).value.lost == {}
    ensures !outcome.Refused?
    ensures AllDone(old(ledger.wallets), old(store.db), a) ==>
              && !outcome.Failed?
              && (outcome.Crashed? ==> Resumable(ledger.wallets, store.db, a) && left < 2)
              && (outcome.Recovered? ==> Rebuilt(ledger.wallets, store.db, a))
  {
    ghost var m := ledger.wallets;
    ghost var sane := AllDone(m, store.db, a);
    trace := told;
    if left == 0 { return Crashed, trace; }
    ClearKeeps(m, a);
    if sane { DoneStaysDone(m, store.db, a); }
    TellClear(w0, trace, m, store.db);
    trace := trace + [Clear];
    var ok := ledger.ClearSkippedAddressIndices();
    var covered := AllCovered(ledger.wallets, store.db, a);
    if !covered { return Failed, trace; }
    if left == 1 { return Crashed, trace; }
    var (bound, done) := Bind(store.db, a.id, true);
    if !done { return Failed, trace; }
    if sane { BindFinishes(m, store.db, a); }
    TellFinish(w0, trace, ledger.wallets, store.db, a.id);
    trace := trace + [Finish(a.id, true)];
    store.db := bound;
    return Recovered, trace;
  }

  /** Dropping the skips leaves every wallet done, and the ledger still leads to the same targets. */
  lemma DoneStaysDone(m: Manifest, d: Database, a: Audit)
    requires GoodAudit(a) && AllDone(m, d, a)
    ensures AllDone(ClearSkipped(m).0, d, a) && Resumable(ClearSkipped(m).0, d, a)
  {
    ClearKeeps(m, a);
  }

  /** Binding a database whose wallets are all done ends the recovery. */
  lemma BindFinishes(m: Manifest, d: Database, a: Audit)
    requires GoodAudit(a) && AllDone(m, d, a)
    ensures Bind(d, a.id, true).1 && Rebuilt(ClearSkipped(m).0, Bind(d, a.id, true).0, a)
  {
    ClearKeeps(m, a);
    assert d.next == a.targets;
    forall s: Slot
      ensures if Wanted(a, s) then s in d.rows && d.rows[s] == a.addresses[s.wallet][s.index] else s !in d.rows
    {
      if Wanted(a, s) { assert WalletDone(d, a, s.wallet); }
    }
  }

  lemma ClearKeeps(m: Manifest, a: Audit)
    requires GoodAudit(a) && SameTargets(m, a)
    ensures ClearSkipped(m).1 && SameTargets(ClearSkipped(m).0, a)
    ensures ClearSkipped(m).0 == map w | w in a.targets :: WalletState(m[w].next, [])
  {
    var m' := ClearSkipped(m).0;
    assert RecoveryTargets(m', a.overrides).value == a.targets;
    assert m.Keys == a.targets.Keys;
  }

  /** The coverage check of every wallet with no skips allowed. */
  method AllCovered(m: Manifest, d: Database, a: Audit) returns (covered: bool)
    requires GoodAudit(a)
    ensures covered ==> forall w | w in m :: forall x: nat :: Slot(w, x) in d.rows <==> x < m[w].next
    ensures RowsAgree(d, a) && m.Keys <= a.targets.Keys ==>
              (forall w | w in m :: m[w].next == a.targets[w] && WalletDone(d, a, w)) ==> covered
  {
    var rest := m.Keys;
    while rest != {}
      invariant rest <= m.Keys
      invariant forall w | w in m && w !in rest :: forall x: nat :: Slot(w, x) in d.rows <==> x < m[w].next
      decreases rest
    {
      var w :| w in rest;
      var top := Top(d, w);
      var present := AddressIndices(d, w, top);
      var good := VerifyAddressCoverage(m[w].next, [], present);
      ListsMembers(d, w, present);
      if !good {
        if RowsAgree(d, a) && w in a.targets && m[w].next == a.targets[w] && WalletDone(d, a, w) {
          forall x: int ensures x in present <==> 0 <= x < m[w].next {
            if 0 <= x < m[w].next { assert Slot(w, x) in d.rows; }
          }
          assert Covers(m[w].next, [], present);
        }
        return false;
      }
      forall x: nat ensures Slot(w, x) in d.rows <==> x < m[w].next {
        assert x in present <==> 0 <= x < m[w].next;
      }
      rest := rest - {w};
    }
    return true;
  }

  lemma ListsMembers(d: Database, w: Token, present: seq<nat>)
    requires Lists(d.rows, w, present)
    ensures forall x: nat :: x in present <==> Slot(w, x) in d.rows
  {
    forall x: nat ensures x in present <==> Slot(w, x) in d.rows {
      if Slot(w, x) in d.rows { assert Slot(w, x).index in present; }
    }
  }

  /** A bound above every index of a wallet. */
  method Top(d: Database, wallet: Token) returns (top: nat)
    ensures forall s | s in d.rows && s.wallet == wallet :: s.index < top
  {
    top := 0;
    var rest := d.rows.Keys;
    while rest != {}
      invariant rest <= d.rows.Keys
      invariant forall s | s in d.rows && s !in rest && s.wallet == wallet :: s.index < top
      decreases rest
    {
      var s :| s in rest;
      if s.index >= top { top := s.index + 1; }
      rest := rest - {s};
    }
  }

  // ---------- The whole command ----------

  /** What the operator hands in: the wallets of the configuration, the overrides, and the mapping whose
      checksum was approved. */
  datatype Order = Order(id: Token, wallets: seq<Token>, overrides: map<Token, nat>, mapping: map<Token, seq<string>>)

  /** Address derivation: one by one, and in batches for the derivers that offer it. */
  datatype Derivation = Derivation(single: Token -> Deriver, batch: Token -> Option<BatchDeriver>, prefix: string)

  ghost predicate HonestBatches(d: Derivation) {
    forall w | d.batch(w).Some? :: Agrees(d.batch(w).value, d.single(w))
  }

  /** The approved mapping is what derivation yields below the targets. */
  ghost predicate Approved(order: Order, d: Derivation, targets: map<Token, nat>) {
    && order.mapping.Keys == targets.Keys
    && forall w | w in targets :: Derived(d.single(w), d.prefix, targets[w]) == Some(order.mapping[w])
  }

  function AuditOf(order: Order, targets: map<Token, nat>): Audit {
    Audit(order.id, order.overrides, targets, order.mapping)
  }

  lemma ApprovedIsGood(order: Order, d: Derivation, targets: map<Token, nat>)
    requires Approved(order, d, targets) && forall w | w in targets :: targets[w] <= INDEX_SPACE
    ensures GoodAudit(AuditOf(order, targets))
  {
    forall w | w in targets ensures GoodAddresses(order.mapping[w]) && |order.mapping[w]| == targets[w] {
      DerivedIsGood(d.single(w), d.prefix, targets[w]);
    }
  }

  /** RecoveryChecksum: derives the whole mapping without writing anything. */
  method CheckMapping(order: Order, d: Derivation, targets: map<Token, nat>) returns (ok: bool)
    requires forall w | w in targets :: targets[w] <= INDEX_SPACE
    ensures HonestBatches(d) ==> (ok <==> Approved(order, d, targets))
  {
    if order.mapping.Keys != targets.Keys { return false; }
    var rest := targets.Keys;
    while rest != {}
      invariant rest <= targets.Keys
      invariant HonestBatches(d) ==> forall w | w in targets && w !in rest ::
                Derived(d.single(w), d.prefix, targets[w]) == Some(order.mapping[w])
      decreases rest
    {
      var w :| w in rest;
      var visited, good := ForEachDerivedAddress(d.single(w), d.batch(w), d.prefix, targets[w]);
      if !good || visited != order.mapping[w] { return false; }
      rest := rest - {w};
    }
    return true;
  }

  /** The recovery can run, or run on: the ledger still leads to the audit's marks, its mapping is the
      approved one, and the database is empty or carries the marker. */
  ghost predicate Ready(m: Manifest, db: Database, order: Order, d: Derivation, a: Audit) {
    && a == AuditOf(order, a.targets) && Approved(order, d, a.targets)
    && (forall w :: w in order.wallets <==> w in a.targets)
    && GoodAudit(a) && Resumable(m, db, a)
  }

  /** What a ready recovery needs is what the command checks. */
  predicate Checks(m: Manifest, db: Database, order: Order, targets: map<Token, nat>) {
    && GoodManifest(m) && (set w | w in order.wallets) == m.Keys && db.bound.None?
    && RecoveryTargets(m, order.overrides) == Some(targets)
  }

  lemma ReadyChecks(m: Manifest, db: Database, order: Order, d: Derivation, a: Audit)
    requires Ready(m, db, order, d, a)
    ensures Checks(m, db, order, a.targets) && Approved(order, d, a.targets)
  {
  }

  ghost predicate Approves(m: Manifest, db: Database, order: Order, d: Derivation) {
    var targets := RecoveryTargets(m, order.overrides);
    targets.Some? && Checks(m, db, order, targets.value) && Approved(order, d, targets.value)
  }

  /** An order the command carries out, whatever the database holds: a well formed ledger of the configured
      wallets, overrides that name wallets of it and move no mark back or out of the index space, and a mapping
      that is the derivation up to the override of each wallet or, without one, up to its mark. */
  ghost predicate Admissible(m: Manifest, order: Order, d: Derivation) {
    && (forall w | w in m :: GoodWallet(m[w])) && (forall w :: w in order.wallets <==> w in m)
    && (forall w | w in order.overrides :: w in m && m[w].next <= order.overrides[w] <= INDEX_SPACE)
    && order.mapping.Keys == m.Keys
    && (forall w | w in m :: Derived(d.single(w), d.prefix, Goals(m, order.overrides)[w]) == Some(order.mapping[w]))
  }

  lemma AdmissibleLeadsToGoals(m: Manifest, order: Order, d: Derivation)
    requires Admissible(m, order, d)
    ensures RecoveryTargets(m, order.overrides) == Some(Goals(m, order.overrides))
    ensures Approved(order, d, Goals(m, order.overrides)) && GoodAudit(AuditOf(order, Goals(m, order.overrides)))
  {
    forall w | w in m ensures Goals(m, order.overrides)[w] <= INDEX_SPACE { assert GoodWallet(m[w]); }
    ApprovedIsGood(order, d, Goals(m, order.overrides));
  }

  /** The checks pass exactly for an unbound database and an order that can be carried out. */
  lemma ApprovesExactlyWhen(m: Manifest, db: Database, order: Order, d: Derivation)
    ensures Approves(m, db, order, d) <==> Admissible(m, order, d) && db.bound.None?
  {
    if Admissible(m, order, d) {
      AdmissibleLeadsToGoals(m, order, d);
      assert (set w | w in order.wallets) == m.Keys;
    }
    if Approves(m, db, order, d) {
      assert RecoveryTargets(m, order.overrides).value == Goals(m, order.overrides);
      assert forall w :: w in order.wallets <==> w in (set v | v in order.wallets);
    }
  }

  lemma AdmissibleIsReady(m: Manifest, db: Database, order: Order, d: Derivation)
    requires Admissible(m, order, d)
    ensures var a := AuditOf(order, Goals(m, order.overrides));
            GoodAudit(a) && (db == EMPTY_DATABASE || HalfBuilt(db, a) ==> Ready(m, db, order, d, a))
  {
    AdmissibleLeadsToGoals(m, order, d);
  }

  /** The command is not refused. */
  ghost predicate Accepts(m: Manifest, db: Database, order: Order, d: Derivation) {
    Approves(m, db, order, d) && BeginRecovery(db, order.id).1
  }

  /** What the command checks before it writes: the ledger, the wallets, the binding, the overrides and the
      approved mapping. */
  method Approve(m: Manifest, db: Database, order: Order, d: Derivation) returns (r: Option<map<Token, nat>>)
    requires HonestBatches(d)
    ensures r.Some? ==>
              && GoodManifest(m) && RecoveryTargets(m, order.overrides) == r && Approved(order, d, r.value)
              && db.bound.None?
              && GoodAudit(AuditOf(order, r.value)) && (forall w :: w in order.wallets <==> w in r.value)
    ensures forall a | Ready(m, db, order, d, a) :: r == Some(a.targets)
    ensures r.Some? <==> Approves(m, db, order, d)
    ensures db.bound.Some? ==> r.None?
  {
    forall a | Ready(m, db, order, d, a) ensures Checks(m, db, order, a.targets) && Approved(order, d, a.targets) {
      ReadyChecks(m, db, order, d, a);
    }
    var ok := VerifyManifest(m);
    if !ok || (set w | w in order.wallets) != m.Keys || db.bound.Some? { return None; }
    r := RecoveryTargets(m, order.overrides);
    if r.None? { return; }
    forall w | w in r.value ensures r.value[w] <= INDEX_SPACE {
      assert GoodWallet(m[w]);
    }
    ok := CheckMapping(order, d, r.value);
    if !ok { return None; }
    ApprovedIsGood(order, d, r.value);
  }

  /** The command. It fails half way only on a database that carries this recovery's marker and yet holds
      something this recovery would not have written. Every write is a step of the world. */
  method Recover(ledger: Ledger.Store, store: AddressStore, order: Order, d: Derivation, budget: nat, ghost w0: World,
                 ghost told: seq<Action>)
    returns (outcome: Outcome, ghost trace: seq<Action>)
    requires HonestBatches(d) && Told(w0, told, ledger.wallets, store.db)
    modifies ledger, store
    ensures Told(w0, trace, ledger.wallets, store.db) && told <= trace
    ensures outcome.Recovered? ==> EndOf(w0, trace).value.lost == {}
    ensures outcome.Refused? ==> ledger.wallets == old(ledger.wallets) && store.db == old(store.db)
    ensures old(store.db).bound.Some? ==> outcome.Refused?
    ensures budget > 0 ==> (outcome.Refused? <==> !Accepts(old(ledger.wallets), old(store.db), order, d))
    ensures var targets := RecoveryTargets(old(ledger.wallets), order.overrides);
            && (targets.None? || !GoodManifest(old(ledger.wallets)) || !Approved(order, d, targets.value) ==>
               outcome.Refused?)
            && (outcome.Failed? ==> GoodAudit(AuditOf(order, targets.value)) && old(store.db).marker == Some(order.id)
                                    && !HalfBuilt(old(store.db), AuditOf(order, targets.value)))
    ensures forall a | Ready(old(ledger.wallets), old(store.db), order, d, a) ::
              && !outcome.Refused? && !outcome.Failed?
              && (outcome.Crashed? ==>
                 Ready(ledger.wallets, store.db, order, d, a) && budget < 4 + WritesFor(a, order.wallets))
              && (outcome.Recovered? ==> Rebuilt(ledger.wallets, store.db, a))
    ensures budget > 0 ==> (outcome.Refused? <==>
              !Admissible(old(ledger.wallets), order, d) || old(store.db).bound.Some?
              || (old(store.db) != EMPTY_DATABASE && old(store.db).marker != Some(order.id)))
    ensures Admissible(old(ledger.wallets), order, d) ==>
              var a := AuditOf(order, Goals(old(ledger.wallets), order.overrides));
              && GoodAudit(a)
              && (old(store.db) == EMPTY_DATABASE || HalfBuilt(old(store.db), a) ==>
                    if budget >= 4 + WritesFor(a, order.wallets) then
                      outcome.Recovered? && Rebuilt(ledger.wallets, store.db, a)
                    else outcome.Crashed? || (outcome.Recovered? && Rebuilt(ledger.wallets, store.db, a)))
  {
    ApprovesExactlyWhen(ledger.wallets, store.db, order, d);
    BeginAccepts(store.db, order.id);
    if Admissible(ledger.wallets, order, d) { AdmissibleIsReady(ledger.wallets, store.db, order, d); }
    var targets := Approve(ledger.wallets, store.db, order, d);
    if targets.None? { return Refused, told; }
    outcome, trace := Execute(ledger, store, AuditOf(order, targets.value), order.wallets, budget, w0, told);
  }

  /** One attempt of a recovery that is ready: crashed and ready again, or done. */
  method RecoverOnce(ledger: Ledger.Store, store: AddressStore, order: Order, d: Derivation, budget: nat,
                     ghost a: Audit, ghost w0: World, ghost told: seq<Action>)
    returns (outcome: Outcome, ghost trace: seq<Action>)
    requires HonestBatches(d) && Ready(ledger.wallets, store.db, order, d, a)
             && Told(w0, told, ledger.wallets, store.db)
    modifies ledger, store
    ensures Told(w0, trace, ledger.wallets, store.db)
    ensures outcome.Crashed? ==>
            Ready(ledger.wallets, store.db, order, d, a) && budget < 4 + WritesFor(a, order.wallets)
    ensures !outcome.Crashed? ==>
            outcome.Recovered? && Rebuilt(ledger.wallets, store.db, a) && EndOf(w0, trace).value.lost == {}
  {
    outcome, trace := Recover(ledger, store, order, d, budget, w0, told);
  }

  /** Crash after any writes, as often as you like, and run it again: the run that completes leaves the
      registry a clean run leaves, and a run that is given enough writes does complete. */
  method RecoverWithRestarts(ledger: Ledger.Store, store: AddressStore, order: Order, d: Derivation, budgets: seq<nat>,
                             ghost a: Audit, ghost w0: World)
    returns (outcome: Outcome, ghost trace: seq<Action>)
    requires HonestBatches(d) && Ready(ledger.wallets, store.db, order, d, a)
    requires w0.manifest == ledger.wallets && w0.db == store.db
    modifies ledger, store
    ensures outcome.Recovered? || outcome.Crashed?
    ensures outcome.Recovered? ==> Rebuilt(ledger.wallets, store.db, a)
    ensures outcome.Crashed? ==> Ready(ledger.wallets, store.db, order, d, a)
    ensures (exists b | b in budgets :: b >= 4 + WritesFor(a, order.wallets)) ==> outcome.Recovered?
    ensures Told(w0, trace, ledger.wallets, store.db)
    ensures outcome.Recovered? ==> EndOf(w0, trace).value.lost == {}
  {
    outcome, trace := Crashed, [];
    var i := 0;
    while i < |budgets| && outcome.Crashed?
      invariant i <= |budgets|
      invariant outcome.Recovered? || outcome.Crashed?
      invariant outcome.Recovered? ==> Rebuilt(ledger.wallets, store.db, a)
      invariant outcome.Crashed? ==> Ready(ledger.wallets, store.db, order, d, a)
      invariant outcome.Crashed? ==> forall j | 0 <= j < i :: budgets[j] < 4 + WritesFor(a, order.wallets)
      invariant Told(w0, trace, ledger.wallets, store.db)
      invariant outcome.Recovered? ==> EndOf(w0, trace).value.lost == {}
    {
      outcome, trace := RecoverOnce(ledger, store, order, d, budgets[i], a, w0, trace);
      i := i + 1;
    }
  }
}
