/**
 Recoveries that overlap. Nothing locks one against another, so a mark can be raised between the coverage
 check of one and its binding. This says when that binding leaves gaps, and which databases neither
 serving nor recovering accepts afterwards.
 */
module Overlaps {
  import opened Common
  import opened Ledger
  import opened Addresses
  import opened AddressSafety
  import opened Recovery
  import opened Rebuild

  // ---------- From the check to the binding ----------

  /** Rows keep their addresses, marks stay, and while the database is unbound no skip is added. */
  ghost predicate Onward(w: World, w': World) {
    && (forall s | s in w.db.rows :: s in w'.db.rows && w'.db.rows[s] == w.db.rows[s])
    && (forall s | Reserved(w.manifest, s) :: Reserved(w'.manifest, s))
    && (w.db.bound.Some? ==> w'.db.bound.Some?)
    && (w'.db.bound.None? ==> forall s | Skipped(w'.manifest, s) :: Skipped(w.manifest, s))
  }

  predicate Destroys(a: Action) { a.RollBack? || a.Wipe? }

  lemma StepIsOnward(w: World, a: Action)
    requires Inv(w) && Enabled(w, a) && !Destroys(a)
    ensures Onward(w, Next(w, a))
  {
    match a
    case Reserve(p, wallet, heard) =>
      if ReserveIndex(w.manifest, wallet).1.Some? { ReservationIsFresh(w.manifest, wallet); }
    case MarkSkip(p, works) => SkipIsOnward(w, p, works);
    case WriteRow(p, raw, fate) => AllocateWithRows(w.db, w.running[p].slot, raw, fate);
    case Rebuild(slot, raw) => AllocateWithRows(w.db, slot, raw, Commits);
    case Raise(targets) => RaiseIsOnward(w, targets);
    case Clear => ClearIsOnward(w);
    case _ => QuietIsOnward(w, a);
  }

  /** An allocation in progress means that the database is bound. */
  lemma SkipIsOnward(w: World, p: nat, works: bool)
    requires Inv(w) && Enabled(w, MarkSkip(p, works))
    ensures Onward(w, Next(w, MarkSkip(p, works)))
  {
    assert w.db.bound.Some?;
    assert AllocationOk(w, p);
    MarkingSkips(w.manifest, w.running[p].slot);
  }

  lemma ClearIsOnward(w: World)
    ensures Onward(w, Next(w, Clear))
  {
  }

  lemma QuietIsOnward(w: World, a: Action)
    requires Enabled(w, a) && (a.Return? || a.Crash? || a.Start? || a.AddWallet? || a.Finish?)
    ensures Onward(w, Next(w, a))
  {
  }

  lemma RaiseIsOnward(w: World, targets: map<Token, nat>)
    ensures Onward(w, Next(w, Raise(targets)))
  {
  }

  lemma OnwardChains(a: World, b: World, c: World)
    requires Onward(a, b) && Onward(b, c)
    ensures Onward(a, c)
  {
  }

  ghost predicate Undisturbed(actions: seq<Action>, i: nat, j: nat)
    requires i <= j <= |actions|
  {
    forall k | i <= k < j :: !Destroys(actions[k])
  }

  lemma {:induction false} RunIsOnward(worlds: seq<World>, actions: seq<Action>, i: nat, j: nat)
    requires Run(worlds, actions) && i <= j < |worlds| && Undisturbed(actions, i, j)
    ensures Onward(worlds[i], worlds[j])
  {
    if i < j {
      RunIsOnward(worlds, actions, i, j - 1);
      RunKeepsInv(worlds, actions, j - 1);
      assert StepAt(worlds, actions, j - 1);
      StepIsOnward(worlds[j - 1], actions[j - 1]);
      OnwardChains(worlds[i], worlds[j - 1], worlds[j]);
    }
  }

  /** A recovery read the ledger in state i, listed each wallet's rows in some state up to j, and found every
      wallet covered without skips. */
  ghost predicate Checked(worlds: seq<World>, i: nat, j: nat, at: map<Token, nat>, present: map<Token, seq<nat>>)
    requires i <= j < |worlds|
  {
    var m := worlds[i].manifest;
    forall id | id in m ::
      && id in at && i <= at[id] <= j && id in present && Lists(worlds[at[id]].db.rows, id, present[id])
      && Covers(m[id].next, [], present[id])
  }

  lemma CheckedRowsStay(worlds: seq<World>, actions: seq<Action>, i: nat, j: nat, at: map<Token, nat>,
                        present: map<Token, seq<nat>>, s: Slot)
    requires Run(worlds, actions) && i <= j < |worlds| && Undisturbed(actions, i, j)
             && Checked(worlds, i, j, at, present)
    requires Reserved(worlds[i].manifest, s)
    ensures s in worlds[j].db.rows
  {
    var k := at[s.wallet];
    assert s.index in present[s.wallet];
    var n :| 0 <= n < |present[s.wallet]| && present[s.wallet][n] == s.index;
    assert Slot(s.wallet, present[s.wallet][n]) in worlds[k].db.rows;
    RunIsOnward(worlds, actions, k, j);
  }

  lemma BindingLoses(w: World, id: Token, recovered: bool, s: Slot)
    requires w.db.bound.None? && Bind(w.db, id, recovered).1
    ensures s in Next(w, Finish(id, recovered)).lost <==>
              Reserved(w.manifest, s) && s !in w.db.rows && !Skipped(w.manifest, s)
  {
    SlotsAreReserved(w.manifest, s);
  }

  /** In every run without a rollback or a wipe in between, a binding whose coverage check read the ledger in
      state i loses nothing if and only if every index reserved since has its row. */
  lemma BindLosesNothingExactlyWhen(worlds: seq<World>, actions: seq<Action>, i: nat, j: nat, at: map<Token, nat>,
                                    present: map<Token, seq<nat>>, id: Token, recovered: bool)
    requires Run(worlds, actions) && i <= j < |actions| && Undisturbed(actions, i, j)
             && Checked(worlds, i, j, at, present)
    requires actions[j] == Finish(id, recovered) && worlds[j].db.bound.None? && worlds[j + 1].db.bound.Some?
    ensures worlds[j + 1].lost == {} <==>
              forall s | Reserved(worlds[j].manifest, s) && !Reserved(worlds[i].manifest, s) :: s in worlds[j].db.rows
  {
    var w := worlds[j];
    assert StepAt(worlds, actions, j);
    RunKeepsInv(worlds, actions, i);
    SkipsAreReserved(worlds[i].manifest);
    RunIsOnward(worlds, actions, i, j);
    forall s | Reserved(worlds[i].manifest, s) ensures s in w.db.rows {
      CheckedRowsStay(worlds, actions, i, j, at, present, s);
    }
    forall s ensures s in worlds[j + 1].lost <==>
                       Reserved(w.manifest, s) && !Reserved(worlds[i].manifest, s) && s !in w.db.rows {
      BindingLoses(w, id, recovered, s);
    }
  }

  // ---------- It does happen ----------

  const INSTALLATION: Token := 7

  const WALLET: Token := 1

  /** One recovery of a wallet without addresses up to its coverage check; then a second one with an override
      raises the mark; then the first one binds. */
  function Overlap(): seq<Action> {
    [Start(INSTALLATION), Raise(map[WALLET := 0]), AddWallet(WALLET), Clear,
     Start(INSTALLATION), Raise(map[WALLET := 1]), Finish(INSTALLATION, true)]
  }

  /** The ledger with the wallet's mark. */
  function Marked(next: nat): Manifest { map[WALLET := WalletState(next, [])] }

  const BEGUN := EMPTY_DATABASE.(marker := Some(INSTALLATION))

  const READY := BEGUN.(next := map[WALLET := 0])

  const BOUND := READY.(marker := None, bound := Some(INSTALLATION), sealed := true)

  function Unallocated(next: nat, db: Database, lost: set<Slot>): World {
    World(INSTALLATION, Marked(next), db, map[], [], lost)
  }

  /** The worlds the overlap passes through. */
  function OverlapWorlds(): seq<World> {
    var gap := {Slot(WALLET, 0)};
    [Unallocated(0, EMPTY_DATABASE, {}), Unallocated(0, BEGUN, {}), Unallocated(0, BEGUN, {}),
     Unallocated(0, READY, {}), Unallocated(0, READY, {}), Unallocated(0, READY, {}), Unallocated(1, READY, gap),
     Unallocated(1, BOUND, gap)]
  }

  lemma MarkedSlots(next: nat)
    ensures Slots(Marked(next)) == set i | 0 <= i < next :: Slot(WALLET, i)
    ensures Gaps(Marked(next), map[]) == Slots(Marked(next))
    ensures next <= INDEX_SPACE ==> GoodManifest(Marked(next))
  {
    assert forall s :: s in Slots(Marked(next)) <==> s.wallet == WALLET && s.index < next;
  }

  lemma RaisesMark(low: nat, high: nat)
    requires low <= high <= INDEX_SPACE
    ensures RaiseHighWater(Marked(low), map[WALLET := high]) == (Marked(high), true)
  {
    MarkedSlots(low);
    assert RaiseHighWater(Marked(low), map[WALLET := high]).0 == Marked(high);
  }

  lemma ClearsNothing(next: nat)
    requires next <= INDEX_SPACE
    ensures ClearSkipped(Marked(next)) == (Marked(next), true)
  {
    MarkedSlots(next);
    assert ClearSkipped(Marked(next)).0 == Marked(next);
  }

  lemma FirstRecoveryChecks()
    ensures forall k: nat | k < 4 :: StepAt(OverlapWorlds(), Overlap(), k)
  {
    RaisesMark(0, 0);
    ClearsNothing(0);
    MarkedSlots(0);
    assert EnsureWallet(BEGUN, WALLET) == READY;
    assert StepAt(OverlapWorlds(), Overlap(), 0);
    assert StepAt(OverlapWorlds(), Overlap(), 1);
    assert StepAt(OverlapWorlds(), Overlap(), 2);
    assert StepAt(OverlapWorlds(), Overlap(), 3);
  }

  lemma SecondRaisesFirstBinds()
    ensures forall k: nat | 4 <= k < 7 :: StepAt(OverlapWorlds(), Overlap(), k)
  {
    RaisesMark(0, 1);
    MarkedSlots(0);
    MarkedSlots(1);
    assert Slots(Marked(1)) == {Slot(WALLET, 0)};
    assert Bind(READY, INSTALLATION, true) == (BOUND, true);
    assert StepAt(OverlapWorlds(), Overlap(), 4);
    assert StepAt(OverlapWorlds(), Overlap(), 5);
    assert StepAt(OverlapWorlds(), Overlap(), 6);
  }

  /** The first recovery's check passes, its binding succeeds, and index 0 has neither a row nor a skip: the
      gateway refuses to serve what it finds. */
  lemma OverlapLosesAnIndex()
    ensures var worlds, actions := OverlapWorlds(), Overlap();
            && Run(worlds, actions) && Undisturbed(actions, 4, 6)
            && Checked(worlds, 4, 6, map[WALLET := 4], map[WALLET := []])
            && worlds[7].db.bound == Some(worlds[7].id) && worlds[7].lost == {Slot(WALLET, 0)}
            && forall present | WALLET in present && Lists(worlds[7].db.rows, WALLET, present[WALLET]) ::
                 !OpensForServe(worlds[7], present)
  {
    FirstRecoveryChecks();
    SecondRaisesFirstBinds();
    var worlds := OverlapWorlds();
    forall present | WALLET in present && Lists(worlds[7].db.rows, WALLET, present[WALLET])
      ensures !OpensForServe(worlds[7], present)
    {
      OpensExactlyWhenNothingLost(worlds, Overlap(), 7, present);
    }
  }

  // ---------- What neither command accepts ----------

  /** An operator's order for this installation: its wallets, overrides that only raise, an approved mapping. */
  ghost predicate GoodOrder(w: World, order: Order, d: Derivation) {
    order.id == w.id && Admissible(w.manifest, order, d)
  }

  /** In every reachable world in which nothing is in progress, serving and a well formed recovery are both
      refused exactly when the database is bound elsewhere, or bound here with something lost, or unbound,
      not empty and without this installation's marker. */
  lemma NeitherAcceptsExactlyWhen(worlds: seq<World>, actions: seq<Action>, i: nat, present: map<Token, seq<nat>>,
                                  order: Order, d: Derivation)
    requires Run(worlds, actions) && i < |worlds| && worlds[i].running == map[] && GoodOrder(worlds[i], order, d)
    requires forall id | id in worlds[i].manifest :: id in present && Lists(worlds[i].db.rows, id, present[id])
    ensures var w := worlds[i];
            !OpensForServe(w, present) && !Accepts(w.manifest, w.db, order, d) <==>
              match w.db.bound
              case Some(id) => id != w.id || w.lost != {}
              case None => w.db != EMPTY_DATABASE && w.db.marker != Some(w.id)
  {
    OpensExactlyWhenNothingLost(worlds, actions, i, present);
    RunKeepsInv(worlds, actions, i);
    BeginAccepts(worlds[i].db, order.id);
    ApprovesExactlyWhen(worlds[i].manifest, worlds[i].db, order, d);
  }
}
