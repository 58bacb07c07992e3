/** What every interleaving of allocations, crashes, rollbacks, wipes and recoveries keeps. */
module AddressSafety {
  import opened Common
  import opened Ledger
  import opened Text
  import opened Addresses

  lemma AllocateWithRows(d: Database, slot: Slot, raw: Option<string>, fate: Fate)
    ensures var (d', ok) := AllocateWith(d, slot, raw, fate);
            && d'.bound == d.bound
            && (d'.rows.Keys == d.rows.Keys || d'.rows.Keys == d.rows.Keys + {slot})
            && (ok ==> slot in d'.rows)
  {
  }

  lemma ReserveKeeps(w: World, p: nat, wallet: Token, heard: bool)
    requires Inv(w) && Enabled(w, Reserve(p, wallet, heard))
    ensures Inv(Next(w, Reserve(p, wallet, heard)))
  {
    var w' := Next(w, Reserve(p, wallet, heard));
    var (m, index) := ReserveIndex(w.manifest, wallet);
    if index.Some? {
      var slot := Slot(wallet, index.value);
      ReservationIsFresh(w.manifest, wallet);
      SkipsAreReserved(w.manifest);
      if heard { assert w'.running[p].slot == slot; }
      forall s | Reserved(m, s) ensures s in w'.db.rows || Skipped(m, s) || Running(w', s) || s in w'.lost {
        if s != slot && Running(w, s) {
          var q :| q in w.running && w.running[q].slot == s;
          assert w'.running[q].slot == s;
        }
      }
    }
  }

  lemma SkipsAreReserved(m: Manifest)
    requires GoodManifest(m)
    ensures forall s :: Skipped(m, s) ==> Reserved(m, s)
  {
    forall s | Skipped(m, s) ensures Reserved(m, s) {
      assert GoodWallet(m[s.wallet]);
    }
  }

  lemma WriteRowKeeps(w: World, p: nat, raw: Option<string>, fate: Fate)
    requires Inv(w) && Enabled(w, WriteRow(p, raw, fate))
    ensures Inv(Next(w, WriteRow(p, raw, fate)))
  {
    var w' := Next(w, WriteRow(p, raw, fate));
    AllocateWithRows(w.db, w.running[p].slot, raw, fate);
    forall s | Running(w, s) ensures Running(w', s) {
      var q :| q in w.running && w.running[q].slot == s;
      assert w'.running[q].slot == s;
    }
  }

  lemma ReturnKeeps(w: World, p: nat)
    requires Inv(w) && Enabled(w, Return(p))
    ensures Inv(Next(w, Return(p)))
  {
    var w' := Next(w, Return(p));
    forall s | Running(w, s) && s != w.running[p].slot ensures Running(w', s) {
      var q :| q in w.running && w.running[q].slot == s;
      assert w'.running[q].slot == s;
    }
  }

  lemma DroppedKeeps(w: World, p: nat)
    requires Inv(w) && p in w.running
    ensures Inv(Dropped(w, p))
  {
    var w' := Dropped(w, p);
    forall s | Running(w, s) && s != w.running[p].slot ensures Running(w', s) {
      var q :| q in w.running && w.running[q].slot == s;
      assert w'.running[q].slot == s;
    }
  }

  lemma MarkSkipKeeps(w: World, p: nat, works: bool)
    requires Inv(w) && Enabled(w, MarkSkip(p, works))
    ensures Inv(Next(w, MarkSkip(p, works)))
  {
    var w' := Next(w, MarkSkip(p, works));
    var slot := w.running[p].slot;
    var (m, ok) := MarkSkipped(w.manifest, slot.wallet, slot.index);
    assert AllocationOk(w, p);
    if works && ok {
      OperationsKeepManifest(w.manifest, slot.wallet, slot.index, map[]);
      assert forall s :: Reserved(m, s) <==> Reserved(w.manifest, s);
      assert forall s :: Skipped(m, s) <==> Skipped(w.manifest, s) || s == slot;
      forall s | Running(w, s) && s != slot ensures Running(w', s) {
        var q :| q in w.running && w.running[q].slot == s;
        assert w'.running[q].slot == s;
      }
    } else {
      DroppedKeeps(w, p);
    }
  }

  lemma SlotsAreReserved(m: Manifest, s: Slot)
    ensures s in Slots(m) <==> Reserved(m, s)
  {
    if Reserved(m, s) { assert s.wallet in m.Keys && 0 <= s.index < m[s.wallet].next; }
  }

  /** Rollbacks and wipes happen while nothing is being allocated; starting a recovery and adding a wallet
      leave rows, marks and skips alone. */
  lemma QuietKeeps(w: World, a: Action)
    requires Inv(w) && Enabled(w, a) && (a.RollBack? || a.Wipe? || a.Start? || a.AddWallet?)
    ensures Inv(Next(w, a))
  {
  }

  lemma SameRunning(w: World, w': World)
    requires w'.running == w.running
    ensures forall s :: Running(w, s) <==> Running(w', s)
  {
    forall s ensures Running(w, s) <==> Running(w', s) {
      if Running(w, s) {
        var q :| q in w.running && w.running[q].slot == s;
        assert w'.running[q].slot == s;
      }
    }
  }

  /** A rebuilt row may belong to an index that is being allocated, or that was lost. */
  lemma RebuildKeeps(w: World, slot: Slot, raw: Option<string>)
    requires Inv(w) && Enabled(w, Rebuild(slot, raw))
    ensures Inv(Next(w, Rebuild(slot, raw)))
  {
    var w' := Next(w, Rebuild(slot, raw));
    AllocateWithRows(w.db, slot, raw, Commits);
    FailedAllocationIsQuiet(w.db, slot, raw);
    SameRunning(w, w');
  }

  lemma FailedAllocationIsQuiet(d: Database, slot: Slot, raw: Option<string>)
    ensures !AllocateWith(d, slot, raw, Commits).1 ==> AllocateWith(d, slot, raw, Commits).0 == d
  {
  }

  /** Indices passed by a raised mark are lost until they are rebuilt. */
  lemma RaiseKeeps(w: World, targets: map<Token, nat>)
    requires Inv(w)
    ensures Inv(Next(w, Raise(targets)))
  {
    var w' := Next(w, Raise(targets));
    OperationsKeepManifest(w.manifest, 0, 0, targets);
    SameRunning(w, w');
    forall s
      ensures (Reserved(w.manifest, s) ==> Reserved(w'.manifest, s))
              && (Skipped(w'.manifest, s) <==> Skipped(w.manifest, s))
    {
    }
    SkipsAreReserved(w.manifest);
    forall s ensures s in w'.lost <==> s in w.lost || (Reserved(w'.manifest, s) && !Reserved(w.manifest, s)) {
      SlotsAreReserved(w.manifest, s);
      SlotsAreReserved(w'.manifest, s);
    }
  }

  /** Dropped skips of a bound database are lost. */
  lemma ClearKeeps(w: World)
    requires Inv(w)
    ensures Inv(Next(w, Clear))
  {
    var w' := Next(w, Clear);
    OperationsKeepManifest(w.manifest, 0, 0, map[]);
    SameRunning(w, w');
    SkipsAreReserved(w.manifest);
    forall s ensures Reserved(w.manifest, s) <==> Reserved(w'.manifest, s) {
    }
    forall s ensures s in w'.lost <==> s in w.lost || (Skipped(w.manifest, s) && s !in w.db.rows) {
      SlotsAreReserved(w.manifest, s);
      SlotsAreReserved(w'.manifest, s);
    }
    forall p | p in w'.running ensures AllocationOk(w', p) { assert AllocationOk(w, p); }
  }

  /** Binding loses exactly what has neither a row nor a skip. */
  lemma FinishKeeps(w: World, id: Token, recovered: bool)
    requires Inv(w)
    ensures Inv(Next(w, Finish(id, recovered)))
  {
    var w' := Next(w, Finish(id, recovered));
    SameRunning(w, w');
    forall s
      ensures s in Gaps(w.manifest, w.db.rows) <==>
              Reserved(w.manifest, s) && s !in w.db.rows && !Skipped(w.manifest, s)
    {
      SlotsAreReserved(w.manifest, s);
    }
  }

  lemma NextKeeps(w: World, a: Action)
    requires Inv(w) && Enabled(w, a)
    ensures Inv(Next(w, a))
  {
    match a
    case Reserve(p, wallet, heard) => ReserveKeeps(w, p, wallet, heard);
    case WriteRow(p, raw, fate) => WriteRowKeeps(w, p, raw, fate);
    case Return(p) => ReturnKeeps(w, p);
    case MarkSkip(p, works) => MarkSkipKeeps(w, p, works);
    case Crash(p) => DroppedKeeps(w, p);
    case Raise(targets) => RaiseKeeps(w, targets);
    case Clear => ClearKeeps(w);
    case Rebuild(slot, raw) => RebuildKeeps(w, slot, raw);
    case Finish(id, recovered) => FinishKeeps(w, id, recovered);
    case _ => QuietKeeps(w, a);
  }

  ghost predicate Run(worlds: seq<World>, actions: seq<Action>) {
    && |worlds| == |actions| + 1 && Fresh(worlds[0])
    && forall i | 0 <= i < |actions| :: StepAt(worlds, actions, i)
  }

  ghost predicate StepAt(worlds: seq<World>, actions: seq<Action>, i: nat)
    requires i < |actions| < |worlds|
  {
    Enabled(worlds[i], actions[i]) && worlds[i + 1] == Next(worlds[i], actions[i])
  }

  lemma {:induction false} RunKeepsInv(worlds: seq<World>, actions: seq<Action>, i: nat)
    requires Run(worlds, actions) && i < |worlds|
    ensures Inv(worlds[i])
  {
    if i > 0 {
      RunKeepsInv(worlds, actions, i - 1);
      assert StepAt(worlds, actions, i - 1);
      NextKeeps(worlds[i - 1], actions[i - 1]);
    }
  }

  /** No index of a wallet is ever handed to two callers. */
  lemma HandedOnce(worlds: seq<World>, actions: seq<Action>, i: nat, a: nat, b: nat)
    requires Run(worlds, actions) && i < |worlds| && a < b < |worlds[i].handed|
    ensures worlds[i].handed[a] != worlds[i].handed[b]
  {
    RunKeepsInv(worlds, actions, i);
  }

  /** While the database is bound, every reserved index has a row, a skip mark, an allocation in
      progress, or was lost; the four leave no index out and reach no further than the mark. */
  lemma EveryIndexAccounted(worlds: seq<World>, actions: seq<Action>, i: nat, s: Slot)
    requires Run(worlds, actions) && i < |worlds| && worlds[i].db.bound.Some?
    ensures var w := worlds[i];
            Reserved(w.manifest, s) <==> s in w.db.rows || Skipped(w.manifest, s) || Running(w, s) || s in w.lost
  {
    RunKeepsInv(worlds, actions, i);
    SkipsAreReserved(worlds[i].manifest);
  }

  /** The address indices of one wallet in ascending order, as the store lists them. */
  predicate Lists(rows: map<Slot, string>, wallet: Token, present: seq<nat>) {
    Increasing(present) && (forall i | 0 <= i < |present| :: Slot(wallet, present[i]) in rows)
    && forall s | s in rows && s.wallet == wallet :: s.index in present
  }

  /** OpenForServe: the database is bound to the ledger's installation and the coverage check passes for
      every wallet. */
  ghost predicate OpensForServe(w: World, present: map<Token, seq<nat>>) {
    && w.db.bound == Some(w.id)
    && forall id | id in w.manifest :: id in present && Covers(w.manifest[id].next, w.manifest[id].skipped, present[id])
  }

  lemma CoversSlot(w: World, id: Token, present: seq<nat>, x: nat)
    requires id in w.manifest && Lists(w.db.rows, id, present)
    ensures x in present <==> Slot(id, x) in w.db.rows
  {
    if Slot(id, x) in w.db.rows { assert Slot(id, x).index in present; }
  }

  /** After a restart (nothing in progress) the startup check accepts exactly a database bound to this
      installation of which nothing was lost, whatever recoveries ran or still run. */
  lemma OpensExactlyWhenNothingLost(worlds: seq<World>, actions: seq<Action>, i: nat, present: map<Token, seq<nat>>)
    requires Run(worlds, actions) && i < |worlds| && worlds[i].running == map[]
    requires forall id | id in worlds[i].manifest :: id in present && Lists(worlds[i].db.rows, id, present[id])
    ensures OpensForServe(worlds[i], present) <==> worlds[i].db.bound == Some(worlds[i].id) && worlds[i].lost == {}
  {
    RunKeepsInv(worlds, actions, i);
    var w := worlds[i];
    SkipsAreReserved(w.manifest);
    if w.db.bound.None? {
    } else if w.lost == {} {
      forall id | id in w.manifest ensures Covers(w.manifest[id].next, w.manifest[id].skipped, present[id]) {
        forall x: int ensures (x in w.manifest[id].skipped || x in present[id]) <==> 0 <= x < w.manifest[id].next {
          if x >= 0 {
            var s := Slot(id, x);
            CoversSlot(w, id, present[id], x);
            assert Skipped(w.manifest, s) <==> x in w.manifest[id].skipped;
            assert Reserved(w.manifest, s) <==> x < w.manifest[id].next;
          }
        }
      }
    } else {
      var s :| s in w.lost;
      assert Reserved(w.manifest, s) && s !in w.db.rows && !Skipped(w.manifest, s);
      CoversSlot(w, s.wallet, present[s.wallet], s.index);
      assert !Covers(w.manifest[s.wallet].next, w.manifest[s.wallet].skipped, present[s.wallet]);
    }
  }

  // ---------- Addresses ----------

  /** No two indices of a wallet have the same address, and every address is trimmed text. */
  ghost predicate DistinctAddresses(d: Database) {
    && (forall s | s in d.rows :: d.rows[s] != "" && Trimmed(d.rows[s]))
    && forall s, t | s in d.rows && t in d.rows && s.wallet == t.wallet && d.rows[s] == d.rows[t] :: s == t
  }

  lemma AllocateKeepsDistinct(d: Database, slot: Slot, raw: Option<string>, fate: Fate)
    requires DistinctAddresses(d)
    ensures DistinctAddresses(AllocateWith(d, slot, raw, fate).0)
  {
    if raw.Some? { TrimTrims(raw.value); }
  }

  lemma StepKeepsDistinct(w: World, a: Action)
    requires Enabled(w, a) && DistinctAddresses(w.db)
    ensures DistinctAddresses(Next(w, a).db)
  {
    match a
    case WriteRow(p, raw, fate) => AllocateKeepsDistinct(w.db, w.running[p].slot, raw, fate);
    case Rebuild(slot, raw) => AllocateKeepsDistinct(w.db, slot, raw, Commits);
    case _ =>
  }

  /** In every run, across crashes, rollbacks and recoveries, two indices of a wallet never have the same
      address. */
  lemma {:induction false} NoAddressTwice(worlds: seq<World>, actions: seq<Action>, i: nat)
    requires Run(worlds, actions) && i < |worlds|
    ensures DistinctAddresses(worlds[i].db)
  {
    if i > 0 {
      NoAddressTwice(worlds, actions, i - 1);
      assert StepAt(worlds, actions, i - 1);
      StepKeepsDistinct(worlds[i - 1], actions[i - 1]);
    }
  }

  /** An allocation nothing stands in the way of ends with its slot handed out and its address stored. */
  lemma AllocationHandsOut(w: World, p: nat, wallet: Token, raw: Option<string>)
    requires Enabled(w, Reserve(p, wallet, true)) && wallet in w.manifest
    requires Allocatable(w.manifest, w.db, Slot(wallet, w.manifest[wallet].next), raw, Commits)
    ensures var slot := Slot(wallet, w.manifest[wallet].next);
            var reserved := Next(w, Reserve(p, wallet, true));
            && Enabled(reserved, WriteRow(p, raw, Commits))
            && var written := Next(reserved, WriteRow(p, raw, Commits));
            && Enabled(written, Return(p))
            && var returned := Next(written, Return(p));
            && returned.handed == w.handed + [slot] && returned.running == w.running
            && returned.db.rows == w.db.rows[slot := Trim(raw.value)]
            && returned.manifest[wallet].next == slot.index + 1
  {
  }

  // ---------- Where a bound database came from ----------

  lemma MarkerStep(w: World, a: Action, id: Token)
    requires Enabled(w, a) && Next(w, a).db.marker == Some(id)
    ensures !a.Wipe? && (w.db.marker == Some(id) || (a == Start(id) && w.db == EMPTY_DATABASE))
  {
    match a
    case WriteRow(p, raw, fate) =>
    case Rebuild(slot, raw) =>
    case _ =>
  }

  lemma BoundStep(w: World, a: Action, id: Token)
    requires Enabled(w, a) && Next(w, a).db.bound == Some(id)
    ensures !a.Wipe? && (w.db.bound == Some(id) || w.db.marker == Some(id))
  {
    match a
    case WriteRow(p, raw, fate) =>
    case Rebuild(slot, raw) =>
    case _ =>
  }

  /** A marker was set by the start of that recovery on an empty database, which was not wiped since. */
  lemma {:induction false} MarkerCameFrom(worlds: seq<World>, actions: seq<Action>, j: nat, id: Token)
    returns (i: nat)
    requires Run(worlds, actions) && j < |worlds| && worlds[j].db.marker == Some(id)
    ensures i < j && actions[i] == Start(id) && worlds[i].db == EMPTY_DATABASE
    ensures forall k | i <= k < j :: !actions[k].Wipe?
  {
    assert StepAt(worlds, actions, j - 1);
    var w := worlds[j - 1];
    MarkerStep(w, actions[j - 1], id);
    if w.db.marker == Some(id) {
      i := MarkerCameFrom(worlds, actions, j - 1, id);
    } else {
      i := j - 1;
    }
  }

  /** A database is only ever bound to an installation whose recovery or initialisation started on it while it
      was empty: nothing it holds is older than that. */
  lemma {:induction false} BoundGrewFromEmpty(worlds: seq<World>, actions: seq<Action>, j: nat, id: Token)
    returns (i: nat)
    requires Run(worlds, actions) && j < |worlds| && worlds[j].db.bound == Some(id)
    ensures i < j && actions[i] == Start(id) && worlds[i].db == EMPTY_DATABASE
    ensures forall k | i <= k < j :: !actions[k].Wipe?
  {
    assert StepAt(worlds, actions, j - 1);
    var w := worlds[j - 1];
    BoundStep(w, actions[j - 1], id);
    if w.db.bound == Some(id) {
      i := BoundGrewFromEmpty(worlds, actions, j - 1, id);
    } else {
      i := MarkerCameFrom(worlds, actions, j - 1, id);
    }
  }
}
