/**
 Crash-safe address allocation over two stores. The ledger is advanced first, the database row is
 written second, and a failure in between is recorded as a skip; a crash can stop any allocation
 between any two of these writes. The database can also be rolled back, wiped and rebuilt.
 */
module Addresses {
  import opened Common
  import opened Text
  import opened Ledger

  datatype Slot = Slot(wallet: Token, index: nat)

  /** The address rows and the metadata that guards them. `other` counts the rows of every other table
      and of the remaining metadata. */
  datatype Database = Database(
    rows: map<Slot, string>, next: map<Token, nat>, bound: Option<Token>, marker: Option<Token>, sealed: bool,
        other: nat)

  const EMPTY_DATABASE := Database(map[], map[], None, None, false, 0)

  /** How a transaction ends: a commit may also take effect while its caller sees an error. */
  datatype Fate = Commits | Fails | CommitsUnheard

  predicate AddressTaken(d: Database, wallet: Token, address: string) {
    exists s | s in d.rows :: s.wallet == wallet && d.rows[s] == address
  }

  /** Recording an externally reserved index: idempotent only for the same derived address. */
  function AllocateAt(d: Database, slot: Slot, raw: Option<string>): Option<Database> {
    if raw.None? || Trim(raw.value) == "" || slot.wallet !in d.next then None
    else
      var address := Trim(raw.value);
      var advanced := d.next[slot.wallet := Max(d.next[slot.wallet], slot.index + 1)];
      if slot in d.rows then
        if d.rows[slot] == address then Some(d.(next := advanced)) else None
      else if AddressTaken(d, slot.wallet, address) then None
      else Some(d.(rows := d.rows[slot := address], next := advanced))
  }

  function AllocateWith(d: Database, slot: Slot, raw: Option<string>, fate: Fate): (Database, bool) {
    var written := AllocateAt(d, slot, raw);
    if written.None? || fate.Fails? then (d, false) else (written.value, fate.Commits?)
  }

  function BeginRecovery(d: Database, id: Token): (Database, bool) {
    if d.marker.Some? then (d, d.marker.value == id)
    else if d.next != map[] || d.rows != map[] || d.other != 0 || d.bound.Some? || d.sealed then (d, false)
    else (d.(marker := Some(id)), true)
  }

  function EnsureWallet(d: Database, wallet: Token): Database {
    if wallet in d.next then d else d.(next := d.next[wallet := 0])
  }

  function Bind(d: Database, id: Token, recovered: bool): (Database, bool) {
    if d.bound.Some? then (if d.bound.value == id && recovered then d.(sealed := true) else d, d.bound.value == id)
    else if d.marker != Some(id) || (d.sealed && recovered) then (d, false)
    else (d.(bound := Some(id), marker := None, sealed := d.sealed || recovered), true)
  }

  predicate Reserved(m: Manifest, s: Slot) {
    s.wallet in m && s.index < m[s.wallet].next
  }

  predicate Skipped(m: Manifest, s: Slot) {
    s.wallet in m && s.index in m[s.wallet].skipped
  }

  // ---------- One allocation, run to the end ----------

  class AddressStore {
    var db: Database

    constructor (db: Database)
      ensures this.db == db
    {
      this.db := db;
    }

    method AllocateAddressAt(slot: Slot, raw: Option<string>, fate: Fate) returns (ok: bool)
      modifies this
      ensures (db, ok) == AllocateWith(old(db), slot, raw, fate)
    {
      if raw.None? { return false; }
      var address := Trim(raw.value);
      if address == "" || slot.wallet !in db.next || fate.Fails? { return false; }
      var draft := db;
      if slot in draft.rows {
        if draft.rows[slot] != address { return false; }
      } else {
        if AddressTaken(draft, slot.wallet, address) { return false; }
        draft := draft.(rows := draft.rows[slot := address]);
      }
      draft := draft.(next := draft.next[slot.wallet := Max(draft.next[slot.wallet], slot.index + 1)]);
      db := draft;
      return fate.Commits?;
    }
  }

  lemma ReservationIsFresh(m: Manifest, wallet: Token)
    requires ReserveIndex(m, wallet).1.Some?
    ensures var (m', index) := ReserveIndex(m, wallet); var slot := Slot(wallet, index.value);
            && GoodManifest(m') && !Reserved(m, slot) && wallet in m' && index.value < m'[wallet].next
            && (forall s :: Reserved(m', s) <==> Reserved(m, s) || s == slot)
            && (forall s :: Skipped(m', s) <==> Skipped(m, s))
  {
    OperationsKeepManifest(m, wallet, 0, map[]);
  }

  lemma MarkingSkips(m: Manifest, slot: Slot)
    requires GoodManifest(m) && Reserved(m, slot)
    ensures var (m', ok) := MarkSkipped(m, slot.wallet, slot.index);
            && ok && (forall s :: Reserved(m', s) <==> Reserved(m, s))
            && (forall s :: Skipped(m', s) <==> Skipped(m, s) || s == slot)
  {
  }

  /** Nothing stands in the way of handing out this index: the ledger has room, the derivation yields an
      address, no other row of the wallet has it, and the commit is heard of. */
  ghost predicate Allocatable(m: Manifest, d: Database, slot: Slot, raw: Option<string>, fate: Fate) {
    && (forall id | id in m :: GoodWallet(m[id]))
    && slot.index < INDEX_SPACE && slot.wallet in d.next && fate.Commits? && raw.Some? && Trim(raw.value) != ""
    && (slot in d.rows ==> d.rows[slot] == Trim(raw.value))
    && (slot !in d.rows ==> forall s | s in d.rows && s.wallet == slot.wallet :: d.rows[s] != Trim(raw.value))
  }

  /** Reserve, then write, then mark the skip. An address is handed out exactly when nothing stands in its
      way, and only with a fresh index and its row in place; otherwise the index is accounted for unless the
      skip mark could not be written. */
  method AllocateAddress(ledger: Ledger.Store, store: AddressStore, wallet: Token, derive: nat -> Option<string>,
                         fate: Fate, markWorks: bool)
    returns (r: Option<Slot>)
    modifies ledger, store
    ensures wallet !in old(ledger.wallets) ==> r.None?
    ensures wallet in old(ledger.wallets) ==>
              var slot := Slot(wallet, old(ledger.wallets)[wallet].next);
              && r == (if Allocatable(old(ledger.wallets), old(store.db), slot, derive(slot.index), fate) then
                         Some(slot) else None)
              && (forall s :: Reserved(ledger.wallets, s) && !Reserved(old(ledger.wallets), s) ==> s == slot)
              && (forall s :: Skipped(ledger.wallets, s) && !Skipped(old(ledger.wallets), s) ==> s == slot && r.None?)
              && (forall s :: s in store.db.rows && s !in old(store.db).rows ==> s == slot)
    ensures r.Some? ==>
              && r.value.wallet == wallet && !Reserved(old(ledger.wallets), r.value)
              && Reserved(ledger.wallets, r.value)
              && r.value in store.db.rows && derive(r.value.index).Some?
              && store.db.rows[r.value] == Trim(derive(r.value.index).value)
    ensures forall s :: s in old(store.db).rows ==> s in store.db.rows && store.db.rows[s] == old(store.db).rows[s]
    ensures forall s :: Reserved(ledger.wallets, s) && !Reserved(old(ledger.wallets), s) ==>
              (s in store.db.rows || Skipped(ledger.wallets, s) || !markWorks)
    ensures forall s :: Reserved(old(ledger.wallets), s) ==> Reserved(ledger.wallets, s)
    ensures forall s :: Skipped(old(ledger.wallets), s) ==> Skipped(ledger.wallets, s)
  {
    var index := ledger.ReserveAddressIndex(wallet);
    if index.None? { return None; }
    ReservationIsFresh(old(ledger.wallets), wallet);
    var slot := Slot(wallet, index.value);
    var ok := store.AllocateAddressAt(slot, derive(index.value), fate);
    if ok { return Some(slot); }
    if markWorks {
      MarkingSkips(ledger.wallets, slot);
      var marked := ledger.MarkAddressIndexSkipped(wallet, index.value);
      assert marked;
    }
    return None;
  }

  // ---------- Many allocations, crashes and recoveries ----------

  datatype Phase = HasIndex | HasRow | HasFailed

  datatype Allocation = Allocation(slot: Slot, phase: Phase)

  /** `id` is the ledger's installation. `handed` lists every slot ever returned to a caller, in order. `lost`
      holds the indices that were left without a row and without a skip mark, each added by what left it: a
      crash, a failed mark, a rollback, or a recovery that raised a mark or dropped a skip beside a bound
      database. */
  datatype World = World(
    id: Token, manifest: Manifest, db: Database, running: map<nat, Allocation>, handed: seq<Slot>, lost: set<Slot>)

  datatype Action =
    | Reserve(p: nat, wallet: Token, heard: bool)
    | WriteRow(p: nat, raw: Option<string>, fate: Fate)
    | Return(p: nat)
    | MarkSkip(p: nat, works: bool)
    | Crash(p: nat)
    | RollBack(rows: set<Slot>)
    | Wipe
    | Start(id: Token)
    | Raise(targets: map<Token, nat>)
    | AddWallet(wallet: Token)
    | Rebuild(slot: Slot, raw: Option<string>)
    | Clear
    | Finish(id: Token, recovered: bool)

  predicate Running(w: World, s: Slot) {
    exists p | p in w.running :: w.running[p].slot == s
  }

  /** A process allocates only after it opened the database for serving. The steps of a recovery need nothing
      of the database: any number of recoveries may overlap, with each other and with allocations. A
      recovery only writes rows below the marks it raised. */
  ghost predicate Enabled(w: World, a: Action) {
    match a
    case Reserve(p, _, _) => w.db.bound == Some(w.id) && p !in w.running
    case WriteRow(p, _, _) => p in w.running && w.running[p].phase.HasIndex?
    case Return(p) => p in w.running && w.running[p].phase.HasRow?
    case MarkSkip(p, _) => p in w.running && w.running[p].phase.HasFailed?
    case Crash(p) => p in w.running
    case RollBack(_) => w.running == map[]
    case Wipe => w.running == map[]
    case Rebuild(slot, _) => Reserved(w.manifest, slot)
    case _ => true
  }

  /** Every index below the marks. */
  function Slots(m: Manifest): set<Slot> {
    set id, i | id in m.Keys && 0 <= i < m[id].next :: Slot(id, i)
  }

  /** The reserved indices with neither a row nor a skip. */
  function Gaps(m: Manifest, rows: map<Slot, string>): set<Slot> {
    set s | s in Slots(m) && s !in rows && !Skipped(m, s)
  }

  function Dropped(w: World, p: nat): World
    requires p in w.running
  {
    var s := w.running[p].slot;
    w.(running := w.running - {p}, lost := if s in w.db.rows then w.lost else w.lost + {s})
  }

  function SkippedSlots(m: Manifest, slots: set<Slot>): set<Slot> {
    set s | s in slots && Skipped(m, s)
  }

  ghost function Next(w: World, a: Action): World
    requires Enabled(w, a)
  {
    match a
    case Reserve(p, wallet, heard) =>
      var (m, index) := ReserveIndex(w.manifest, wallet);
      if index.None? then w
      else if heard then w.(manifest := m, running := w.running[p := Allocation(Slot(wallet, index.value), HasIndex)])
      else w.(manifest := m, lost := w.lost + {Slot(wallet, index.value)})
    case WriteRow(p, raw, fate) =>
      var (d, ok) := AllocateWith(w.db, w.running[p].slot, raw, fate);
      w.(db := d, running := w.running[p := Allocation(w.running[p].slot, if ok then HasRow else HasFailed)])
    case Return(p) => w.(running := w.running - {p}, handed := w.handed + [w.running[p].slot])
    case MarkSkip(p, works) =>
      var (m, ok) := MarkSkipped(w.manifest, w.running[p].slot.wallet, w.running[p].slot.index);
      if works && ok then w.(manifest := m, running := w.running - {p}) else Dropped(w, p)
    case Crash(p) => Dropped(w, p)
    case RollBack(rows) =>
      w.(db := w.db.(rows := w.db.rows - rows),
          lost := w.lost + ((w.db.rows.Keys * rows) - SkippedSlots(w.manifest, rows)))
    case Wipe => w.(db := EMPTY_DATABASE)
    case Start(id) => w.(db := BeginRecovery(w.db, id).0)
    case Raise(targets) =>
      var m := RaiseHighWater(w.manifest, targets).0;
      w.(manifest := m, lost := w.lost + (Slots(m) - Slots(w.manifest)))
    case AddWallet(wallet) => w.(db := EnsureWallet(w.db, wallet))
    case Rebuild(slot, raw) =>
      var (d, ok) := AllocateWith(w.db, slot, raw, Commits);
      w.(db := d, lost := if ok then w.lost - {slot} else w.lost)
    case Clear =>
      var m := ClearSkipped(w.manifest).0;
      w.(manifest := m, lost := w.lost + (Gaps(m, w.db.rows) - Gaps(w.manifest, w.db.rows)))
    case Finish(id, recovered) =>
      var (d, ok) := Bind(w.db, id, recovered);
      w.(db := d, lost := if ok && w.db.bound.None? then Gaps(w.manifest, w.db.rows) else w.lost)
  }

  /** A fresh installation: every mark at zero, an empty unbound database. */
  predicate Fresh(w: World) {
    && (forall id | id in w.manifest :: w.manifest[id] == WalletState(0, []))
    && w.db == EMPTY_DATABASE && w.running == map[] && w.handed == [] && w.lost == {}
  }

  ghost predicate AllocationOk(w: World, p: nat)
    requires p in w.running
  {
    var s := w.running[p].slot;
    && Reserved(w.manifest, s) && s !in w.handed && !Skipped(w.manifest, s) && s !in w.lost
    && (w.running[p].phase.HasRow? ==> s in w.db.rows)
  }

  ghost predicate Accounted(w: World) {
    forall s: Slot | Reserved(w.manifest, s) ::
      s in w.db.rows || Skipped(w.manifest, s) || Running(w, s) || s in w.lost
  }

  predicate NoRepeat(handed: seq<Slot>) {
    forall i, j :: 0 <= i < j < |handed| ==> handed[i] != handed[j]
  }

  ghost predicate Inv(w: World) {
    && GoodManifest(w.manifest)
    && (forall p | p in w.running :: AllocationOk(w, p))
    && (forall p, q | p in w.running && q in w.running && p != q :: w.running[p].slot != w.running[q].slot)
    && NoRepeat(w.handed) && (forall s | s in w.handed :: Reserved(w.manifest, s))
    && (forall s | s in w.db.rows :: Reserved(w.manifest, s))
    && (forall s | s in w.lost ::
       Reserved(w.manifest, s) && (w.db.bound.Some? ==> s !in w.db.rows && !Skipped(w.manifest, s)))
    && (w.db.bound.Some? ==> Accounted(w))
    && (w.db.bound.None? ==> w.running == map[])
  }
}
