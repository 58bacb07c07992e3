/** The invariant of the coordinator and the facts about single tables that keep it. */
module CoordinatorInv {
  import opened Common
  import opened Chain
  import opened Attempts
  import opened AttemptRuns
  import opened Coordinator

  /** States in which signed bytes may exist, or have existed. */
  predicate Exposable(s: State) {
    s.Signing? || s.SigningUnknown? || Reconcilable(s) || s.Final? || s.Released?
  }

  /** The reservation table is exactly the union of what the holding attempts selected, and every note
      has one owner. */
  ghost predicate NotesExact(t: Tables, network: Token) {
    && (forall k | k in t.reservations ::
          t.reservations[k] in t.attempts && Holding(t.attempts[t.reservations[k]].state)
          && k in KeysOf(network, t.attempts[t.reservations[k]]))
    && (forall id, k | id in t.attempts && Holding(t.attempts[id].state) && k in KeysOf(network, t.attempts[id]) ::
          k in t.reservations && t.reservations[k] == id)
  }

  predicate OwnsSignature(s: Sys, id: AttemptId, tx: Tx) {
    tx in s.signed && tx.origin.SignedIn? && tx.origin.call in s.calls && s.calls[tx.origin.call] == id
  }

  predicate RowOk(s: Sys, id: AttemptId)
    requires id in s.db.attempts
  {
    var row := s.db.attempts[id];
    && RowShape(row)
    && (Holding(row.state) || Exposable(row.state) ==> row.plan.Some? && |row.plan.value.notes| > 0)
    && (Reconcilable(row.state) || row.state.Final? || row.state.Released? ==>
          row.signature.Some? && OwnsSignature(s, id, row.signature.value.tx))
  }

  /** Nothing at or below the expiry spends the attempt's notes, and all of those blocks are settled. */
  ghost predicate Buried(s: Sys, row: Attempt) {
    && row.plan.Some? && 0 < row.plan.value.expiry < s.settled && s.settled <= |s.chain|
    && forall k | k in KeysOf(s.cfg.network, row) :: Unspent(s.chain[..row.plan.value.expiry + 1], k)
  }

  ghost predicate SettledTx(s: Sys, tx: Tx) {
    exists h :: h < s.settled && MinedAt(s.chain, h, tx)
  }

  ghost predicate SpentForGood(s: Sys, row: Attempt) {
    row.signature.Some? && SettledTx(s, row.signature.value.tx)
        && row.signature.value.tx.spends == KeysOf(s.cfg.network, row)
  }

  ghost predicate VerdictOk(s: Sys, id: AttemptId)
    requires id in s.db.attempts
  {
    && (s.db.attempts[id].state.Released? ==> Buried(s, s.db.attempts[id]))
    && (s.db.attempts[id].state.Final? ==> SpentForGood(s, s.db.attempts[id]))
  }

  ghost predicate CallsOk(s: Sys) {
    && (forall c | c in s.calls :: s.calls[c] in s.db.attempts)
    && (forall c | c in s.live :: c in s.calls && Exposable(s.db.attempts[s.calls[c]].state))
    && (forall tx | tx in s.signed :: SignsPlan(s, tx))
  }

  ghost predicate ChainOk(s: Sys) {
    ValidChain(s.chain, s.signed) && Settled(s.chain, s.cfg.depth) <= s.settled <= |s.chain|
  }

  /** The worker of a reconciled attempt sees the row's immutable columns. */
  predicate Tracks(s: Sys, id: AttemptId, row: Attempt) {
    && id in s.db.attempts && Reconcilable(s.db.attempts[id].state) && Reconcilable(row.state)
    && s.db.attempts[id].plan == row.plan && s.db.attempts[id].signature == row.signature
    && s.db.attempts[id].wallet == row.wallet && row.signature.Some?
  }

  predicate InSigning(s: Sys, id: AttemptId) {
    id in s.db.attempts && (s.db.attempts[id].state.Signing? || s.db.attempts[id].state.SigningUnknown?)
  }

  /** A worker that is certain knows that no call but the one it waits for can have produced bytes. */
  predicate Certain(s: Sys, id: AttemptId, pending: set<nat>)
    requires id in s.db.attempts
  {
    s.db.attempts[id].state.Signing? && LiveCalls(s, id) <= pending
  }

  predicate PlanJobOk(s: Sys, j: Job)
    requires HoldsLock(j)
  {
    && j.id in s.db.attempts && s.db.attempts[j.id].wallet == j.wallet
    && (s.db.attempts[j.id].state.Planning? || s.db.attempts[j.id].state.Cancelled?)
    && (j.Excluding? || j.Planned? ==> ActiveNotes(s.db, s.cfg.network, j.wallet) <= j.excluded)
    && (j.Planned? ==> GoodPlan(j.plan, j.fee))
  }

  predicate SignJobOk(s: Sys, j: Job) {
    match j
    case Checking(id, _, row) =>
      id in s.db.attempts &&
      (if row.state.Reserved? then s.db.attempts[id].state.Reserved? || s.db.attempts[id].state.Cancelled?
       else (row.state.Signing? || row.state.SigningUnknown?) && s.db.attempts[id].state == row.state)
    case Doubting(id, _) => id in s.db.attempts
    case Begun(id, _, uncertain) => InSigning(s, id) && (!uncertain ==> Certain(s, id, {}))
    case Calling(id, _, uncertain, call) =>
      InSigning(s, id) && call in s.calls && s.calls[call] == id && (!uncertain ==> Certain(s, id, {call}))
    case Refused(id, uncertain, _) => InSigning(s, id) && (!uncertain ==> Certain(s, id, {}))
    case Answered(id, _, tx) => InSigning(s, id) && OwnsSignature(s, id, tx)
    case _ => true
  }

  ghost predicate SettleJobOk(s: Sys, j: Job) {
    match j
    case Looking(id, row) => Tracks(s, id, row)
    case Seen(id, row, lookup) =>
      Tracks(s, id, row)
          && (lookup.Confirmed? && lookup.confirmations >= s.cfg.depth ==> SettledTx(s, row.signature.value.tx))
    case Unmined(id, row) => Tracks(s, id, row)
    case Proving(id, row, goal) => Tracks(s, id, row) && (goal.ToFinal? ==> SettledTx(s, row.signature.value.tx))
    case TipRead(id, row, goal, view) =>
      && Tracks(s, id, row) && (goal.ToFinal? ==> SettledTx(s, row.signature.value.tx))
      && Settled(view, s.cfg.depth) <= s.settled <= |s.chain|
      && view[..Settled(view, s.cfg.depth)] == s.chain[..Settled(view, s.cfg.depth)]
    case Proven(id, row, goal) =>
      && Tracks(s, id, row)
      && (goal.ToFinal? ==> SettledTx(s, row.signature.value.tx))
      && (goal.ToReleased? ==> Buried(s, row))
    case _ => true
  }

  ghost predicate JobOk(s: Sys, j: Job) {
    && (HoldsLock(j) ==> PlanJobOk(s, j))
    && (j.Locking? ==> j.id in s.db.attempts && s.db.attempts[j.id].wallet == j.wallet)
    && SignJobOk(s, j)
    && SettleJobOk(s, j)
  }

  /** Every busy worker has its own attempt and every held lock one holder. */
  predicate ControlOk(s: Sys) {
    && |s.jobs| == WORKERS
    && (forall w | 0 <= w < |s.jobs| && !s.jobs[w].Idle? :: s.jobs[w].id in s.inflight)
    && (forall w, v | 0 <= w < v < |s.jobs| && !s.jobs[w].Idle? && !s.jobs[v].Idle? :: s.jobs[w].id != s.jobs[v].id)
    && (forall w | 0 <= w < |s.jobs| && HoldsLock(s.jobs[w]) ::
       s.jobs[w].wallet in s.locks && s.locks[s.jobs[w].wallet] == w)
  }

  ghost predicate RowsOk(s: Sys) {
    forall id | id in s.db.attempts :: RowOk(s, id) && VerdictOk(s, id)
  }

  ghost predicate JobsOk(s: Sys) {
    forall w | 0 <= w < |s.jobs| :: JobOk(s, s.jobs[w])
  }

  ghost predicate Inv(s: Sys) {
    ControlOk(s) && NotesExact(s.db, s.cfg.network) && RowsOk(s) && CallsOk(s) && ChainOk(s) && JobsOk(s)
  }

  // ---------- What one table write does to the reservations ----------

  /** Writing a row that keeps holding (or keeps not holding) the same notes. */
  lemma KeepRowKeepsNotes(t: Tables, t': Tables, id: AttemptId, network: Token)
    requires NotesExact(t, network)
    requires id in t'.attempts && t'.attempts == t.attempts[id := t'.attempts[id]] && t'.reservations == t.reservations
    requires if id in t.attempts then
               Holding(t'.attempts[id].state) == Holding(t.attempts[id].state)
               && (Holding(t.attempts[id].state) ==>
                  KeysOf(network, t'.attempts[id]) == KeysOf(network, t.attempts[id]))
             else !Holding(t'.attempts[id].state)
    ensures NotesExact(t', network)
  {
    forall k | k in t'.reservations
      ensures t'.reservations[k] in t'.attempts && Holding(t'.attempts[t'.reservations[k]].state)
              && k in KeysOf(network, t'.attempts[t'.reservations[k]])
    {
    }
    forall a, k | a in t'.attempts && Holding(t'.attempts[a].state) && k in KeysOf(network, t'.attempts[a])
      ensures k in t'.reservations && t'.reservations[k] == a
    {
      assert a in t.attempts && Holding(t.attempts[a].state) && k in KeysOf(network, t.attempts[a]);
    }
  }

  /** Releasing the notes of a row that stops holding. */
  lemma ReleaseKeepsNotes(t: Tables, t': Tables, id: AttemptId, network: Token)
    requires NotesExact(t, network)
    requires id in t'.attempts && t'.attempts == t.attempts[id := t'.attempts[id]]
    requires t'.reservations == Without(t.reservations, id) && !Holding(t'.attempts[id].state)
    ensures NotesExact(t', network)
  {
    forall a, k | a in t'.attempts && Holding(t'.attempts[a].state) && k in KeysOf(network, t'.attempts[a])
      ensures k in t'.reservations && t'.reservations[k] == a
    {
      assert a != id && a in t.attempts && Holding(t.attempts[a].state) && k in KeysOf(network, t.attempts[a]);
    }
  }

  lemma SortedKeys(network: Token, wallet: Token, notes: seq<NoteId>)
    ensures Keys(network, wallet, Sort(notes)) == Keys(network, wallet, notes)
  {
    SortKeeps(notes);
  }

  /** A row that starts to hold notes nobody holds. */
  lemma TakeKeepsNotes(t: Tables, t': Tables, id: AttemptId, network: Token, keys: set<NoteKey>)
    requires NotesExact(t, network)
    requires id in t.attempts && !Holding(t.attempts[id].state) && keys !! t.reservations.Keys
    requires id in t'.attempts && t'.attempts == t.attempts[id := t'.attempts[id]]
             && t'.reservations == t.reservations + Owned(keys, id)
    requires Holding(t'.attempts[id].state) && KeysOf(network, t'.attempts[id]) == keys
    ensures NotesExact(t', network)
  {
    forall k | k in t'.reservations
      ensures t'.reservations[k] in t'.attempts && Holding(t'.attempts[t'.reservations[k]].state)
              && k in KeysOf(network, t'.attempts[t'.reservations[k]])
    {
      if k !in keys { assert t'.reservations[k] == t.reservations[k] && t.reservations[k] != id; }
    }
    forall a, k | a in t'.attempts && Holding(t'.attempts[a].state) && k in KeysOf(network, t'.attempts[a])
      ensures k in t'.reservations && t'.reservations[k] == a
    {
      if a != id {
        assert a in t.attempts && Holding(t.attempts[a].state) && k in KeysOf(network, t.attempts[a]);
        assert k !in keys;
      }
    }
  }

  /** A reservation that succeeds takes exactly the notes of its plan; one that fails changes nothing. */
  lemma ReserveKeepsNotes(t: Tables, id: AttemptId, network: Token, plan: Plan, fee: Token, now: int)
    requires NotesExact(t, network)
    requires id in t.attempts && t.attempts[id].state.Planning?
    ensures var (t', r) := Reserve(t, id, network, plan, fee, now);
            NotesExact(t', network) && (!r.Ok? ==> t' == t)
  {
    var (t', r) := Reserve(t, id, network, plan, fee, now);
    if r.Ok? {
      SortedKeys(network, t.attempts[id].wallet, plan.notes);
      TakeKeepsNotes(t, t', id, network, Keys(network, t.attempts[id].wallet, plan.notes));
    }
  }

  /** Marks that release exactly when the row stops holding keep the table exact. */
  lemma MarkKeepsNotes(t: Tables, id: AttemptId, next: State, error: Error, release: bool, now: int, network: Token)
    requires NotesExact(t, network)
    requires id in t.attempts
    requires if release then !Holding(next) else Holding(next) == Holding(t.attempts[id].state)
    ensures NotesExact(Mark(t, id, next, error, release, now).0, network)
  {
    var (t', r) := Mark(t, id, next, error, release, now);
    if t'.attempts == t.attempts && t'.reservations == t.reservations {
    } else if r.Ok? && t.attempts[id].state == next && t.attempts[id].error == error {
      KeepRowKeepsNotes(t, t', id, network);
    } else if release {
      ReleaseKeepsNotes(t, t', id, network);
    } else {
      KeepRowKeepsNotes(t, t', id, network);
    }
  }

  /** A row that stops holding keeps its notes reserved when nothing releases them. */
  lemma LeakBreaksNotes(t: Tables, t': Tables, id: AttemptId, network: Token, k: NoteKey)
    requires NotesExact(t, network) && id in t.attempts && Holding(t.attempts[id].state)
             && k in KeysOf(network, t.attempts[id])
    requires id in t'.attempts && !Holding(t'.attempts[id].state) && t'.reservations == t.reservations
    ensures !NotesExact(t', network)
  {
    assert t'.reservations[k] == id;
  }

  /** A mark keeps the table exact if and only if its transition is not allowed, it asks for a release, or its
      row does not stop holding notes. */
  lemma MarkKeepsNotesExactlyWhen(t: Tables, id: AttemptId, next: State, error: Error, release: bool, now: int,
                                  network: Token)
    requires NotesExact(t, network) && id in t.attempts && RowShape(t.attempts[id])
    ensures var row := t.attempts[id];
            NotesExact(Mark(t, id, next, error, release, now).0, network) <==>
              || !Allowed(row.state, next) || release || !Holding(row.state) || Holding(next)
              || KeysOf(network, row) == {}
  {
    var (t', r) := Mark(t, id, next, error, release, now);
    var row := t.attempts[id];
    if !r.Ok? || (row.state == next && row.error == error) {
      if r.Ok? { KeepRowKeepsNotes(t, t', id, network); }
    } else if release {
      ReleaseKeepsNotes(t, t', id, network);
    } else if Holding(row.state) == Holding(next) {
      KeepRowKeepsNotes(t, t', id, network);
    } else if KeysOf(network, row) == {} {
      NothingHeldKeepsNotes(t, t', id, network);
    } else {
      var k :| k in KeysOf(network, row);
      LeakBreaksNotes(t, t', id, network, k);
    }
  }

  /** Starting or stopping to hold no notes. */
  lemma NothingHeldKeepsNotes(t: Tables, t': Tables, id: AttemptId, network: Token)
    requires NotesExact(t, network) && id in t.attempts && KeysOf(network, t.attempts[id]) == {}
    requires id in t'.attempts && t'.attempts == t.attempts[id := t'.attempts[id]] && t'.reservations == t.reservations
    requires KeysOf(network, t'.attempts[id]) == {}
    ensures NotesExact(t', network)
  {
    forall k | k in t'.reservations
      ensures t'.reservations[k] in t'.attempts && Holding(t'.attempts[t'.reservations[k]].state)
              && k in KeysOf(network, t'.attempts[t'.reservations[k]])
    {
      assert t.reservations[k] != id;
    }
    forall a, k | a in t'.attempts && Holding(t'.attempts[a].state) && k in KeysOf(network, t'.attempts[a])
      ensures k in t'.reservations && t'.reservations[k] == a
    {
      assert a != id && a in t.attempts && k in KeysOf(network, t.attempts[a]);
    }
  }

  /** The store's own calls can break the table: claim, reserve one note, then mark the attempt failed
      without releasing. The service never issues that mark. */
  function LeakingCalls(network: Token): seq<Op> {
    [DoClaim(1, 1, 1, 1, 1, 1, 1, 0), DoReserve(1, network, Plan(1, 1, 0, [1]), 1, 0),
        DoMark(1, FailedUnsigned, NO_ERROR, false, 0)]
  }

  lemma LeakingCallsRun(network: Token)
    ensures var ops := LeakingCalls(network); var claimed := Apply(NO_TABLES, ops[0]);
            After(ops[..2]) == Apply(claimed, ops[1]) && After(ops) == Apply(Apply(claimed, ops[1]), ops[2])
  {
    var ops := LeakingCalls(network);
    AfterMore([], ops[0]);
    AfterMore([ops[0]], ops[1]);
    AfterMore([ops[0], ops[1]], ops[2]);
    assert [] + [ops[0]] == [ops[0]] && [ops[0]] + [ops[1]] == [ops[0], ops[1]] == ops[..2]
           && [ops[0], ops[1]] + [ops[2]] == ops;
    assert After([]) == NO_TABLES;
  }

  lemma OneNoteReserved(network: Token)
    ensures var claimed := Apply(NO_TABLES, LeakingCalls(network)[0]);
            var t := Apply(claimed, LeakingCalls(network)[1]);
            && 1 in claimed.attempts && claimed.attempts[1].state.Planning? && NotesExact(claimed, network)
            && 1 in t.attempts && t.attempts[1].state.Reserved?
            && NoteKey(network, 1, 1) in KeysOf(network, t.attempts[1])
  {
    SortKeeps([1]);
    assert 1 in Sort([1]);
  }

  lemma LeakingCallsBreakNotes(network: Token)
    ensures NotesExact(After(LeakingCalls(network)[..2]), network) && !NotesExact(After(LeakingCalls(network)), network)
  {
    var ops := LeakingCalls(network);
    LeakingCallsRun(network);
    OneNoteReserved(network);
    var claimed := Apply(NO_TABLES, ops[0]);
    var t := Apply(claimed, ops[1]);
    ReserveKeepsNotes(claimed, 1, network, ops[1].plan, 1, 0);
    LeakBreaksNotes(t, Apply(t, ops[2]), 1, network, NoteKey(network, 1, 1));
  }

  lemma CancelKeepsNotes(t: Tables, id: AttemptId, now: int, network: Token)
    requires NotesExact(t, network)
    ensures NotesExact(Cancel(t, id, now).0, network)
  {
    var (t', r) := Cancel(t, id, now);
    if t' != t {
      ReleaseKeepsNotes(t, t', id, network);
    }
  }
}
