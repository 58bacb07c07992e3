/** Every step of the coordinator keeps its invariant. */
module CoordinatorProof {
  import opened Common
  import opened Chain
  import opened Attempts
  import opened AttemptRuns
  import opened Coordinator
  import opened CoordinatorInv

  /** The environment only grows: bytes stay signed, calls keep their attempt, settled blocks stay. */
  ghost predicate Grows(s: Sys, s': Sys) {
    && s'.cfg == s.cfg && s.signed <= s'.signed
    && (forall c | c in s.calls :: c in s'.calls && s'.calls[c] == s.calls[c])
    && s.settled <= |s.chain| && s.settled <= s'.settled <= |s'.chain| && s.chain[..s.settled] == s'.chain[..s.settled]
  }

  /** The step leaves one attempt alone and gives it no new call. */
  ghost predicate LeavesAlone(s: Sys, s': Sys, id: AttemptId) {
    && (id in s.db.attempts ==> id in s'.db.attempts && s'.db.attempts[id] == s.db.attempts[id])
    && LiveCalls(s', id) <= LiveCalls(s, id)
  }

  predicate SameEnvironment(s: Sys, s': Sys) {
    s'.cfg == s.cfg && s'.calls == s.calls && s'.live == s.live && s'.signed == s.signed && s'.chain == s.chain
        && s'.settled == s.settled
  }

  predicate OnlyWorker(s: Sys, s': Sys, w: nat) {
    w < |s.jobs| && |s'.jobs| == |s.jobs| && s'.jobs == s.jobs[w := s'.jobs[w]]
  }

  lemma BuriedStays(s: Sys, s': Sys, row: Attempt)
    requires Grows(s, s') && Buried(s, row)
    ensures Buried(s', row)
  {
    var e := row.plan.value.expiry;
    assert s.chain[..e + 1] == s.chain[..s.settled][..e + 1];
    assert s'.chain[..e + 1] == s'.chain[..s.settled][..e + 1];
  }

  lemma SettledTxStays(s: Sys, s': Sys, tx: Tx)
    requires Grows(s, s') && SettledTx(s, tx)
    ensures SettledTx(s', tx)
  {
    var h :| h < s.settled && MinedAt(s.chain, h, tx);
    assert s.chain[h] == s.chain[..s.settled][h] == s'.chain[..s.settled][h] == s'.chain[h];
    assert MinedAt(s'.chain, h, tx);
  }

  lemma SettledTxStaysIf(s: Sys, s': Sys, tx: Tx)
    requires Grows(s, s')
    ensures SettledTx(s, tx) ==> SettledTx(s', tx)
  {
    if SettledTx(s, tx) { SettledTxStays(s, s', tx); }
  }

  lemma RowStays(s: Sys, s': Sys, id: AttemptId)
    requires Grows(s, s') && LeavesAlone(s, s', id)
    requires id in s.db.attempts && RowOk(s, id) && VerdictOk(s, id)
    ensures RowOk(s', id) && VerdictOk(s', id)
  {
    var row := s.db.attempts[id];
    if row.state.Released? { BuriedStays(s, s', row); }
    if row.state.Final? { SettledTxStays(s, s', row.signature.value.tx); }
  }

  lemma SettleJobStays(s: Sys, s': Sys, j: Job)
    requires Grows(s, s') && !j.Idle? && LeavesAlone(s, s', j.id) && SettleJobOk(s, j)
    ensures SettleJobOk(s', j)
  {
    match j
    case Seen(_, row, _) => SettledTxStaysIf(s, s', row.signature.value.tx);
    case Proving(_, row, _) => SettledTxStaysIf(s, s', row.signature.value.tx);
    case TipRead(_, row, _, view) =>
      SettledTxStaysIf(s, s', row.signature.value.tx);
      var n := Settled(view, s.cfg.depth);
      assert s.chain[..n] == s.chain[..s.settled][..n];
      assert s'.chain[..n] == s'.chain[..s.settled][..n];
    case Proven(_, row, goal) =>
      SettledTxStaysIf(s, s', row.signature.value.tx);
      if goal.ToReleased? { BuriedStays(s, s', row); }
    case _ =>
  }

  /** A worker whose attempt is left alone still knows what it knew, as long as no note it did not
      exclude was reserved in the wallet it has locked. */
  lemma JobStays(s: Sys, s': Sys, j: Job)
    requires Grows(s, s') && JobOk(s, j)
    requires !j.Idle? ==> LeavesAlone(s, s', j.id)
    requires j.Excluding? || j.Planned? ==>
               ActiveNotes(s'.db, s.cfg.network, j.wallet) <= ActiveNotes(s.db, s.cfg.network, j.wallet)
    ensures JobOk(s', j)
  {
    if !j.Idle? { SettleJobStays(s, s', j); }
  }

  lemma SameIsGrowth(s: Sys, s': Sys)
    requires SameEnvironment(s, s') && ChainOk(s)
    ensures Grows(s, s')
  {
  }

  /** A step that only moves workers, the queue or the locks. */
  lemma QuietStep(s: Sys, s': Sys, w: nat)
    requires Inv(s) && SameEnvironment(s, s') && s'.db == s.db
    requires OnlyWorker(s, s', w)
    requires ControlOk(s') && JobOk(s', s'.jobs[w])
    ensures Inv(s')
  {
    SameIsGrowth(s, s');
    forall id | id in s'.db.attempts ensures RowOk(s', id) && VerdictOk(s', id) { RowStays(s, s', id); }
    forall v | 0 <= v < |s'.jobs| ensures JobOk(s', s'.jobs[v]) {
      if v != w { JobStays(s, s', s.jobs[v]); }
    }
  }

  /** A worker's write to the row of its own attempt. */
  lemma WriteStep(s: Sys, s': Sys, w: nat, id: AttemptId)
    requires Inv(s) && SameEnvironment(s, s')
    requires OnlyWorker(s, s', w) && !s.jobs[w].Idle? && s.jobs[w].id == id
    requires id in s.db.attempts && WritesRow(s.db, s'.db, id)
    requires NotesExact(s'.db, s.cfg.network) && RowOk(s', id) && VerdictOk(s', id)
    requires LiveCalls(s, id) != {} ==> Exposable(s'.db.attempts[id].state)
    requires forall wallet :: (HoldsLock(s.jobs[w]) && s.jobs[w].wallet == wallet) ||
               ActiveNotes(s'.db, s.cfg.network, wallet) <= ActiveNotes(s.db, s.cfg.network, wallet)
    requires ControlOk(s') && JobOk(s', s'.jobs[w])
    ensures Inv(s')
  {
    SameIsGrowth(s, s');
    forall a | a in s'.db.attempts ensures RowOk(s', a) && VerdictOk(s', a) {
      if a != id { RowStays(s, s', a); }
    }
    forall v | 0 <= v < |s'.jobs| ensures JobOk(s', s'.jobs[v]) {
      if v != w { JobStays(s, s', s.jobs[v]); }
    }
    forall c | c in s'.live ensures c in s'.calls && Exposable(s'.db.attempts[s'.calls[c]].state) {
      if s.calls[c] == id { assert c in LiveCalls(s, id); }
    }
    forall tx | tx in s'.signed ensures SignsPlan(s', tx) {
      assert SignsPlan(s, tx);
    }
  }

  lemma StopControl(s: Sys, w: nat, t: Tables)
    requires ControlOk(s) && w < |s.jobs| && !s.jobs[w].Idle?
    ensures ControlOk(Stop(s, w, t)) && SameEnvironment(s, Stop(s, w, t))
  {
  }

  lemma GoControl(s: Sys, w: nat, t: Tables, j: Job)
    requires ControlOk(s) && w < |s.jobs| && !s.jobs[w].Idle? && !j.Idle? && j.id == s.jobs[w].id
    requires HoldsLock(j) ==> HoldsLock(s.jobs[w]) && j.wallet == s.jobs[w].wallet
    ensures ControlOk(Go(s, w, t, j)) && SameEnvironment(s, Go(s, w, t, j))
  {
  }

  lemma StopQuietly(s: Sys, w: nat)
    requires Inv(s) && w < |s.jobs| && !s.jobs[w].Idle?
    ensures Inv(Stop(s, w, s.db))
  {
    StopControl(s, w, s.db);
    QuietStep(s, Stop(s, w, s.db), w);
  }

  lemma GoQuietly(s: Sys, w: nat, j: Job)
    requires Inv(s) && w < |s.jobs| && !s.jobs[w].Idle? && !j.Idle? && j.id == s.jobs[w].id
    requires HoldsLock(j) ==> HoldsLock(s.jobs[w]) && j.wallet == s.jobs[w].wallet
    requires JobOk(Go(s, w, s.db, j), j)
    ensures Inv(Go(s, w, s.db, j))
  {
    GoControl(s, w, s.db, j);
    QuietStep(s, Go(s, w, s.db, j), w);
  }

  // ---------- Marks ----------

  /** When a mark by a worker is harmless: it releases exactly when the row stops holding, it never
      takes an exposed attempt back, and a verdict needs its proof. */
  ghost predicate SafeMark(s: Sys, id: AttemptId, next: State, release: bool) {
    id in s.db.attempts &&
    var row := s.db.attempts[id];
    Allowed(row.state, next) && (release ==> SafeRelease(row.state, next)) ==>
      && (if release then !Holding(next) else Holding(next) == Holding(row.state))
      && (LiveCalls(s, id) != {} ==> Exposable(next))
      && (Holding(next) || Exposable(next) ==> row.plan.Some? && |row.plan.value.notes| > 0)
      && (Reconcilable(next) || next.Final? || next.Released? ==>
            row.signature.Some? && OwnsSignature(s, id, row.signature.value.tx))
      && (next.Final? ==> SpentForGood(s, row))
      && (next.Released? ==> Buried(s, row))
  }

  /** A mark writes the state of one row and frees notes at most. */
  lemma MarkWrites(t: Tables, id: AttemptId, next: State, error: Error, release: bool, now: int)
    requires var t' := Mark(t, id, next, error, release, now).0; t' != t && RowShape(t.attempts[id])
    ensures var t' := Mark(t, id, next, error, release, now).0;
            && id in t.attempts && WritesRow(t, t', id) && t'.reservations.Keys <= t.reservations.Keys
            && Allowed(t.attempts[id].state, next) && (release ==> SafeRelease(t.attempts[id].state, next))
            && var row, row' := t.attempts[id], t'.attempts[id];
            row'.plan == row.plan && row'.signature == row.signature && row'.wallet == row.wallet && row'.state == next
  {
    ApplyWritesRow(t, DoMark(id, next, error, release, now));
  }

  lemma MarkedVerdictOk(s: Sys, s': Sys, id: AttemptId, row: Attempt)
    requires Grows(s, s') && id in s'.db.attempts
    requires var row' := s'.db.attempts[id];
             && row'.plan == row.plan && row'.signature == row.signature && row'.wallet == row.wallet
             && (row'.state.Released? ==> Buried(s, row)) && (row'.state.Final? ==> SpentForGood(s, row))
    ensures VerdictOk(s', id)
  {
    var row' := s'.db.attempts[id];
    assert KeysOf(s.cfg.network, row') == KeysOf(s.cfg.network, row);
    if row'.state.Released? {
      BuriedStays(s, s', row);
      assert Buried(s', row');
    }
    if row'.state.Final? {
      SettledTxStays(s, s', row.signature.value.tx);
    }
  }

  /** The written row of a safe mark is in order, whatever the workers do next. */
  lemma MarkedRowOk(s: Sys, s': Sys, id: AttemptId, next: State, error: Error, release: bool, now: int)
    requires Inv(s) && SafeMark(s, id, next, release)
    requires SameEnvironment(s, s') && s'.db == Mark(s.db, id, next, error, release, now).0 && s'.db != s.db
    ensures WritesRow(s.db, s'.db, id)
    ensures RowOk(s', id) && VerdictOk(s', id) && NotesExact(s'.db, s.cfg.network)
    ensures LiveCalls(s, id) != {} ==> Exposable(s'.db.attempts[id].state)
    ensures s'.db.reservations.Keys <= s.db.reservations.Keys
  {
    assert RowOk(s, id) && VerdictOk(s, id);
    MarkWrites(s.db, id, next, error, release, now);
    MarkKeepsNotes(s.db, id, next, error, release, now, s.cfg.network);
    SameIsGrowth(s, s');
    MarkedVerdictOk(s, s', id, s.db.attempts[id]);
  }

  lemma FewerNotes(t: Tables, t': Tables, network: Token, wallet: Token)
    requires t'.reservations.Keys <= t.reservations.Keys
    ensures ActiveNotes(t', network, wallet) <= ActiveNotes(t, network, wallet)
  {
  }

  lemma MarkThen(s: Sys, s': Sys, w: nat, id: AttemptId, next: State, error: Error, release: bool, written: bool,
                 now: int)
    requires Inv(s) && SameEnvironment(s, s')
    requires OnlyWorker(s, s', w) && !s.jobs[w].Idle? && s.jobs[w].id == id
    requires SafeMark(s, id, next, release)
    requires s'.db == TryMark(s.db, id, next, error, release, written, now)
    requires ControlOk(s') && JobOk(s', s'.jobs[w])
    ensures Inv(s')
  {
    if s'.db == s.db {
      QuietStep(s, s', w);
    } else {
      MarkedRowOk(s, s', id, next, error, release, now);
      forall wallet ensures ActiveNotes(s'.db, s.cfg.network, wallet) <= ActiveNotes(s.db, s.cfg.network, wallet) {
        FewerNotes(s.db, s'.db, s.cfg.network, wallet);
      }
      WriteStep(s, s', w, id);
    }
  }

  lemma MarkThenStop(s: Sys, w: nat, id: AttemptId, next: State, error: Error, release: bool, written: bool, now: int)
    requires Inv(s) && w < |s.jobs| && !s.jobs[w].Idle? && s.jobs[w].id == id
    requires SafeMark(s, id, next, release)
    ensures Inv(Stop(s, w, TryMark(s.db, id, next, error, release, written, now)))
  {
    var t := TryMark(s.db, id, next, error, release, written, now);
    StopControl(s, w, t);
    MarkThen(s, Stop(s, w, t), w, id, next, error, release, written, now);
  }
}
