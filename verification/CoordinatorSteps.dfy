/** The invariant, step by step. */
module CoordinatorSteps {
  import opened Common
  import opened Chain
  import opened Attempts
  import opened AttemptRuns
  import opened Coordinator
  import opened CoordinatorInv
  import opened CoordinatorProof

  lemma TakeKeeps(s: Sys, w: nat)
    requires Inv(s) && Enabled(s, Take(w))
    ensures Inv(Next(s, Take(w)))
  {
    var s' := Next(s, Take(w));
    QuietStep(s, s', w);
  }

  lemma ReadKeeps(s: Sys, w: nat)
    requires Inv(s) && Enabled(s, Read(w))
    ensures Inv(ReadNext(s, w))
  {
    var j := s.jobs[w];
    if j.turn >= MAX_TURNS || j.id !in s.db.attempts {
      StopQuietly(s, w);
    } else {
      var row := s.db.attempts[j.id];
      assert RowOk(s, j.id);
      if row.state.Planning? {
        GoQuietly(s, w, Locking(j.id, j.turn, row.wallet));
      } else if row.state.Reserved? || row.state.Signing? || row.state.SigningUnknown? {
        GoQuietly(s, w, Checking(j.id, j.turn, row));
      } else if Reconcilable(row.state) {
        GoQuietly(s, w, Looking(j.id, row));
      } else {
        StopQuietly(s, w);
      }
    }
  }

  // ---------- Planning ----------

  lemma LockKeeps(s: Sys, w: nat)
    requires Inv(s) && w < |s.jobs| && PlanEnabled(s, s.jobs[w], Lock)
    ensures Inv(PlanNext(s, w, Lock))
  {
    var j := s.jobs[w];
    assert JobOk(s, j);
    var s' := PlanNext(s, w, Lock);
    if s.db.attempts[j.id].state.Planning? {
      assert ControlOk(s');
      QuietStep(s, s', w);
    } else {
      StopQuietly(s, w);
    }
  }

  /** An attempt in planning, or cancelled meanwhile, has no call that could have produced bytes. */
  lemma PlanningIsUnexposed(s: Sys, id: AttemptId)
    requires Inv(s) && id in s.db.attempts && !Exposable(s.db.attempts[id].state)
    ensures LiveCalls(s, id) == {}
  {
    if c :| c in LiveCalls(s, id) {
      assert false;
    }
  }

  lemma SetChangeKeeps(s: Sys, w: nat, address: Token, now: int)
    requires Inv(s) && w < |s.jobs| && s.jobs[w].Entered?
    ensures Inv(PlanNext(s, w, SetChange(address, now)))
  {
    var j := s.jobs[w];
    assert JobOk(s, j) && PlanJobOk(s, j) && RowOk(s, j.id) && VerdictOk(s, j.id);
    var (t, r) := SetChangeAddress(s.db, j.id, address, now);
    var s' := PlanNext(s, w, SetChange(address, now));
    if r.Ok? {
      GoControl(s, w, t, Selecting(j.id, j.turn, j.wallet, 0));
    } else {
      StopControl(s, w, t);
    }
    if t == s.db {
      QuietStep(s, s', w);
    } else {
      ApplyWritesRow(s.db, DoSetChange(j.id, address, now));
      KeepRowKeepsNotes(s.db, t, j.id, s.cfg.network);
      PlanningIsUnexposed(s, j.id);
      WriteStep(s, s', w, j.id);
    }
  }

  lemma ReservedNotes(t: Tables, id: AttemptId, network: Token, plan: Plan, fee: Token, now: int, wallet: Token)
    requires id in t.attempts && t.attempts[id].wallet != wallet
    ensures ActiveNotes(Reserve(t, id, network, plan, fee, now).0, network, wallet) <= ActiveNotes(t, network, wallet)
  {
  }

  lemma ReservedRowOk(s: Sys, s': Sys, id: AttemptId, plan: Plan, fee: Token, now: int)
    requires Inv(s) && SameEnvironment(s, s') && s'.db == Reserve(s.db, id, s.cfg.network, plan, fee, now).0
             && s'.db != s.db
    requires id in s.db.attempts && s.db.attempts[id].state.Planning?
    ensures WritesRow(s.db, s'.db, id) && NotesExact(s'.db, s.cfg.network)
    ensures s'.db.attempts[id].state.Reserved? && RowOk(s', id) && VerdictOk(s', id)
  {
    assert RowOk(s, id);
    ReserveKeepsNotes(s.db, id, s.cfg.network, plan, fee, now);
    ApplyWritesRow(s.db, DoReserve(id, s.cfg.network, plan, fee, now));
    SortKeeps(plan.notes);
  }

  lemma ReservedControl(s: Sys, w: nat, t: Tables, turn: nat)
    requires ControlOk(s) && w < |s.jobs| && s.jobs[w].Planned?
    ensures ControlOk(Unlocked(Go(s, w, t, Loading(s.jobs[w].id, turn)), s.jobs[w]))
  {
  }

  lemma ReserveGoes(s: Sys, w: nat, t: Tables, now: int, turn: nat)
    requires Inv(s) && w < |s.jobs| && s.jobs[w].Planned? && PlanJobOk(s, s.jobs[w])
    requires (t, Ok) == Reserve(s.db, s.jobs[w].id, s.cfg.network, s.jobs[w].plan, s.jobs[w].fee, now)
    ensures Inv(Unlocked(Go(s, w, t, Loading(s.jobs[w].id, turn)), s.jobs[w]))
  {
    var j := s.jobs[w];
    var s' := Unlocked(Go(s, w, t, Loading(j.id, turn)), j);
    ReservedRowOk(s, s', j.id, j.plan, j.fee, now);
    ReservedControl(s, w, t, turn);
    PlanningIsUnexposed(s, j.id);
    forall wallet
      ensures j.wallet == wallet || ActiveNotes(t, s.cfg.network, wallet) <= ActiveNotes(s.db, s.cfg.network, wallet)
    {
      if j.wallet != wallet { ReservedNotes(s.db, j.id, s.cfg.network, j.plan, j.fee, now, wallet); }
    }
    assert JobOk(s', s'.jobs[w]);
    WriteStep(s, s', w, j.id);
  }

  lemma FailedReserveChangesNothing(t: Tables, id: AttemptId, network: Token, plan: Plan, fee: Token, now: int)
    ensures var (t', r) := Reserve(t, id, network, plan, fee, now); !r.Ok? ==> t' == t
  {
  }

  function ReserveReply(s: Sys, j: Job, now: int): (Tables, Outcome)
    requires j.Planned?
  {
    Reserve(s.db, j.id, s.cfg.network, j.plan, j.fee, now)
  }

  lemma ReserveOkKeeps(s: Sys, w: nat, now: int)
    requires Inv(s) && w < |s.jobs| && s.jobs[w].Planned? && PlanJobOk(s, s.jobs[w])
             && ReserveReply(s, s.jobs[w], now).1.Ok?
    ensures Inv(ReserveNext(s, w, now))
  {
    var j := s.jobs[w];
    var t := ReserveReply(s, j, now).0;
    assert ReserveNext(s, w, now) == Unlocked(Go(s, w, t, Loading(j.id, j.turn + 1)), j);
    ReserveGoes(s, w, t, now, j.turn + 1);
  }

  lemma ReserveConflictKeeps(s: Sys, w: nat, now: int)
    requires Inv(s) && w < |s.jobs| && s.jobs[w].Planned? && PlanJobOk(s, s.jobs[w])
             && ReserveReply(s, s.jobs[w], now).1.NoteConflict?
    ensures Inv(ReserveNext(s, w, now))
  {
    var j := s.jobs[w];
    FailedReserveChangesNothing(s.db, j.id, s.cfg.network, j.plan, j.fee, now);
    assert ReserveNext(s, w, now) == Go(s, w, s.db, Selecting(j.id, j.turn, j.wallet, j.replan + 1));
    GoQuietly(s, w, Selecting(j.id, j.turn, j.wallet, j.replan + 1));
  }

  lemma ReserveFailsKeeps(s: Sys, w: nat, now: int)
    requires Inv(s) && w < |s.jobs| && s.jobs[w].Planned? && !ReserveReply(s, s.jobs[w], now).1.Ok?
             && !ReserveReply(s, s.jobs[w], now).1.NoteConflict?
    ensures Inv(ReserveNext(s, w, now))
  {
    var j := s.jobs[w];
    FailedReserveChangesNothing(s.db, j.id, s.cfg.network, j.plan, j.fee, now);
    assert ReserveNext(s, w, now) == Stop(s, w, s.db);
    StopQuietly(s, w);
  }

  lemma TryReserveKeeps(s: Sys, w: nat, now: int)
    requires Inv(s) && w < |s.jobs| && s.jobs[w].Planned? && PlanJobOk(s, s.jobs[w])
    ensures Inv(ReserveNext(s, w, now))
  {
    var r := ReserveReply(s, s.jobs[w], now).1;
    if r.Ok? {
      ReserveOkKeeps(s, w, now);
    } else if r.NoteConflict? {
      ReserveConflictKeeps(s, w, now);
    } else {
      ReserveFailsKeeps(s, w, now);
    }
  }

  lemma PlanKeeps(s: Sys, w: nat, p: PlanStep)
    requires Inv(s) && w < |s.jobs| && PlanEnabled(s, s.jobs[w], p)
    ensures Inv(PlanNext(s, w, p))
  {
    var j := s.jobs[w];
    assert JobOk(s, j);
    match p
    case Lock => LockKeeps(s, w);
    case SetChange(address, now) => SetChangeKeeps(s, w, address, now);
    case Select => GoQuietly(s, w, Selecting(j.id, j.turn, j.wallet, 0));
    case Exclude =>
      GoQuietly(s, w, Excluding(j.id, j.turn, j.wallet, j.replan, ActiveNotes(s.db, s.cfg.network, j.wallet)));
    case PlanReturned(plan, fee) => GoQuietly(s, w, Planned(j.id, j.turn, j.wallet, j.replan, j.excluded, plan, fee));
    case TryReserve(now) =>
      assert PlanJobOk(s, j);
      TryReserveKeeps(s, w, now);
    case GiveUp(failed, error, written, now) =>
      assert PlanJobOk(s, j) && RowOk(s, j.id) && VerdictOk(s, j.id);
      PlanningIsUnexposed(s, j.id);
      MarkThenStop(s, w, j.id, if failed then FailedUnsigned else State.Planning, error, failed, written, now);
  }

  // ---------- Signing ----------

  lemma BeginKeeps(s: Sys, w: nat, now: int)
    requires Inv(s) && w < |s.jobs| && s.jobs[w].Checking?
    ensures Inv(SignNext(s, w, Begin(now)))
  {
    var j := s.jobs[w];
    assert JobOk(s, j) && SignJobOk(s, j) && RowOk(s, j.id) && VerdictOk(s, j.id);
    var (t, r) := BeginSigning(s.db, j.id, now);
    if !r.Ok? {
      StopQuietly(s, w);
    } else {
      var j' := Begun(j.id, j.turn, j.row.state.Signing? || j.row.state.SigningUnknown?);
      if t == s.db {
        GoQuietly(s, w, j');
      } else {
        GoControl(s, w, t, j');
        ApplyWritesRow(s.db, DoBegin(j.id, now));
        KeepRowKeepsNotes(s.db, t, j.id, s.cfg.network);
        PlanningIsUnexposed(s, j.id);
        WriteStep(s, Go(s, w, t, j'), w, j.id);
      }
    }
  }

  lemma SendKeeps(s: Sys, w: nat, call: nat)
    requires Inv(s) && w < |s.jobs| && s.jobs[w].Begun? && call !in s.calls
    ensures Inv(SignNext(s, w, Send(call)))
  {
    var j := s.jobs[w];
    assert JobOk(s, j) && SignJobOk(s, j);
    var s' := SignNext(s, w, Send(call));
    forall tx | tx in s'.signed ensures SignsPlan(s', tx) { assert SignsPlan(s, tx); }
    forall a | a != j.id ensures LiveCalls(s', a) <= LiveCalls(s, a) {}
    assert LiveCalls(s', j.id) <= LiveCalls(s, j.id) + {call};
    CallsChanged(s, s', w);
  }

  lemma ReplyDefiniteKeeps(s: Sys, w: nat, error: Error)
    requires Inv(s) && w < |s.jobs| && SignEnabled(s, s.jobs[w], ReplyDefinite(error))
    ensures Inv(SignNext(s, w, ReplyDefinite(error)))
  {
    var j := s.jobs[w];
    assert JobOk(s, j) && SignJobOk(s, j);
    var s' := SignNext(s, w, ReplyDefinite(error));
    forall tx | tx in s'.signed ensures SignsPlan(s', tx) {
      assert SignsPlan(s, tx) && tx.origin != SignedIn(j.call);
    }
    forall a ensures LiveCalls(s', a) <= LiveCalls(s, a) {}
    assert LiveCalls(s', j.id) <= LiveCalls(s, j.id) - {j.call};
    CallsChanged(s, s', w);
  }

  /** A step that only changes which calls are outstanding for the worker's own attempt. */
  lemma CallsChanged(s: Sys, s': Sys, w: nat)
    requires Inv(s) && OnlyWorker(s, s', w) && !s.jobs[w].Idle? && Grows(s, s') && s'.db == s.db
    requires s'.chain == s.chain && s'.settled == s.settled && s'.signed == s.signed
    requires s'.inflight == s.inflight && s'.locks == s.locks
    requires forall a | a != s.jobs[w].id :: LiveCalls(s', a) <= LiveCalls(s, a)
    requires CallsOk(s')
    requires !s'.jobs[w].Idle? && s'.jobs[w].id == s.jobs[w].id && !HoldsLock(s'.jobs[w]) && JobOk(s', s'.jobs[w])
    ensures Inv(s')
  {
    forall a | a in s'.db.attempts ensures RowOk(s', a) && VerdictOk(s', a) {
      var row := s.db.attempts[a];
      assert RowOk(s, a) && VerdictOk(s, a);
      if row.state.Released? { BuriedStays(s, s', row); }
      if row.state.Final? { SettledTxStays(s, s', row.signature.value.tx); }
    }
    forall v | 0 <= v < |s'.jobs| ensures JobOk(s', s'.jobs[v]) {
      if v != w { JobStays(s, s', s.jobs[v]); }
    }
  }

  lemma CompletedRowOk(s: Sys, s': Sys, id: AttemptId, signature: Signature, fee: Token, now: int)
    requires Inv(s) && SameEnvironment(s, s') && InSigning(s, id) && OwnsSignature(s, id, signature.tx)
    requires s'.db == CompleteSigning(s.db, id, signature, fee, now).0
    ensures WritesRow(s.db, s'.db, id) && NotesExact(s'.db, s.cfg.network)
    ensures s'.db.attempts[id].state.Signed? && RowOk(s', id) && VerdictOk(s', id)
    ensures s'.db.reservations == s.db.reservations
  {
    assert RowOk(s, id);
    ApplyWritesRow(s.db, DoComplete(id, signature, fee, now));
    KeepRowKeepsNotes(s.db, s'.db, id, s.cfg.network);
  }

  lemma CompleteKeeps(s: Sys, w: nat, signature: Signature, fee: Token, now: int)
    requires Inv(s) && w < |s.jobs| && s.jobs[w].Answered? && SignJobOk(s, s.jobs[w]) && s.jobs[w].tx == signature.tx
    ensures Inv(CompleteNext(s, w, signature, fee, now))
  {
    var j := s.jobs[w];
    var t := CompleteSigning(s.db, j.id, signature, fee, now).0;
    var s' := Go(s, w, t, Loading(j.id, j.turn + 1));
    assert CompleteNext(s, w, signature, fee, now) == s';
    GoControl(s, w, t, Loading(j.id, j.turn + 1));
    CompletedRowOk(s, s', j.id, signature, fee, now);
    forall wallet ensures ActiveNotes(t, s.cfg.network, wallet) <= ActiveNotes(s.db, s.cfg.network, wallet) {
      FewerNotes(s.db, t, s.cfg.network, wallet);
    }
    assert JobOk(s', Loading(j.id, j.turn + 1));
    WriteStep(s, s', w, j.id);
  }

  lemma RejectKeeps(s: Sys, w: nat, badRequest: bool, error: Error, written: bool, now: int)
    requires Inv(s) && w < |s.jobs| && s.jobs[w].Checking? && SignJobOk(s, s.jobs[w])
    ensures Inv(SignNext(s, w, RejectStored(badRequest, error, written, now)))
  {
    var j := s.jobs[w];
    if !badRequest && j.row.state.Reserved? {
      assert RowOk(s, j.id) && VerdictOk(s, j.id);
      PlanningIsUnexposed(s, j.id);
      MarkThenStop(s, w, j.id, FailedUnsigned, error, true, written, now);
    } else {
      GoQuietly(s, w, Doubting(j.id, error));
    }
  }

  /** Only a worker that is certain may take the attempt back; a doubtful one records the doubt. */
  lemma RefusalKeeps(s: Sys, w: nat, written: bool, now: int)
    requires Inv(s) && w < |s.jobs| && s.jobs[w].Refused? && SignJobOk(s, s.jobs[w])
    ensures Inv(SignNext(s, w, RecordRefusal(written, now)))
  {
    var j := s.jobs[w];
    assert RowOk(s, j.id) && VerdictOk(s, j.id);
    if j.uncertain {
      MarkThenStop(s, w, j.id, SigningUnknown, j.error, false, written, now);
    } else if j.error.retryable {
      MarkThenStop(s, w, j.id, Reserved, j.error, false, written, now);
    } else {
      MarkThenStop(s, w, j.id, FailedUnsigned, j.error, true, written, now);
    }
  }

  lemma DoubtKeeps(s: Sys, w: nat, written: bool, now: int)
    requires Inv(s) && w < |s.jobs| && s.jobs[w].Doubting? && SignJobOk(s, s.jobs[w])
    ensures Inv(SignNext(s, w, RecordDoubt(written, now)))
  {
    var j := s.jobs[w];
    assert RowOk(s, j.id) && VerdictOk(s, j.id);
    MarkThenStop(s, w, j.id, SigningUnknown, j.error, false, written, now);
  }

  lemma ReplyKeeps(s: Sys, w: nat, p: SignStep)
    requires Inv(s) && w < |s.jobs| && SignJobOk(s, s.jobs[w]) && (p.ReplyUnknown? || p.ReplySigned?)
             && SignEnabled(s, s.jobs[w], p)
    ensures Inv(SignNext(s, w, p))
  {
    var j := s.jobs[w];
    if p.ReplyUnknown? {
      GoQuietly(s, w, Doubting(j.id, p.error));
    } else {
      GoQuietly(s, w, Answered(j.id, j.turn, p.tx));
    }
  }

  lemma SignKeeps(s: Sys, w: nat, p: SignStep)
    requires Inv(s) && w < |s.jobs| && SignEnabled(s, s.jobs[w], p)
    ensures Inv(SignNext(s, w, p))
  {
    var j := s.jobs[w];
    assert SignJobOk(s, j) by { assert JobOk(s, j); }
    match p
    case RejectStored(badRequest, error, written, now) => RejectKeeps(s, w, badRequest, error, written, now);
    case Begin(now) => BeginKeeps(s, w, now);
    case Send(call) => SendKeeps(s, w, call);
    case ReplyDefinite(error) => ReplyDefiniteKeeps(s, w, error);
    case ReplyUnknown(_) => ReplyKeeps(s, w, p);
    case ReplySigned(_) => ReplyKeeps(s, w, p);
    case RecordRefusal(written, now) => RefusalKeeps(s, w, written, now);
    case RecordDoubt(written, now) => DoubtKeeps(s, w, written, now);
    case Complete(raw, indices, change, fee, now) =>
      CompleteKeeps(s, w, Signature(j.tx, raw, indices, change), fee, now);
  }

  // ---------- Reconciliation ----------

  /** A reconciling transition between unsettled states is always harmless. */
  lemma UnsettledMark(s: Sys, id: AttemptId, row: Attempt, next: State)
    requires Inv(s) && Tracks(s, id, row) && Reconcilable(next)
    ensures SafeMark(s, id, next, false)
  {
    assert RowOk(s, id);
  }

  lemma TransitionThenStop(s: Sys, w: nat, row: Attempt, next: State, release: bool, written: bool, now: int)
    requires Inv(s) && w < |s.jobs| && !s.jobs[w].Idle?
    requires SafeMark(s, s.jobs[w].id, next, release)
    ensures Inv(Stop(s, w, Transition(s.db, s.jobs[w].id, row, next, release, written, now)))
  {
    if row.state == next {
      StopQuietly(s, w);
    } else {
      MarkThenStop(s, w, s.jobs[w].id, next, NO_ERROR, release, written, now);
    }
  }

  /** After a transition the worker still sees the columns that do not change. */
  lemma TransitionTracks(s: Sys, id: AttemptId, row: Attempt, next: State, written: bool, now: int)
    requires Tracks(s, id, row) && Reconcilable(next)
    ensures var s' := s.(db := Transition(s.db, id, row, next, false, written, now));
            Tracks(s', id, row.(state := next))
  {
  }

  lemma TransitionGoes(s: Sys, s': Sys, w: nat, row: Attempt, next: State, written: bool, now: int, j': Job)
    requires Inv(s) && w < |s.jobs| && !s.jobs[w].Idle? && Tracks(s, s.jobs[w].id, row) && Reconcilable(next)
    requires s' == Go(s, w, Transition(s.db, s.jobs[w].id, row, next, false, written, now), j')
    requires !j'.Idle? && j'.id == s.jobs[w].id && !HoldsLock(j') && JobOk(s', j')
    ensures Inv(s')
  {
    var id := s.jobs[w].id;
    GoControl(s, w, s'.db, j');
    UnsettledMark(s, id, row, next);
    if s'.db == s.db {
      QuietStep(s, s', w);
    } else {
      MarkThen(s, s', w, id, next, NO_ERROR, false, written, now);
    }
  }

  lemma TransitionThenGo(s: Sys, w: nat, row: Attempt, next: State, written: bool, now: int, j': Job)
    requires Inv(s) && w < |s.jobs| && !s.jobs[w].Idle? && Tracks(s, s.jobs[w].id, row) && Reconcilable(next)
    requires j' == Unmined(s.jobs[w].id, row.(state := next))
             || j' == Proving(s.jobs[w].id, row.(state := next), ToReleased)
    ensures Inv(Go(s, w, Transition(s.db, s.jobs[w].id, row, next, false, written, now), j'))
  {
    var s' := Go(s, w, Transition(s.db, s.jobs[w].id, row, next, false, written, now), j');
    assert JobOk(s', j') by { TransitionTracks(s, s.jobs[w].id, row, next, written, now); }
    TransitionGoes(s, s', w, row, next, written, now, j');
  }

  lemma FollowKeeps(s: Sys, w: nat, past: bool, written: bool, now: int)
    requires Inv(s) && w < |s.jobs| && s.jobs[w].Seen?
    ensures Inv(FollowNext(s, w, past, written, now))
  {
    var j := s.jobs[w];
    assert JobOk(s, j) && SettleJobOk(s, j);
    match j.lookup
    case InMempool =>
      if past {
        TransitionThenGo(s, w, j.row, ExpiredPending, written, now,
            Proving(j.id, j.row.(state := ExpiredPending), ToReleased));
      } else {
        UnsettledMark(s, j.id, j.row, Broadcast);
        TransitionThenStop(s, w, j.row, Broadcast, false, written, now);
      }
    case Confirmed(n) =>
      if n >= s.cfg.depth {
        GoQuietly(s, w, Proving(j.id, j.row, ToFinal));
      } else {
        UnsettledMark(s, j.id, j.row, Mined);
        TransitionThenStop(s, w, j.row, Mined, false, written, now);
      }
    case OrphanedTx => TransitionThenGo(s, w, j.row, Orphaned, written, now, Unmined(j.id, j.row.(state := Orphaned)));
    case ExpiredTx =>
      TransitionThenGo(s, w, j.row, ExpiredPending, written, now,
          Proving(j.id, j.row.(state := ExpiredPending), ToReleased));
    case Absent => GoQuietly(s, w, Unmined(j.id, j.row));
    case OtherAnswer => StopQuietly(s, w);
  }

  /** A transaction that now has enough confirmations sits in a settled block. */
  lemma ConfirmedIsSettled(s: Sys, row: Attempt, n: int)
    requires ChainOk(s) && HasConfirmations(s.chain, row, n) && n >= s.cfg.depth
    ensures SettledTx(s, row.signature.value.tx)
  {
    var h :| MinedAt(s.chain, h, row.signature.value.tx) && n == |s.chain| - h;
    assert h < s.settled;
  }

  /** Notes unspent on a chain that ends `depth` blocks above the expiry stay clear of the transaction:
      every block it could have been mined in is settled and does not spend them. */
  lemma UnspentIsBuried(s: Sys, j: Job)
    requires Inv(s) && j.TipRead? && SettleJobOk(s, j) && j.goal.ToReleased? && ProofHolds(s.cfg, j.row, j.goal, j.view)
    ensures Buried(s, j.row)
  {
    var e := j.row.plan.value.expiry;
    var n := Settled(j.view, s.cfg.depth);
    assert e + 1 <= n;
    assert s.chain[..e + 1] == s.chain[..n][..e + 1] == j.view[..n][..e + 1] == j.view[..e + 1];
    var low := s.chain[..e + 1];
    forall k | k in KeysOf(s.cfg.network, j.row) ensures Unspent(low, k) {
      assert Unspent(j.view, k);
      forall h, tx | MinedAt(low, h, tx) ensures k !in tx.spends {
        assert MinedAt(j.view, h, tx);
      }
    }
  }

  /** The verdict of a proven job is a safe mark. */
  lemma VerdictMark(s: Sys, j: Job)
    requires Inv(s) && j.Proven? && JobOk(s, j)
    ensures SafeMark(s, j.id, if j.goal.ToFinal? then Final else Released, true)
  {
    assert SettleJobOk(s, j) && RowOk(s, j.id);
    var row := s.db.attempts[j.id];
    var tx := row.signature.value.tx;
    assert SignsPlan(s, tx);
    if j.goal.ToReleased? {
      assert KeysOf(s.cfg.network, row) == KeysOf(s.cfg.network, j.row);
      assert Buried(s, row);
    }
  }

  lemma FindKeeps(s: Sys, w: nat, lookup: Lookup)
    requires Inv(s) && w < |s.jobs| && SettleEnabled(s, s.jobs[w], Find(lookup))
    ensures Inv(SettleNext(s, w, Find(lookup)))
  {
    var j := s.jobs[w];
    assert SettleJobOk(s, j) by { assert JobOk(s, j); }
    if lookup.Confirmed? && lookup.confirmations >= s.cfg.depth {
      ConfirmedIsSettled(s, j.row, lookup.confirmations);
    }
    GoQuietly(s, w, Seen(j.id, j.row, lookup));
  }

  lemma FollowUnminedKeeps(s: Sys, w: nat, past: bool, written: bool, now: int)
    requires Inv(s) && w < |s.jobs| && s.jobs[w].Unmined?
    ensures Inv(if past then NoteExpired(s, w, written, now)
            else Go(s, w, s.db, Proving(s.jobs[w].id, s.jobs[w].row, ToReleased)))
  {
    var j := s.jobs[w];
    assert SettleJobOk(s, j) by { assert JobOk(s, j); }
    if past {
      TransitionThenGo(s, w, j.row, ExpiredPending, written, now,
          Proving(j.id, j.row.(state := ExpiredPending), ToReleased));
    } else {
      GoQuietly(s, w, Proving(j.id, j.row, ToReleased));
    }
  }

  lemma ReadTipKeeps(s: Sys, w: nat)
    requires Inv(s) && w < |s.jobs| && s.jobs[w].Proving?
    ensures Inv(Go(s, w, s.db, TipRead(s.jobs[w].id, s.jobs[w].row, s.jobs[w].goal, s.chain)))
  {
    var j := s.jobs[w];
    assert SettleJobOk(s, j) by { assert JobOk(s, j); }
    GoQuietly(s, w, TipRead(j.id, j.row, j.goal, s.chain));
  }

  lemma ReadStatusesKeeps(s: Sys, w: nat)
    requires Inv(s) && w < |s.jobs| && SettleEnabled(s, s.jobs[w], ReadStatuses)
    ensures Inv(Go(s, w, s.db, Proven(s.jobs[w].id, s.jobs[w].row, s.jobs[w].goal)))
  {
    var j := s.jobs[w];
    assert SettleJobOk(s, j) by { assert JobOk(s, j); }
    if j.goal.ToReleased? { UnspentIsBuried(s, j); }
    GoQuietly(s, w, Proven(j.id, j.row, j.goal));
  }

  lemma SettleKeeps(s: Sys, w: nat, p: SettleStep)
    requires Inv(s) && w < |s.jobs| && SettleEnabled(s, s.jobs[w], p)
    ensures Inv(SettleNext(s, w, p))
  {
    match p
    case Find(lookup) => FindKeeps(s, w, lookup);
    case Follow(past, written, now) => FollowKeeps(s, w, past, written, now);
    case FollowUnmined(past, written, now) => FollowUnminedKeeps(s, w, past, written, now);
    case ReadTip => ReadTipKeeps(s, w);
    case ReadStatuses => ReadStatusesKeeps(s, w);
    case Conclude(written, now) =>
      var j := s.jobs[w];
      assert JobOk(s, j);
      VerdictMark(s, j);
      TransitionThenStop(s, w, j.row, if j.goal.ToFinal? then Final else Released, true, written, now);
  }

  // ---------- Users, crashes, the signer and the chain ----------

  lemma NothingMoves(s: Sys, s': Sys)
    requires Inv(s) && SameEnvironment(s, s') && s'.db == s.db && ControlOk(s')
    requires s'.jobs == s.jobs || s'.jobs == IdleJobs()
    ensures Inv(s')
  {
    SameIsGrowth(s, s');
    forall id | id in s'.db.attempts ensures RowOk(s', id) && VerdictOk(s', id) { RowStays(s, s', id); }
    forall v | 0 <= v < |s'.jobs| ensures JobOk(s', s'.jobs[v]) {
      if s'.jobs == s.jobs { JobStays(s, s', s.jobs[v]); }
    }
  }

  lemma CreateKeeps(s: Sys, id: AttemptId, key: Token, digest: Token, principal: Token, wallet: Token, approval: Token,
                    request: Token, now: int)
    requires Inv(s)
    ensures Inv(s.(db := Claim(s.db, id, key, digest, principal, wallet, approval, request, now).0))
  {
    var t := Claim(s.db, id, key, digest, principal, wallet, approval, request, now).0;
    var s' := s.(db := t);
    SameIsGrowth(s, s');
    if t != s.db {
      KeepRowKeepsNotes(s.db, t, id, s.cfg.network);
    }
    forall a | a in s'.db.attempts ensures RowOk(s', a) && VerdictOk(s', a) {
      if a in s.db.attempts { RowStays(s, s', a); }
    }
    forall v | 0 <= v < |s'.jobs| ensures JobOk(s', s'.jobs[v]) { JobStays(s, s', s.jobs[v]); }
    forall tx | tx in s'.signed ensures SignsPlan(s', tx) { assert SignsPlan(s, tx); }
  }

  /** A planning worker keeps its view of its own cancelled attempt. */
  lemma CancelledPlanJobOk(s: Sys, s': Sys, j: Job, id: AttemptId, now: int)
    requires Inv(s) && SameEnvironment(s, s') && s'.db == Cancel(s.db, id, now).0 && s'.db != s.db
    requires HoldsLock(j) && PlanJobOk(s, j) && j.id == id
    ensures PlanJobOk(s', j)
  {
    FewerNotes(s.db, s'.db, s.cfg.network, j.wallet);
  }

  /** Cancelling reaches a worker's attempt only while nothing can have been signed for it. */
  lemma CancelledJobOk(s: Sys, s': Sys, j: Job, id: AttemptId, now: int)
    requires Inv(s) && SameEnvironment(s, s') && s'.db == Cancel(s.db, id, now).0 && s'.db != s.db
    requires JobOk(s, j) && !j.Idle? && j.id == id
    ensures JobOk(s', j)
  {
    if HoldsLock(j) { CancelledPlanJobOk(s, s', j, id, now); }
    CancelledSigning(s, s', j, id, now);
  }

  lemma CancelledSigning(s: Sys, s': Sys, j: Job, id: AttemptId, now: int)
    requires SameEnvironment(s, s') && s'.db == Cancel(s.db, id, now).0 && s'.db != s.db && !j.Idle? && j.id == id
    requires SignJobOk(s, j) && SettleJobOk(s, j)
    ensures SignJobOk(s', j) && SettleJobOk(s', j)
  {
  }

  lemma CancelJobs(s: Sys, s': Sys, id: AttemptId, now: int, v: nat)
    requires Inv(s) && s' == s.(db := Cancel(s.db, id, now).0) && s'.db != s.db && v < |s.jobs|
    ensures JobOk(s', s.jobs[v])
  {
    var j := s.jobs[v];
    SameIsGrowth(s, s');
    assert JobOk(s, j);
    if !j.Idle? && j.id == id {
      CancelledJobOk(s, s', j, id, now);
    } else {
      if HoldsLock(j) { FewerNotes(s.db, s'.db, s.cfg.network, j.wallet); }
      JobStays(s, s', j);
    }
  }

  lemma CancelRows(s: Sys, s': Sys, id: AttemptId, now: int)
    requires Inv(s) && s' == s.(db := Cancel(s.db, id, now).0) && s'.db != s.db
    ensures RowsOk(s') && id in s.db.attempts && WritesRow(s.db, s'.db, id)
  {
    SameIsGrowth(s, s');
    assert RowOk(s, id);
    ApplyWritesRow(s.db, DoCancel(id, now));
    forall a | a in s'.db.attempts ensures RowOk(s', a) && VerdictOk(s', a) {
      if a != id { RowStays(s, s', a); }
    }
  }

  lemma CancelCalls(s: Sys, s': Sys, id: AttemptId, now: int)
    requires Inv(s) && s' == s.(db := Cancel(s.db, id, now).0) && s'.db != s.db
    ensures CallsOk(s')
  {
    PlanningIsUnexposed(s, id);
    forall c | c in s'.live ensures c in s'.calls && Exposable(s'.db.attempts[s'.calls[c]].state) {
      assert c in LiveCalls(s, s.calls[c]);
    }
    forall tx | tx in s'.signed ensures SignsPlan(s', tx) { assert SignsPlan(s, tx); }
  }

  lemma CancelKeeps(s: Sys, id: AttemptId, now: int)
    requires Inv(s)
    ensures Inv(s.(db := Cancel(s.db, id, now).0))
  {
    var s' := s.(db := Cancel(s.db, id, now).0);
    if s'.db == s.db {
      assert s' == s;
      return;
    }
    CancelKeepsNotes(s.db, id, now, s.cfg.network);
    CancelRows(s, s', id, now);
    CancelCalls(s, s', id, now);
    forall v | 0 <= v < |s'.jobs| ensures JobOk(s', s'.jobs[v]) { CancelJobs(s, s', id, now, v); }
  }

  /** New bytes or a new chain: the tables and the workers do not move. */
  lemma EnvironmentKeeps(s: Sys, s': Sys)
    requires Inv(s) && Grows(s, s') && ChainOk(s') && CallsOk(s')
    requires s'.db == s.db && s'.jobs == s.jobs && s'.inflight == s.inflight && s'.locks == s.locks && s'.live == s.live
             && s'.calls == s.calls
    ensures Inv(s')
  {
    forall id | id in s'.db.attempts ensures RowOk(s', id) && VerdictOk(s', id) { RowStays(s, s', id); }
    forall v | 0 <= v < |s'.jobs| ensures JobOk(s', s'.jobs[v]) { JobStays(s, s', s.jobs[v]); }
  }

  lemma SignerSignsKeeps(s: Sys, tx: Tx)
    requires Inv(s) && SignsPlan(s, tx)
    ensures Inv(s.(signed := s.signed + {tx}))
  {
    var s' := s.(signed := s.signed + {tx});
    forall x | x in s'.signed ensures SignsPlan(s', x) { assert SignsPlan(s, x); }
    EnvironmentKeeps(s, s');
  }

  lemma AdoptKeeps(s: Sys, chain: BestChain)
    requires Inv(s) && Enabled(s, Adopt(chain))
    ensures Inv(Next(s, Adopt(chain)))
  {
    var s' := Next(s, Adopt(chain));
    forall x | x in s'.signed ensures SignsPlan(s', x) { assert SignsPlan(s, x); }
    EnvironmentKeeps(s, s');
  }

  lemma InitHolds(cfg: Config)
    ensures Inv(Init(cfg))
  {
  }

  /** The heart of the safety argument: no step of anybody breaks the invariant. */
  lemma NextKeeps(s: Sys, a: Action)
    requires Inv(s) && Enabled(s, a)
    ensures Inv(Next(s, a))
  {
    match a
    case Create(id, key, digest, principal, wallet, approval, request, now) =>
      CreateKeeps(s, id, key, digest, principal, wallet, approval, request, now);
    case CancelByUser(id, now) => CancelKeeps(s, id, now);
    case Enqueue(_) => NothingMoves(s, Next(s, a));
    case Crash => NothingMoves(s, Next(s, a));
    case SignerSigns(tx) => SignerSignsKeeps(s, tx);
    case Adopt(chain) => AdoptKeeps(s, chain);
    case Take(w) => TakeKeeps(s, w);
    case Read(w) => ReadKeeps(s, w);
    case Leave(w) => StopQuietly(s, w);
    case DoPlan(w, p) => PlanKeeps(s, w, p);
    case DoSign(w, p) => SignKeeps(s, w, p);
    case DoSettle(w, p) => SettleKeeps(s, w, p);
  }
}
