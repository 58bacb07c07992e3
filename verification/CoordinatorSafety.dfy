/** What holds of every run of the coordinator. */
module CoordinatorSafety {
  import opened Common
  import opened Chain
  import opened Attempts
  import opened AttemptRuns
  import opened Coordinator
  import opened CoordinatorInv
  import opened CoordinatorProof
  import opened CoordinatorSteps

  // ---------- What two points of a run have in common ----------

  /** The worker that takes a step. */
  function WorkerOf(a: Action): Option<nat> {
    match a
    case Take(w) => Some(w)
    case Read(w) => Some(w)
    case Leave(w) => Some(w)
    case DoPlan(w, _) => Some(w)
    case DoSign(w, _) => Some(w)
    case DoSettle(w, _) => Some(w)
    case _ => None
  }

  /** Every step of the coordinator is at most one call of the store, by a worker on its own attempt or by a user
      who creates or cancels one. */
  lemma StepIsStoreCall(s: Sys, a: Action) returns (op: Op)
    requires Enabled(s, a)
    ensures Next(s, a).db == s.db || Next(s, a).db == Apply(s.db, op)
    ensures match WorkerOf(a)
            case Some(w) => Next(s, a).db == s.db || (w < |s.jobs| && !s.jobs[w].Idle? && op.id == s.jobs[w].id)
            case None => Next(s, a).db == s.db || op.DoClaim? || op.DoCancel?
  {
    op := DoCancel(0, 0);
    match a
    case Create(id, key, digest, principal, wallet, approval, request, now) =>
      op := DoClaim(id, key, digest, principal, wallet, approval, request, now);
    case CancelByUser(id, now) => op := DoCancel(id, now);
    case DoPlan(w, p) => op := PlanCall(s, w, p);
    case DoSign(w, p) => op := SignCall(s, w, p);
    case DoSettle(w, p) => op := SettleCall(s, w, p);
    case _ =>
  }

  lemma PlanCall(s: Sys, w: nat, p: PlanStep) returns (op: Op)
    requires w < |s.jobs| && PlanEnabled(s, s.jobs[w], p)
    ensures !s.jobs[w].Idle? && op.id == s.jobs[w].id
    ensures PlanNext(s, w, p).db == s.db || PlanNext(s, w, p).db == Apply(s.db, op)
  {
    var j := s.jobs[w];
    op := DoCancel(j.id, 0);
    match p
    case SetChange(address, now) => op := DoSetChange(j.id, address, now);
    case TryReserve(now) => op := DoReserve(j.id, s.cfg.network, j.plan, j.fee, now);
    case GiveUp(failed, error, _, now) =>
      op := DoMark(j.id, if failed then FailedUnsigned else State.Planning, error, failed, now);
    case _ =>
  }

  lemma SignCall(s: Sys, w: nat, p: SignStep) returns (op: Op)
    requires w < |s.jobs| && SignEnabled(s, s.jobs[w], p)
    ensures !s.jobs[w].Idle? && op.id == s.jobs[w].id
    ensures SignNext(s, w, p).db == s.db || SignNext(s, w, p).db == Apply(s.db, op)
  {
    var j := s.jobs[w];
    op := DoCancel(j.id, 0);
    match p
    case RejectStored(_, error, _, now) => op := DoMark(j.id, FailedUnsigned, error, true, now);
    case Begin(now) => op := DoBegin(j.id, now);
    case RecordRefusal(_, now) =>
      op := if j.uncertain then DoMark(j.id, SigningUnknown, j.error, false, now)
      else if j.error.retryable then DoMark(j.id, Reserved, j.error, false, now)
      else DoMark(j.id, FailedUnsigned, j.error, true, now);
    case RecordDoubt(_, now) => op := DoMark(j.id, SigningUnknown, j.error, false, now);
    case Complete(raw, indices, change, fee, now) =>
      op := DoComplete(j.id, Signature(j.tx, raw, indices, change), fee, now);
    case _ =>
  }

  lemma SettleCall(s: Sys, w: nat, p: SettleStep) returns (op: Op)
    requires w < |s.jobs| && SettleEnabled(s, s.jobs[w], p)
    ensures !s.jobs[w].Idle? && op.id == s.jobs[w].id
    ensures SettleNext(s, w, p).db == s.db || SettleNext(s, w, p).db == Apply(s.db, op)
  {
    var j := s.jobs[w];
    op := DoCancel(j.id, 0);
    match p
    case Follow(past, written, now) => op := FollowCall(s, w, past, written, now);
    case FollowUnmined(_, _, now) => op := DoMark(j.id, ExpiredPending, NO_ERROR, false, now);
    case Conclude(_, now) => op := DoMark(j.id, if j.goal.ToFinal? then Final else Released, NO_ERROR, true, now);
    case _ =>
  }

  lemma FollowCall(s: Sys, w: nat, past: bool, written: bool, now: int) returns (op: Op)
    requires w < |s.jobs| && s.jobs[w].Seen?
    ensures op.id == s.jobs[w].id
    ensures FollowNext(s, w, past, written, now).db == s.db
            || FollowNext(s, w, past, written, now).db == Apply(s.db, op)
  {
    var j := s.jobs[w];
    var next := match j.lookup
                case InMempool => if past then ExpiredPending else Broadcast
                case Confirmed(_) => Mined
                case OrphanedTx => Orphaned
                case _ => ExpiredPending;
    op := DoMark(j.id, next, NO_ERROR, false, now);
  }

  /** The tables of every state of every run are those of a sequence of store calls on an empty store, and an
      earlier state's calls are a prefix of a later one's. So what holds of all call sequences holds of all
      runs. */
  lemma {:induction false} RunIsCallSequence(cfg: Config, states: seq<Sys>, actions: seq<Action>, i: nat, j: nat)
    returns (before: seq<Op>, ops: seq<Op>)
    requires Run(cfg, states, actions) && i <= j < |states|
    ensures before <= ops && states[i].db == After(before) && states[j].db == After(ops)
  {
    if j == 0 {
      before, ops := [], [];
    } else {
      var start, prior := RunIsCallSequence(cfg, states, actions, if i < j then i else j - 1, j - 1);
      assert StepAt(states, actions, j - 1);
      var op := StepIsStoreCall(states[j - 1], actions[j - 1]);
      if states[j].db == states[j - 1].db {
        ops := prior;
      } else {
        AfterMore(prior, op);
        ops := prior + [op];
      }
      before := if i < j then start else ops;
    }
  }

  lemma StepEvolves(s: Sys, a: Action)
    requires Inv(s) && Enabled(s, a) && Sound(s.db)
    ensures Sound(Next(s, a).db) && Evolves(s.db, Next(s, a).db)
  {
    var op := StepIsStoreCall(s, a);
    if Next(s, a).db != s.db {
      ApplyKeeps(s.db, op, Next(s, a).db);
    }
  }

  lemma PlanEnvironment(s: Sys, w: nat, p: PlanStep)
    requires w < |s.jobs| && PlanEnabled(s, s.jobs[w], p)
    ensures SameEnvironment(s, PlanNext(s, w, p))
    ensures forall v | 0 <= v < |s.jobs| ::
            PlanNext(s, w, p).jobs[v] == s.jobs[v] || !PlanNext(s, w, p).jobs[v].Calling?
  {
  }

  lemma SettleEnvironment(s: Sys, w: nat, p: SettleStep)
    requires w < |s.jobs| && SettleEnabled(s, s.jobs[w], p)
    ensures SameEnvironment(s, SettleNext(s, w, p))
    ensures forall v | 0 <= v < |s.jobs| ::
            SettleNext(s, w, p).jobs[v] == s.jobs[v] || !SettleNext(s, w, p).jobs[v].Calling?
  {
    match p
    case Find(lookup) =>
    case Follow(past, written, now) => FollowEnvironment(s, w, past, written, now);
    case FollowUnmined(past, written, now) =>
    case ReadTip =>
    case ReadStatuses =>
    case Conclude(written, now) =>
  }

  lemma FollowEnvironment(s: Sys, w: nat, past: bool, written: bool, now: int)
    requires w < |s.jobs| && s.jobs[w].Seen?
    ensures var s' := FollowNext(s, w, past, written, now);
            SameEnvironment(s, s') && s'.jobs == s.jobs[w := s'.jobs[w]] && !s'.jobs[w].Calling?
  {
    match s.jobs[w].lookup
    case InMempool =>
    case Confirmed(n) =>
    case OrphanedTx =>
    case ExpiredTx =>
    case Absent =>
    case OtherAnswer =>
  }

  lemma SignEnvironment(s: Sys, w: nat, p: SignStep)
    requires w < |s.jobs| && SignEnabled(s, s.jobs[w], p)
    ensures var s' := SignNext(s, w, p);
            && s'.cfg == s.cfg && s'.signed == s.signed && s'.chain == s.chain && s'.settled == s.settled
            && (forall c | c in s.calls :: c in s'.calls && s'.calls[c] == s.calls[c])
  {
  }

  lemma StepKeepsConfig(s: Sys, a: Action)
    requires Enabled(s, a)
    ensures Next(s, a).cfg == s.cfg
  {
    match a
    case DoPlan(w, p) => PlanEnvironment(s, w, p);
    case DoSign(w, p) => SignEnvironment(s, w, p);
    case DoSettle(w, p) => SettleEnvironment(s, w, p);
    case _ =>
  }

  lemma {:induction false} RunKeepsInv(cfg: Config, states: seq<Sys>, actions: seq<Action>, i: nat)
    requires Run(cfg, states, actions) && i < |states|
    ensures Inv(states[i]) && states[i].cfg == cfg
  {
    if i == 0 {
      InitHolds(cfg);
    } else {
      RunKeepsInv(cfg, states, actions, i - 1);
      assert StepAt(states, actions, i - 1);
      NextInRunKeeps(states[i - 1], actions[i - 1], states[i]);
    }
  }

  lemma NextInRunKeeps(s: Sys, a: Action, s': Sys)
    requires Inv(s) && Enabled(s, a) && s' == Next(s, a)
    ensures Inv(s') && s'.cfg == s.cfg
  {
    NextKeeps(s, a);
    StepKeepsConfig(s, a);
  }

  lemma SignWaiters(s: Sys, w: nat, p: SignStep)
    requires w < |s.jobs| && SignEnabled(s, s.jobs[w], p)
    ensures var s' := SignNext(s, w, p);
            && (forall c | c in s.live :: c in s'.live || (s.jobs[w].Calling? && s.jobs[w].call == c))
            && (forall v | 0 <= v < |s.jobs| && s'.jobs[v] != s.jobs[v] && s'.jobs[v].Calling? ::
               s'.jobs[v].call !in s.calls)
  {
  }

  /** Only Sign steps, new bytes and new chains touch the environment, and only a Sign step sends a call. */
  lemma StepGrows(s: Sys, a: Action)
    requires Inv(s) && Enabled(s, a)
    ensures Grows(s, Next(s, a))
  {
    match a
    case DoPlan(w, p) =>
      PlanEnvironment(s, w, p);
      SameGrows(s, PlanNext(s, w, p));
    case DoSign(w, p) => SignGrows(s, w, p);
    case DoSettle(w, p) =>
      SettleEnvironment(s, w, p);
      SameGrows(s, SettleNext(s, w, p));
    case _ => OtherGrows(s, a);
  }

  lemma SameGrows(s: Sys, s': Sys)
    requires SameEnvironment(s, s') && ChainOk(s)
    ensures Grows(s, s')
  {
  }

  lemma SignGrows(s: Sys, w: nat, p: SignStep)
    requires w < |s.jobs| && SignEnabled(s, s.jobs[w], p) && ChainOk(s)
    ensures Grows(s, SignNext(s, w, p))
  {
    SignEnvironment(s, w, p);
  }

  lemma OtherGrows(s: Sys, a: Action)
    requires ChainOk(s) && Enabled(s, a) && !a.DoSign? && !a.DoPlan? && !a.DoSettle?
    ensures Grows(s, Next(s, a))
  {
  }

  /** In every coordinator run the event log of each attempt is a legal path to its row's state. */
  lemma RunKeepsLog(cfg: Config, states: seq<Sys>, actions: seq<Action>, i: nat)
    requires Run(cfg, states, actions) && i < |states|
    ensures Sound(states[i].db)
  {
    var _, ops := RunIsCallSequence(cfg, states, actions, i, i);
    LogRefinesRow(ops);
  }

  ghost predicate LaterThan(s: Sys, s': Sys) {
    Grows(s, s') && Evolves(s.db, s'.db)
  }

  lemma RowEvolvesChains(a: Attempt, b: Attempt, c: Attempt)
    requires RowEvolves(a, b) && RowEvolves(b, c)
    ensures RowEvolves(a, c)
  {
  }

  lemma LaterChains(a: Sys, b: Sys, c: Sys)
    requires LaterThan(a, b) && LaterThan(b, c)
    ensures LaterThan(a, c)
  {
    assert a.chain[..a.settled] == b.chain[..b.settled][..a.settled] == c.chain[..b.settled][..a.settled]
           == c.chain[..a.settled];
    forall id | id in a.db.attempts ensures id in c.db.attempts && RowEvolves(a.db.attempts[id], c.db.attempts[id]) {
      RowEvolvesChains(a.db.attempts[id], b.db.attempts[id], c.db.attempts[id]);
    }
  }

  lemma StepIsLater(cfg: Config, states: seq<Sys>, actions: seq<Action>, i: nat)
    requires Run(cfg, states, actions) && i < |actions|
    ensures LaterThan(states[i], states[i + 1])
  {
    assert StepAt(states, actions, i);
    RunKeepsInv(cfg, states, actions, i);
    RunKeepsLog(cfg, states, actions, i);
    StepEvolves(states[i], actions[i]);
    StepGrows(states[i], actions[i]);
  }

  lemma {:induction false} RunGoesOn(cfg: Config, states: seq<Sys>, actions: seq<Action>, i: nat, j: nat)
    requires Run(cfg, states, actions) && i <= j < |states|
    ensures LaterThan(states[i], states[j])
  {
    if i == j {
      RunKeepsInv(cfg, states, actions, i);
      SameIsLater(states[i]);
    } else {
      var a, b, c := states[i], states[j - 1], states[j];
      assert LaterThan(a, b) by { RunGoesOn(cfg, states, actions, i, j - 1); }
      assert LaterThan(b, c) by { StepIsLater(cfg, states, actions, j - 1); }
      LaterChains(a, b, c);
    }
  }

  lemma SameIsLater(s: Sys)
    requires Inv(s)
    ensures LaterThan(s, s)
  {
  }

  // ---------- Theorems ----------

  lemma KeysNotEmpty(network: Token, row: Attempt)
    requires row.plan.Some? && |row.plan.value.notes| > 0
    ensures KeysOf(network, row) != {}
  {
    assert NoteKey(network, row.wallet, row.plan.value.notes[0]) in KeysOf(network, row);
  }

  lemma ClearUpToExpiry(s: Sys, row: Attempt, k: NoteKey, h: int, tx: Tx)
    requires Buried(s, row) && k in KeysOf(s.cfg.network, row)
    ensures MinedAt(s.chain, h, tx) && h <= row.plan.value.expiry ==> k !in tx.spends
  {
    var low := s.chain[..row.plan.value.expiry + 1];
    assert Unspent(low, k);
    if MinedAt(s.chain, h, tx) && h <= row.plan.value.expiry {
      assert MinedAt(low, h, tx);
    }
  }

  /** Once an attempt is released, no transaction ever signed for it (whenever the signer makes it) is
      mined at any later point of the run. */
  lemma ReleasedIsNeverMined(cfg: Config, states: seq<Sys>, actions: seq<Action>, i: nat, j: nat, id: AttemptId, tx: Tx)
    requires Run(cfg, states, actions) && i <= j < |states|
    requires id in states[i].db.attempts && states[i].db.attempts[id].state.Released?
    requires OwnsSignature(states[j], id, tx)
    ensures forall h :: !MinedAt(states[j].chain, h, tx)
  {
    RunKeepsInv(cfg, states, actions, j);
    RunGoesOn(cfg, states, actions, i, j);
    var s := states[j];
    var row := s.db.attempts[id];
    assert RowOk(s, id) && VerdictOk(s, id) && SignsPlan(s, tx);
    KeysNotEmpty(s.cfg.network, row);
    var k :| k in KeysOf(s.cfg.network, row);
    forall h ensures !MinedAt(s.chain, h, tx) {
      ClearUpToExpiry(s, row, k, h, tx);
    }
  }

  /** Once an attempt is final, its own transaction stays in a settled block for good, and nothing else
      mined on any later chain spends one of its notes. */
  lemma FinalIsSpentForGood(cfg: Config, states: seq<Sys>, actions: seq<Action>, i: nat, j: nat, id: AttemptId)
    requires Run(cfg, states, actions) && i <= j < |states|
    requires id in states[i].db.attempts && states[i].db.attempts[id].state.Final?
    ensures id in states[j].db.attempts && states[j].db.attempts[id].signature.Some?
    ensures var tx := states[j].db.attempts[id].signature.value.tx;
            && SettledTx(states[j], tx) && tx.spends == KeysOf(cfg.network, states[j].db.attempts[id])
            && forall h, other | MinedAt(states[j].chain, h, other) && other.spends * tx.spends != {} :: other == tx
  {
    RunKeepsInv(cfg, states, actions, j);
    RunGoesOn(cfg, states, actions, i, j);
    var s := states[j];
    assert RowOk(s, id) && VerdictOk(s, id);
    var tx := s.db.attempts[id].signature.value.tx;
    var at :| at < s.settled && MinedAt(s.chain, at, tx);
  }

  /** The purpose of the reservation table: while bytes signed for an attempt could still be mined, the
      attempt owns every note they spend. */
  lemma SpendableBytesHoldTheirNotes(cfg: Config, states: seq<Sys>, actions: seq<Action>, i: nat, id: AttemptId, tx: Tx)
    requires Run(cfg, states, actions) && i < |states|
    requires OwnsSignature(states[i], id, tx)
    ensures id in states[i].db.attempts
    ensures var s := states[i]; var state := s.db.attempts[id].state;
            || (Holding(state) && forall k | k in tx.spends :: k in s.db.reservations && s.db.reservations[k] == id)
            || (state.Released? && Buried(s, s.db.attempts[id]) && forall h :: !MinedAt(s.chain, h, tx))
            || (state.Final? && SpentForGood(s, s.db.attempts[id]))
  {
    RunKeepsInv(cfg, states, actions, i);
    var s := states[i];
    assert SignsPlan(s, tx) && RowOk(s, id) && VerdictOk(s, id);
    if s.db.attempts[id].state.Released? {
      ReleasedIsNeverMined(cfg, states, actions, i, i, id, tx);
    }
  }

  /** In every reachable state the reserved notes are exactly the union of the notes selected by the attempts
      that hold them, and each is reserved for an attempt that selected it. */
  lemma ReservationsAreTheHeldNotes(cfg: Config, states: seq<Sys>, actions: seq<Action>, i: nat)
    requires Run(cfg, states, actions) && i < |states|
    ensures var t := states[i].db;
            && t.reservations.Keys
               == (set a, k | a in t.attempts && Holding(t.attempts[a].state)
               && k in KeysOf(cfg.network, t.attempts[a]) :: k)
            && forall k | k in t.reservations ::
                 t.reservations[k] in t.attempts && Holding(t.attempts[t.reservations[k]].state)
                 && k in KeysOf(cfg.network, t.attempts[t.reservations[k]])
  {
    RunKeepsInv(cfg, states, actions, i);
  }

  /** The union is disjoint: every holding attempt has notes, and no two share one. */
  lemma HoldersShareNoNote(cfg: Config, states: seq<Sys>, actions: seq<Action>, i: nat, id: AttemptId, other: AttemptId)
    requires Run(cfg, states, actions) && i < |states|
    requires id in states[i].db.attempts && Holding(states[i].db.attempts[id].state)
    ensures KeysOf(cfg.network, states[i].db.attempts[id]) != {}
    ensures id != other && other in states[i].db.attempts && Holding(states[i].db.attempts[other].state) ==>
              KeysOf(cfg.network, states[i].db.attempts[id]) !! KeysOf(cfg.network, states[i].db.attempts[other])
  {
    RunKeepsInv(cfg, states, actions, i);
    var t := states[i].db;
    assert RowOk(states[i], id);
    KeysNotEmpty(cfg.network, t.attempts[id]);
    if id != other && other in t.attempts && Holding(t.attempts[other].state) {
      forall k | k in KeysOf(cfg.network, t.attempts[id]) ensures k !in KeysOf(cfg.network, t.attempts[other]) {
        assert t.reservations[k] == id;
      }
    }
  }

  // ---------- Sticky uncertainty ----------

  /** Some worker still waits for the reply of a call. */
  predicate Awaited(s: Sys, c: nat) {
    exists w :: 0 <= w < |s.jobs| && s.jobs[w].Calling? && s.jobs[w].call == c
  }

  lemma NoNewWaiter(s: Sys, s': Sys, c: nat)
    requires |s'.jobs| == |s.jobs| && !Awaited(s, c)
    requires forall v | 0 <= v < |s.jobs| :: s'.jobs[v] == s.jobs[v] || !s'.jobs[v].Calling? || s'.jobs[v].call != c
    ensures !Awaited(s', c)
  {
  }

  lemma SignStaysUnawaited(s: Sys, w: nat, p: SignStep, c: nat)
    requires w < |s.jobs| && SignEnabled(s, s.jobs[w], p) && c in s.live && c in s.calls && !Awaited(s, c)
    ensures c in SignNext(s, w, p).live && !Awaited(SignNext(s, w, p), c)
  {
    var s' := SignNext(s, w, p);
    SignWaiters(s, w, p);
    assert |s'.jobs| == |s.jobs|;
    NoNewWaiter(s, s', c);
  }

  lemma UnawaitedStays(s: Sys, a: Action, c: nat)
    requires Inv(s) && Enabled(s, a) && c in s.live && !Awaited(s, c)
    ensures c in Next(s, a).live && !Awaited(Next(s, a), c)
  {
    match a
    case DoSign(w, p) => SignStaysUnawaited(s, w, p, c);
    case DoPlan(w, p) => PlanStaysUnawaited(s, w, p, c);
    case DoSettle(w, p) => SettleStaysUnawaited(s, w, p, c);
    case _ => OtherStaysUnawaited(s, a, c);
  }

  lemma PlanStaysUnawaited(s: Sys, w: nat, p: PlanStep, c: nat)
    requires w < |s.jobs| && PlanEnabled(s, s.jobs[w], p) && c in s.live && !Awaited(s, c)
    ensures c in PlanNext(s, w, p).live && !Awaited(PlanNext(s, w, p), c)
  {
    PlanEnvironment(s, w, p);
    assert |PlanNext(s, w, p).jobs| == |s.jobs|;
    NoNewWaiter(s, PlanNext(s, w, p), c);
  }

  lemma SettleStaysUnawaited(s: Sys, w: nat, p: SettleStep, c: nat)
    requires w < |s.jobs| && SettleEnabled(s, s.jobs[w], p) && c in s.live && !Awaited(s, c)
    ensures c in SettleNext(s, w, p).live && !Awaited(SettleNext(s, w, p), c)
  {
    SettleEnvironment(s, w, p);
    assert |SettleNext(s, w, p).jobs| == |s.jobs|;
    NoNewWaiter(s, SettleNext(s, w, p), c);
  }

  lemma OtherKeepsLive(s: Sys, a: Action)
    requires ControlOk(s) && Enabled(s, a) && !a.DoSign? && !a.DoPlan? && !a.DoSettle?
    ensures |Next(s, a).jobs| == |s.jobs| && Next(s, a).live == s.live
  {
  }

  lemma OtherStaysUnawaited(s: Sys, a: Action, c: nat)
    requires ControlOk(s) && Enabled(s, a) && c in s.live && !Awaited(s, c)
    requires !a.DoSign? && !a.DoPlan? && !a.DoSettle?
    ensures c in Next(s, a).live && !Awaited(Next(s, a), c)
  {
    OtherKeepsLive(s, a);
    NoNewWaiter(s, Next(s, a), c);
  }

  lemma {:induction false} UnawaitedForever(cfg: Config, states: seq<Sys>, actions: seq<Action>, i: nat, j: nat, c: nat)
    requires Run(cfg, states, actions) && i <= j < |states|
    requires c in states[i].live && !Awaited(states[i], c)
    ensures c in states[j].live && !Awaited(states[j], c)
  {
    if i < j {
      UnawaitedForever(cfg, states, actions, i, j - 1, c);
      RunKeepsInv(cfg, states, actions, j - 1);
      assert StepAt(states, actions, j - 1);
      UnawaitedStays(states[j - 1], actions[j - 1], c);
    }
  }

  ghost predicate StuckWithNotes(s: Sys, id: AttemptId) {
    id in s.db.attempts && Exposable(s.db.attempts[id].state) &&
    (s.db.attempts[id].state.Final? || s.db.attempts[id].state.Released? ||
     forall k | k in KeysOf(s.cfg.network, s.db.attempts[id]) :: k in s.db.reservations && s.db.reservations[k] == id)
  }

  /** In a reachable state an exposed attempt holds all its notes unless it is settled. */
  lemma ExposedIsStuck(s: Sys, id: AttemptId)
    requires Inv(s) && id in s.db.attempts && Exposable(s.db.attempts[id].state)
    ensures StuckWithNotes(s, id)
  {
    var row := s.db.attempts[id];
    if !row.state.Final? && !row.state.Released? {
      assert Holding(row.state);
      assert forall k | k in KeysOf(s.cfg.network, row) :: k in s.db.reservations && s.db.reservations[k] == id;
    }
  }

  lemma LiveCallIsExposed(s: Sys, c: nat)
    requires CallsOk(s) && c in s.live
    ensures c in s.calls && s.calls[c] in s.db.attempts && Exposable(s.db.attempts[s.calls[c]].state)
  {
  }

  /** A Sign call whose reply was lost (crash, timeout, unknown outcome) marks its attempt for good: it
      never returns to planning or reserved, is never cancelled or failed, and keeps all its notes until
      it is final or released. */
  lemma LostCallIsSticky(cfg: Config, states: seq<Sys>, actions: seq<Action>, i: nat, j: nat, c: nat)
    requires Run(cfg, states, actions) && i <= j < |states|
    requires c in states[i].live && !Awaited(states[i], c)
    ensures c in states[i].calls && StuckWithNotes(states[j], states[i].calls[c])
  {
    RunKeepsInv(cfg, states, actions, i);
    RunKeepsInv(cfg, states, actions, j);
    RunGoesOn(cfg, states, actions, i, j);
    UnawaitedForever(cfg, states, actions, i, j, c);
    LiveCallIsExposed(states[i], c);
    LiveCallIsExposed(states[j], c);
    ExposedIsStuck(states[j], states[j].calls[c]);
  }

  /** The same once the signer has made bytes, even while the worker still waits or has crashed. */
  lemma SignedBytesAreSticky(cfg: Config, states: seq<Sys>, actions: seq<Action>, i: nat, j: nat, id: AttemptId, tx: Tx)
    requires Run(cfg, states, actions) && i <= j < |states|
    requires OwnsSignature(states[i], id, tx)
    ensures StuckWithNotes(states[j], id)
  {
    RunKeepsInv(cfg, states, actions, j);
    RunGoesOn(cfg, states, actions, i, j);
    assert SignsPlan(states[j], tx);
    LiveCallIsExposed(states[j], tx.origin.call);
    ExposedIsStuck(states[j], id);
  }

  // ---------- Planning under the wallet lock ----------

  /** While a worker plans, other attempts can only give notes of its wallet back, so a plan that avoids
      the excluded notes is reserved at the first try unless a user cancelled the attempt. */
  lemma PlanReservesFirstTry(cfg: Config, states: seq<Sys>, actions: seq<Action>, i: nat, w: nat, now: int)
    requires Run(cfg, states, actions) && i < |states| && w < |states[i].jobs|
    requires states[i].jobs[w].Planned?
    requires forall n | n in states[i].jobs[w].plan.notes :: n !in states[i].jobs[w].excluded
    ensures var s := states[i]; var j := s.jobs[w];
            && j.id in s.db.attempts
            && var (t, r) := Reserve(s.db, j.id, cfg.network, j.plan, j.fee, now);
            if s.db.attempts[j.id].state.Planning? then r.Ok?
               else s.db.attempts[j.id].state.Cancelled? && r.StateConflict? && t == s.db
  {
    RunKeepsInv(cfg, states, actions, i);
    var s := states[i];
    var j := s.jobs[w];
    assert JobOk(s, j) && PlanJobOk(s, j);
    forall k
      ensures k in s.db.reservations && k.network == cfg.network && k.wallet == j.wallet ==> k.note in j.excluded
    {
      if k in s.db.reservations && k.network == cfg.network && k.wallet == j.wallet {
        assert k.note in ActiveNotes(s.db, cfg.network, j.wallet);
      }
    }
  }
}
