/**
 What the coordinator records is what it was told. Backwards: every verdict on a signed attempt goes back to an
 answer of the node. Forwards: a pass of a worker whose writes go through leaves the attempt in the state its
 answers call for, whatever the other workers do in between.
 */
module Verdicts {
  import opened Common
  import opened Chain
  import opened Attempts
  import opened AttemptRuns
  import opened Coordinator
  import opened CoordinatorInv
  import opened CoordinatorSafety

  // ---------- One worker among others ----------

  /** From i to j the process does not crash and the worker takes no step. */
  predicate LeftAlone(actions: seq<Action>, w: nat, i: nat, j: nat)
    requires i <= j <= |actions|
  {
    forall k | i <= k < j :: !actions[k].Crash? && WorkerOf(actions[k]) != Some(w)
  }

  lemma OtherStepKeepsJob(s: Sys, a: Action, w: nat)
    requires Enabled(s, a) && w < |s.jobs| && !a.Crash? && WorkerOf(a) != Some(w)
    ensures w < |Next(s, a).jobs| && Next(s, a).jobs[w] == s.jobs[w]
  {
    match a
    case DoPlan(v, p) => PlanMovesOne(s, v, p);
    case DoSign(v, p) => SignMovesOne(s, v, p);
    case DoSettle(v, p) => SettleMovesOne(s, v, p);
    case _ =>
  }

  /** A step of one worker moves no other. */
  predicate MovesOnly(s: Sys, s': Sys, v: nat) {
    |s'.jobs| == |s.jobs| && forall w | 0 <= w < |s.jobs| && w != v :: s'.jobs[w] == s.jobs[w]
  }

  lemma PlanMovesOne(s: Sys, v: nat, p: PlanStep)
    requires v < |s.jobs| && PlanEnabled(s, s.jobs[v], p)
    ensures MovesOnly(s, PlanNext(s, v, p), v)
  {
  }

  lemma SignMovesOne(s: Sys, v: nat, p: SignStep)
    requires v < |s.jobs| && SignEnabled(s, s.jobs[v], p)
    ensures MovesOnly(s, SignNext(s, v, p), v)
  {
  }

  lemma SettleMovesOne(s: Sys, v: nat, p: SettleStep)
    requires v < |s.jobs| && SettleEnabled(s, s.jobs[v], p)
    ensures MovesOnly(s, SettleNext(s, v, p), v)
  {
    if p.Follow? { FollowEnvironment(s, v, p.past, p.written, p.now); }
  }

  lemma {:induction false} JobStands(cfg: Config, states: seq<Sys>, actions: seq<Action>, w: nat, i: nat, j: nat)
    requires Run(cfg, states, actions) && i <= j < |states| && LeftAlone(actions, w, i, j) && w < |states[i].jobs|
    ensures w < |states[j].jobs| && states[j].jobs[w] == states[i].jobs[w]
  {
    if i < j {
      JobStands(cfg, states, actions, w, i, j - 1);
      assert StepAt(states, actions, j - 1);
      OtherStepKeepsJob(states[j - 1], actions[j - 1], w);
    }
  }

  /** Nobody else writes the row of a worker's attempt once it cannot be cancelled any more. */
  lemma OtherStepKeepsRow(s: Sys, a: Action, w: nat)
    requires Inv(s) && Enabled(s, a) && w < |s.jobs| && !s.jobs[w].Idle? && WorkerOf(a) != Some(w)
    requires s.jobs[w].id in s.db.attempts
    requires var state := s.db.attempts[s.jobs[w].id].state; !state.Planning? && !state.Reserved?
    ensures var id := s.jobs[w].id; id in Next(s, a).db.attempts && Next(s, a).db.attempts[id] == s.db.attempts[id]
  {
    var op := StepIsStoreCall(s, a);
    var id := s.jobs[w].id;
    if Next(s, a).db != s.db {
      assert op.id != id || op.DoClaim? || op.DoCancel?;
      if op.id in s.db.attempts { assert RowOk(s, op.id); }
      CallKeepsRow(s.db, op, id);
    }
  }

  lemma CallKeepsRow(t: Tables, op: Op, id: AttemptId)
    requires op.id in t.attempts ==> RowShape(t.attempts[op.id])
    requires id in t.attempts && !t.attempts[id].state.Planning? && !t.attempts[id].state.Reserved?
    requires op.id != id || op.DoClaim? || op.DoCancel?
    ensures id in Apply(t, op).attempts && Apply(t, op).attempts[id] == t.attempts[id]
  {
    ApplyWritesRow(t, op);
    if op.id == id { UserCallsKeepRow(t, op); }
  }

  lemma UserCallsKeepRow(t: Tables, op: Op)
    requires op.id in t.attempts && (op.DoClaim? || op.DoCancel?)
    requires !t.attempts[op.id].state.Planning? && !t.attempts[op.id].state.Reserved?
    ensures Apply(t, op) == t
  {
  }

  lemma {:induction false} RowStands(cfg: Config, states: seq<Sys>, actions: seq<Action>, w: nat, i: nat, j: nat)
    requires Run(cfg, states, actions) && i <= j < |states| && LeftAlone(actions, w, i, j)
    requires w < |states[i].jobs| && !states[i].jobs[w].Idle? && states[i].jobs[w].id in states[i].db.attempts
    requires var state := states[i].db.attempts[states[i].jobs[w].id].state; !state.Planning? && !state.Reserved?
    ensures var id := states[i].jobs[w].id;
            id in states[j].db.attempts && states[j].db.attempts[id] == states[i].db.attempts[id]
  {
    if i < j {
      RowStands(cfg, states, actions, w, i, j - 1);
      JobStands(cfg, states, actions, w, i, j - 1);
      RunKeepsInv(cfg, states, actions, j - 1);
      assert StepAt(states, actions, j - 1);
      OtherStepKeepsRow(states[j - 1], actions[j - 1], w);
    }
  }

  /** What a reconciling worker believes of the row's state is so until it writes itself. */
  predicate Believes(s: Sys, w: nat)
    requires w < |s.jobs|
  {
    match s.jobs[w]
    case Looking(id, row) => id in s.db.attempts && s.db.attempts[id].state == row.state
    case Seen(id, row, _) => id in s.db.attempts && s.db.attempts[id].state == row.state
    case Unmined(id, row) => id in s.db.attempts && (row.state.Orphaned? || s.db.attempts[id].state == row.state)
    case _ => true
  }

  predicate Reconciles(j: Job) { j.Looking? || Settling(j) }

  predicate Settling(j: Job) { j.Seen? || j.Unmined? || j.Proving? || j.TipRead? || j.Proven? }

  lemma OwnStepKeepsBelief(s: Sys, a: Action, w: nat)
    requires Enabled(s, a) && w < |s.jobs| && WorkerOf(a) == Some(w) && Believes(s, w)
    ensures w < |Next(s, a).jobs| && Believes(Next(s, a), w)
  {
    match a
    case DoSettle(_, p) => SettleKeepsBelief(s, w, p);
    case DoPlan(_, p) => PlanNeverReconciles(s, w, p);
    case DoSign(_, p) => SignNeverReconciles(s, w, p);
    case _ =>
  }

  lemma PlanNeverReconciles(s: Sys, w: nat, p: PlanStep)
    requires w < |s.jobs| && PlanEnabled(s, s.jobs[w], p)
    ensures w < |PlanNext(s, w, p).jobs| && !Reconciles(PlanNext(s, w, p).jobs[w])
  {
  }

  lemma SignNeverReconciles(s: Sys, w: nat, p: SignStep)
    requires w < |s.jobs| && SignEnabled(s, s.jobs[w], p)
    ensures w < |SignNext(s, w, p).jobs| && !Reconciles(SignNext(s, w, p).jobs[w])
  {
  }

  lemma SettleKeepsBelief(s: Sys, w: nat, p: SettleStep)
    requires w < |s.jobs| && SettleEnabled(s, s.jobs[w], p) && Believes(s, w)
    ensures w < |SettleNext(s, w, p).jobs| && Believes(SettleNext(s, w, p), w)
  {
    if p.Follow? { FollowKeepsBelief(s, w, p.past, p.written, p.now); }
  }

  lemma FollowKeepsBelief(s: Sys, w: nat, past: bool, written: bool, now: int)
    requires w < |s.jobs| && s.jobs[w].Seen? && Believes(s, w)
    ensures w < |FollowNext(s, w, past, written, now).jobs| && Believes(FollowNext(s, w, past, written, now), w)
  {
    match s.jobs[w].lookup
    case InMempool =>
    case Confirmed(n) =>
    case OrphanedTx => TransitionKeepsIds(s.db, s.jobs[w].id, s.jobs[w].row, Orphaned, false, written, now);
    case ExpiredTx =>
    case Absent =>
    case OtherAnswer =>
  }

  lemma TransitionKeepsIds(t: Tables, id: AttemptId, row: Attempt, next: State, release: bool, written: bool, now: int)
    ensures id in t.attempts ==> id in Transition(t, id, row, next, release, written, now).attempts
  {
  }

  lemma {:induction false} RunKeepsBelief(cfg: Config, states: seq<Sys>, actions: seq<Action>, i: nat, w: nat)
    requires Run(cfg, states, actions) && i < |states| && w < WORKERS
    ensures w < |states[i].jobs| && Believes(states[i], w)
  {
    if i > 0 {
      RunKeepsBelief(cfg, states, actions, i - 1, w);
      var s, a := states[i - 1], actions[i - 1];
      assert StepAt(states, actions, i - 1);
      RunKeepsInv(cfg, states, actions, i - 1);
      if WorkerOf(a) == Some(w) {
        OwnStepKeepsBelief(s, a, w);
      } else if !a.Crash? {
        OtherStepKeepsBelief(s, a, w);
      }
    }
  }

  lemma OtherStepKeepsBelief(s: Sys, a: Action, w: nat)
    requires Inv(s) && Enabled(s, a) && w < |s.jobs| && !a.Crash? && WorkerOf(a) != Some(w) && Believes(s, w)
    ensures w < |Next(s, a).jobs| && Believes(Next(s, a), w)
  {
    OtherStepKeepsJob(s, a, w);
    assert JobOk(s, s.jobs[w]);
    if s.jobs[w].Looking? || s.jobs[w].Seen? || s.jobs[w].Unmined? { OtherStepKeepsRow(s, a, w); }
  }

  // ---------- Every verdict goes back to an answer ----------

  /** The answer that brings a worker where it is. */
  predicate LedHere(lookup: Lookup, depth: int, j: Job)
    requires Settling(j)
  {
    match j
    case Seen(_, _, seen) => seen == lookup
    case Unmined(_, _) => lookup.OrphanedTx? || lookup.Absent?
    case _ =>
      if j.goal.ToFinal? then lookup.Confirmed? && lookup.confirmations >= depth
      else lookup.InMempool? || lookup.OrphanedTx? || lookup.ExpiredTx? || lookup.Absent?
  }

  /** The i-th step asked the node about the transaction of this attempt and got this answer. */
  ghost predicate AskedAt(states: seq<Sys>, actions: seq<Action>, i: nat, w: nat, id: AttemptId, row: Attempt,
                          lookup: Lookup)
    requires |states| == |actions| + 1
  {
    && i < |actions| && actions[i] == DoSettle(w, Find(lookup))
    && w < |states[i].jobs| && SettleEnabled(states[i], states[i].jobs[w], Find(lookup)) && states[i].jobs[w].id == id
    && states[i].jobs[w].row.signature == row.signature && states[i].jobs[w].row.plan == row.plan
  }

  /** A step of a settling worker keeps to the answer it got. */
  lemma SettleStepFollows(s: Sys, w: nat, p: SettleStep, lookup: Lookup)
    requires w < |s.jobs| && SettleEnabled(s, s.jobs[w], p) && !p.Find?
    requires Settling(s.jobs[w]) && LedHere(lookup, s.cfg.depth, s.jobs[w]) && !SettleNext(s, w, p).jobs[w].Idle?
    ensures var j, j' := s.jobs[w], SettleNext(s, w, p).jobs[w];
            && Settling(j') && LedHere(lookup, s.cfg.depth, j') && j'.id == j.id
            && j'.row.signature == j.row.signature && j'.row.plan == j.row.plan
  {
    if p.Follow? { FollowFollows(s, w, p.past, p.written, p.now, lookup); }
  }

  lemma FollowFollows(s: Sys, w: nat, past: bool, written: bool, now: int, lookup: Lookup)
    requires w < |s.jobs| && s.jobs[w].Seen? && LedHere(lookup, s.cfg.depth, s.jobs[w])
    requires !FollowNext(s, w, past, written, now).jobs[w].Idle?
    ensures var j, j' := s.jobs[w], FollowNext(s, w, past, written, now).jobs[w];
            && Settling(j') && LedHere(lookup, s.cfg.depth, j') && j'.id == j.id
            && j'.row.signature == j.row.signature && j'.row.plan == j.row.plan
  {
    match s.jobs[w].lookup
    case InMempool =>
    case Confirmed(n) =>
    case OrphanedTx =>
    case ExpiredTx =>
    case Absent =>
    case OtherAnswer =>
  }

  /** Only a settling step makes a worker settle, and all but the first need one that does. */
  lemma SettlingComesFromSettling(s: Sys, a: Action, w: nat)
    requires Enabled(s, a) && w < |s.jobs| && WorkerOf(a) == Some(w)
    requires w < |Next(s, a).jobs| && Settling(Next(s, a).jobs[w])
    ensures a.DoSettle? && (a.settle.Find? || Settling(s.jobs[w]))
  {
    match a
    case DoSettle(_, p) =>
    case DoPlan(_, p) => PlanNeverReconciles(s, w, p);
    case DoSign(_, p) => SignNeverReconciles(s, w, p);
    case _ => TakingUpNeverSettles(s, a, w);
  }

  lemma TakingUpNeverSettles(s: Sys, a: Action, w: nat)
    requires Enabled(s, a) && w < |s.jobs| && (a == Take(w) || a == Read(w) || a == Leave(w))
    ensures w < |Next(s, a).jobs| && !Settling(Next(s, a).jobs[w])
  {
    match a
    case Read(_) => ReadNeverSettles(s, w);
    case Take(_) =>
    case Leave(_) =>
  }

  lemma ReadNeverSettles(s: Sys, w: nat)
    requires w < |s.jobs| && s.jobs[w].Loading?
    ensures w < |ReadNext(s, w).jobs| && !Settling(ReadNext(s, w).jobs[w])
  {
  }

  /** A worker that settles an attempt has asked the node about it, and is where the answer leads. */
  lemma {:induction false} SettlersAsked(cfg: Config, states: seq<Sys>, actions: seq<Action>, j: nat, w: nat)
    returns (i: nat, lookup: Lookup)
    requires Run(cfg, states, actions) && j < |states| && w < |states[j].jobs| && Settling(states[j].jobs[w])
    ensures i < j && AskedAt(states, actions, i, w, states[j].jobs[w].id, states[j].jobs[w].row, lookup)
    ensures LedHere(lookup, cfg.depth, states[j].jobs[w])
  {
    assert j > 0;
    var s, a := states[j - 1], actions[j - 1];
    assert StepAt(states, actions, j - 1);
    RunKeepsInv(cfg, states, actions, j - 1);
    assert w < |s.jobs| by { RunKeepsInv(cfg, states, actions, j); }
    if a.Crash? {
      assert false;
    } else if WorkerOf(a) != Some(w) {
      OtherStepKeepsJob(s, a, w);
      i, lookup := SettlersAsked(cfg, states, actions, j - 1, w);
    } else {
      SettlingComesFromSettling(s, a, w);
      if a.settle.Find? {
        i, lookup := j - 1, a.settle.lookup;
      } else {
        i, lookup := SettlersAsked(cfg, states, actions, j - 1, w);
        SettleStepFollows(s, w, a.settle, lookup);
      }
    }
  }

  /** The states in which only the reconciler leaves an attempt. */
  predicate Verdict(s: State) {
    s.Broadcast? || s.Mined? || s.Orphaned? || s.ExpiredPending? || s.Final? || s.Released?
  }

  /** The attempt has an expiry, and the tip's height is above it. */
  predicate TipIsAbove(chain: BestChain, row: Attempt) {
    row.plan.Some? && 1 <= row.plan.value.expiry < 0x1_0000_0000 && |chain| >= row.plan.value.expiry + 2
  }

  /** What a verdict says about the answer it rests on and about the chain at that time. */
  ghost predicate Justified(state: State, cfg: Config, lookup: Lookup, asked: BestChain, now: BestChain, row: Attempt) {
    match state
    case Broadcast => lookup.InMempool?
    case Orphaned => lookup.OrphanedTx?
    case Mined =>
      row.signature.Some? && exists h :: MinedAt(asked, h, row.signature.value.tx) && |asked| - h < cfg.depth
    case Final =>
      row.signature.Some? && exists h :: MinedAt(asked, h, row.signature.value.tx) && |asked| - h >= cfg.depth
    case ExpiredPending =>
      lookup.ExpiredTx? || ((lookup.InMempool? || lookup.OrphanedTx? || lookup.Absent?) && TipIsAbove(now, row))
    case Released => lookup.InMempool? || lookup.OrphanedTx? || lookup.ExpiredTx? || lookup.Absent?
    case _ => true
  }

  /** A row enters a state in this step. */
  predicate Enters(s: Sys, s': Sys, id: AttemptId, state: State) {
    && id in s.db.attempts && id in s'.db.attempts
    && s.db.attempts[id].state != state && s'.db.attempts[id].state == state
  }

  lemma PlanGivesNoVerdict(s: Sys, w: nat, p: PlanStep, id: AttemptId, state: State)
    requires w < |s.jobs| && PlanEnabled(s, s.jobs[w], p) && Verdict(state)
    ensures !Enters(s, PlanNext(s, w, p), id, state)
  {
  }

  lemma SignGivesNoVerdict(s: Sys, w: nat, p: SignStep, id: AttemptId, state: State)
    requires w < |s.jobs| && SignEnabled(s, s.jobs[w], p) && Verdict(state)
    ensures !Enters(s, SignNext(s, w, p), id, state)
  {
    match p
    case RejectStored(_, error, written, now) =>
      MarkEnters(s.db, s.jobs[w].id, FailedUnsigned, error, true, written, now, id);
    case RecordRefusal(written, now) => RefusalGivesNoVerdict(s, w, written, now, id, state);
    case RecordDoubt(written, now) =>
      MarkEnters(s.db, s.jobs[w].id, SigningUnknown, s.jobs[w].error, false, written, now, id);
    case _ =>
  }

  lemma RefusalGivesNoVerdict(s: Sys, w: nat, written: bool, now: int, id: AttemptId, state: State)
    requires w < |s.jobs| && s.jobs[w].Refused? && Verdict(state)
    ensures !Enters(s, SignNext(s, w, RecordRefusal(written, now)), id, state)
  {
    var j := s.jobs[w];
    MarkEnters(s.db, j.id, SigningUnknown, j.error, false, written, now, id);
    MarkEnters(s.db, j.id, Reserved, j.error, false, written, now, id);
    MarkEnters(s.db, j.id, FailedUnsigned, j.error, true, written, now, id);
  }

  lemma OthersGiveNoVerdict(s: Sys, a: Action, id: AttemptId, state: State)
    requires Enabled(s, a) && !a.DoSettle? && Verdict(state)
    ensures !Enters(s, Next(s, a), id, state)
  {
    match a
    case DoPlan(w, p) => PlanGivesNoVerdict(s, w, p, id, state);
    case DoSign(w, p) => SignGivesNoVerdict(s, w, p, id, state);
    case _ =>
  }

  /** Marking one attempt enters no state but the marked one, and for no other attempt. */
  lemma MarkEnters(t: Tables, mine: AttemptId, next: State, error: Error, release: bool, written: bool, now: int,
                   id: AttemptId)
    ensures var t' := TryMark(t, mine, next, error, release, written, now);
            id in t.attempts && id in t'.attempts && t'.attempts[id].state != t.attempts[id].state ==>
              id == mine && t'.attempts[id].state == next
  {
  }

  lemma TransitionEnters(t: Tables, mine: AttemptId, row: Attempt, next: State, release: bool, written: bool, now: int,
                         id: AttemptId)
    ensures var t' := Transition(t, mine, row, next, release, written, now);
            id in t.attempts && id in t'.attempts && t'.attempts[id].state != t.attempts[id].state ==>
              id == mine && t'.attempts[id].state == next
  {
  }

  lemma FollowIsJustified(s: Sys, w: nat, past: bool, written: bool, now: int, id: AttemptId, state: State,
                          asked: BestChain)
    requires w < |s.jobs| && SettleEnabled(s, s.jobs[w], Follow(past, written, now))
    requires var lookup := s.jobs[w].lookup;
             lookup.Confirmed? ==> HasConfirmations(asked, s.jobs[w].row, lookup.confirmations)
    requires Enters(s, FollowNext(s, w, past, written, now), id, state)
    ensures s.jobs[w].id == id && Justified(state, s.cfg, s.jobs[w].lookup, asked, s.chain, s.jobs[w].row)
  {
    var j := s.jobs[w];
    forall next { TransitionEnters(s.db, j.id, j.row, next, false, written, now, id); }
  }

  lemma SettleIsJustified(s: Sys, w: nat, p: SettleStep, id: AttemptId, state: State, lookup: Lookup, asked: BestChain)
    requires w < |s.jobs| && SettleEnabled(s, s.jobs[w], p) && Settling(s.jobs[w])
    requires LedHere(lookup, s.cfg.depth, s.jobs[w])
    requires lookup.Confirmed? ==> HasConfirmations(asked, s.jobs[w].row, lookup.confirmations)
    requires Enters(s, SettleNext(s, w, p), id, state)
    ensures s.jobs[w].id == id && Justified(state, s.cfg, lookup, asked, s.chain, s.jobs[w].row)
  {
    var j := s.jobs[w];
    match p
    case Follow(past, written, now) => FollowIsJustified(s, w, past, written, now, id, state, asked);
    case FollowUnmined(past, written, now) =>
      TransitionEnters(s.db, j.id, j.row, ExpiredPending, false, written, now, id);
    case Conclude(written, now) =>
      TransitionEnters(s.db, j.id, j.row, if j.goal.ToFinal? then Final else Released, true, written, now, id);
    case _ =>
  }

  /** In every run, when a row enters one of the reconciler's states, the node was asked about its transaction
      before and the state is the one its answer justifies: mined or final only for a transaction that was on
      the node's chain, with fewer than the default confirmations or with as many; broadcast and orphaned only
      when the node said so; expired only when the node said so or the tip lies above the expiry; released
      never for a transaction the node called confirmed. */
  lemma VerdictsAreAnswered(cfg: Config, states: seq<Sys>, actions: seq<Action>, j: nat, id: AttemptId, state: State)
    returns (i: nat, w: nat, lookup: Lookup)
    requires Run(cfg, states, actions) && j < |actions| && Verdict(state) && Enters(states[j], states[j + 1], id, state)
    ensures i < j && AskedAt(states, actions, i, w, id, states[j].db.attempts[id], lookup)
    ensures Justified(state, cfg, lookup, states[i].chain, states[j].chain, states[j].db.attempts[id])
  {
    var s, a := states[j], actions[j];
    assert StepAt(states, actions, j);
    RunKeepsInv(cfg, states, actions, j);
    w := VerdictIsSettled(s, a, id, state);
    i, lookup := SettlersAsked(cfg, states, actions, j, w);
    SettleIsJustified(s, w, a.settle, id, state, lookup, states[i].chain);
    SettlerTracks(s, w);
    SameColumnsJustify(state, cfg, lookup, states[i].chain, s.chain, s.jobs[w].row, s.db.attempts[id]);
  }

  lemma VerdictIsSettled(s: Sys, a: Action, id: AttemptId, state: State) returns (w: nat)
    requires Enabled(s, a) && Verdict(state) && Enters(s, Next(s, a), id, state)
    ensures a.DoSettle? && w == a.w && w < |s.jobs| && Settling(s.jobs[w])
  {
    if !a.DoSettle? { OthersGiveNoVerdict(s, a, id, state); }
    w := a.w;
  }

  lemma SettlerTracks(s: Sys, w: nat)
    requires Inv(s) && w < |s.jobs| && Settling(s.jobs[w])
    ensures Tracks(s, s.jobs[w].id, s.jobs[w].row)
  {
    assert JobOk(s, s.jobs[w]);
  }

  lemma SameColumnsJustify(state: State, cfg: Config, lookup: Lookup, asked: BestChain, now: BestChain, row: Attempt,
                           stored: Attempt)
    requires Justified(state, cfg, lookup, asked, now, row)
    requires stored.signature == row.signature && stored.plan == row.plan
    ensures Justified(state, cfg, lookup, asked, now, stored)
  {
  }

  // ---------- A pass whose writes go through ----------

  /** One row is in this state now, with its plan, its bytes and every other row as they were. */
  predicate Recorded(t: Tables, t': Tables, id: AttemptId, state: State) {
    && id in t.attempts && id in t'.attempts && t'.attempts.Keys == t.attempts.Keys
    && (forall other | other in t.attempts && other != id :: t'.attempts[other] == t.attempts[other])
    && t'.attempts[id].state == state && t'.attempts[id].plan == t.attempts[id].plan
    && t'.attempts[id].signature == t.attempts[id].signature
  }

  /** The attempt has given all its notes back, and nobody else has lost any. */
  ghost predicate Freed(t: Tables, t': Tables, id: AttemptId) {
    && (forall k :: k in t'.reservations <==> k in t.reservations && t.reservations[k] != id)
    && forall k | k in t'.reservations :: t'.reservations[k] == t.reservations[k]
  }

  lemma MarkRecords(t: Tables, id: AttemptId, next: State, error: Error, release: bool, now: int)
    requires id in t.attempts && Allowed(t.attempts[id].state, next)
    requires release ==> SafeRelease(t.attempts[id].state, next)
    ensures var t' := Mark(t, id, next, error, release, now).0;
            && Recorded(t, t', id, next) && t'.attempts[id].error == error && t'.attempts[id].updated == now
            && (release && t.attempts[id].state != next ==> Freed(t, t', id))
            && (!release ==> t'.reservations == t.reservations)
  {
  }

  lemma TransitionRecords(t: Tables, id: AttemptId, row: Attempt, next: State, now: int)
    requires id in t.attempts && Allowed(t.attempts[id].state, next)
    requires row.state == next ==> t.attempts[id].state == next
    ensures var t' := Transition(t, id, row, next, false, true, now);
            Recorded(t, t', id, next) && t'.reservations == t.reservations
  {
    if row.state != next { MarkRecords(t, id, next, NO_ERROR, false, now); }
  }

  /** What the answer of the node asks to be recorded of an attempt in `state`. */
  function CalledFor(lookup: Lookup, past: bool, depth: int, state: State): State {
    match lookup
    case InMempool => if past then ExpiredPending else Broadcast
    case Confirmed(n) => if n < depth then Mined else state
    case OrphanedTx => Orphaned
    case ExpiredTx => ExpiredPending
    case Absent => state
    case OtherAnswer => state
  }

  predicate CallsForNothing(lookup: Lookup, depth: int) {
    lookup.Absent? || lookup.OtherAnswer? || (lookup.Confirmed? && lookup.confirmations >= depth)
  }

  lemma FollowRecords(s: Sys, w: nat, past: bool, now: int)
    requires w < |s.jobs| && s.jobs[w].Seen? && Believes(s, w) && Tracks(s, s.jobs[w].id, s.jobs[w].row)
    ensures var j, s' := s.jobs[w], FollowNext(s, w, past, true, now);
            && Recorded(s.db, s'.db, j.id, CalledFor(j.lookup, past, s.cfg.depth, s.db.attempts[j.id].state))
            && s'.db.reservations == s.db.reservations
            && (CallsForNothing(j.lookup, s.cfg.depth) ==> s'.db == s.db)
  {
    var j := s.jobs[w];
    match j.lookup
    case InMempool => TransitionRecords(s.db, j.id, j.row, if past then ExpiredPending else Broadcast, now);
    case Confirmed(n) => TransitionRecords(s.db, j.id, j.row, Mined, now);
    case OrphanedTx => TransitionRecords(s.db, j.id, j.row, Orphaned, now);
    case ExpiredTx => TransitionRecords(s.db, j.id, j.row, ExpiredPending, now);
    case Absent =>
    case OtherAnswer =>
  }

  /** Where the pass goes on: to the proof of finality for a transaction confirmed deeply enough, to the proof
      for a release once the expiry has passed, to the expiry check for one that is off the chain; all other
      passes end here. */
  lemma FollowLeadsOn(s: Sys, w: nat, past: bool, written: bool, now: int)
    requires w < |s.jobs| && s.jobs[w].Seen?
    ensures var lookup, j' := s.jobs[w].lookup, FollowNext(s, w, past, written, now).jobs[w];
            match lookup
            case InMempool => if past then j'.Proving? && j'.goal.ToReleased? else j'.Idle?
            case Confirmed(n) => if n < s.cfg.depth then j'.Idle? else j'.Proving? && j'.goal.ToFinal?
            case OrphanedTx => j'.Unmined?
            case ExpiredTx => j'.Proving? && j'.goal.ToReleased?
            case Absent => j'.Unmined?
            case OtherAnswer => j'.Idle?
  {
  }

  /** A worker that asked the node in step i and writes what it was told in step j. */
  ghost predicate Pass(cfg: Config, states: seq<Sys>, actions: seq<Action>, i: nat, j: nat, w: nat, lookup: Lookup,
                       past: bool, now: int) {
    && Run(cfg, states, actions) && i < j < |actions| && LeftAlone(actions, w, i + 1, j)
    && actions[i] == DoSettle(w, Find(lookup)) && actions[j] == DoSettle(w, Follow(past, true, now))
  }

  lemma PassStands(cfg: Config, states: seq<Sys>, actions: seq<Action>, i: nat, j: nat, w: nat, lookup: Lookup,
                   past: bool, now: int)
    requires Pass(cfg, states, actions, i, j, w, lookup, past, now)
    ensures w < |states[i].jobs| && states[i].jobs[w].Looking? && w < |states[j].jobs|
    ensures states[j].jobs[w] == Seen(states[i].jobs[w].id, states[i].jobs[w].row, lookup)
  {
    assert StepAt(states, actions, i);
    assert states[i + 1].jobs[w] == Seen(states[i].jobs[w].id, states[i].jobs[w].row, lookup);
    JobStands(cfg, states, actions, w, i + 1, j);
  }

  /** In every run, a reconcile pass whose write goes through leaves the attempt as the answer asks, whatever
      else happened meanwhile: mined when the transaction was on the node's chain with fewer confirmations than
      the default; broadcast when it was in the mempool and the tip is not past the expiry; expired when the node
      said so, or when it was in the mempool and the tip is past the expiry; orphaned when the node said so. It
      takes no note from anybody and leaves every other attempt alone. */
  lemma PassIsRecorded(cfg: Config, states: seq<Sys>, actions: seq<Action>, i: nat, j: nat, w: nat, lookup: Lookup,
                       past: bool, now: int)
    requires Pass(cfg, states, actions, i, j, w, lookup, past, now)
    ensures w < |states[i].jobs| && states[i].jobs[w].Looking?
    ensures var id, before, after := states[i].jobs[w].id, states[j].db, states[j + 1].db;
            && id in before.attempts && id in after.attempts && after.reservations == before.reservations
            && (forall other | other in before.attempts && other != id ::
                  other in after.attempts && after.attempts[other] == before.attempts[other])
            && var state := after.attempts[id].state;
            && (lookup.Confirmed? && lookup.confirmations < cfg.depth ==>
                  state.Mined? && HasConfirmations(states[i].chain, before.attempts[id], lookup.confirmations))
            && (lookup.InMempool? && !TipIsAbove(states[j].chain, before.attempts[id]) ==> state.Broadcast?)
            && (lookup.InMempool? && past ==> state.ExpiredPending?)
            && (lookup.OrphanedTx? ==> state.Orphaned?)
            && (lookup.ExpiredTx? ==> state.ExpiredPending?)
            && (CallsForNothing(lookup, cfg.depth) ==> after == before)
  {
    PassStands(cfg, states, actions, i, j, w, lookup, past, now);
    PassRecords(cfg, states, actions, j, w, past, now);
    assert StepAt(states, actions, i);
  }

  lemma PassRecords(cfg: Config, states: seq<Sys>, actions: seq<Action>, j: nat, w: nat, past: bool, now: int)
    requires Run(cfg, states, actions) && j < |actions| && actions[j] == DoSettle(w, Follow(past, true, now))
    ensures w < |states[j].jobs| && states[j].jobs[w].Seen?
    ensures var job, before, after := states[j].jobs[w], states[j].db, states[j + 1].db;
            && job.id in before.attempts
            && Recorded(before, after, job.id, CalledFor(job.lookup, past, cfg.depth, before.attempts[job.id].state))
            && after.reservations == before.reservations
            && (CallsForNothing(job.lookup, cfg.depth) ==> after == before)
            && before.attempts[job.id].signature == job.row.signature && before.attempts[job.id].plan == job.row.plan
            && (past ==> PastExpiry(states[j].chain, before.attempts[job.id]))
  {
    assert StepAt(states, actions, j);
    RunKeepsInv(cfg, states, actions, j);
    RunKeepsBelief(cfg, states, actions, j, w);
    SettlerTracks(states[j], w);
    FollowRecords(states[j], w, past, now);
  }

  /** A worker whose transaction is off the chain records that the tip is past the expiry, and in any case goes on
      to the proof for a release. */
  lemma ExpiryIsRecorded(cfg: Config, states: seq<Sys>, actions: seq<Action>, j: nat, w: nat, past: bool, now: int)
    requires Run(cfg, states, actions) && j < |actions| && actions[j] == DoSettle(w, FollowUnmined(past, true, now))
    ensures w < |states[j].jobs| && states[j].jobs[w].Unmined? && w < |states[j + 1].jobs|
    ensures var id, before, after := states[j].jobs[w].id, states[j].db, states[j + 1].db;
            && (if past then Recorded(before, after, id, ExpiredPending) && after.reservations == before.reservations
                else after == before)
            && states[j + 1].jobs[w].Proving? && states[j + 1].jobs[w].goal.ToReleased?
  {
    assert StepAt(states, actions, j);
    RunKeepsInv(cfg, states, actions, j);
    RunKeepsBelief(cfg, states, actions, j, w);
    SettlerTracks(states[j], w);
    var job := states[j].jobs[w];
    if past { TransitionRecords(states[j].db, job.id, job.row, ExpiredPending, now); }
  }

  lemma ConclusionRecords(s: Sys, w: nat, now: int)
    requires w < |s.jobs| && s.jobs[w].Proven? && Tracks(s, s.jobs[w].id, s.jobs[w].row)
    ensures var j, s' := s.jobs[w], SettleNext(s, w, Conclude(true, now));
            && Recorded(s.db, s'.db, j.id, if j.goal.ToFinal? then Final else Released) && Freed(s.db, s'.db, j.id)
            && s'.jobs[w].Idle?
  {
    MarkRecords(s.db, s.jobs[w].id, if s.jobs[w].goal.ToFinal? then Final else Released, NO_ERROR, true, now);
  }

  /** A proof that goes through settles the attempt and frees its notes and no others: final after an answer with
      at least the default confirmations, released after one that found the transaction on no chain. */
  lemma ProofIsRecorded(cfg: Config, states: seq<Sys>, actions: seq<Action>, j: nat, w: nat, now: int)
    returns (i: nat, lookup: Lookup)
    requires Run(cfg, states, actions) && j < |actions| && actions[j] == DoSettle(w, Conclude(true, now))
    ensures w < |states[j].jobs| && states[j].jobs[w].Proven?
    ensures var job, before, after := states[j].jobs[w], states[j].db, states[j + 1].db;
            && i < j && AskedAt(states, actions, i, w, job.id, job.row, lookup)
            && (if lookup.Confirmed? then
                  lookup.confirmations >= cfg.depth && Recorded(before, after, job.id, Final)
                else Recorded(before, after, job.id, Released))
            && Freed(before, after, job.id)
  {
    assert StepAt(states, actions, j);
    RunKeepsInv(cfg, states, actions, j);
    SettlerTracks(states[j], w);
    i, lookup := SettlersAsked(cfg, states, actions, j, w);
    ConclusionRecords(states[j], w, now);
  }

  /** What the scanner has to say, at exactly the tip the node reported, before a worker may conclude: that every
      note of the attempt was spent by its own transaction, or that the tip lies the default confirmations or more
      above the expiry and nothing on the chain spends one of the notes. Nothing else is asked for. */
  lemma ProofIsEnough(s: Sys, j: Job)
    requires j.TipRead? && j.row.plan.Some?
    ensures SettleEnabled(s, j, ReadStatuses) <==>
              var plan := j.row.plan.value;
              match j.goal
              case ToFinal =>
                && j.row.signature.Some?
                && forall n | n in plan.notes ::
                     && NoteKey(s.cfg.network, j.row.wallet, n) in j.row.signature.value.tx.spends
                     && exists h :: MinedAt(j.view, h, j.row.signature.value.tx)
              case ToReleased =>
                && 1 <= plan.expiry < 0x1_0000_0000 && |j.view| > plan.expiry + s.cfg.depth
                && forall h, tx, n | MinedAt(j.view, h, tx) && n in plan.notes ::
                     NoteKey(s.cfg.network, j.row.wallet, n) !in tx.spends
  {
    var keys, notes := KeysOf(s.cfg.network, j.row), j.row.plan.value.notes;
    assert forall n | n in notes :: NoteKey(s.cfg.network, j.row.wallet, n) in keys;
    if j.goal.ToReleased? && forall h, tx, n | MinedAt(j.view, h, tx) && n in notes ::
         NoteKey(s.cfg.network, j.row.wallet, n) !in tx.spends {
      forall k | k in keys ensures Unspent(j.view, k) {
        var n :| n in notes && k == NoteKey(s.cfg.network, j.row.wallet, n);
      }
    }
  }
}
