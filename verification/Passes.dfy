/**
 The other passes of a worker, forwards: which step each state of an attempt leads to, what a reservation, a Sign
 call and its reply leave behind, and what a user's cancellation is worth.
 */
module Passes {
  import opened Common
  import opened Chain
  import opened Attempts
  import opened AttemptRuns
  import opened Coordinator
  import opened CoordinatorInv
  import opened CoordinatorSafety
  import opened Verdicts

  // ---------- Taking up ----------

  /** A worker takes an attempt up where its state says, for a bounded number of turns: planning waits for the
      wallet's lock, an attempt on its way to being signed goes to the signer, a signed one is looked up, and a
      terminal one is left alone. */
  lemma StateIsTakenUp(cfg: Config, states: seq<Sys>, actions: seq<Action>, i: nat, w: nat)
    requires Run(cfg, states, actions) && i < |actions| && actions[i] == Read(w)
    ensures w < |states[i].jobs| && states[i].jobs[w].Loading? && w < |states[i + 1].jobs|
    ensures states[i + 1].db == states[i].db
    ensures var s, j, j' := states[i], states[i].jobs[w], states[i + 1].jobs[w];
            if j.id !in s.db.attempts || j.turn >= 3 || Terminal(s.db.attempts[j.id].state) then j'.Idle?
            else
              var row := s.db.attempts[j.id];
              && (row.state.Planning? ==> j' == Locking(j.id, j.turn, row.wallet))
              && (row.state.Reserved? || row.state.Signing? || row.state.SigningUnknown? ==>
                    j' == Checking(j.id, j.turn, row))
              && (row.signature.Some? ==> j' == Looking(j.id, row))
  {
    assert StepAt(states, actions, i);
    RunKeepsInv(cfg, states, actions, i);
    var s, j := states[i], states[i].jobs[w];
    if j.id in s.db.attempts { assert RowOk(s, j.id); }
  }

  /** How planning goes on up to the reservation: only an attempt still in planning is worked on, under the wallet's
      lock and with one change address; each plan is asked for with exactly the wallet's reserved notes excluded,
      at most the configured number of times, and is the one that is reserved. */
  lemma PlanningLeadsOn(cfg: Config, states: seq<Sys>, actions: seq<Action>, i: nat, w: nat)
    requires Run(cfg, states, actions) && i < |actions| && actions[i].DoPlan? && actions[i].w == w
    ensures w < |states[i].jobs| && w < |states[i + 1].jobs|
    ensures var s, s', j, j' := states[i], states[i + 1], states[i].jobs[w], states[i + 1].jobs[w];
            match actions[i].plan
            case Lock =>
              && j.Locking? && j.wallet !in s.locks
              && if j.id in s.db.attempts && s.db.attempts[j.id].state.Planning? then
                   j' == Entered(j.id, j.turn, j.wallet) && j.wallet in s'.locks && s'.locks[j.wallet] == w
                 else j'.Idle?
            case SetChange(address, _) =>
              j.Entered? &&
              if address != EMPTY && j.id in s'.db.attempts && s'.db.attempts[j.id].changeAddress == address then
                j' == Selecting(j.id, j.turn, j.wallet, 0)
              else j'.Idle? && s'.db == s.db
            case Exclude =>
              && j.Selecting? && j.replan < cfg.maxReplans && j'.Excluding? && j'.replan == j.replan
              && forall n :: n in j'.excluded <==> NoteKey(cfg.network, j.wallet, n) in s.db.reservations
            case PlanReturned(plan, fee) => j.Excluding? && j'.Planned? && j'.plan == plan && j'.fee == fee
            case _ => true
  {
    assert StepAt(states, actions, i);
    RunKeepsInv(cfg, states, actions, i);
    PlanStepLeads(states[i], w, actions[i].plan);
  }

  lemma PlanStepLeads(s: Sys, w: nat, p: PlanStep)
    requires w < |s.jobs| && PlanEnabled(s, s.jobs[w], p)
    ensures var s' := PlanNext(s, w, p);
            w < |s'.jobs| &&
            var j, j' := s.jobs[w], s'.jobs[w];
            match p
            case Lock =>
              if j.id in s.db.attempts && s.db.attempts[j.id].state.Planning? then
                j' == Entered(j.id, j.turn, j.wallet) && j.wallet in s'.locks && s'.locks[j.wallet] == w
              else j'.Idle?
            case SetChange(address, _) =>
              if address != EMPTY && j.id in s'.db.attempts && s'.db.attempts[j.id].changeAddress == address then
                j' == Selecting(j.id, j.turn, j.wallet, 0)
              else j'.Idle? && s'.db == s.db
            case Exclude =>
              && j'.Excluding? && j'.replan == j.replan
              && forall n :: n in j'.excluded <==> NoteKey(s.cfg.network, j.wallet, n) in s.db.reservations
            case PlanReturned(plan, fee) => j'.Planned? && j'.plan == plan && j'.fee == fee
            case _ => true
  {
    if p.Exclude? {
      var j := s.jobs[w];
      forall n ensures n in ActiveNotes(s.db, s.cfg.network, j.wallet) <==>
                         NoteKey(s.cfg.network, j.wallet, n) in s.db.reservations
      {
        ActiveIsReserved(s.db, s.cfg.network, j.wallet, n);
      }
    }
  }

  lemma ActiveIsReserved(t: Tables, network: Token, wallet: Token, n: NoteId)
    ensures n in ActiveNotes(t, network, wallet) <==> NoteKey(network, wallet, n) in t.reservations
  {
    if NoteKey(network, wallet, n) in t.reservations { assert NoteKey(network, wallet, n).note == n; }
  }

  // ---------- Reserving ----------

  /** The worker's plan takes notes that are free. */
  predicate NotesAreFree(s: Sys, wallet: Token, plan: Plan) {
    forall n | n in plan.notes :: NoteKey(s.cfg.network, wallet, n) !in s.db.reservations
  }

  /** Every note of the plan belongs to the attempt, and the notes of all others are theirs. */
  ghost predicate Took(t: Tables, t': Tables, network: Token, wallet: Token, plan: Plan, id: AttemptId) {
    && (forall n | n in plan.notes ::
          NoteKey(network, wallet, n) in t'.reservations && t'.reservations[NoteKey(network, wallet, n)] == id)
    && (forall k | k in t.reservations :: k in t'.reservations && t'.reservations[k] == t.reservations[k])
    && forall k | k in t'.reservations && k !in t.reservations ::
         k.network == network && k.wallet == wallet && k.note in plan.notes
  }

  lemma ReserveTakes(t: Tables, id: AttemptId, network: Token, plan: Plan, fee: Token, now: int)
    requires id in t.attempts && t.attempts[id].state.Planning? && GoodPlan(plan, fee)
    ensures var (t', r) := Reserve(t, id, network, plan, fee, now);
            var wallet := t.attempts[id].wallet;
            if forall n | n in plan.notes :: NoteKey(network, wallet, n) !in t.reservations then
              && r.Ok? && Took(t, t', network, wallet, plan, id)
              && id in t'.attempts && t'.attempts == t.attempts[id := t'.attempts[id]]
              && t'.attempts[id].state.Reserved? && t'.attempts[id].fee == fee && t'.attempts[id].plan.Some?
              && var stored := t'.attempts[id].plan.value;
              && stored.bytes == plan.bytes && stored.digest == plan.digest && stored.expiry == plan.expiry
              && multiset(stored.notes) == multiset(plan.notes)
            else r.NoteConflict? && t' == t
  {
    var wallet := t.attempts[id].wallet;
    assert (forall n | n in plan.notes :: NoteKey(network, wallet, n) !in t.reservations) <==>
             Keys(network, wallet, plan.notes) !! t.reservations.Keys by {
      forall n | n in plan.notes ensures NoteKey(network, wallet, n) in Keys(network, wallet, plan.notes) {
      }
    }
  }

  lemma ReservationLeads(s: Sys, w: nat, now: int)
    requires w < |s.jobs| && s.jobs[w].Planned? && PlanJobOk(s, s.jobs[w])
    ensures var s', j := ReserveNext(s, w, now), s.jobs[w];
            w < |s'.jobs| &&
            if !s.db.attempts[j.id].state.Planning? then s'.jobs[w].Idle? && s'.db == s.db && j.wallet !in s'.locks
            else if NotesAreFree(s, j.wallet, j.plan) then
              && Took(s.db, s'.db, s.cfg.network, j.wallet, j.plan, j.id)
              && j.id in s'.db.attempts && s'.db.attempts[j.id].state.Reserved?
              && s'.jobs[w] == Loading(j.id, j.turn + 1) && j.wallet !in s'.locks
            else
              && s'.db == s.db && s'.jobs[w] == Selecting(j.id, j.turn, j.wallet, j.replan + 1)
              && s'.locks == s.locks
  {
    var j := s.jobs[w];
    if s.db.attempts[j.id].state.Planning? { ReserveTakes(s.db, j.id, s.cfg.network, j.plan, j.fee, now); }
  }

  /** A reservation that meets free notes takes exactly them and lets the attempt go on to the signer; one that
      meets a taken note changes nothing, and the worker plans again with the notes taken by then excluded, as
      long as it has replans left. In both cases the lock is free exactly when planning is over. */
  lemma PlanIsReserved(cfg: Config, states: seq<Sys>, actions: seq<Action>, i: nat, w: nat, now: int)
    requires Run(cfg, states, actions) && i < |actions| && actions[i] == DoPlan(w, TryReserve(now))
    ensures w < |states[i].jobs| && states[i].jobs[w].Planned? && w < |states[i + 1].jobs|
    ensures states[i].jobs[w].id in states[i].db.attempts
    ensures var s, s', j, j' := states[i], states[i + 1], states[i].jobs[w], states[i + 1].jobs[w];
            if !s.db.attempts[j.id].state.Planning? then j'.Idle? && s'.db == s.db && j.wallet !in s'.locks
            else if NotesAreFree(s, j.wallet, j.plan) then
              && Took(s.db, s'.db, cfg.network, j.wallet, j.plan, j.id)
              && j.id in s'.db.attempts && s'.db.attempts[j.id].state.Reserved?
              && j' == Loading(j.id, j.turn + 1) && j.wallet !in s'.locks
            else
              s'.db == s.db && j' == Selecting(j.id, j.turn, j.wallet, j.replan + 1) && s'.locks == s.locks
  {
    assert StepAt(states, actions, i);
    RunKeepsInv(cfg, states, actions, i);
    assert JobOk(states[i], states[i].jobs[w]);
    ReservationLeads(states[i], w, now);
  }

  lemma FailureLeads(s: Sys, w: nat, failed: bool, error: Error, now: int)
    requires w < |s.jobs| && HoldsLock(s.jobs[w]) && PlanJobOk(s, s.jobs[w])
    requires s.db.attempts[s.jobs[w].id].state.Planning?
    ensures var s', j := PlanNext(s, w, GiveUp(failed, error, true, now)), s.jobs[w];
            && w < |s'.jobs| && s'.jobs[w].Idle? && j.wallet !in s'.locks
            && Recorded(s.db, s'.db, j.id, if failed then FailedUnsigned else State.Planning)
            && s'.db.attempts[j.id].error == error && s'.db.reservations.Keys <= s.db.reservations.Keys
  {
    MarkRecords(s.db, s.jobs[w].id, if failed then FailedUnsigned else State.Planning, error, failed, now);
  }

  /** Planning that fails for good ends the attempt, any other failure leaves it in planning for the next sweep;
      both keep the error, and both free the wallet's lock. */
  lemma FailureIsRecorded(cfg: Config, states: seq<Sys>, actions: seq<Action>, i: nat, w: nat, failed: bool,
                          error: Error, now: int)
    requires Run(cfg, states, actions) && i < |actions| && actions[i] == DoPlan(w, GiveUp(failed, error, true, now))
    ensures w < |states[i].jobs| && HoldsLock(states[i].jobs[w]) && states[i].jobs[w].id in states[i].db.attempts
    ensures var s, s', j := states[i], states[i + 1], states[i].jobs[w];
            s.db.attempts[j.id].state.Planning? ==>
              && w < |s'.jobs| && s'.jobs[w].Idle? && j.wallet !in s'.locks
              && Recorded(s.db, s'.db, j.id, if failed then FailedUnsigned else State.Planning)
              && s'.db.attempts[j.id].error == error
  {
    assert StepAt(states, actions, i);
    RunKeepsInv(cfg, states, actions, i);
    assert JobOk(states[i], states[i].jobs[w]);
    if states[i].db.attempts[states[i].jobs[w].id].state.Planning? { FailureLeads(states[i], w, failed, error, now); }
  }

  // ---------- Signing ----------

  /** A stored plan that fails its check before any Sign call ends the attempt and frees its notes; a stored request
      that fails its check, or a plan that fails it after signing may have begun, never does. */
  lemma RejectionIsRecorded(cfg: Config, states: seq<Sys>, actions: seq<Action>, i: nat, w: nat, badRequest: bool,
                            error: Error, now: int)
    requires Run(cfg, states, actions) && i < |actions|
             && actions[i] == DoSign(w, RejectStored(badRequest, error, true, now))
    ensures w < |states[i].jobs| && states[i].jobs[w].Checking? && w < |states[i + 1].jobs|
    ensures states[i].jobs[w].id in states[i].db.attempts
    ensures var j, before, after := states[i].jobs[w], states[i].db, states[i + 1].db;
            if badRequest || !j.row.state.Reserved? then
              after == before && states[i + 1].jobs[w] == Doubting(j.id, error)
            else if before.attempts[j.id].state.Cancelled? then after == before
            else
              && Recorded(before, after, j.id, FailedUnsigned) && after.attempts[j.id].error == error
              && Freed(before, after, j.id)
  {
    assert StepAt(states, actions, i);
    RunKeepsInv(cfg, states, actions, i);
    var s, j := states[i], states[i].jobs[w];
    assert JobOk(s, j);
    if s.db.attempts[j.id].state.Reserved? { MarkRecords(s.db, j.id, FailedUnsigned, error, true, now); }
  }

  /** A worker that passed the checks goes to the signer with the attempt in signing, unless a user cancelled it in
      between; an attempt that was already signing stays in the state it had, and its worker is never certain. */
  lemma BeginLeadsToSigner(cfg: Config, states: seq<Sys>, actions: seq<Action>, i: nat, w: nat, now: int)
    requires Run(cfg, states, actions) && i < |actions| && actions[i] == DoSign(w, Begin(now))
    ensures w < |states[i].jobs| && states[i].jobs[w].Checking? && w < |states[i + 1].jobs|
    ensures states[i].jobs[w].id in states[i].db.attempts
    ensures var j, before, after := states[i].jobs[w], states[i].db, states[i + 1].db;
            if before.attempts[j.id].state.Cancelled? then states[i + 1].jobs[w].Idle? && after == before
            else
              && states[i + 1].jobs[w] == Begun(j.id, j.turn, !j.row.state.Reserved?)
              && after.reservations == before.reservations
              && Recorded(before, after, j.id, if j.row.state.Reserved? then Signing else before.attempts[j.id].state)
  {
    assert StepAt(states, actions, i);
    RunKeepsInv(cfg, states, actions, i);
    assert JobOk(states[i], states[i].jobs[w]);
  }

  /** A worker that sends its Sign call in step i gets its reply in step j and acts on it in step k. */
  ghost predicate Signs(cfg: Config, states: seq<Sys>, actions: seq<Action>, i: nat, j: nat, k: nat, w: nat,
                        reply: SignStep, written: SignStep) {
    && Run(cfg, states, actions) && i < j < k < |actions|
    && LeftAlone(actions, w, i + 1, j) && LeftAlone(actions, w, j + 1, k)
    && actions[i].DoSign? && actions[i].w == w && actions[i].sign.Send?
    && actions[j] == DoSign(w, reply) && actions[k] == DoSign(w, written)
  }

  /** The worker still knows what it knew when it sent the call, and its attempt is where it was. */
  lemma SignsStands(cfg: Config, states: seq<Sys>, actions: seq<Action>, i: nat, j: nat, k: nat, w: nat,
                    reply: SignStep, written: SignStep)
    requires Signs(cfg, states, actions, i, j, k, w, reply, written)
    requires reply.ReplyDefinite? || reply.ReplyUnknown? || reply.ReplySigned?
    ensures w < |states[i].jobs| && states[i].jobs[w].Begun? && w < |states[k].jobs|
    ensures var b := states[i].jobs[w];
            && states[k].jobs[w] == (match reply
                                     case ReplyDefinite(error) => Refused(b.id, b.uncertain, error)
                                     case ReplyUnknown(error) => Doubting(b.id, error)
                                     case ReplySigned(tx) => Answered(b.id, b.turn, tx))
            && InSigning(states[k], b.id) && InSigning(states[i], b.id)
            && states[k].db.attempts[b.id] == states[i].db.attempts[b.id]
            && (!b.uncertain ==> states[k].db.attempts[b.id].state.Signing?)
  {
    SendStands(cfg, states, actions, i, j, w);
    assert StepAt(states, actions, j);
    ReplyKeepsRow(states[j], w, reply);
    JobStands(cfg, states, actions, w, j + 1, k);
    RowStands(cfg, states, actions, w, j + 1, k);
  }

  /** From the call to its reply. */
  lemma SendStands(cfg: Config, states: seq<Sys>, actions: seq<Action>, i: nat, j: nat, w: nat)
    requires Run(cfg, states, actions) && i < j < |actions| && LeftAlone(actions, w, i + 1, j)
    requires actions[i].DoSign? && actions[i].w == w && actions[i].sign.Send?
    ensures w < |states[i].jobs| && states[i].jobs[w].Begun? && w < |states[j].jobs|
    ensures var b := states[i].jobs[w];
            && states[j].jobs[w] == Calling(b.id, b.turn, b.uncertain, actions[i].sign.call)
            && InSigning(states[i], b.id) && InSigning(states[j], b.id)
            && states[j].db.attempts[b.id] == states[i].db.attempts[b.id]
            && (!b.uncertain ==> states[j].db.attempts[b.id].state.Signing?)
  {
    assert StepAt(states, actions, i);
    RunKeepsInv(cfg, states, actions, i);
    assert JobOk(states[i], states[i].jobs[w]);
    SendKeepsRow(states[i], w, actions[i].sign.call);
    JobStands(cfg, states, actions, w, i + 1, j);
    RowStands(cfg, states, actions, w, i + 1, j);
  }

  lemma SendKeepsRow(s: Sys, w: nat, call: nat)
    requires w < |s.jobs| && SignEnabled(s, s.jobs[w], Send(call))
    ensures var b, s' := s.jobs[w], SignNext(s, w, Send(call));
            w < |s'.jobs| && s'.jobs[w] == Calling(b.id, b.turn, b.uncertain, call) && s'.db == s.db
  {
  }

  lemma ReplyKeepsRow(s: Sys, w: nat, reply: SignStep)
    requires w < |s.jobs| && SignEnabled(s, s.jobs[w], reply)
    requires reply.ReplyDefinite? || reply.ReplyUnknown? || reply.ReplySigned?
    ensures var c, s' := s.jobs[w], SignNext(s, w, reply);
            && w < |s'.jobs| && s'.db == s.db
            && s'.jobs[w] == (match reply
                              case ReplyDefinite(error) => Refused(c.id, c.uncertain, error)
                              case ReplyUnknown(error) => Doubting(c.id, error)
                              case ReplySigned(tx) => Answered(c.id, c.turn, tx))
  {
  }

  /** What a definite refusal leaves behind when its write goes through. A worker that is certain gives a retryable
      refusal's attempt back for another try with its notes, and fails the attempt of any other and frees its
      notes; one that found an earlier call unanswered only notes the doubt. The error is always kept. */
  lemma RefusalIsRecorded(cfg: Config, states: seq<Sys>, actions: seq<Action>, i: nat, j: nat, k: nat, w: nat,
                          error: Error, now: int)
    requires Signs(cfg, states, actions, i, j, k, w, ReplyDefinite(error), RecordRefusal(true, now))
    ensures w < |states[i].jobs| && states[i].jobs[w].Begun?
    ensures var b, before, after := states[i].jobs[w], states[k].db, states[k + 1].db;
            && b.id in after.attempts && after.attempts[b.id].error == error && after.attempts[b.id].updated == now
            && (if b.uncertain then
                  Recorded(before, after, b.id, SigningUnknown) && after.reservations == before.reservations
                else if error.retryable then
                  Recorded(before, after, b.id, Reserved) && after.reservations == before.reservations
                else Recorded(before, after, b.id, FailedUnsigned) && Freed(before, after, b.id))
  {
    SignsStands(cfg, states, actions, i, j, k, w, ReplyDefinite(error), RecordRefusal(true, now));
    assert StepAt(states, actions, k);
    var b, t := states[i].jobs[w], states[k].db;
    if b.uncertain { MarkRecords(t, b.id, SigningUnknown, error, false, now); }
    else if error.retryable { MarkRecords(t, b.id, Reserved, error, false, now); }
    else { MarkRecords(t, b.id, FailedUnsigned, error, true, now); }
  }

  /** A reply that settles nothing leaves the attempt in doubt, with its notes. */
  lemma DoubtIsRecorded(cfg: Config, states: seq<Sys>, actions: seq<Action>, i: nat, j: nat, k: nat, w: nat,
                        error: Error, now: int)
    requires Signs(cfg, states, actions, i, j, k, w, ReplyUnknown(error), RecordDoubt(true, now))
    ensures w < |states[i].jobs| && states[i].jobs[w].Begun?
    ensures var id, before, after := states[i].jobs[w].id, states[k].db, states[k + 1].db;
            && Recorded(before, after, id, SigningUnknown) && after.attempts[id].error == error
            && after.attempts[id].updated == now && after.reservations == before.reservations
  {
    SignsStands(cfg, states, actions, i, j, k, w, ReplyUnknown(error), RecordDoubt(true, now));
    assert StepAt(states, actions, k);
    MarkRecords(states[k].db, states[i].jobs[w].id, SigningUnknown, error, false, now);
  }

  /** Signed bytes that reach the worker are stored with what the signer said of them, and the worker goes on to
      look the transaction up. */
  lemma BytesAreStored(cfg: Config, states: seq<Sys>, actions: seq<Action>, i: nat, j: nat, k: nat, w: nat, tx: Tx,
                       raw: Token, indices: seq<nat>, change: Option<nat>, fee: Token, now: int)
    requires Signs(cfg, states, actions, i, j, k, w, ReplySigned(tx), Complete(raw, indices, change, fee, now))
    ensures w < |states[i].jobs| && states[i].jobs[w].Begun? && w < |states[k + 1].jobs|
    ensures var b, before, after := states[i].jobs[w], states[k].db, states[k + 1].db;
            && b.id in before.attempts && b.id in after.attempts
            && after.attempts[b.id] == before.attempts[b.id].(state := Signed, fee := fee, error := NO_ERROR,
                 signature := Some(Signature(tx, raw, indices, change)), updated := now)
            && after.reservations == before.reservations && states[k + 1].jobs[w] == Loading(b.id, b.turn + 1)
  {
    SignsStands(cfg, states, actions, i, j, k, w, ReplySigned(tx), Complete(raw, indices, change, fee, now));
    assert StepAt(states, actions, k);
    BytesLead(states[k], w, Signature(tx, raw, indices, change), fee, now);
  }

  lemma BytesLead(s: Sys, w: nat, signature: Signature, fee: Token, now: int)
    requires w < |s.jobs| && s.jobs[w].Answered? && InSigning(s, s.jobs[w].id)
    ensures var j, s' := s.jobs[w], CompleteNext(s, w, signature, fee, now);
            && w < |s'.jobs| && s'.jobs[w] == Loading(j.id, j.turn + 1) && s'.db.reservations == s.db.reservations
            && j.id in s'.db.attempts
            && s'.db.attempts[j.id] == s.db.attempts[j.id].(state := Signed, fee := fee, error := NO_ERROR,
                 signature := Some(signature), updated := now)
  {
  }

  // ---------- Cancelling ----------

  lemma BytesExpose(s: Sys, id: AttemptId, tx: Tx)
    requires CallsOk(s)
    ensures OwnsSignature(s, id, tx) ==> id in s.db.attempts && Exposable(s.db.attempts[id].state)
  {
    if OwnsSignature(s, id, tx) {
      assert SignsPlan(s, tx);
      LiveCallIsExposed(s, tx.origin.call);
    }
  }

  lemma CancelledRowStays(cfg: Config, states: seq<Sys>, actions: seq<Action>, i: nat, j: nat, id: AttemptId)
    requires Run(cfg, states, actions) && i <= j < |states|
    requires id in states[i].db.attempts && states[i].db.attempts[id].state.Cancelled?
    ensures id in states[j].db.attempts && states[j].db.attempts[id].state.Cancelled?
    ensures forall k | k in states[j].db.reservations :: states[j].db.reservations[k] != id
    ensures LiveCalls(states[j], id) == {} && forall tx :: !OwnsSignature(states[j], id, tx)
  {
    RunGoesOn(cfg, states, actions, i, j);
    RunKeepsInv(cfg, states, actions, j);
    var s := states[j];
    forall tx ensures !OwnsSignature(s, id, tx) { BytesExpose(s, id, tx); }
  }

  /** A user's cancellation takes effect exactly while the attempt is in planning or reserved, at whatever point its
      worker is. From then on the attempt stays cancelled, owns no note, has no call that could produce bytes,
      and no bytes are ever signed for it. In every other state it changes nothing. */
  lemma CancellationIsForGood(cfg: Config, states: seq<Sys>, actions: seq<Action>, i: nat, j: nat, id: AttemptId,
                              now: int)
    requires Run(cfg, states, actions) && i < j < |states| && actions[i] == CancelByUser(id, now)
    requires id in states[i].db.attempts
    ensures var state := states[i].db.attempts[id].state;
            if state.Planning? || state.Reserved? || state.Cancelled? then
              && id in states[j].db.attempts && states[j].db.attempts[id].state.Cancelled?
              && (forall k | k in states[j].db.reservations :: states[j].db.reservations[k] != id)
              && LiveCalls(states[j], id) == {} && forall tx :: !OwnsSignature(states[j], id, tx)
            else states[i + 1].db == states[i].db
  {
    assert StepAt(states, actions, i);
    var state := states[i].db.attempts[id].state;
    if state.Planning? || state.Reserved? || state.Cancelled? {
      CancelledRowStays(cfg, states, actions, i + 1, j, id);
    }
  }
}
