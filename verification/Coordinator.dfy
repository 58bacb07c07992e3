/**
 The coordinator as a state machine: four workers, user requests, the recovery loop, crashes, the
 signer and the chain interleave one committed transaction, one remote reply or one chain change at a
 time. A crash loses the queue, the in-flight set, the wallet locks and every worker; the tables, the
 bytes a signer may hold and the chain survive it.
 */
module Coordinator {
  import opened Common
  import opened Chain
  import opened Attempts

  const WORKERS := 4
  const QUEUE_CAPACITY := 1000
  const MAX_TURNS := 3
  const MAX_UINT32 := 0xFFFF_FFFF

  type Depth = d: int | d >= 1 witness 1

  /** `depth` is DefaultConfirmations, which the configuration keeps at one or more. */
  datatype Config = Config(network: Token, depth: Depth, maxReplans: int)

  /** What a scanner proof is asked for. */
  datatype Goal = ToFinal | ToReleased

  /** The node's answer about a transaction id. */
  datatype Lookup = Absent | InMempool | Confirmed(confirmations: int) | OrphanedTx | ExpiredTx | OtherAnswer

  /** Where a worker is. `row` is the attempt as the worker read it, with the state it believes in. */
  datatype Job =
    | Idle
    | Loading(id: AttemptId, turn: nat)
    | Locking(id: AttemptId, turn: nat, wallet: Token)
    | Entered(id: AttemptId, turn: nat, wallet: Token)
    | Selecting(id: AttemptId, turn: nat, wallet: Token, replan: nat)
    | Excluding(id: AttemptId, turn: nat, wallet: Token, replan: nat, excluded: set<NoteId>)
    | Planned(id: AttemptId, turn: nat, wallet: Token, replan: nat, excluded: set<NoteId>, plan: Plan, fee: Token)
    | Checking(id: AttemptId, turn: nat, row: Attempt)
    | Doubting(id: AttemptId, error: Error)
    | Begun(id: AttemptId, turn: nat, uncertain: bool)
    | Calling(id: AttemptId, turn: nat, uncertain: bool, call: nat)
    | Refused(id: AttemptId, uncertain: bool, error: Error)
    | Answered(id: AttemptId, turn: nat, tx: Tx)
    | Looking(id: AttemptId, row: Attempt)
    | Seen(id: AttemptId, row: Attempt, lookup: Lookup)
    | Unmined(id: AttemptId, row: Attempt)
    | Proving(id: AttemptId, row: Attempt, goal: Goal)
    | TipRead(id: AttemptId, row: Attempt, goal: Goal, view: BestChain)
    | Proven(id: AttemptId, row: Attempt, goal: Goal)

  /** `calls` names the attempt of every Sign call ever sent; a call stays in `live` until the signer
      says definitely that it produced nothing. `settled` counts the blocks that once had `depth`
      confirmations. */
  datatype Sys = Sys(
    cfg: Config, db: Tables, queue: seq<AttemptId>, inflight: set<AttemptId>, locks: map<Token, nat>, jobs: seq<Job>,
    calls: map<nat, AttemptId>, live: set<nat>, signed: set<Tx>, chain: BestChain, settled: nat)

  function Init(cfg: Config): Sys {
    Sys(cfg, NO_TABLES, [], {}, map[], IdleJobs(), map[], {}, {}, [], 0)
  }

  function IdleJobs(): seq<Job> { seq(WORKERS, _ => Idle) }

  /** planAttempt. */
  datatype PlanStep =
    | Lock
    | SetChange(address: Token, now: int)
    | Select
    | Exclude
    | PlanReturned(plan: Plan, fee: Token)
    | TryReserve(now: int)
    | GiveUp(failed: bool, error: Error, written: bool, now: int)

  /** signAttempt. */
  datatype SignStep =
    | RejectStored(badRequest: bool, error: Error, written: bool, now: int)
    | Begin(now: int)
    | Send(call: nat)
    | ReplyDefinite(error: Error)
    | ReplyUnknown(error: Error)
    | ReplySigned(tx: Tx)
    | RecordRefusal(written: bool, now: int)
    | RecordDoubt(written: bool, now: int)
    | Complete(raw: Token, indices: seq<nat>, change: Option<nat>, fee: Token, now: int)

  /** reconcileAttempt. */
  datatype SettleStep =
    | Find(lookup: Lookup)
    | Follow(past: bool, written: bool, now: int)
    | FollowUnmined(past: bool, written: bool, now: int)
    | ReadTip
    | ReadStatuses
    | Conclude(written: bool, now: int)

  datatype Action =
    | Create(id: AttemptId, key: Token, digest: Token, principal: Token, wallet: Token, approval: Token, request: Token,
        now: int)
    | CancelByUser(id: AttemptId, now: int)
    | Enqueue(id: AttemptId)
    | Crash
    | SignerSigns(tx: Tx)
    | Adopt(chain: BestChain)
    | Take(w: nat)
    | Read(w: nat)
    | Leave(w: nat)
    | DoPlan(w: nat, plan: PlanStep)
    | DoSign(w: nat, sign: SignStep)
    | DoSettle(w: nat, settle: SettleStep)

  predicate HoldsLock(j: Job) {
    j.Entered? || j.Selecting? || j.Excluding? || j.Planned?
  }

  /** The notes the store reports as reserved in a wallet. */
  function ActiveNotes(t: Tables, network: Token, wallet: Token): set<NoteId> {
    set k | k in t.reservations && k.network == network && k.wallet == wallet :: k.note
  }

  function LiveCalls(s: Sys, id: AttemptId): set<nat> {
    set c | c in s.live && c in s.calls && s.calls[c] == id
  }

  /** What plan validation accepts from a planner. */
  predicate GoodPlan(plan: Plan, fee: Token) {
    plan.bytes != EMPTY && plan.digest != EMPTY && fee != EMPTY && 1 <= plan.expiry <= MAX_UINT32
        && GoodNotes(plan.notes)
  }

  /** The node's tip lies above the expiry of a stored attempt. */
  predicate PastExpiry(chain: BestChain, row: Attempt) {
    row.plan.Some? && 0 < row.plan.value.expiry <= MAX_UINT32 && |chain| - 1 > row.plan.value.expiry
  }

  /** The scanner's answer, read at exactly the tip the node reported, meets the goal. */
  ghost predicate ProofHolds(cfg: Config, row: Attempt, goal: Goal, view: BestChain) {
    match goal
    case ToFinal =>
      row.signature.Some? && forall k | k in KeysOf(cfg.network, row) :: SpentBy(view, k, row.signature.value.tx)
    case ToReleased =>
      && row.plan.Some? && 0 < row.plan.value.expiry <= MAX_UINT32 && |view| - 1 >= row.plan.value.expiry + cfg.depth
      && forall k | k in KeysOf(cfg.network, row) :: Unspent(view, k)
  }

  predicate PlanEnabled(s: Sys, j: Job, p: PlanStep) {
    match p
    case Lock => j.Locking? && j.wallet !in s.locks
    case SetChange(_, _) => j.Entered?
    case Select => j.Entered?
    case Exclude => j.Selecting? && j.replan < s.cfg.maxReplans
    case PlanReturned(plan, fee) => j.Excluding? && GoodPlan(plan, fee)
    case TryReserve(_) => j.Planned?
    case GiveUp(_, _, _, _) => HoldsLock(j)
  }

  ghost predicate SignEnabled(s: Sys, j: Job, p: SignStep) {
    match p
    case RejectStored(_, _, _, _) => j.Checking?
    case Begin(_) => j.Checking?
    case Send(call) => j.Begun? && call !in s.calls
    // The signer's promise: this call produced no bytes and never will.
    case ReplyDefinite(_) => j.Calling? && forall tx | tx in s.signed :: tx.origin != SignedIn(j.call)
    case ReplyUnknown(_) => j.Calling?
    case ReplySigned(tx) =>
      j.Calling? && tx in s.signed && tx.origin.SignedIn? && tx.origin.call in s.calls
          && s.calls[tx.origin.call] == j.id
    case RecordRefusal(_, _) => j.Refused?
    case RecordDoubt(_, _) => j.Doubting?
    case Complete(_, _, _, _, _) => j.Answered?
  }

  ghost predicate SettleEnabled(s: Sys, j: Job, p: SettleStep) {
    match p
    // The node is honest about confirmations.
    case Find(lookup) => j.Looking? && (lookup.Confirmed? ==> HasConfirmations(s.chain, j.row, lookup.confirmations))
    case Follow(past, _, _) => j.Seen? && (past ==> PastExpiry(s.chain, j.row))
    case FollowUnmined(past, _, _) => j.Unmined? && (past ==> PastExpiry(s.chain, j.row))
    case ReadTip => j.Proving?
    case ReadStatuses => j.TipRead? && ProofHolds(s.cfg, j.row, j.goal, j.view)
    case Conclude(_, _) => j.Proven?
  }

  ghost predicate HasConfirmations(chain: BestChain, row: Attempt, confirmations: int) {
    row.signature.Some? && exists h :: MinedAt(chain, h, row.signature.value.tx) && confirmations == |chain| - h
  }

  /** A signer only ever signs the plan of a call it received. */
  predicate SignsPlan(s: Sys, tx: Tx) {
    && tx.origin.SignedIn? && tx.origin.call in s.live && tx.origin.call in s.calls
    && var id := s.calls[tx.origin.call];
    && id in s.db.attempts && s.db.attempts[id].plan.Some?
    && tx.spends == KeysOf(s.cfg.network, s.db.attempts[id]) && tx.expiry == s.db.attempts[id].plan.value.expiry
  }

  /** What the node, the signer, the planner and the chain may answer, and when a step can happen. */
  ghost predicate Enabled(s: Sys, a: Action) {
    match a
    case Create(_, _, _, _, _, _, _, _) => true
    case CancelByUser(_, _) => true
    case Enqueue(_) => |s.queue| < QUEUE_CAPACITY
    case Crash => true
    case SignerSigns(tx) => SignsPlan(s, tx)
    case Adopt(chain) =>
      // Any valid chain that keeps every block that was ever confirmed deeply enough.
      ValidChain(chain, s.signed) && s.settled <= |chain| && s.settled <= |s.chain|
          && chain[..s.settled] == s.chain[..s.settled]
    case Take(w) => w < |s.jobs| && s.jobs[w].Idle? && s.queue != []
    case Read(w) => w < |s.jobs| && s.jobs[w].Loading?
    case Leave(w) => w < |s.jobs| && !s.jobs[w].Idle?
    case DoPlan(w, p) => w < |s.jobs| && PlanEnabled(s, s.jobs[w], p)
    case DoSign(w, p) => w < |s.jobs| && SignEnabled(s, s.jobs[w], p)
    case DoSettle(w, p) => w < |s.jobs| && SettleEnabled(s, s.jobs[w], p)
  }

  /** The worker moves on with the tables `t`. */
  function Go(s: Sys, w: nat, t: Tables, j: Job): Sys
    requires w < |s.jobs|
  {
    s.(db := t, jobs := s.jobs[w := j])
  }

  /** The worker returns: it frees the wallet lock it holds and leaves the in-flight set. */
  function Stop(s: Sys, w: nat, t: Tables): Sys
    requires w < |s.jobs| && !s.jobs[w].Idle?
  {
    Unlocked(Go(s, w, t, Idle), s.jobs[w]).(inflight := s.inflight - {s.jobs[w].id})
  }

  function Unlocked(s: Sys, j: Job): Sys {
    if HoldsLock(j) then s.(locks := s.locks - {j.wallet}) else s
  }

  /** A write whose error the service discards: it may or may not have happened. */
  function TryMark(t: Tables, id: AttemptId, next: State, error: Error, release: bool, written: bool,
                   now: int): Tables {
    if written then Mark(t, id, next, error, release, now).0 else t
  }

  /** `transition`: nothing to do when the worker already believes in that state. */
  function Transition(t: Tables, id: AttemptId, row: Attempt, next: State, release: bool, written: bool,
                      now: int): Tables {
    if row.state == next then t else TryMark(t, id, next, NO_ERROR, release, written, now)
  }

  function ReadNext(s: Sys, w: nat): Sys
    requires w < |s.jobs| && s.jobs[w].Loading?
  {
    var j := s.jobs[w];
    if j.turn >= MAX_TURNS || j.id !in s.db.attempts then Stop(s, w, s.db)
    else
      var row := s.db.attempts[j.id];
      if row.state.Planning? then Go(s, w, s.db, Locking(j.id, j.turn, row.wallet))
      else if row.state.Reserved? || row.state.Signing? || row.state.SigningUnknown?
          then Go(s, w, s.db, Checking(j.id, j.turn, row))
      else if Reconcilable(row.state) then Go(s, w, s.db, Looking(j.id, row))
      else Stop(s, w, s.db)
  }

  function PlanNext(s: Sys, w: nat, p: PlanStep): Sys
    requires w < |s.jobs| && PlanEnabled(s, s.jobs[w], p)
  {
    var j := s.jobs[w];
    match p
    case Lock =>
      if j.id in s.db.attempts && s.db.attempts[j.id].state.Planning? then
        Go(s, w, s.db, Entered(j.id, j.turn, j.wallet)).(locks := s.locks[j.wallet := w])
      else Stop(s, w, s.db)
    case SetChange(address, now) =>
      var (t, r) := SetChangeAddress(s.db, j.id, address, now);
      if r.Ok? then Go(s, w, t, Selecting(j.id, j.turn, j.wallet, 0)) else Stop(s, w, t)
    case Select => Go(s, w, s.db, Selecting(j.id, j.turn, j.wallet, 0))
    case Exclude =>
      Go(s, w, s.db, Excluding(j.id, j.turn, j.wallet, j.replan, ActiveNotes(s.db, s.cfg.network, j.wallet)))
    case PlanReturned(plan, fee) => Go(s, w, s.db, Planned(j.id, j.turn, j.wallet, j.replan, j.excluded, plan, fee))
    case TryReserve(now) => ReserveNext(s, w, now)
    case GiveUp(failed, error, written, now) =>
      Stop(s, w, TryMark(s.db, j.id, if failed then FailedUnsigned else State.Planning, error, failed, written, now))
  }

  function ReserveNext(s: Sys, w: nat, now: int): Sys
    requires w < |s.jobs| && s.jobs[w].Planned?
  {
    var j := s.jobs[w];
    var (t, r) := Reserve(s.db, j.id, s.cfg.network, j.plan, j.fee, now);
    if r.Ok? then Unlocked(Go(s, w, t, Loading(j.id, j.turn + 1)), j)
    else if r.NoteConflict? then Go(s, w, t, Selecting(j.id, j.turn, j.wallet, j.replan + 1))
    else Stop(s, w, t)
  }

  function CompleteNext(s: Sys, w: nat, signature: Signature, fee: Token, now: int): Sys
    requires w < |s.jobs| && s.jobs[w].Answered?
  {
    var j := s.jobs[w];
    var (t, r) := CompleteSigning(s.db, j.id, signature, fee, now);
    if r.Ok? then Go(s, w, t, Loading(j.id, j.turn + 1)) else Stop(s, w, t)
  }

  ghost function SignNext(s: Sys, w: nat, p: SignStep): Sys
    requires w < |s.jobs| && SignEnabled(s, s.jobs[w], p)
  {
    var j := s.jobs[w];
    match p
    case RejectStored(badRequest, error, written, now) =>
      if !badRequest && j.row.state.Reserved?
         then Stop(s, w, TryMark(s.db, j.id, FailedUnsigned, error, true, written, now))
      else Go(s, w, s.db, Doubting(j.id, error))
    case Begin(now) =>
      var (t, r) := BeginSigning(s.db, j.id, now);
      if r.Ok? then Go(s, w, t, Begun(j.id, j.turn, j.row.state.Signing? || j.row.state.SigningUnknown?))
         else Stop(s, w, t)
    case Send(call) =>
      Go(s, w, s.db, Calling(j.id, j.turn, j.uncertain, call)).(calls := s.calls[call := j.id], live := s.live + {call})
    case ReplyDefinite(error) => Go(s, w, s.db, Refused(j.id, j.uncertain, error)).(live := s.live - {j.call})
    case ReplyUnknown(error) => Go(s, w, s.db, Doubting(j.id, error))
    case ReplySigned(tx) => Go(s, w, s.db, Answered(j.id, j.turn, tx))
    case RecordRefusal(written, now) =>
      Stop(s, w,
           if j.uncertain then TryMark(s.db, j.id, SigningUnknown, j.error, false, written, now)
           else if j.error.retryable then TryMark(s.db, j.id, Reserved, j.error, false, written, now)
           else TryMark(s.db, j.id, FailedUnsigned, j.error, true, written, now))
    case RecordDoubt(written, now) => Stop(s, w, TryMark(s.db, j.id, SigningUnknown, j.error, false, written, now))
    case Complete(raw, indices, change, fee, now) => CompleteNext(s, w, Signature(j.tx, raw, indices, change), fee, now)
  }

  ghost function SettleNext(s: Sys, w: nat, p: SettleStep): Sys
    requires w < |s.jobs| && SettleEnabled(s, s.jobs[w], p)
  {
    var j := s.jobs[w];
    match p
    case Find(lookup) => Go(s, w, s.db, Seen(j.id, j.row, lookup))
    case Follow(past, written, now) => FollowNext(s, w, past, written, now)
    case FollowUnmined(past, written, now) =>
      if past then NoteExpired(s, w, written, now) else Go(s, w, s.db, Proving(j.id, j.row, ToReleased))
    case ReadTip => Go(s, w, s.db, TipRead(j.id, j.row, j.goal, s.chain))
    case ReadStatuses => Go(s, w, s.db, Proven(j.id, j.row, j.goal))
    case Conclude(written, now) =>
      Stop(s, w, Transition(s.db, j.id, j.row, if j.goal.ToFinal? then Final else Released, true, written, now))
  }

  /** The worker records that the expiry has passed and goes on to ask for a release proof. */
  function NoteExpired(s: Sys, w: nat, written: bool, now: int): Sys
    requires w < |s.jobs| && (s.jobs[w].Seen? || s.jobs[w].Unmined?)
  {
    var j := s.jobs[w];
    Go(s, w, Transition(s.db, j.id, j.row, ExpiredPending, false, written, now),
       Proving(j.id, j.row.(state := ExpiredPending), ToReleased))
  }

  function FollowNext(s: Sys, w: nat, past: bool, written: bool, now: int): Sys
    requires w < |s.jobs| && s.jobs[w].Seen?
  {
    var j := s.jobs[w];
    match j.lookup
    case InMempool =>
      if past then NoteExpired(s, w, written, now)
      else Stop(s, w, Transition(s.db, j.id, j.row, Broadcast, false, written, now))
    case Confirmed(n) =>
      if n >= s.cfg.depth then Go(s, w, s.db, Proving(j.id, j.row, ToFinal))
      else Stop(s, w, Transition(s.db, j.id, j.row, Mined, false, written, now))
    case OrphanedTx =>
      Go(s, w, Transition(s.db, j.id, j.row, Orphaned, false, written, now), Unmined(j.id, j.row.(state := Orphaned)))
    case ExpiredTx => NoteExpired(s, w, written, now)
    case Absent => Go(s, w, s.db, Unmined(j.id, j.row))
    case OtherAnswer => Stop(s, w, s.db)
  }

  ghost function Next(s: Sys, a: Action): Sys
    requires Enabled(s, a)
  {
    match a
    case Create(id, key, digest, principal, wallet, approval, request, now) =>
      s.(db := Claim(s.db, id, key, digest, principal, wallet, approval, request, now).0)
    case CancelByUser(id, now) => s.(db := Cancel(s.db, id, now).0)
    case Enqueue(id) => s.(queue := s.queue + [id])
    case Crash => s.(queue := [], inflight := {}, locks := map[], jobs := IdleJobs())
    case SignerSigns(tx) => s.(signed := s.signed + {tx})
    case Adopt(chain) => s.(chain := chain, settled := Max(s.settled, Settled(chain, s.cfg.depth)))
    case Take(w) =>
      var id := s.queue[0];
      if id in s.inflight then s.(queue := s.queue[1..])
      else s.(queue := s.queue[1..], inflight := s.inflight + {id}, jobs := s.jobs[w := Loading(id, 0)])
    case Read(w) => ReadNext(s, w)
    case Leave(w) => Stop(s, w, s.db)
    case DoPlan(w, p) => PlanNext(s, w, p)
    case DoSign(w, p) => SignNext(s, w, p)
    case DoSettle(w, p) => SettleNext(s, w, p)
  }

  /** A run from the empty installation. */
  ghost predicate Run(cfg: Config, states: seq<Sys>, actions: seq<Action>) {
    && |states| == |actions| + 1 && states[0] == Init(cfg)
    && forall i | 0 <= i < |actions| :: StepAt(states, actions, i)
  }

  ghost predicate StepAt(states: seq<Sys>, actions: seq<Action>, i: nat)
    requires i < |actions| < |states|
  {
    Enabled(states[i], actions[i]) && states[i + 1] == Next(states[i], actions[i])
  }
}
