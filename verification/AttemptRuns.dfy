/**
 What every sequence of store transactions keeps, whoever issues them: the event log of an attempt is
 a legal path that ends in the row's state, and what was written once is never written again.
 */
module AttemptRuns {
  import opened Common
  import opened Chain
  import opened Attempts

  /** One call of the store. */
  datatype Op =
    | DoClaim(id: AttemptId, key: Token, digest: Token, principal: Token, wallet: Token, approval: Token,
        request: Token, now: int)
    | DoSetChange(id: AttemptId, address: Token, now: int)
    | DoReserve(id: AttemptId, network: Token, plan: Plan, fee: Token, now: int)
    | DoBegin(id: AttemptId, now: int)
    | DoComplete(id: AttemptId, signature: Signature, fee: Token, now: int)
    | DoMark(id: AttemptId, next: State, error: Error, release: bool, now: int)
    | DoCancel(id: AttemptId, now: int)

  function Apply(t: Tables, op: Op): Tables {
    match op
    case DoClaim(id, key, digest, principal, wallet, approval, request, now) =>
      Claim(t, id, key, digest, principal, wallet, approval, request, now).0
    case DoSetChange(id, address, now) => SetChangeAddress(t, id, address, now).0
    case DoReserve(id, network, plan, fee, now) => Reserve(t, id, network, plan, fee, now).0
    case DoBegin(id, now) => BeginSigning(t, id, now).0
    case DoComplete(id, signature, fee, now) => CompleteSigning(t, id, signature, fee, now).0
    case DoMark(id, next, error, release, now) => Mark(t, id, next, error, release, now).0
    case DoCancel(id, now) => Cancel(t, id, now).0
  }

  /** The tables after a sequence of calls on an empty store. */
  function After(ops: seq<Op>): Tables {
    if ops == [] then NO_TABLES else Apply(After(ops[..|ops| - 1]), ops[|ops| - 1])
  }

  lemma AfterMore(ops: seq<Op>, op: Op)
    ensures After(ops + [op]) == Apply(After(ops), op)
  {
    assert (ops + [op])[..|ops|] == ops;
  }

  function Log(events: seq<Event>, id: AttemptId): seq<State> {
    if events == [] then []
    else
      var last := events[|events| - 1];
      Log(events[..|events| - 1], id) + if last.attempt == id then [last.state] else []
  }

  predicate LegalMove(current: State, next: State) {
    Allowed(current, next) || (next.Cancelled? && (current.Planning? || current.Reserved?))
  }

  predicate LegalLog(log: seq<State>, state: State) {
    && log != [] && log[0] == Planning && log[|log| - 1] == state
    && forall i :: 0 <= i < |log| - 1 ==> LegalMove(log[i], log[i + 1])
  }

  /** A row in planning has no plan yet, and only a signed row can carry a signature. */
  predicate RowShape(row: Attempt) {
    && (row.state.Planning? ==> row.plan.None?)
    && (row.signature.Some? ==> Reconcilable(row.state) || row.state.Released? || row.state.Final?)
  }

  ghost predicate Sound(t: Tables) {
    && (forall id | id in t.attempts :: RowShape(t.attempts[id]) && LegalLog(Log(t.events, id), t.attempts[id].state))
    && (forall id | id !in t.attempts :: Log(t.events, id) == [])
  }

  /** How a row may change: terminal states absorb, and every write-once column keeps its value. */
  predicate RowEvolves(before: Attempt, after: Attempt) {
    && after.key == before.key && after.digest == before.digest
    && after.principal == before.principal && after.wallet == before.wallet
    && after.approval == before.approval && after.request == before.request
    && (Terminal(before.state) ==> after.state == before.state)
    && (before.changeAddress != EMPTY ==> after.changeAddress == before.changeAddress)
    && (before.plan.Some? ==> after.plan == before.plan)
    && (before.signature.Some? ==> after.signature == before.signature)
    && (before.plan.Some? && after.signature.None? ==> after.fee == before.fee)
    && (before.signature.Some? ==> after.fee == before.fee)
  }

  ghost predicate Evolves(before: Tables, after: Tables) {
    && before.events <= after.events
    && forall id | id in before.attempts ::
         id in after.attempts && RowEvolves(before.attempts[id], after.attempts[id])
  }

  lemma LogAppend(events: seq<Event>, e: Event, id: AttemptId)
    ensures Log(events + [e], id) == Log(events, id) + if e.attempt == id then [e.state] else []
  {
    assert (events + [e])[..|events|] == events;
  }

  /** One committed transaction writes one row: it creates it, refreshes it, or moves it and logs that. */
  predicate WritesRow(t: Tables, t': Tables, id: AttemptId) {
    && id in t'.attempts
    && var row := t'.attempts[id];
    && t'.attempts == t.attempts[id := row]
    && RowShape(row)
    && (id in t.attempts ==> RowEvolves(t.attempts[id], row))
    && (if t'.events == t.events then id in t.attempts && row.state == t.attempts[id].state
        else t'.events == t.events + [Event(id, row.state)] &&
             if id in t.attempts then LegalMove(t.attempts[id].state, row.state) else row.state == Planning)
  }

  lemma ApplyWritesRow(t: Tables, op: Op)
    requires op.id in t.attempts ==> RowShape(t.attempts[op.id])
    ensures Apply(t, op) == t || WritesRow(t, Apply(t, op), op.id)
  {
  }

  lemma LegalLogGrows(log: seq<State>, state: State, next: State)
    requires LegalLog(log, state) && LegalMove(state, next)
    ensures LegalLog(log + [next], next)
  {
  }

  lemma WriteKeepsLog(t: Tables, t': Tables, id: AttemptId, a: AttemptId)
    requires Sound(t) && WritesRow(t, t', id)
    ensures a in t'.attempts ==> RowShape(t'.attempts[a]) && LegalLog(Log(t'.events, a), t'.attempts[a].state)
    ensures a !in t'.attempts ==> Log(t'.events, a) == []
  {
    var row := t'.attempts[id];
    if t'.events != t.events {
      LogAppend(t.events, Event(id, row.state), a);
      if a != id {
      } else if id in t.attempts {
        LegalLogGrows(Log(t.events, id), t.attempts[id].state, row.state);
      } else {
        assert Log(t'.events, a) == [Planning];
      }
    }
  }

  lemma WritesKeep(t: Tables, t': Tables, id: AttemptId)
    requires Sound(t) && WritesRow(t, t', id)
    ensures Sound(t') && Evolves(t, t')
  {
    forall a ensures (a in t'.attempts ==>
        RowShape(t'.attempts[a]) && LegalLog(Log(t'.events, a), t'.attempts[a].state))
                     && (a !in t'.attempts ==> Log(t'.events, a) == []) {
      WriteKeepsLog(t, t', id, a);
    }
  }

  lemma ApplyKeeps(t: Tables, op: Op, t': Tables)
    requires Sound(t) && t' == Apply(t, op)
    ensures Sound(t') && Evolves(t, t')
  {
    ApplyWritesRow(t, op);
    if t' != t {
      WritesKeep(t, t', op.id);
    }
  }

  /** In every run the event log of each attempt starts at planning, moves only along allowed
      transitions (or a cancellation) and ends in the state of the row. */
  lemma {:induction false} LogRefinesRow(ops: seq<Op>)
    ensures Sound(After(ops))
  {
    if ops != [] {
      LogRefinesRow(ops[..|ops| - 1]);
      ApplyKeeps(After(ops[..|ops| - 1]), ops[|ops| - 1], After(ops));
    }
  }

  /** Between any two points of any run the log only grows, terminal states absorb, and the change
      address, the plan, and the signed bytes keep the value they were first given. The fee is the plan's
      until the bytes are signed, and the signer's from then on. */
  lemma {:induction false} WrittenOnce(ops: seq<Op>, i: nat)
    requires i <= |ops|
    ensures Evolves(After(ops[..i]), After(ops))
  {
    if i == |ops| {
      assert ops[..i] == ops;
    } else {
      var prefix := ops[..|ops| - 1];
      assert prefix[..i] == ops[..i];
      WrittenOnce(prefix, i);
      LogRefinesRow(prefix);
      ApplyKeeps(After(prefix), ops[|ops| - 1], After(ops));
    }
  }
}
