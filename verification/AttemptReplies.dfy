/**
 What the store's callers are told, over every sequence of calls: a key is claimed once, an accepted value is there
 for good, a repeated call changes nothing more, and no log skips a phase.
 */
module AttemptReplies {
  import opened Common
  import opened Chain
  import opened Attempts
  import opened AttemptRuns

  lemma AfterOne(ops: seq<Op>, i: nat)
    requires i < |ops|
    ensures After(ops[..i + 1]) == Apply(After(ops[..i]), ops[i])
  {
    assert ops[..i + 1][..i] == ops[..i];
  }

  lemma Later(ops: seq<Op>, i: nat, j: nat)
    requires i <= j <= |ops|
    ensures Evolves(After(ops[..i]), After(ops[..j]))
  {
    assert ops[..j][..i] == ops[..i];
    WrittenOnce(ops[..j], i);
  }

  // ---------- Claims ----------

  function ClaimReply(t: Tables, op: Op): ClaimOutcome
    requires op.DoClaim?
  {
    Claim(t, op.id, op.key, op.digest, op.principal, op.wallet, op.approval, op.request, op.now).1
  }

  predicate CreatesAt(ops: seq<Op>, i: nat) {
    i < |ops| && ops[i].DoClaim? && ClaimReply(After(ops[..i]), ops[i]).Acquired?
  }

  predicate CreatesKey(ops: seq<Op>, i: nat, key: Token) { CreatesAt(ops, i) && ops[i].key == key }

  predicate CreatesId(ops: seq<Op>, i: nat, id: AttemptId) { CreatesAt(ops, i) && ops[i].id == id }

  /** The row stores what its claim said. */
  predicate Stores(row: Attempt, op: Op)
    requires op.DoClaim?
  {
    row.key == op.key && row.digest == op.digest && row.principal == op.principal && row.wallet == op.wallet
        && row.approval == op.approval && row.request == op.request
  }

  /** Only a claim that is answered as acquired adds a key or an attempt. */
  lemma OnlyClaimsAdd(t: Tables, op: Op)
    ensures if op.DoClaim? && ClaimReply(t, op).Acquired? then
              && Apply(t, op).byKey == t.byKey[op.key := op.id] && op.key !in t.byKey
              && Apply(t, op).attempts.Keys == t.attempts.Keys + {op.id}
            else Apply(t, op).byKey == t.byKey && Apply(t, op).attempts.Keys == t.attempts.Keys
  {
  }

  lemma {:induction false} ByKeyStays(ops: seq<Op>, i: nat, j: nat, key: Token)
    requires i <= j <= |ops| && key in After(ops[..i]).byKey
    ensures key in After(ops[..j]).byKey && After(ops[..j]).byKey[key] == After(ops[..i]).byKey[key]
  {
    if i < j {
      ByKeyStays(ops, i, j - 1, key);
      AfterOne(ops, j - 1);
      OnlyClaimsAdd(After(ops[..j - 1]), ops[j - 1]);
    }
  }

  /** From its claim on, an attempt is found under its key and its row says what the claim said, whatever else is
      called. */
  lemma ClaimIsStored(ops: seq<Op>, i: nat, j: nat)
    requires i < j <= |ops| && CreatesAt(ops, i)
    ensures var t := After(ops[..j]);
            && ops[i].key in t.byKey && t.byKey[ops[i].key] == ops[i].id
            && ops[i].id in t.attempts && Stores(t.attempts[ops[i].id], ops[i])
  {
    AfterOne(ops, i);
    ByKeyStays(ops, i + 1, j, ops[i].key);
    Later(ops, i + 1, j);
  }

  lemma {:induction false} KeysWereClaimed(ops: seq<Op>, j: nat, key: Token) returns (i: nat)
    requires j <= |ops| && key in After(ops[..j]).byKey
    ensures i < j && CreatesKey(ops, i, key)
  {
    assert ops[..0] == [];
    AfterOne(ops, j - 1);
    OnlyClaimsAdd(After(ops[..j - 1]), ops[j - 1]);
    if key in After(ops[..j - 1]).byKey {
      i := KeysWereClaimed(ops, j - 1, key);
    } else {
      i := j - 1;
    }
  }

  lemma {:induction false} IdsWereClaimed(ops: seq<Op>, j: nat, id: AttemptId) returns (i: nat)
    requires j <= |ops| && id in After(ops[..j]).attempts
    ensures i < j && CreatesId(ops, i, id)
  {
    assert ops[..0] == [];
    AfterOne(ops, j - 1);
    OnlyClaimsAdd(After(ops[..j - 1]), ops[j - 1]);
    if id in After(ops[..j - 1]).attempts {
      i := IdsWereClaimed(ops, j - 1, id);
    } else {
      i := j - 1;
    }
  }

  predicate Complete(op: Op)
    requires op.DoClaim?
  {
    op.id != EMPTY && op.key != EMPTY && op.digest != EMPTY && op.principal != EMPTY && op.wallet != EMPTY
        && op.approval != EMPTY && op.request != EMPTY
  }

  /** Every claim is answered by the history alone: a key claimed before is replayed to the same digest and refused
      to any other, and neither changes anything; a new key with a new id creates an attempt in planning with its
      first log entry; everything else is rejected. */
  lemma ClaimIsAnswered(ops: seq<Op>, j: nat)
    requires j < |ops| && ops[j].DoClaim?
    ensures var op, t := ops[j], After(ops[..j]);
            var reply, t' := ClaimReply(t, op), After(ops[..j + 1]);
            && (!Complete(op) ==> reply.Rejected?)
            && (forall i: nat | i < j && CreatesKey(ops, i, op.key) && Complete(op) ::
                  reply == if ops[i].digest == op.digest then Replay else Conflict)
            && (Complete(op) && (forall i: nat | i < j :: !CreatesKey(ops, i, op.key)) ==>
                  if exists i: nat :: i < j && CreatesId(ops, i, op.id) then reply.Rejected? else reply.Acquired?)
            && (!reply.Acquired? ==> t' == t)
            && (reply.Acquired? ==>
                  && t'.events == t.events + [Event(op.id, Planning)] && t'.reservations == t.reservations
                  && op.id in t'.attempts && t'.attempts[op.id].state.Planning? && Stores(t'.attempts[op.id], op)
                  && t'.attempts[op.id].plan.None? && t'.attempts[op.id].signature.None?)
  {
    var op, t := ops[j], After(ops[..j]);
    AfterOne(ops, j);
    forall i: nat | i < j && CreatesAt(ops, i)
      ensures ops[i].key in t.byKey && t.byKey[ops[i].key] == ops[i].id && ops[i].id in t.attempts
              && t.attempts[ops[i].id].digest == ops[i].digest
    {
      ClaimIsStored(ops, i, j);
    }
    if op.key in t.byKey { var i := KeysWereClaimed(ops, j, op.key); }
    if op.id in t.attempts { var i := IdsWereClaimed(ops, j, op.id); }
  }

  // ---------- The other calls ----------

  function Reply(t: Tables, op: Op): Outcome
    requires !op.DoClaim?
  {
    match op
    case DoSetChange(id, address, now) => SetChangeAddress(t, id, address, now).1
    case DoReserve(id, network, plan, fee, now) => Reserve(t, id, network, plan, fee, now).1
    case DoBegin(id, now) => BeginSigning(t, id, now).1
    case DoComplete(id, signature, fee, now) => CompleteSigning(t, id, signature, fee, now).1
    case DoMark(id, next, error, release, now) => Mark(t, id, next, error, release, now).1
    case DoCancel(id, now) => Attempts.Cancel(t, id, now).1
  }

  /** What an accepted call promises of the row. */
  predicate Promised(op: Op, row: Attempt) {
    match op
    case DoSetChange(_, address, _) => row.changeAddress == address != EMPTY
    case DoReserve(_, _, plan, _, _) => row.plan.Some? && row.plan.value.digest == plan.digest
    case DoComplete(_, signature, _, _) =>
      row.signature.Some? && row.signature.value.tx == signature.tx && row.signature.value.raw == signature.raw
    case DoMark(_, next, _, _, _) => Terminal(next) ==> row.state == next
    case DoCancel(_, _) => row.state.Cancelled?
    case _ => true
  }

  lemma AcceptedIsPromised(t: Tables, op: Op)
    requires !op.DoClaim? && !op.DoBegin? && Reply(t, op).Ok?
    ensures op.id in Apply(t, op).attempts && Promised(op, Apply(t, op).attempts[op.id])
  {
  }

  /** What the store accepted is there for good: the change address, the plan's digest, the signed bytes and every
      terminal state, whatever is called later. So no two accepted calls contradict each other. */
  lemma AcceptedIsForGood(ops: seq<Op>, i: nat, j: nat)
    requires i < j <= |ops| && !ops[i].DoClaim? && !ops[i].DoBegin? && Reply(After(ops[..i]), ops[i]).Ok?
    ensures ops[i].id in After(ops[..j]).attempts && Promised(ops[i], After(ops[..j]).attempts[ops[i].id])
  {
    AfterOne(ops, i);
    AcceptedIsPromised(After(ops[..i]), ops[i]);
    Later(ops, i + 1, j);
  }

  /** Any call made twice in a row leaves the tables as if it had been made once. */
  lemma RepeatChangesNothing(t: Tables, op: Op)
    requires op.id in t.attempts ==> RowShape(t.attempts[op.id])
    ensures Apply(Apply(t, op), op) == Apply(t, op)
    ensures !op.DoClaim? && !op.DoMark? && Reply(t, op).Ok? ==> Reply(Apply(t, op), op).Ok?
  {
    match op
    case DoClaim(_, _, _, _, _, _, _, _) =>
    case DoSetChange(_, _, _) =>
    case DoReserve(_, _, _, _, _) =>
    case DoBegin(_, _) =>
    case DoComplete(_, _, _, _) =>
    case DoMark(_, _, _, _, _) =>
    case DoCancel(_, _) =>
  }

  /** Which calls that move an attempt are accepted, by the last entry of its log. */
  lemma AcceptedByTheLog(ops: seq<Op>, op: Op)
    requires op.id in After(ops).attempts
    ensures var log := Log(After(ops).events, op.id);
            log != [] &&
            var last := log[|log| - 1];
            && (op.DoBegin? ==> (Reply(After(ops), op).Ok? <==>
                  last.Reserved? || last.Signing? || last.SigningUnknown?))
            && (op.DoCancel? ==> (Reply(After(ops), op).Ok? <==>
                  last.Planning? || last.Reserved? || last.Cancelled?))
            && (op.DoComplete? && !last.Signed? ==> (Reply(After(ops), op).Ok? <==>
                  last.Signing? || last.SigningUnknown?))
            && (op.DoSetChange? && After(ops).attempts[op.id].changeAddress == EMPTY ==>
                  (Reply(After(ops), op).Ok? <==> op.address != EMPTY && last.Planning?))
            && (op.DoMark? && Terminal(last) && op.next != last ==> Reply(After(ops), op).StateConflict?)
  {
    LogRefinesRow(ops);
  }

  // ---------- Logs ----------

  /** An entry for signing comes after one for reserved. */
  lemma {:induction false} ReservedBefore(log: seq<State>, state: State, i: nat) returns (r: nat)
    requires LegalLog(log, state) && i < |log|
    requires log[i].Reserved? || log[i].Signing? || log[i].SigningUnknown?
    ensures r <= i && log[r].Reserved?
  {
    if log[i].Reserved? {
      r := i;
    } else {
      assert LegalMove(log[i - 1], log[i]);
      r := ReservedBefore(log, state, i - 1);
    }
  }

  lemma {:induction false} SigningBefore(log: seq<State>, state: State, i: nat) returns (r: nat)
    requires LegalLog(log, state) && i < |log|
    requires log[i].Signing? || log[i].SigningUnknown? || log[i].Signed?
    ensures r <= i && log[r].Signing?
  {
    if log[i].Signing? {
      r := i;
    } else {
      assert LegalMove(log[i - 1], log[i]);
      r := SigningBefore(log, state, i - 1);
    }
  }

  lemma {:induction false} SignedBefore(log: seq<State>, state: State, i: nat) returns (r: nat)
    requires LegalLog(log, state) && i < |log|
    requires Reconcilable(log[i]) || log[i].Final? || log[i].Released?
    ensures r <= i && log[r].Signed?
  {
    if log[i].Signed? {
      r := i;
    } else {
      assert LegalMove(log[i - 1], log[i]);
      r := SignedBefore(log, state, i - 1);
    }
  }

  /** No attempt skips a phase: by the log of every sequence of calls, an attempt that was broadcast, mined, orphaned,
      expired, final or released was signed before, was signing before that and reserved before that. */
  lemma PhasesComeInOrder(ops: seq<Op>, id: AttemptId, i: nat) returns (reserved: nat, signing: nat, signed: nat)
    requires i < |Log(After(ops).events, id)|
    requires var state := Log(After(ops).events, id)[i]; Reconcilable(state) || state.Final? || state.Released?
    ensures reserved < signing < signed <= i
    ensures var log := Log(After(ops).events, id);
            log[reserved].Reserved? && log[signing].Signing? && log[signed].Signed?
  {
    LogRefinesRow(ops);
    var log := Log(After(ops).events, id);
    var state := After(ops).attempts[id].state;
    signed := SignedBefore(log, state, i);
    signing := SigningBefore(log, state, signed);
    reserved := ReservedBefore(log, state, signing);
  }
}
