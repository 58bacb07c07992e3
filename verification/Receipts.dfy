/**
 Idempotency receipts: one row per key, fenced by a claim generation that grows with every claim that
 takes the key over and with every abandoned one.
 */
module Receipts {
  import opened Common

  datatype Receipt = Receipt(
    digest: Token, expectedTx: Token, generation: nat, complete: bool, status: int, response: Token, updated: int)

  type Receipts = map<Token, Receipt>

  datatype ClaimResult =
    | Acquired(receipt: Receipt) | InProgress(receipt: Receipt) | Replay(receipt: Receipt) | Conflict(receipt: Receipt)

  function Claim(m: Receipts, key: Token, digest: Token, expectedTx: Token, now: int, lease: int): (Receipts,
                 ClaimResult) {
    if key !in m then
      var first := Receipt(digest, expectedTx, 1, false, 0, EMPTY, now);
      (m[key := first], Acquired(first))
    else
      var r := m[key];
      if r.digest != digest then (m, Conflict(r))
      else if r.complete then (m, Replay(r))
      else if now - r.updated < lease then (m, InProgress(r))
      else
        var taken := r.(expectedTx := expectedTx, generation := r.generation + 1, updated := now);
        (m[key := taken], Acquired(taken))
  }

  /** The row belongs to this claim and is still being processed. */
  predicate Owns(m: Receipts, key: Token, digest: Token, generation: nat) {
    key in m && m[key].digest == digest && m[key].generation == generation && !m[key].complete
  }

  function Renew(m: Receipts, key: Token, digest: Token, generation: nat, now: int): (Receipts, bool) {
    if Owns(m, key, digest, generation) then (m[key := m[key].(updated := now)], true) else (m, false)
  }

  function Complete(m: Receipts, key: Token, digest: Token, generation: nat, status: int, response: Token,
                    now: int): (Receipts, bool) {
    if Owns(m, key, digest, generation) then
      (m[key := m[key].(complete := true, status := status, response := response, updated := now)], true)
    else (m, false)
  }

  /** Abandoning moves the generation past its owner and the clock back to the epoch. */
  function Abandon(m: Receipts, key: Token, digest: Token, generation: nat): (Receipts, bool) {
    if Owns(m, key, digest, generation) then
      (m[key := m[key].(generation := m[key].generation + 1, updated := 0)], true)
    else (m, false)
  }

  class Store {
    var rows: Receipts

    constructor ()
      ensures rows == map[]
    {
      rows := map[];
    }

    method ClaimReceipt(key: Token, digest: Token, expectedTx: Token, now: int, lease: int) returns (r: ClaimResult)
      modifies this
      ensures (rows, r) == Claim(old(rows), key, digest, expectedTx, now, lease)
    {
      if key !in rows {
        var first := Receipt(digest, expectedTx, 1, false, 0, EMPTY, now);
        rows := rows[key := first];
        return Acquired(first);
      }
      var receipt := rows[key];
      if receipt.digest != digest { return Conflict(receipt); }
      if receipt.complete { return Replay(receipt); }
      if now - receipt.updated < lease { return InProgress(receipt); }
      receipt := receipt.(expectedTx := expectedTx, generation := receipt.generation + 1, updated := now);
      rows := rows[key := receipt];
      return Acquired(receipt);
    }

    method RenewReceipt(key: Token, digest: Token, generation: nat, now: int) returns (ok: bool)
      modifies this
      ensures (rows, ok) == Renew(old(rows), key, digest, generation, now)
    {
      ok := Owns(rows, key, digest, generation);
      if ok { rows := rows[key := rows[key].(updated := now)]; }
    }

    method CompleteReceipt(key: Token, digest: Token, generation: nat, status: int, response: Token, now: int)
      returns (ok: bool)
      modifies this
      ensures (rows, ok) == Complete(old(rows), key, digest, generation, status, response, now)
    {
      ok := Owns(rows, key, digest, generation);
      if ok {
        rows := rows[key := rows[key].(complete := true, status := status, response := response, updated := now)];
      }
    }

    method AbandonReceipt(key: Token, digest: Token, generation: nat) returns (ok: bool)
      modifies this
      ensures (rows, ok) == Abandon(old(rows), key, digest, generation)
    {
      ok := Owns(rows, key, digest, generation);
      if ok { rows := rows[key := rows[key].(generation := rows[key].generation + 1, updated := 0)]; }
    }
  }

  /** The owner's handle on a claim. `heartbeat` is what the renewal loop reports when it is stopped and
      `heard` whether the caller hears of a commit. */
  class Lease {
    const store: Store
    const key: Token
    const digest: Token
    const generation: nat
    var stopped: bool
    var stopOk: bool
    var finished: bool

    constructor (store: Store, key: Token, digest: Token, generation: nat)
      ensures this.store == store && this.key == key && this.digest == digest && this.generation == generation
      ensures !stopped && !finished
    {
      this.store, this.key, this.digest, this.generation := store, key, digest, generation;
      stopped, stopOk, finished := false, false, false;
    }

    method Stop(heartbeat: bool) returns (ok: bool)
      modifies `stopped, `stopOk
      ensures stopped && stopOk == ok && ok == if old(stopped) then old(stopOk) else heartbeat
    {
      if !stopped {
        stopOk := heartbeat;
        stopped := true;
      }
      return stopOk;
    }

    /** A lease finishes once. It reports success only for a receipt that now replays its response; a
        finished lease, or one whose renewals failed, leaves the store alone. */
    method Finish(status: int, response: Token, heartbeat: bool, heard: bool, now: int) returns (ok: bool)
      modifies this, store
      ensures finished
      ensures old(finished) || (!old(stopped) && !heartbeat) || (old(stopped) && !old(stopOk)) ==>
              !ok && store.rows == old(store.rows)
      ensures ok ==> Owns(old(store.rows), key, digest, generation) && key in store.rows && store.rows[key].complete
                     && store.rows[key].digest == digest && store.rows[key].status == status
                     && store.rows[key].response == response
      ensures ok <==> !old(finished) && (if old(stopped) then old(stopOk) else heartbeat) && heard
                      && Owns(old(store.rows), key, digest, generation)
      ensures !old(finished) && stopOk && Owns(old(store.rows), key, digest, generation) ==>
                key in store.rows && store.rows[key].complete && store.rows[key].response == response
      ensures !Owns(old(store.rows), key, digest, generation) ==> store.rows == old(store.rows)
      ensures forall k | k != key ::
                (k in store.rows <==> k in old(store.rows)) && (k in store.rows ==> store.rows[k] == old(store.rows)[k])
      ensures !ok && !old(finished) ==> !Owns(store.rows, key, digest, generation) || !stopOk
    {
      if finished { return false; }
      var running := Stop(heartbeat);
      if !running {
        finished := true;
        return false;
      }
      var completed := store.CompleteReceipt(key, digest, generation, status, response, now);
      ok := completed && heard;
      if !ok { var _ := store.AbandonReceipt(key, digest, generation); }
      finished := true;
    }

    /** Giving up frees the key for the next claim, unless the lease was already lost or finished. */
    method GiveUp(heartbeat: bool)
      modifies this, store
      ensures finished
      ensures old(finished) ==> store.rows == old(store.rows)
      ensures !old(finished) ==> stopOk == if old(stopped) then old(stopOk) else heartbeat
      ensures !old(finished) && stopOk ==> store.rows == Abandon(old(store.rows), key, digest, generation).0
      ensures !old(finished) && !stopOk ==> store.rows == old(store.rows)
    {
      if finished { return; }
      var running := Stop(heartbeat);
      if running { var _ := store.AbandonReceipt(key, digest, generation); }
      finished := true;
    }
  }

  // ---------- Whole histories ----------

  datatype Op =
    | DoClaim(key: Token, digest: Token, expectedTx: Token, now: int, lease: int)
    | DoRenew(key: Token, digest: Token, generation: nat, now: int)
    | DoComplete(key: Token, digest: Token, generation: nat, status: int, response: Token, now: int)
    | DoAbandon(key: Token, digest: Token, generation: nat)

  datatype Reply = Claimed(result: ClaimResult) | Answered(ok: bool)

  function Step(m: Receipts, op: Op): (Receipts, Reply) {
    match op
    case DoClaim(key, digest, expectedTx, now, lease) =>
      var (m', r) := Claim(m, key, digest, expectedTx, now, lease);
      (m', Claimed(r))
    case DoRenew(key, digest, generation, now) =>
      var (m', ok) := Renew(m, key, digest, generation, now);
      (m', Answered(ok))
    case DoComplete(key, digest, generation, status, response, now) =>
      var (m', ok) := Complete(m, key, digest, generation, status, response, now);
      (m', Answered(ok))
    case DoAbandon(key, digest, generation) =>
      var (m', ok) := Abandon(m, key, digest, generation);
      (m', Answered(ok))
  }

  /** The rows after a history of calls on an empty table. */
  function After(ops: seq<Op>): Receipts {
    if ops == [] then map[] else Step(After(ops[..|ops| - 1]), ops[|ops| - 1]).0
  }

  /** What the i-th call was told. */
  function ReplyAt(ops: seq<Op>, i: nat): Reply
    requires i < |ops|
  {
    Step(After(ops[..i]), ops[i]).1
  }

  /** How a row may change: the digest is fixed, generations never go down, a complete row is frozen. */
  predicate RowGoesOn(before: Receipt, after: Receipt) {
    after.digest == before.digest && after.generation >= before.generation && (before.complete ==> after == before)
  }

  lemma {:induction false} HistoryGoesOn(ops: seq<Op>, i: nat, key: Token)
    requires i <= |ops| && key in After(ops[..i])
    ensures key in After(ops) && RowGoesOn(After(ops[..i])[key], After(ops)[key])
  {
    if i == |ops| {
      assert ops[..i] == ops;
    } else {
      var prefix := ops[..|ops| - 1];
      assert prefix[..i] == ops[..i];
      HistoryGoesOn(prefix, i, key);
    }
  }

  lemma Between(ops: seq<Op>, i: nat, j: nat, key: Token)
    requires i <= j <= |ops| && key in After(ops[..i])
    ensures key in After(ops[..j]) && RowGoesOn(After(ops[..i])[key], After(ops[..j])[key])
  {
    assert ops[..j][..i] == ops[..i];
    HistoryGoesOn(ops[..j], i, key);
  }

  lemma NextRow(ops: seq<Op>, i: nat)
    requires i < |ops|
    ensures After(ops[..i + 1]) == Step(After(ops[..i]), ops[i]).0
  {
    assert ops[..i + 1][..i] == ops[..i];
  }

  predicate AcquiresAt(ops: seq<Op>, i: nat, key: Token) {
    i < |ops| && ops[i].DoClaim? && ops[i].key == key && ReplyAt(ops, i).result.Acquired?
  }

  predicate CompletesAt(ops: seq<Op>, i: nat, key: Token) {
    i < |ops| && ops[i].DoComplete? && ops[i].key == key && ReplyAt(ops, i).ok
  }

  /** Every claim that acquires a key gets a generation no earlier claim had. */
  lemma GenerationsIncrease(ops: seq<Op>, i: nat, j: nat, key: Token)
    requires i < j < |ops| && AcquiresAt(ops, i, key) && AcquiresAt(ops, j, key)
    ensures ReplyAt(ops, i).result.receipt.generation < ReplyAt(ops, j).result.receipt.generation
  {
    NextRow(ops, i);
    Between(ops, i + 1, j, key);
  }

  /** A claimant whose generation has been passed, by a later claim or by its own abandonment, can never
      again renew, complete or abandon. */
  lemma StaleOwnersAreFenced(ops: seq<Op>, i: nat, j: nat, key: Token)
    requires i <= j < |ops| && key in After(ops[..i])
    requires !ops[j].DoClaim? && ops[j].key == key && ops[j].generation < After(ops[..i])[key].generation
    ensures ReplyAt(ops, j) == Answered(false) && After(ops[..j + 1]) == After(ops[..j])
  {
    Between(ops, i, j, key);
    NextRow(ops, j);
  }

  /** A takeover passes every earlier claimant of the key. */
  lemma TakeoverPasses(ops: seq<Op>, i: nat, j: nat, key: Token)
    requires i < j < |ops| && AcquiresAt(ops, i, key) && AcquiresAt(ops, j, key)
    ensures key in After(ops[..j + 1])
            && ReplyAt(ops, i).result.receipt.generation < After(ops[..j + 1])[key].generation
  {
    NextRow(ops, j);
    GenerationsIncrease(ops, i, j, key);
  }

  /** A claimant superseded by a later claim is refused whatever it still sends, and changes nothing. */
  lemma SupersededIsRefused(ops: seq<Op>, i: nat, j: nat, k: nat, key: Token)
    requires i < j < k < |ops| && AcquiresAt(ops, i, key) && AcquiresAt(ops, j, key)
    requires !ops[k].DoClaim? && ops[k].key == key && ops[k].generation == ReplyAt(ops, i).result.receipt.generation
    ensures ReplyAt(ops, k) == Answered(false) && After(ops[..k + 1]) == After(ops[..k])
  {
    TakeoverPasses(ops, i, j, key);
    StaleOwnersAreFenced(ops, j + 1, k, key);
  }

  /** An owner that abandons passes itself: whatever it still sends is refused. */
  lemma AbandonPasses(ops: seq<Op>, i: nat, j: nat, key: Token)
    requires i < j < |ops| && ops[i].DoAbandon? && ops[i].key == key && ReplyAt(ops, i).ok
    requires !ops[j].DoClaim? && ops[j].key == key && ops[j].generation == ops[i].generation
    ensures ReplyAt(ops, j) == Answered(false)
  {
    NextRow(ops, i);
    StaleOwnersAreFenced(ops, i + 1, j, key);
  }

  /** At most one completion of a key ever succeeds. */
  lemma CompletedOnce(ops: seq<Op>, i: nat, j: nat, key: Token)
    requires CompletesAt(ops, i, key) && CompletesAt(ops, j, key)
    ensures i == j
  {
    if i != j {
      var a, b := if i < j then i else j, if i < j then j else i;
      NextRow(ops, a);
      Between(ops, a + 1, b, key);
    }
  }

  /** After a completion every claim of the key with the same digest replays exactly the stored
      response, and every claim with another digest is a conflict. */
  lemma CompletionIsReplayed(ops: seq<Op>, i: nat, j: nat, key: Token)
    requires i < j < |ops| && CompletesAt(ops, i, key) && ops[j].DoClaim? && ops[j].key == key
    ensures var r := ReplyAt(ops, j).result;
            if ops[j].digest == ops[i].digest then
              r.Replay? && r.receipt.status == ops[i].status && r.receipt.response == ops[i].response
                  && r.receipt.generation == ops[i].generation
            else r.Conflict?
  {
    NextRow(ops, i);
    Between(ops, i + 1, j, key);
  }

  // ---------- Leases over time ----------

  /** The i-th call gave this generation the lease, as an acquisition or as a renewal, at the time it came. */
  predicate GrantsAt(ops: seq<Op>, i: nat, key: Token, digest: Token, generation: nat) {
    i < |ops| && ops[i].key == key && ops[i].digest == digest &&
    match ops[i]
    case DoClaim(_, _, _, _, _) =>
      ReplyAt(ops, i).result.Acquired? && ReplyAt(ops, i).result.receipt.generation == generation
    case DoRenew(_, _, _, _) => ReplyAt(ops, i).ok && ops[i].generation == generation
    case _ => false
  }

  predicate AbandonsAt(ops: seq<Op>, i: nat, key: Token, digest: Token) {
    i < |ops| && ops[i].DoAbandon? && ops[i].key == key && ops[i].digest == digest && ReplyAt(ops, i).ok
  }

  /** No call from i to j on this key acquired it or was answered with success. */
  predicate Untouched(ops: seq<Op>, i: nat, j: nat, key: Token)
    requires j <= |ops|
  {
    forall k | i <= k < j && ops[k].key == key ::
      match ReplyAt(ops, k)
      case Claimed(r) => !r.Acquired?
      case Answered(ok) => !ok
  }

  lemma {:induction false} UntouchedStays(ops: seq<Op>, i: nat, j: nat, key: Token)
    requires i <= j <= |ops| && Untouched(ops, i, j, key)
    ensures key in After(ops[..j]) <==> key in After(ops[..i])
    ensures key in After(ops[..i]) ==> After(ops[..j])[key] == After(ops[..i])[key]
  {
    if i < j {
      UntouchedStays(ops, i, j - 1, key);
      NextRow(ops, j - 1);
    }
  }

  lemma GrantedRow(ops: seq<Op>, i: nat, j: nat, key: Token, digest: Token, generation: nat)
    requires i < j <= |ops| && GrantsAt(ops, i, key, digest, generation) && Untouched(ops, i + 1, j, key)
    ensures key in After(ops[..j])
    ensures var r := After(ops[..j])[key];
            r.digest == digest && r.generation == generation && !r.complete && r.updated == ops[i].now
  {
    NextRow(ops, i);
    UntouchedStays(ops, i + 1, j, key);
  }

  /** A key nobody acquired is free for any claim. */
  lemma FirstClaimAcquires(ops: seq<Op>, j: nat, key: Token)
    requires j < |ops| && ops[j].DoClaim? && ops[j].key == key && Untouched(ops, 0, j, key)
    ensures ReplyAt(ops, j) ==
              Claimed(Acquired(Receipt(ops[j].digest, ops[j].expectedTx, 1, false, 0, EMPTY, ops[j].now)))
  {
    UntouchedStays(ops, 0, j, key);
    assert ops[..0] == [];
  }

  /** While a lease runs, a claim with its digest is told that the key is in progress, by whom, and changes
      nothing; once it has run out, the claim takes the key over with the next generation. A claim with
      another digest is always a conflict. */
  lemma LeaseIsExclusiveWhileItRuns(ops: seq<Op>, i: nat, j: nat, key: Token, digest: Token, generation: nat)
    requires i < j < |ops| && GrantsAt(ops, i, key, digest, generation) && Untouched(ops, i + 1, j, key)
    requires ops[j].DoClaim? && ops[j].key == key
    ensures var r := ReplyAt(ops, j).result;
            if ops[j].digest != digest then r.Conflict? && After(ops[..j + 1]) == After(ops[..j])
            else if ops[j].now - ops[i].now < ops[j].lease then
              r.InProgress? && r.receipt.generation == generation && After(ops[..j + 1]) == After(ops[..j])
            else
              r.Acquired? && r.receipt.generation == generation + 1 && GrantsAt(ops, j, key, digest, generation + 1)
  {
    GrantedRow(ops, i, j, key, digest, generation);
    NextRow(ops, j);
  }

  /** Until somebody takes the key over, the owner's calls succeed, and only the owner's do. */
  lemma OnlyTheOwnerIsHeard(ops: seq<Op>, i: nat, j: nat, key: Token, digest: Token, generation: nat)
    requires i < j < |ops| && GrantsAt(ops, i, key, digest, generation) && Untouched(ops, i + 1, j, key)
    requires !ops[j].DoClaim? && ops[j].key == key
    ensures ReplyAt(ops, j) == Answered(ops[j].digest == digest && ops[j].generation == generation)
  {
    GrantedRow(ops, i, j, key, digest, generation);
  }

  /** An abandoned key is free for a claim with its digest at any time at which a lease from the epoch has
      run out, however fresh the abandoned lease was. */
  lemma AbandonedIsFree(ops: seq<Op>, i: nat, j: nat, key: Token, digest: Token)
    requires i < j < |ops| && AbandonsAt(ops, i, key, digest) && Untouched(ops, i + 1, j, key)
    requires ops[j].DoClaim? && ops[j].key == key && ops[j].digest == digest
    ensures var r := ReplyAt(ops, j).result;
            if ops[j].now < ops[j].lease then r.InProgress?
            else r.Acquired? && r.receipt.generation == ops[i].generation + 2
  {
    NextRow(ops, i);
    UntouchedStays(ops, i + 1, j, key);
  }
}
