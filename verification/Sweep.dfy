/**
 The recovery sweep: every few seconds the coordinator offers its queue the next page of unfinished
 attempts, resuming after the last one it handled and starting over at the end of the table.
 */
module Sweep {
  import opened Common
  import opened Attempts

  const CAPACITY := 1000
  const BATCH := 1000
  /** Seconds an attempt with an uncertain signer waits before it is tried again. */
  const RETRY_AFTER := 60

  type Rows = map<AttemptId, Attempt>

  predicate Recoverable(s: State) { s.Planning? || Holding(s) }

  predicate RetryDue(row: Attempt, now: int) {
    row.state.SigningUnknown? ==> now - row.updated >= RETRY_AFTER
  }

  function Waiting(rows: Rows, after: AttemptId): set<AttemptId> {
    set id | id in rows && Recoverable(rows[id].state) && id > after
  }

  /** The first attempts waiting after the cursor, in order; a page shorter than its limit is the last. */
  ghost predicate IsPage(rows: Rows, after: AttemptId, limit: nat, page: seq<AttemptId>) {
    && |page| <= limit
    && (forall i | 0 <= i < |page| :: page[i] in Waiting(rows, after))
    && (forall i, j | 0 <= i < j < |page| :: page[i] < page[j])
    && (forall id | id in Waiting(rows, after) ::
       id in page || (|page| == limit && forall i | 0 <= i < |page| :: page[i] < id))
  }

  lemma {:induction false} HasLeast(s: set<AttemptId>)
    requires s != {}
    ensures exists x :: x in s && forall y | y in s :: x <= y
  {
    var x :| x in s;
    var below := set y | y in s && y < x;
    if below != {} {
      assert below < s by { assert x in s && x !in below; }
      HasLeast(below);
      var z :| z in below && forall y | y in below :: z <= y;
      assert forall y | y in s :: y in below || z <= y;
    } else {
      assert forall y | y in s :: x <= y || y in below;
    }
  }

  /** The store's query; it refuses limits outside 1 to 1000. */
  method RecoverableAttempts(rows: Rows, after: AttemptId, limit: int) returns (r: Option<seq<AttemptId>>)
    ensures r.Some? <==> 1 <= limit <= 1000
    ensures r.Some? ==> IsPage(rows, after, limit, r.value)
  {
    if limit < 1 || limit > 1000 { return None; }
    var page, rest := [], Waiting(rows, after);
    while rest != {} && |page| < limit
      invariant |page| <= limit
      invariant rest <= Waiting(rows, after)
      invariant forall id | id in Waiting(rows, after) :: id in page || id in rest
      invariant forall i | 0 <= i < |page| :: page[i] in Waiting(rows, after)
      invariant forall i, id | 0 <= i < |page| && id in rest :: page[i] < id
      invariant forall i, j | 0 <= i < j < |page| :: page[i] < page[j]
      decreases rest
    {
      HasLeast(rest);
      var least :| least in rest && forall y | y in rest :: least <= y;
      page, rest := page + [least], rest - {least};
    }
    return Some(page);
  }

  // ---------- One pass ----------

  /** What one pass meets: the table it reads, the page that read returned, and the attempts at whose turn
      other senders had filled the queue. */
  datatype Pass = Pass(rows: Rows, now: int, full: set<AttemptId>, limit: nat, page: seq<AttemptId>) {
    predicate Due(id: AttemptId) { id in rows ==> RetryDue(rows[id], now) }

    predicate Refused(id: AttemptId) { Due(id) && id in full }
  }

  /** How much of the page is handled: up to the first attempt the queue refuses. */
  function Seen(p: Pass, from: nat): (n: nat)
    requires from <= |p.page|
    ensures from <= n <= |p.page|
    ensures forall k | from <= k < n :: !p.Refused(p.page[k])
    ensures n < |p.page| ==> p.Refused(p.page[n])
    decreases |p.page| - from
  {
    if from == |p.page| || p.Refused(p.page[from]) then from else Seen(p, from + 1)
  }

  /** The due attempts among the first n of the page. */
  function Sent(p: Pass, n: nat): seq<AttemptId>
    requires n <= |p.page|
  {
    if n == 0 then [] else Sent(p, n - 1) + if p.Due(p.page[n - 1]) then [p.page[n - 1]] else []
  }

  function Cursor(p: Pass, after: AttemptId): AttemptId {
    if Seen(p, 0) == 0 then after else p.page[Seen(p, 0) - 1]
  }

  /** The table has been swept: nothing was left, or a short page was handled whole. */
  predicate Resets(p: Pass) {
    Seen(p, 0) == |p.page| && |p.page| < p.limit
  }

  /** The attempt was put on the queue, or its turn came and it was not due. */
  predicate Handled(p: Pass, id: AttemptId) {
    id in Sent(p, Seen(p, 0)) || (id in p.page[..Seen(p, 0)] && !p.Due(id))
  }

  class Scheduler {
    var queue: seq<AttemptId>
    var recoveryAfter: AttemptId

    ghost predicate Valid()
      reads this
    {
      |queue| <= CAPACITY
    }

    constructor ()
      ensures Valid() && queue == [] && recoveryAfter == EMPTY
    {
      queue, recoveryAfter := [], EMPTY;
    }

    method Enqueue(id: AttemptId, crowded: bool) returns (ok: bool)
      requires Valid()
      modifies `queue
      ensures Valid() && ok == (!crowded && |old(queue)| < CAPACITY)
      ensures queue == if ok then old(queue) + [id] else old(queue)
    {
      ok := !crowded && |queue| < CAPACITY;
      if ok { queue := queue + [id]; }
    }

    /** One tick of the recovery loop. `full` holds the attempts at whose turn the queue had no room. */
    method ScheduleRecoverable(closed: bool, readable: bool, rows: Rows, now: int, full: set<AttemptId>)
      returns (pass: Option<Pass>)
      requires Valid()
      modifies this
      ensures Valid()
      ensures pass.Some? <==> !closed && readable && |old(queue)| < CAPACITY
      ensures pass.None? ==> queue == old(queue) && recoveryAfter == old(recoveryAfter)
      ensures pass.Some? ==>
                var p := pass.value;
                && p.rows == rows && p.now == now && p.full == full && p.limit == 1000 - |old(queue)|
                && IsPage(rows, old(recoveryAfter), p.limit, p.page)
                && queue == old(queue) + Sent(p, Seen(p, 0))
                && recoveryAfter == if Resets(p) then EMPTY else Cursor(p, old(recoveryAfter))
    {
      if closed { return None; }
      var available := CAPACITY - |queue|;
      if available < 1 { return None; }
      var limit := Min(BATCH, available);
      if !readable { return None; }
      var values := RecoverableAttempts(rows, recoveryAfter, limit);
      pass := Some(Pass(rows, now, full, limit, values.value));
      if |values.value| == 0 {
        recoveryAfter := EMPTY;
        return;
      }
      var processed := OfferPage(pass.value);
      if processed == |values.value| && |values.value| < limit {
        recoveryAfter := EMPTY;
      }
    }

    /** Offers the page in order and stops at the first refusal, with the cursor on the attempt before it. */
    method OfferPage(p: Pass) returns (processed: nat)
      requires Valid() && |queue| + |p.page| <= CAPACITY
      modifies this
      ensures Valid() && processed == Seen(p, 0)
      ensures queue == old(queue) + Sent(p, processed)
      ensures recoveryAfter == Cursor(p, old(recoveryAfter))
    {
      processed := 0;
      while processed < |p.page|
        invariant processed <= |p.page| && Seen(p, processed) == Seen(p, 0)
        invariant |queue| + |p.page| <= CAPACITY + processed
        invariant queue == old(queue) + Sent(p, processed)
        invariant recoveryAfter == if processed == 0 then old(recoveryAfter) else p.page[processed - 1]
      {
        var id := p.page[processed];
        var previousAfter := recoveryAfter;
        if !p.Due(id) {
          recoveryAfter, processed := id, processed + 1;
          continue;
        }
        var ok := Enqueue(id, id in p.full);
        if !ok {
          recoveryAfter := previousAfter;
          break;
        }
        recoveryAfter, processed := id, processed + 1;
      }
    }
  }

  lemma {:induction false} SentIsWhatIsDue(p: Pass, n: nat, id: AttemptId)
    requires n <= |p.page|
    ensures id in Sent(p, n) <==> id in p.page[..n] && p.Due(id)
  {
    if n > 0 {
      SentIsWhatIsDue(p, n - 1, id);
      assert p.page[..n] == p.page[..n - 1] + [p.page[n - 1]];
    }
  }

  /** A pass that reads the table moves the cursor forward or ends the sweep, unless the queue refuses the
      very first attempt; then nothing changes. */
  lemma PassMakesProgress(p: Pass, after: AttemptId)
    requires IsPage(p.rows, after, p.limit, p.page) && p.limit >= 1
    ensures Resets(p) || Cursor(p, after) > after || p.Refused(p.page[0])
    ensures !Resets(p) && p.Refused(p.page[0]) ==> Cursor(p, after) == after && Sent(p, Seen(p, 0)) == []
  {
    if !Resets(p) {
      if p.page == [] { assert false; }
      assert p.page[0] in Waiting(p.rows, after);
      assert Seen(p, 0) > 0 ==> p.page[Seen(p, 0) - 1] in Waiting(p.rows, after);
    }
  }

  // ---------- A whole sweep ----------

  /** The cursor after some passes that did not end the sweep. */
  function CursorAfter(passes: seq<Pass>): AttemptId {
    if passes == [] then EMPTY else Cursor(passes[|passes| - 1], CursorAfter(passes[..|passes| - 1]))
  }

  ghost predicate Honest(passes: seq<Pass>) {
    passes != [] ==>
      var p := passes[|passes| - 1];
      Honest(passes[..|passes| - 1]) && p.limit >= 1
          && IsPage(p.rows, CursorAfter(passes[..|passes| - 1]), p.limit, p.page)
  }

  predicate Unfinished(passes: seq<Pass>) {
    forall i | 0 <= i < |passes| :: !Resets(passes[i])
  }

  predicate Throughout(passes: seq<Pass>, id: AttemptId) {
    forall i | 0 <= i < |passes| :: id in Waiting(passes[i].rows, EMPTY)
  }

  predicate HandledBy(passes: seq<Pass>, id: AttemptId) {
    exists i :: 0 <= i < |passes| && Handled(passes[i], id)
  }

  lemma PassHandles(p: Pass, after: AttemptId, id: AttemptId)
    requires IsPage(p.rows, after, p.limit, p.page)
    requires id in Waiting(p.rows, after) && (id <= Cursor(p, after) || Resets(p))
    ensures Handled(p, id)
  {
    var n := Seen(p, 0);
    assert id in p.page[..n] by {
      assert Resets(p) || (n > 0 && id <= p.page[n - 1]);
      var k :| 0 <= k < |p.page| && p.page[k] == id;
      assert k < n;
      assert p.page[..n][k] == id;
    }
    SentIsWhatIsDue(p, n, id);
  }

  lemma {:induction false} WaitingIsHandled(passes: seq<Pass>, id: AttemptId)
    requires passes != [] && Honest(passes) && Unfinished(passes[..|passes| - 1]) && Throughout(passes, id)
    requires Resets(passes[|passes| - 1]) || id <= CursorAfter(passes)
    ensures HandledBy(passes, id)
  {
    var n := |passes| - 1;
    var before := passes[..n];
    var after := CursorAfter(before);
    if id > after {
      PassHandles(passes[n], after, id);
    } else {
      assert id in Waiting(passes[0].rows, EMPTY);
      assert Unfinished(before[..|before| - 1]) && Throughout(before, id) by {
        assert forall i | 0 <= i < |before| :: before[i] == passes[i];
        assert forall i | 0 <= i < |before| - 1 :: before[..|before| - 1][i] == before[i];
      }
      WaitingIsHandled(before, id);
      var i :| 0 <= i < |before| && Handled(before[i], id);
      assert passes[i] == before[i];
    }
  }

  /** The signer's answer to this attempt is in doubt and it was last touched less than a minute ago. */
  predicate TooEarly(p: Pass, id: AttemptId) {
    id in p.rows && p.rows[id].state.SigningUnknown? && p.now - p.rows[id].updated < 60
  }

  predicate Queued(p: Pass, id: AttemptId) { id in Sent(p, Seen(p, 0)) }

  /** No attempt at or below the cursor was skipped, and when the sweep ends none was: an attempt that was in no
      terminal state throughout was queued, or its turn came too early. Limits, times and refusals are arbitrary,
      and other attempts come and go. */
  lemma NoAttemptIsSkipped(passes: seq<Pass>, id: AttemptId)
    requires passes != [] && Honest(passes) && Unfinished(passes[..|passes| - 1]) && id != EMPTY
    requires forall i | 0 <= i < |passes| :: id in passes[i].rows && !Terminal(passes[i].rows[id].state)
    requires Resets(passes[|passes| - 1]) || id <= CursorAfter(passes)
    ensures exists i :: 0 <= i < |passes| && (Queued(passes[i], id) || TooEarly(passes[i], id))
  {
    WaitingIsHandled(passes, id);
    var i :| 0 <= i < |passes| && Handled(passes[i], id);
    assert Queued(passes[i], id) || TooEarly(passes[i], id);
  }

  lemma {:induction false} SentInOrder(p: Pass, n: nat, i: nat, j: nat)
    requires n <= |p.page| && forall i, j | 0 <= i < j < |p.page| :: p.page[i] < p.page[j]
    requires i < j < |Sent(p, n)|
    ensures Sent(p, n)[i] < Sent(p, n)[j]
  {
    var before := Sent(p, n - 1);
    if j < |before| {
      SentInOrder(p, n - 1, i, j);
    } else {
      SentIsWhatIsDue(p, n - 1, before[i]);
      assert before[i] in before;
      var k :| 0 <= k < n - 1 && p.page[..n - 1][k] == before[i];
      assert p.page[k] < p.page[n - 1];
    }
  }

  /** A pass queues each attempt once and in order, and only attempts beyond the cursor that are in no terminal
      state, whose turn did not come too early and for which there was room. */
  lemma OnlyTheDueAreQueued(p: Pass, after: AttemptId, id: AttemptId)
    requires IsPage(p.rows, after, p.limit, p.page) && Queued(p, id)
    ensures id in p.rows && !Terminal(p.rows[id].state) && id > after && !TooEarly(p, id) && id !in p.full
    ensures forall i, j | 0 <= i < j < |Sent(p, Seen(p, 0))| :: Sent(p, Seen(p, 0))[i] < Sent(p, Seen(p, 0))[j]
  {
    var n := Seen(p, 0);
    SentIsWhatIsDue(p, n, id);
    var k :| 0 <= k < n && p.page[..n][k] == id;
    assert p.page[k] in Waiting(p.rows, after) && !p.Refused(p.page[k]);
    forall i, j | 0 <= i < j < |Sent(p, n)| ensures Sent(p, n)[i] < Sent(p, n)[j] { SentInOrder(p, n, i, j); }
  }

  predicate Unblocked(passes: seq<Pass>) {
    forall i | 0 <= i < |passes| && passes[i].page != [] :: !passes[i].Refused(passes[i].page[0])
  }

  lemma Shrinks(small: set<AttemptId>, big: set<AttemptId>, x: AttemptId)
    requires small <= big && x in big && x !in small
    ensures |small| < |big|
  {
    assert small <= big - {x};
    SubsetIsSmaller(small, big - {x});
  }

  lemma {:induction false} SubsetIsSmaller(small: set<AttemptId>, big: set<AttemptId>)
    requires small <= big
    ensures |small| <= |big|
  {
    if small != {} {
      var x :| x in small;
      SubsetIsSmaller(small - {x}, big - {x});
    }
  }

  /** While the table stands still and the queue takes the first attempt of each page, a sweep ends: it has
      no more passes than attempts to recover, plus the one that finds the end. */
  lemma {:induction false} SweepEnds(passes: seq<Pass>, rows: Rows)
    requires Honest(passes) && Unfinished(passes) && Unblocked(passes)
    requires forall i | 0 <= i < |passes| :: passes[i].rows == rows
    ensures |passes| + |Waiting(rows, CursorAfter(passes))| <= |Waiting(rows, EMPTY)|
  {
    if passes != [] {
      var n := |passes| - 1;
      var before := passes[..n];
      assert forall i | 0 <= i < |before| :: before[i] == passes[i];
      SweepEnds(before, rows);
      var after, p := CursorAfter(before), passes[n];
      PassMakesProgress(p, after);
      assert p.page != [] && p.page[0] in Waiting(rows, after);
      assert p.page[0] <= Cursor(p, after);
      Shrinks(Waiting(rows, Cursor(p, after)), Waiting(rows, after), p.page[0]);
    }
  }
}
