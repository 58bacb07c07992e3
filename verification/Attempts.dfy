/**
 The transaction attempt store: one row per attempt, the table of active note reservations and the
 append-only event log. The functions say what each committed SQL transaction does to the tables;
 the class below runs the same transactions in place, with the insert loop and its rollback.
 */
module Attempts {
  import opened Common
  import opened Chain

  type AttemptId = Token

  datatype State =
    | Planning | Reserved | Signing | SigningUnknown | Signed | Broadcast | Mined | Orphaned | ExpiredPending
    | Cancelled | FailedUnsigned | Released | Final

  predicate Terminal(s: State) {
    s.Cancelled? || s.FailedUnsigned? || s.Released? || s.Final?
  }

  /** Signed and not yet settled: the states the reconciler works on. */
  predicate Reconcilable(s: State) {
    s.Signed? || s.Broadcast? || s.Mined? || s.Orphaned? || s.ExpiredPending?
  }

  /** The states in which an attempt owns its selected notes. */
  predicate Holding(s: State) {
    s.Reserved? || s.Signing? || s.SigningUnknown? || Reconcilable(s)
  }

  predicate Allowed(current: State, next: State) {
    current == next ||
    (!Terminal(current) &&
     match current {
       case Planning => next.Reserved? || next.FailedUnsigned?
       case Reserved => next.Signing? || next.FailedUnsigned?
       case Signing => next.Reserved? || next.SigningUnknown? || next.Signed? || next.FailedUnsigned?
       case SigningUnknown => next.Signing? || next.Signed?
       case Signed =>
         next.Broadcast? || next.Mined? || next.Orphaned? || next.ExpiredPending? || next.Final? || next.Released?
       case Broadcast => next.Mined? || next.Orphaned? || next.ExpiredPending? || next.Final? || next.Released?
       case Mined => next.Broadcast? || next.Orphaned? || next.ExpiredPending? || next.Final? || next.Released?
       case Orphaned => next.Broadcast? || next.Mined? || next.ExpiredPending? || next.Final? || next.Released?
       case ExpiredPending => next.Broadcast? || next.Mined? || next.Orphaned? || next.Final? || next.Released?
       case _ => false
     })
  }

  predicate SafeRelease(current: State, next: State) {
    match next
    case FailedUnsigned => current.Planning? || current.Reserved? || current.Signing?
    case Final => Reconcilable(current) || current == next
    case Released => Reconcilable(current) || current == next
    case _ => false
  }

  datatype Error = Error(code: Token, message: Token, retryable: bool)

  const NO_ERROR := Error(EMPTY, EMPTY, false)

  /** What a planner returned and a reservation stores. */
  datatype Plan = Plan(bytes: Token, digest: Token, expiry: int, notes: seq<NoteId>)

  datatype Signature = Signature(tx: Tx, raw: Token, indices: seq<nat>, change: Option<nat>)

  datatype Attempt = Attempt(
    key: Token, digest: Token, principal: Token, wallet: Token, approval: Token, request: Token, state: State,
        changeAddress: Token,
    plan: Option<Plan>, fee: Token, signature: Option<Signature>, error: Error, updated: int)

  datatype Event = Event(attempt: AttemptId, state: State)

  datatype Tables = Tables(
    attempts: map<AttemptId, Attempt>, byKey: map<Token, AttemptId>,
    reservations: map<NoteKey, AttemptId>, events: seq<Event>)

  const NO_TABLES := Tables(map[], map[], map[], [])

  datatype Outcome = Ok | StateConflict | NoteConflict | NotFound | Invalid

  datatype ClaimOutcome = Acquired | Replay | Conflict | Rejected

  // ---------- Selected notes ----------

  function Insert(x: NoteId, s: seq<NoteId>): (r: seq<NoteId>)
    ensures multiset(r) == multiset(s) + multiset{x}
  {
    if s == [] || x <= s[0] then [x] + s
    else
      assert s == [s[0]] + s[1..];
      [s[0]] + Insert(x, s[1..])
  }

  function Sort(s: seq<NoteId>): (r: seq<NoteId>)
    ensures multiset(r) == multiset(s)
  {
    if s == [] then []
    else
      assert s == [s[0]] + s[1..];
      Insert(s[0], Sort(s[1..]))
  }

  lemma {:induction false} InsertAscends(x: NoteId, s: seq<NoteId>)
    requires Ascending(s)
    ensures Ascending(Insert(x, s))
  {
    if s != [] && s[0] < x {
      InsertAscends(x, s[1..]);
      var rest := Insert(x, s[1..]);
      forall i | 0 <= i < |rest| ensures s[0] <= rest[i] {
        assert rest[i] in multiset(rest);
        assert rest[i] == x || rest[i] in s[1..];
      }
    }
  }

  lemma {:induction false} SortAscends(s: seq<NoteId>)
    ensures Ascending(Sort(s))
  {
    if s != [] {
      SortAscends(s[1..]);
      InsertAscends(s[0], Sort(s[1..]));
    }
  }

  predicate Ascending(s: seq<NoteId>) {
    forall i, j :: 0 <= i < j < |s| ==> s[i] <= s[j]
  }

  predicate Distinct(s: seq<NoteId>) {
    forall i, j :: 0 <= i < j < |s| ==> s[i] != s[j]
  }

  /** Note lists are accepted when every entry is non-empty and none is repeated. */
  predicate GoodNotes(s: seq<NoteId>) {
    |s| > 0 && EMPTY !in s && Distinct(s)
  }

  lemma {:induction false} DistinctByCount(s: seq<NoteId>)
    ensures Distinct(s) <==> forall x :: multiset(s)[x] <= 1
  {
    if s != [] {
      var h, t := s[0], s[1..];
      assert s == [h] + t;
      DistinctByCount(t);
      if Distinct(s) {
        assert Distinct(t) && h !in t;
        assert h !in multiset(t);
      } else if Distinct(t) {
        assert h in t;
        assert h in multiset(t);
        assert multiset(s)[h] > 1;
      } else {
        var x :| multiset(t)[x] > 1;
        assert multiset(s)[x] > 1;
      }
    }
  }

  lemma SortKeeps(s: seq<NoteId>)
    ensures forall n :: n in Sort(s) <==> n in s
    ensures Distinct(Sort(s)) <==> Distinct(s)
    ensures |Sort(s)| == |s|
  {
    DistinctByCount(s);
    DistinctByCount(Sort(s));
    assert |multiset(Sort(s))| == |multiset(s)|;
    forall n ensures n in Sort(s) <==> n in s {
      assert n in Sort(s) <==> n in multiset(Sort(s));
    }
  }

  /** In an ascending list, comparing neighbours finds exactly the repeated notes. */
  lemma NeighboursShowDuplicates(r: seq<NoteId>)
    requires Ascending(r)
    ensures Distinct(r) <==> forall i :: 0 <= i < |r| - 1 ==> r[i] != r[i + 1]
  {
    if forall i :: 0 <= i < |r| - 1 ==> r[i] != r[i + 1] {
      forall i, j | 0 <= i < j < |r| ensures r[i] != r[j] {
        assert r[i] != r[i + 1];
      }
    }
  }

  /** The reservation keys of a note list in a wallet. */
  function Keys(network: Token, wallet: Token, notes: seq<NoteId>): set<NoteKey> {
    set n | n in notes :: NoteKey(network, wallet, n)
  }

  /** The keys an attempt selected. */
  function KeysOf(network: Token, row: Attempt): set<NoteKey> {
    if row.plan.None? then {} else Keys(network, row.wallet, row.plan.value.notes)
  }

  /** The reservation rows that give a set of notes to one attempt. */
  function Owned(keys: set<NoteKey>, id: AttemptId): map<NoteKey, AttemptId> {
    map k | k in keys :: id
  }

  lemma KeysGrow(network: Token, wallet: Token, notes: seq<NoteId>, i: nat)
    requires i < |notes| && Distinct(notes)
    ensures Keys(network, wallet, notes[..i + 1])
            == Keys(network, wallet, notes[..i]) + {NoteKey(network, wallet, notes[i])}
    ensures NoteKey(network, wallet, notes[i]) !in Keys(network, wallet, notes[..i])
  {
    assert notes[..i + 1] == notes[..i] + [notes[i]];
  }

  lemma OwnedGrows(before: map<NoteKey, AttemptId>, done: set<NoteKey>, key: NoteKey, id: AttemptId)
    ensures (before + Owned(done, id))[key := id] == before + Owned(done + {key}, id)
  {
  }

  function Without(r: map<NoteKey, AttemptId>, id: AttemptId): map<NoteKey, AttemptId> {
    map k | k in r && r[k] != id :: r[k]
  }

  // ---------- The committed transactions ----------

  function Claim(t: Tables, id: AttemptId, key: Token, digest: Token, principal: Token, wallet: Token, approval: Token,
                 request: Token, now: int)
    : (Tables, ClaimOutcome)
  {
    if id == EMPTY || key == EMPTY || digest == EMPTY || principal == EMPTY || wallet == EMPTY || approval == EMPTY
       || request == EMPTY then (t, Rejected)
    else if key in t.byKey then
      var existing := t.byKey[key];
      (t, if existing in t.attempts && t.attempts[existing].digest == digest then Replay else Conflict)
    else if id in t.attempts then (t, Rejected)
    else
      var row := Attempt(key, digest, principal, wallet, approval, request, Planning, EMPTY, None, EMPTY, None,
          NO_ERROR, now);
      (Tables(t.attempts[id := row], t.byKey[key := id], t.reservations, t.events + [Event(id, Planning)]), Acquired)
  }

  function SetChangeAddress(t: Tables, id: AttemptId, address: Token, now: int): (Tables, Outcome) {
    if address == EMPTY then (t, Invalid)
    else if id !in t.attempts then (t, NotFound)
    else
      var row := t.attempts[id];
      if row.changeAddress != EMPTY then (t, if row.changeAddress == address then Ok else StateConflict)
      else if !row.state.Planning? then (t, StateConflict)
      else (t.(attempts := t.attempts[id := row.(changeAddress := address, updated := now)]), Ok)
  }

  function Reserve(t: Tables, id: AttemptId, network: Token, plan: Plan, fee: Token, now: int): (Tables, Outcome) {
    if plan.bytes == EMPTY || plan.digest == EMPTY || fee == EMPTY || plan.expiry < 0 || !GoodNotes(plan.notes)
       then (t, Invalid)
    else if id !in t.attempts then (t, NotFound)
    else
      var row := t.attempts[id];
      if row.state.Reserved? && row.plan.Some? && row.plan.value.digest == plan.digest then (t, Ok)
      else if !row.state.Planning? then (t, StateConflict)
      else
        var keys := Keys(network, row.wallet, plan.notes);
        if keys !! t.reservations.Keys then
          var row' := row.(state := Reserved, plan := Some(plan.(notes := Sort(plan.notes))), fee := fee,
                           error := NO_ERROR, updated := now);
          (Tables(t.attempts[id := row'], t.byKey, t.reservations + Owned(keys, id),
                  t.events + [Event(id, Reserved)]), Ok)
        else (t, NoteConflict)
  }

  function BeginSigning(t: Tables, id: AttemptId, now: int): (Tables, Outcome) {
    if id !in t.attempts then (t, NotFound)
    else
      var row := t.attempts[id];
      if row.state.Signing? || row.state.SigningUnknown? then (t, Ok)
      else if !row.state.Reserved? then (t, StateConflict)
      else
        (t.(attempts := t.attempts[id := row.(state := Signing, error := NO_ERROR, updated := now)],
            events := t.events + [Event(id, Signing)]), Ok)
  }

  function CompleteSigning(t: Tables, id: AttemptId, signature: Signature, fee: Token, now: int): (Tables, Outcome) {
    if id !in t.attempts then (t, NotFound)
    else
      var row := t.attempts[id];
      if row.state.Signed? && row.signature.Some? && row.signature.value.tx == signature.tx
         && row.signature.value.raw == signature.raw
      then (t, Ok)
      else if !row.state.Signing? && !row.state.SigningUnknown? then (t, StateConflict)
      else
        (t.(attempts := t.attempts[id := row.(state := Signed, signature := Some(signature), fee := fee,
            error := NO_ERROR, updated := now)],
            events := t.events + [Event(id, Signed)]), Ok)
  }

  function Mark(t: Tables, id: AttemptId, next: State, error: Error, release: bool, now: int): (Tables, Outcome) {
    if id !in t.attempts then (t, NotFound)
    else
      var row := t.attempts[id];
      if !Allowed(row.state, next) || (release && !SafeRelease(row.state, next)) then (t, StateConflict)
      else if row.state == next && row.error == error then
        (t.(attempts := t.attempts[id := row.(updated := now)]), Ok)
      else
        (Tables(t.attempts[id := row.(state := next, error := error, updated := now)], t.byKey,
                if release then Without(t.reservations, id) else t.reservations,
                t.events + [Event(id, next)]), Ok)
  }

  function Cancel(t: Tables, id: AttemptId, now: int): (Tables, Outcome) {
    if id !in t.attempts then (t, NotFound)
    else
      var row := t.attempts[id];
      if row.state.Cancelled? then (t, Ok)
      else if !row.state.Planning? && !row.state.Reserved? then (t, StateConflict)
      else
        (Tables(t.attempts[id := row.(state := Cancelled, error := NO_ERROR, updated := now)], t.byKey,
                Without(t.reservations, id), t.events + [Event(id, Cancelled)]), Ok)
  }

  // ---------- The store ----------

  class Store {
    var attempts: map<AttemptId, Attempt>
    var byKey: map<Token, AttemptId>
    var reservations: map<NoteKey, AttemptId>
    var events: seq<Event>

    constructor ()
      ensures Contents() == NO_TABLES
    {
      attempts, byKey, reservations, events := map[], map[], map[], [];
    }

    function Contents(): Tables
      reads this
    {
      Tables(attempts, byKey, reservations, events)
    }

    method ClaimAttempt(id: AttemptId, key: Token, digest: Token, principal: Token, wallet: Token, approval: Token,
                        request: Token, now: int)
      returns (r: ClaimOutcome)
      modifies this
      ensures (Contents(), r) == Claim(old(Contents()), id, key, digest, principal, wallet, approval, request, now)
    {
      if id == EMPTY || key == EMPTY || digest == EMPTY || principal == EMPTY || wallet == EMPTY || approval == EMPTY
         || request == EMPTY {
        return Rejected;
      }
      if key in byKey {
        if byKey[key] in attempts && attempts[byKey[key]].digest == digest { return Replay; }
        return Conflict;
      }
      if id in attempts { return Rejected; }
      attempts := attempts[id := Attempt(key, digest, principal, wallet, approval, request, Planning, EMPTY, None,
          EMPTY, None, NO_ERROR, now)];
      byKey := byKey[key := id];
      events := events + [Event(id, Planning)];
      return Acquired;
    }

    method SetAttemptChangeAddress(id: AttemptId, address: Token, now: int) returns (r: Outcome)
      modifies `attempts
      ensures (Contents(), r) == SetChangeAddress(old(Contents()), id, address, now)
    {
      if address == EMPTY { return Invalid; }
      if id !in attempts { return NotFound; }
      var row := attempts[id];
      if row.changeAddress != EMPTY {
        if row.changeAddress == address { return Ok; }
        return StateConflict;
      }
      if !row.state.Planning? { return StateConflict; }
      attempts := attempts[id := row.(changeAddress := address, updated := now)];
      return Ok;
    }

    /** The sorted copy of a note list, and whether no note is empty or repeated. */
    static method CheckedNotes(raw: seq<NoteId>) returns (notes: seq<NoteId>, ok: bool)
      ensures notes == Sort(raw)
      ensures ok <==> EMPTY !in raw && Distinct(raw)
    {
      notes := Sort(raw);
      SortKeeps(raw);
      SortAscends(raw);
      NeighboursShowDuplicates(notes);
      var i := 0;
      while i < |notes|
        invariant 0 <= i <= |notes|
        invariant forall j :: 0 <= j < i ==> notes[j] != EMPTY
        invariant forall j :: 0 <= j < i - 1 ==> notes[j] != notes[j + 1]
      {
        if notes[i] == EMPTY || (i > 0 && notes[i] == notes[i - 1]) {
          assert notes[i] in raw;
          assert i > 0 && notes[i] == notes[i - 1] ==> notes[i - 1] == notes[i - 1 + 1];
          return notes, false;
        }
        i := i + 1;
      }
      return notes, true;
    }

    /** Inserts one reservation per note inside an open transaction; the first note that is already
        taken rolls every earlier insert back. */
    method InsertReservations(id: AttemptId, network: Token, wallet: Token, notes: seq<NoteId>) returns (inserted: bool)
      requires Distinct(notes)
      modifies `reservations
      ensures inserted <==> Keys(network, wallet, notes) !! old(reservations).Keys
      ensures reservations == if inserted then old(reservations) + Owned(Keys(network, wallet, notes), id)
              else old(reservations)
    {
      var before := reservations;
      ghost var done := {};
      var i := 0;
      while i < |notes|
        invariant 0 <= i <= |notes|
        invariant done == Keys(network, wallet, notes[..i])
        invariant done !! before.Keys
        invariant reservations == before + Owned(done, id)
      {
        var key := NoteKey(network, wallet, notes[i]);
        KeysGrow(network, wallet, notes, i);
        if key in reservations {
          assert key in before && key in Keys(network, wallet, notes);
          reservations := before;
          return false;
        }
        OwnedGrows(before, done, key, id);
        reservations := reservations[key := id];
        done := done + {key};
        i := i + 1;
      }
      assert notes[..i] == notes;
      return true;
    }

    method ReserveAttemptPlan(id: AttemptId, network: Token, plan: Plan, fee: Token, now: int) returns (r: Outcome)
      modifies this
      ensures (Contents(), r) == Reserve(old(Contents()), id, network, plan, fee, now)
    {
      if plan.bytes == EMPTY || plan.digest == EMPTY || fee == EMPTY || plan.expiry < 0 || |plan.notes| == 0 {
        return Invalid;
      }
      var notes, ok := CheckedNotes(plan.notes);
      if !ok { return Invalid; }
      if id !in attempts { return NotFound; }
      var row := attempts[id];
      if row.state.Reserved? && row.plan.Some? && row.plan.value.digest == plan.digest { return Ok; }
      if !row.state.Planning? { return StateConflict; }
      SortKeeps(plan.notes);
      assert Keys(network, row.wallet, notes) == Keys(network, row.wallet, plan.notes);
      var inserted := InsertReservations(id, network, row.wallet, notes);
      if !inserted { return NoteConflict; }
      attempts := attempts[id := row.(state := Reserved, plan := Some(plan.(notes := notes)), fee := fee,
                                      error := NO_ERROR, updated := now)];
      events := events + [Event(id, Reserved)];
      return Ok;
    }

    method BeginAttemptSigning(id: AttemptId, now: int) returns (r: Outcome)
      modifies `attempts, `events
      ensures (Contents(), r) == BeginSigning(old(Contents()), id, now)
    {
      if id !in attempts { return NotFound; }
      var row := attempts[id];
      match row.state {
        case Signing => return Ok;
        case SigningUnknown => return Ok;
        case Reserved =>
        case _ => return StateConflict;
      }
      attempts := attempts[id := row.(state := Signing, error := NO_ERROR, updated := now)];
      events := events + [Event(id, Signing)];
      return Ok;
    }

    method CompleteAttemptSigning(id: AttemptId, signature: Signature, fee: Token, now: int) returns (r: Outcome)
      modifies `attempts, `events
      ensures (Contents(), r) == CompleteSigning(old(Contents()), id, signature, fee, now)
    {
      if id !in attempts { return NotFound; }
      var row := attempts[id];
      if row.state.Signed? && row.signature.Some? && row.signature.value.tx == signature.tx
         && row.signature.value.raw == signature.raw {
        return Ok;
      }
      if !row.state.Signing? && !row.state.SigningUnknown? { return StateConflict; }
      attempts := attempts[id := row.(state := Signed, signature := Some(signature), fee := fee, error := NO_ERROR,
          updated := now)];
      events := events + [Event(id, Signed)];
      return Ok;
    }

    method MarkAttemptState(id: AttemptId, next: State, error: Error, release: bool, now: int) returns (r: Outcome)
      modifies `attempts, `reservations, `events
      ensures (Contents(), r) == Mark(old(Contents()), id, next, error, release, now)
    {
      if id !in attempts { return NotFound; }
      var row := attempts[id];
      if !Allowed(row.state, next) { return StateConflict; }
      if release && !SafeRelease(row.state, next) { return StateConflict; }
      if row.state == next && row.error == error {
        attempts := attempts[id := row.(updated := now)];
        return Ok;
      }
      if release { reservations := Without(reservations, id); }
      attempts := attempts[id := row.(state := next, error := error, updated := now)];
      events := events + [Event(id, next)];
      return Ok;
    }

    method CancelAttempt(id: AttemptId, now: int) returns (r: Outcome)
      modifies `attempts, `reservations, `events
      ensures (Contents(), r) == Cancel(old(Contents()), id, now)
    {
      if id !in attempts { return NotFound; }
      var row := attempts[id];
      if row.state.Cancelled? { return Ok; }
      if !row.state.Planning? && !row.state.Reserved? { return StateConflict; }
      reservations := Without(reservations, id);
      attempts := attempts[id := row.(state := Cancelled, error := NO_ERROR, updated := now)];
      events := events + [Event(id, Cancelled)];
      return Ok;
    }
  }
}
