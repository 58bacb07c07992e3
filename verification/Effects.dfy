/**
 The effects of one transaction on one wallet: every page of its events is read, up to a safety cap, with
 room for one event more so that a longer list is noticed and never cut.
 */
module Effects {
  import opened Common
  import opened Events

  const PAGE := 1000

  datatype Outcome =
    | Complete(effects: seq<Event>) | LimitExceeded | CursorReset | Unavailable | Invalid | StateLookupFailed

  /** The effect keeps the event; a deposit to a registered address carries the ledger's index. */
  function EffectOf(book: Book, e: Event): Event {
    if e.kind.Deposit? && Bind(book, e).Registered? then e.(index := Some(Bind(book, e).index)) else e
  }

  function All(book: Book, s: seq<Event>): (r: seq<Event>)
    ensures |r| == |s| && forall i | 0 <= i < |s| :: r[i] == EffectOf(book, s[i])
  {
    if s == [] then [] else All(book, s[..|s| - 1]) + [EffectOf(book, s[|s| - 1])]
  }

  predicate Acceptable(book: Book, txid: Token, e: Event) {
    && Sanitary(e, txid)
    && (e.kind.Deposit? ==> Bind(book, e).Registered? || (Bind(book, e).Unregistered? && e.index.Some?))
  }

  /** A sound event of the transaction; a deposit carries an index, the ledger's if the ledger knows its address. */
  predicate Belongs(book: Book, txid: Token, e: Event) {
    && e.id > 0 && e.sound && !e.kind.Unsupported? && (txid == EMPTY || e.txid == txid)
    && (e.kind.Deposit? ==>
          && e.action.Some? && e.amount.Some? && e.height.Some? && e.index.Some? && e.address !in book.unreadable
          && (e.address in book.known ==> e.index.value == book.known[e.address]))
  }

  /** The effect of an accepted event is the event itself; only the index of a deposit to a registered address is
      filled in from the ledger, and it is never one the scanner contradicts. */
  lemma EffectIsTheEvent(book: Book, txid: Token, e: Event)
    requires Acceptable(book, txid, e)
    ensures Belongs(book, txid, EffectOf(book, e))
    ensures EffectOf(book, e) == e.(index := if e.kind.Deposit? && e.address in book.known then
                                               Some(book.known[e.address]) else e.index)
    ensures e.kind.Deposit? && e.index.Some? ==> EffectOf(book, e) == e
  {
  }

  /** An event is accepted exactly when it is sound and of the transaction and, for a deposit, the scanner's index is
      the ledger's (an omitted one means 0), or there is one and the ledger does not know the address. */
  lemma AcceptableExactlyWhen(book: Book, txid: Token, e: Event)
    ensures Acceptable(book, txid, e) <==>
              && e.id > 0 && e.sound && !e.kind.Unsupported? && (txid == EMPTY || e.txid == txid)
              && (e.kind.Deposit? ==>
                    && e.action.Some? && e.amount.Some? && e.height.Some? && e.address !in book.unreadable
                    && if e.address in book.known then
                         book.known[e.address] == if e.index.Some? then e.index.value else 0
                       else e.index.Some?)
  {
  }

  ghost predicate AllBelong(book: Book, txid: Token, effects: seq<Event>) {
    forall i | 0 <= i < |effects| :: Belongs(book, txid, effects[i])
  }

  lemma AcceptableBelong(book: Book, txid: Token, effects: seq<Event>, events: seq<Event>)
    requires AllBelong(book, txid, effects) && forall i | 0 <= i < |events| :: Acceptable(book, txid, events[i])
    ensures AllBelong(book, txid, effects + All(book, events))
  {
    forall i | 0 <= i < |events| ensures Belongs(book, txid, All(book, events)[i]) {
      EffectIsTheEvent(book, txid, events[i]);
    }
  }

  /** The events follow the position in increasing order. */
  predicate Follows(events: seq<Event>, position: int) {
    && (forall i | 0 <= i < |events| :: events[i].id > position)
    && (forall i, j | 0 <= i < j < |events| :: events[i].id < events[j].id)
  }

  function LastId(events: seq<Event>, position: int): int {
    if events == [] then position else events[|events| - 1].id
  }

  /** One event; it is refused exactly when it does not move on or is not acceptable. */
  method TakeEvent(book: Book, txid: Token, e: Event, position: int) returns (error: Option<Outcome>, effect: Event)
    ensures error.None? <==> e.id > position && Acceptable(book, txid, e)
    ensures error.None? ==> effect == EffectOf(book, e)
    ensures error.Some? ==> !error.value.Complete?
  {
    effect := e;
    if e.id <= position { return Some(Invalid), effect; }
    if !Sanitary(e, txid) { return Some(Invalid), effect; }
    if e.kind.Deposit? {
      var identity := Bind(book, e);
      if identity.Unreadable? { return Some(StateLookupFailed), effect; }
      if identity.Mismatched? { return Some(Invalid), effect; }
      if identity.Registered? { effect := e.(index := Some(identity.index)); }
      if identity.Unregistered? && effect.index.None? { return Some(Invalid), effect; }
    }
    error := None;
  }

  lemma AllOne(book: Book, events: seq<Event>, i: nat)
    requires i < |events|
    ensures All(book, events[..i + 1]) == All(book, events[..i]) + [EffectOf(book, events[i])]
  {
    assert events[..i + 1][..i] == events[..i];
  }

  lemma FollowsOne(events: seq<Event>, i: nat, start: int)
    requires i < |events| && Follows(events[..i], start) && events[i].id > LastId(events[..i], start)
    ensures Follows(events[..i + 1], start) && LastId(events[..i + 1], start) == events[i].id
  {
  }

  /** One page. Without an error all of it was taken, in order and within the cap. */
  method TakePage(book: Book, txid: Token, cap: nat, events: seq<Event>, taken: seq<Event>, start: int)
    returns (error: Option<Outcome>, effects: seq<Event>, position: int)
    requires |taken| <= cap
    ensures error.None? ==>
            effects == taken + All(book, events) && |effects| <= cap && position == LastId(events, start)
            && Follows(events, start) && forall i | 0 <= i < |events| :: Acceptable(book, txid, events[i])
    ensures error.Some? ==> !error.value.Complete?
    ensures Follows(events, start) && (forall i | 0 <= i < |events| :: Acceptable(book, txid, events[i])) ==>
              error == if |taken| + |events| <= cap then None else Some(LimitExceeded)
  {
    error, effects, position := None, taken, start;
    var i := 0;
    while i < |events|
      invariant 0 <= i <= |events| && |taken| + i <= cap && error.None?
      invariant effects == taken + All(book, events[..i])
      invariant position == LastId(events[..i], start) && Follows(events[..i], start)
      invariant forall k | 0 <= k < i :: Acceptable(book, txid, events[k])
    {
      var effect: Event;
      error, effect := TakeEvent(book, txid, events[i], position);
      if error.Some? {
        assert i > 0 ==> position == events[i - 1].id;
        return;
      }
      AllOne(book, events, i);
      FollowsOne(events, i, start);
      position := events[i].id;
      effects := effects + [effect];
      i := i + 1;
      if |effects| > cap {
        error := Some(LimitExceeded);
        return;
      }
    }
    assert events[..i] == events;
  }

  // ---------- Scanners ----------

  /** The answer to the k-th read at a position with a limit. */
  type Scanner = (nat, int, nat) -> Option<Page>

  ghost predicate GoodStream(book: Book, txid: Token, s: seq<Event>) {
    Ordered(s) && forall i | 0 <= i < |s| :: Acceptable(book, txid, s[i])
  }

  ghost predicate GoodStreams(book: Book, txid: Token, streams: nat -> seq<Event>) {
    && (forall k: nat :: GoodStream(book, txid, streams(k)))
    && (forall k: nat, l: nat | k <= l :: streams(k) <= streams(l))
  }

  /** At the k-th read the transaction's events are streams(k), which only ever grows at its end. */
  ghost predicate Honest(book: Book, txid: Token, epoch: Token, scanner: Scanner, streams: nat -> seq<Event>) {
    && GoodStreams(book, txid, streams)
    && (forall k: nat, position, limit: nat | limit >= 1 ::
       HonestAt(epoch, scanner(k, position, limit), streams(k), position, limit))
  }

  predicate HonestAt(epoch: Token, answer: Option<Page>, s: seq<Event>, position: int, limit: nat)
    requires Ordered(s)
  {
    answer.Some? && answer.value.epoch == epoch && AnswersFully(s, position, limit, answer.value)
  }

  /** What has been taken is the beginning of the stream, and the position is its last event. */
  predicate Taken(book: Book, s: seq<Event>, effects: seq<Event>, position: int) {
    |effects| <= |s| && effects == All(book, s[..|effects|]) && position == LastId(s[..|effects|], 0)
  }

  lemma TakenStays(book: Book, s: seq<Event>, s': seq<Event>, effects: seq<Event>, position: int)
    requires Taken(book, s, effects, position) && s <= s'
    ensures Taken(book, s', effects, position)
  {
    assert s'[..|effects|] == s[..|effects|];
  }

  lemma TakenPassed(book: Book, s: seq<Event>, effects: seq<Event>, position: int)
    requires Ordered(s) && Taken(book, s, effects, position)
    ensures Passed(s, position) == |effects|
  {
    PassedIs(s, position, |effects|);
  }

  lemma SliceFollows(book: Book, txid: Token, s: seq<Event>, n: nat, m: nat)
    requires Ordered(s) && n <= m <= |s| && forall i | 0 <= i < |s| :: Acceptable(book, txid, s[i])
    ensures Follows(s[n..m], LastId(s[..n], 0)) && forall i | 0 <= i < m - n :: Acceptable(book, txid, s[n..m][i])
  {
    assert forall i | 0 <= i < m - n :: s[n..m][i] == s[n + i];
    assert n > 0 ==> LastId(s[..n], 0) == s[n - 1].id;
  }

  /** The page is the next stretch of the stream, as long as the limit allows. */
  predicate NextStretch(book: Book, txid: Token, s: seq<Event>, n: nat, position: int, limit: nat, page: Page) {
    && n + |page.events| <= |s| && page.events == s[n..n + |page.events|] && |page.events| == Min(limit, |s| - n)
    && Follows(page.events, position) && (forall i | 0 <= i < |page.events| :: Acceptable(book, txid, page.events[i]))
    && page.next == LastId(page.events, position)
  }

  /** An honest page holds the events from where the cursor stands. */
  lemma PageIsSlice(book: Book, s: seq<Event>, effects: seq<Event>, position: int, limit: nat, page: Page)
    requires Ordered(s) && Taken(book, s, effects, position) && AnswersFully(s, position, limit, page)
    ensures |page.events| == Min(limit, |s| - |effects|)
    ensures page.events == s[|effects|..|effects| + |page.events|] && page.next == LastId(page.events, position)
  {
    TakenPassed(book, s, effects, position);
  }

  /** An honest page is the next stretch. */
  lemma PageContinues(book: Book, txid: Token, s: seq<Event>, effects: seq<Event>, position: int, limit: nat,
                      page: Page)
    requires GoodStream(book, txid, s) && Taken(book, s, effects, position) && AnswersFully(s, position, limit, page)
    ensures NextStretch(book, txid, s, |effects|, position, limit, page)
  {
    PageIsSlice(book, s, effects, position, limit, page);
    SliceFollows(book, txid, s, |effects|, |effects| + |page.events|);
  }

  lemma AllJoins(book: Book, s: seq<Event>, t: seq<Event>)
    ensures All(book, s + t) == All(book, s) + All(book, t)
  {
  }

  lemma Join(s: seq<Event>, n: nat, m: nat)
    requires n <= m <= |s|
    ensures s[..m] == s[..n] + s[n..m] && LastId(s[..m], 0) == LastId(s[n..m], LastId(s[..n], 0))
  {
  }

  lemma TakenGrows(book: Book, s: seq<Event>, effects: seq<Event>, position: int, events: seq<Event>)
    requires Taken(book, s, effects, position) && |effects| + |events| <= |s|
             && events == s[|effects|..|effects| + |events|]
    ensures Taken(book, s, effects + All(book, events), LastId(events, position))
  {
    var n, m := |effects|, |effects| + |events|;
    Join(s, n, m);
    AllJoins(book, s[..n], events);
    var grown := effects + All(book, events);
    assert |grown| == m && grown == All(book, s[..m]);
  }

  /** What taking the next stretch means for the stream: a full page leaves its beginning taken, a short one
      all of it, and the cap is exceeded only by a stream that is too long. */
  lemma StretchTaken(book: Book, txid: Token, s: seq<Event>, cap: nat, taken: seq<Event>, start: int, limit: nat,
                     page: Page)
    requires Taken(book, s, taken, start) && NextStretch(book, txid, s, |taken|, start, limit, page)
    ensures Taken(book, s, taken + All(book, page.events), LastId(page.events, start))
    ensures |page.events| < limit ==> |taken + All(book, page.events)| == |s|
    ensures |taken| + |page.events| > cap ==> |s| > cap
  {
    TakenGrows(book, s, taken, start, page.events);
  }

  /** Takes the answer to one read. `last` says that the page came up short, so there is nothing beyond it.
      When s is the stream and the answer is honest, a read ends in the limit error only if s is too long. */
  method TakeAnswer(book: Book, txid: Token, epoch: Token, cap: nat, answer: Option<Page>, limit: nat,
                    taken: seq<Event>, start: int, ghost honest: bool, ghost s: seq<Event>)
    returns (error: Option<Outcome>, effects: seq<Event>, position: int, last: bool)
    requires |taken| <= cap && limit == Min(PAGE, cap + 1 - |taken|) && Follows(taken, 0) && start == LastId(taken, 0)
    requires honest ==>
               GoodStream(book, txid, s) && HonestAt(epoch, answer, s, start, limit) && Taken(book, s, taken, start)
    ensures error.None? ==>
              |effects| <= cap && Follows(effects, 0) && position == LastId(effects, 0) && (last || |effects| > |taken|)
    ensures error.None? && AllBelong(book, txid, taken) ==> AllBelong(book, txid, effects)
    ensures error.Some? ==> !error.value.Complete?
    ensures honest && error.None? ==> Taken(book, s, effects, position) && (last ==> |effects| == |s|)
    ensures honest && error.Some? ==> error.value.LimitExceeded? && |s| > cap
  {
    error, effects, position, last := None, taken, start, false;
    if answer.None? { return Some(Unavailable), effects, position, last; }
    var page := answer.value;
    if page.epoch != epoch { return Some(CursorReset), effects, position, last; }
    if !Consistent(page, start) { return Some(Invalid), effects, position, last; }
    if honest {
      PageContinues(book, txid, s, taken, start, limit, page);
      StretchTaken(book, txid, s, cap, taken, start, limit, page);
    }
    error, effects, position := TakePage(book, txid, cap, page.events, taken, start);
    if error.Some? { return; }
    if page.next != position { return Some(Invalid), effects, position, last; }
    last := |page.events| < limit;
    if AllBelong(book, txid, taken) { AcceptableBelong(book, txid, taken, page.events); }
    JoinFollows(book, taken, start, page.events);
  }

  lemma HonestlyAnswered(book: Book, txid: Token, epoch: Token, scanner: Scanner, streams: nat -> seq<Event>, k: nat,
                         position: int, limit: nat)
    requires Honest(book, txid, epoch, scanner, streams) && limit >= 1
    ensures GoodStream(book, txid, streams(k))
            && HonestAt(epoch, scanner(k, position, limit), streams(k), position, limit)
    ensures streams(k) <= streams(k + 1)
  {
  }

  /** Against any scanner at all this ends, with at most `cap` effects in increasing order, all of them sound
      events of the transaction under the ledger's indices. Against an honest one it returns every event the
      transaction has at the last read, in order, when there are at most `cap` of them, and the limit error
      otherwise: never a part of the list. */
  method WalletEffects(book: Book, txid: Token, epoch: Token, cap: nat, scanner: Scanner,
                       ghost streams: nat -> seq<Event>)
    returns (r: Outcome, visits: nat)
    requires cap >= 1
    ensures visits >= 1
    ensures r.Complete? ==> |r.effects| <= cap && Follows(r.effects, 0) && AllBelong(book, txid, r.effects)
    ensures Honest(book, txid, epoch, scanner, streams) ==>
              r == if |streams(visits - 1)| <= cap then Complete(All(book, streams(visits - 1))) else LimitExceeded
  {
    var effects: seq<Event>, position := [], 0;
    ghost var honest := Honest(book, txid, epoch, scanner, streams);
    visits := 0;
    while true
      invariant |effects| <= cap && Follows(effects, 0) && position == LastId(effects, 0)
      invariant AllBelong(book, txid, effects)
      invariant honest ==> Taken(book, streams(visits), effects, position)
      decreases cap + 1 - |effects|
    {
      var pageLimit := PAGE;
      var remainingWithProbe := cap + 1 - |effects|;
      if remainingWithProbe < pageLimit { pageLimit := remainingWithProbe; }
      var answer := scanner(visits, position, pageLimit);
      ghost var s := streams(visits);
      if honest { HonestlyAnswered(book, txid, epoch, scanner, streams, visits, position, pageLimit); }
      visits := visits + 1;
      var error: Option<Outcome>, last: bool;
      error, effects, position, last :=
        TakeAnswer(book, txid, epoch, cap, answer, pageLimit, effects, position, honest, s);
      if error.Some? { return error.value, visits; }
      if last {
        assert honest ==> s[..|effects|] == s;
        return Complete(effects), visits;
      }
      if honest { TakenStays(book, s, streams(visits), effects, position); }
    }
  }

  lemma JoinFollows(book: Book, effects: seq<Event>, position: int, events: seq<Event>)
    requires Follows(effects, 0) && position == LastId(effects, 0) && Follows(events, position)
    ensures Follows(effects + All(book, events), 0)
            && LastId(effects + All(book, events), 0) == LastId(events, position)
  {
    assert forall i | 0 <= i < |effects| :: effects[i].id <= position;
  }
}
