/**
 The deposit listing: one page of scanner events per request, checked, filtered down to the wallet's
 registered addresses and the caller's filters, and cut at the caller's limit.
 */
module Deposits {
  import opened Common
  import opened Events

  const PAGE := 1000

  datatype Item = Item(event: int, txid: Token, action: nat, address: Token, index: nat, amount: nat, status: Status,
      height: int)

  /** The caller's filters and the ledger they are answered from. */
  datatype Query = Query(status: Option<Status>, address: Token, book: Book)

  datatype Response = Served(items: seq<Item>, next: int) | CursorReset | BadGateway | Internal | NotReady

  predicate Selected(q: Query, e: Event) {
    e.kind.Deposit? && (q.status.Some? ==> q.status.value == e.kind.status)
        && (q.address != EMPTY ==> e.address == q.address)
  }

  function ItemOf(e: Event, index: nat): Item
    requires e.kind.Deposit? && e.action.Some? && e.amount.Some? && e.height.Some?
  {
    Item(e.id, e.txid, e.action.value, e.address, index, e.amount.value, e.kind.status, e.height.value)
  }

  function Prepend(item: Item, r: Response): Response {
    if r.Served? then r.(items := [item] + r.items) else r
  }

  function After(items: seq<Item>, r: Response): Response {
    if r.Served? then r.(items := items + r.items) else r
  }

  /** Reads events in order until `room` of them are listed. */
  function Read(q: Query, events: seq<Event>, next: int, room: nat): Response {
    if events == [] then Served([], next)
    else
      var e := events[0];
      if e.id <= next || !Sanitary(e, EMPTY) || !e.kind.Deposit? then BadGateway
      else
        match Bind(q.book, e)
        case Unreadable => Internal
        case Mismatched => BadGateway
        case Unregistered => Read(q, events[1..], e.id, room)
        case Registered(index) =>
          if !Selected(q, e) then Read(q, events[1..], e.id, room)
          else if room <= 1 then Served([ItemOf(e, index)], e.id)
          else Prepend(ItemOf(e, index), Read(q, events[1..], e.id, room - 1))
  }

  function Serve(q: Query, position: int, limit: nat, epoch: Token, answer: Option<Page>): Response {
    if answer.None? then NotReady
    else if answer.value.epoch != epoch then CursorReset
    else if answer.value.next < position || !Consistent(answer.value, position) then BadGateway
    else
      var r := Read(q, answer.value.events, position, limit);
      if r.Served? && answer.value.next < r.next then BadGateway else r
  }

  method HandleDeposits(q: Query, position: int, limit: nat, epoch: Token, answer: Option<Page>) returns (r: Response)
    requires 1 <= limit <= 1000
    ensures r == Serve(q, position, limit, epoch, answer)
  {
    if answer.None? { return NotReady; }
    var page := answer.value;
    if page.epoch != epoch { return CursorReset; }
    if page.next < position { return BadGateway; }
    if !Consistent(page, position) { return BadGateway; }
    r := ListEvents(q, page, position, limit);
    if !r.Served? { return; }
    var items, next := r.items, r.next;
    if |items| < limit && page.events == [] { next := page.next; }
    if |items| < limit && page.events != [] && next == page.events[|page.events| - 1].id { next := page.next; }
    if page.next < next { return BadGateway; }
    return Served(items, next);
  }

  method ListEvents(q: Query, page: Page, position: int, limit: nat) returns (r: Response)
    requires limit >= 1
    ensures r == Read(q, page.events, position, limit)
    ensures r.Served? && page.events == [] ==> r.next == position
  {
    var items: seq<Item>, next := [], position;
    var i := 0;
    while i < |page.events|
      invariant 0 <= i <= |page.events| && |items| < limit
      invariant Read(q, page.events, position, limit) == After(items, Read(q, page.events[i..], next, limit - |items|))
      invariant i == 0 ==> next == position
    {
      var e := page.events[i];
      assert page.events[i..][1..] == page.events[i + 1..];
      if e.id <= next { return BadGateway; }
      if !Sanitary(e, EMPTY) { return BadGateway; }
      if !e.kind.Deposit? { return BadGateway; }
      next := e.id;
      var identity := Bind(q.book, e);
      if identity.Unreadable? { return Internal; }
      if identity.Mismatched? { return BadGateway; }
      i := i + 1;
      if identity.Unregistered? { continue; }
      if q.status.Some? && e.kind.status != q.status.value { continue; }
      if q.address != EMPTY && e.address != q.address { continue; }
      if e.action.None? || e.amount.None? || e.height.None? { return BadGateway; }
      var item := ItemOf(e, identity.index);
      if |items| + 1 == limit { return Served(items + [item], next); }
      AfterPrepend(items, item, Read(q, page.events[i..], next, limit - |items| - 1));
      items := items + [item];
    }
    return Served(items, next);
  }

  lemma AfterPrepend(items: seq<Item>, item: Item, r: Response)
    ensures After(items, Prepend(item, r)) == After(items + [item], r)
  {
    assert r.Served? ==> items + ([item] + r.items) == items + [item] + r.items;
  }

  // ---------- The plain filter ----------

  /** Every registered event the filters select, once each and in order. */
  function Matches(q: Query, s: seq<Event>): seq<Item> {
    if s == [] then []
    else
      var e := s[|s| - 1];
      Matches(q, s[..|s| - 1]) +
      if Bind(q.book, e).Registered? && Selected(q, e) && Sanitary(e, EMPTY) then [ItemOf(e, Bind(q.book, e).index)]
         else []
  }

  lemma {:induction false} MatchesSplit(q: Query, a: seq<Event>, b: seq<Event>)
    ensures Matches(q, a + b) == Matches(q, a) + Matches(q, b)
  {
    if b == [] {
      assert a + b == a;
    } else {
      assert (a + b)[..|a + b| - 1] == a + b[..|b| - 1];
      MatchesSplit(q, a, b[..|b| - 1]);
    }
  }

  /** An event an honest scanner reports for this wallet: sound, a deposit, and its index is the ledger's. */
  predicate Clean(q: Query, e: Event) {
    Sanitary(e, EMPTY) && e.kind.Deposit? && (Bind(q.book, e).Unregistered? || Bind(q.book, e).Registered?)
  }

  predicate CleanStream(q: Query, s: seq<Event>) {
    Ordered(s) && forall i | 0 <= i < |s| :: Clean(q, s[i])
  }

  lemma MatchesOne(q: Query, e: Event)
    requires Clean(q, e)
    ensures Matches(q, [e]) == if Bind(q.book, e).Registered? && Selected(q, e) then [ItemOf(e, Bind(q.book, e).index)]
            else []
  {
    assert [e][..0] == [];
  }

  lemma MatchesFirst(q: Query, s: seq<Event>, m: nat)
    requires s != [] && m <= |s| - 1 && Clean(q, s[0])
    ensures Matches(q, s[..m + 1]) == Matches(q, [s[0]]) + Matches(q, s[1..][..m])
  {
    assert s[..m + 1] == [s[0]] + s[1..][..m];
    MatchesSplit(q, [s[0]], s[1..][..m]);
  }

  lemma CleanRest(q: Query, s: seq<Event>)
    requires CleanStream(q, s) && s != []
    ensures CleanStream(q, s[1..]) && Clean(q, s[0]) && (|s| > 1 ==> s[0].id < s[1..][0].id)
  {
    assert forall i | 0 <= i < |s[1..]| :: s[1..][i] == s[i + 1];
  }

  predicate Listed(q: Query, e: Event) { Bind(q.book, e).Registered? && Selected(q, e) }

  lemma ReadFirst(q: Query, s: seq<Event>, next: int, room: nat)
    requires s != [] && Clean(q, s[0]) && next < s[0].id
    ensures Read(q, s, next, room) ==
              if !Listed(q, s[0]) then Read(q, s[1..], s[0].id, room)
              else if room <= 1 then Served([ItemOf(s[0], Bind(q.book, s[0]).index)], s[0].id)
              else Prepend(ItemOf(s[0], Bind(q.book, s[0]).index), Read(q, s[1..], s[0].id, room - 1))
  {
  }

  lemma LastOf(s: seq<Event>, m: nat)
    requires s != [] && m <= |s[1..]|
    ensures s[m].id == if m == 0 then s[0].id else s[1..][m - 1].id
  {
  }

  /** Reading passes n events and lists the matches among them; fewer than asked for only when it passes all. */
  predicate ReadsTo(q: Query, s: seq<Event>, next: int, room: nat, n: nat) {
    && n <= |s| && (s != [] ==> n > 0)
    && Read(q, s, next, room) == Served(Matches(q, s[..n]), if n == 0 then next else s[n - 1].id)
    && |Matches(q, s[..n])| <= room && (|Matches(q, s[..n])| < room ==> n == |s|)
  }

  lemma ReadStops(q: Query, s: seq<Event>, next: int)
    requires s != [] && Clean(q, s[0]) && next < s[0].id && Listed(q, s[0])
    ensures ReadsTo(q, s, next, 1, 1)
  {
    MatchesOne(q, s[0]);
    assert s[..1] == [s[0]];
  }

  lemma ReadGoesOn(q: Query, s: seq<Event>, next: int, room: nat, m: nat)
    requires s != [] && Clean(q, s[0]) && next < s[0].id && room >= 1 && (Listed(q, s[0]) ==> room > 1)
    requires ReadsTo(q, s[1..], s[0].id, if Listed(q, s[0]) then room - 1 else room, m)
    ensures ReadsTo(q, s, next, room, m + 1)
  {
    MatchesOne(q, s[0]);
    ReadFirst(q, s, next, room);
    MatchesFirst(q, s, m);
    LastOf(s, m);
  }

  /** Reading a clean run of events lists exactly the matches among those it passes. */
  lemma {:induction false} ReadLists(q: Query, s: seq<Event>, next: int, room: nat) returns (n: nat)
    requires CleanStream(q, s) && room >= 1 && (s != [] ==> next < s[0].id)
    ensures ReadsTo(q, s, next, room, n)
  {
    if s == [] {
      n := 0;
    } else if Listed(q, s[0]) && room == 1 {
      n := 1;
      CleanRest(q, s);
      ReadStops(q, s, next);
    } else {
      CleanRest(q, s);
      var m := ReadLists(q, s[1..], s[0].id, if Listed(q, s[0]) then room - 1 else room);
      ReadGoesOn(q, s, next, room, m);
      n := m + 1;
    }
  }

  // ---------- Following next_cursor ----------

  /** One request of a caller that follows next_cursor: its limit, the stream the scanner had by then and
      the page it answered with. */
  datatype Visit = Visit(limit: nat, stream: seq<Event>, page: Page)

  /** What the caller holds after the first n requests. */
  function Follow(q: Query, epoch: Token, visits: seq<Visit>, n: nat): Response
    requires n <= |visits|
  {
    if n == 0 then Served([], 0)
    else
      var was := Follow(q, epoch, visits, n - 1);
      if was.Served? then After(was.items, Serve(q, was.next, visits[n - 1].limit, epoch, Some(visits[n - 1].page)))
         else was
  }

  /** The page is an honest answer, at the cursor, from a clean stream. */
  predicate HonestVisit(q: Query, epoch: Token, v: Visit, next: int) {
    CleanStream(q, v.stream) && 1 <= v.limit <= 1000 && v.page.epoch == epoch && Answers(v.stream, next, PAGE, v.page)
  }

  /** Every page is an honest answer at the cursor reached, and streams grow by appending only. */
  predicate Honest(q: Query, epoch: Token, visits: seq<Visit>) {
    forall n | 0 <= n < |visits| :: HonestAt(q, epoch, visits, n)
  }

  predicate HonestAt(q: Query, epoch: Token, visits: seq<Visit>, n: nat)
    requires n < |visits|
  {
    var was := Follow(q, epoch, visits, n);
    && was.Served? && HonestVisit(q, epoch, visits[n], was.next)
    && (n > 0 ==> visits[n - 1].stream <= visits[n].stream)
  }

  /** One visit at a cursor that has passed c events lists the matches among the next ones. */
  lemma VisitLists(q: Query, epoch: Token, v: Visit, next: int) returns (n: nat)
    requires HonestVisit(q, epoch, v, next)
    ensures var c := Passed(v.stream, next);
            && c <= n <= |v.stream| && (c < |v.stream| ==> c < n)
            && Serve(q, next, v.limit, epoch, Some(v.page))
               == Served(Matches(q, v.stream[c..n]), if n == c then next else v.stream[n - 1].id)
  {
    PageIsClean(q, v.stream, next, v.page);
    var m := ReadLists(q, v.page.events, next, v.limit);
    PageSlice(v.stream, next, v.page, m);
    ServeReads(q, epoch, v, next, m);
    n := Passed(v.stream, next) + m;
  }

  lemma ServeReads(q: Query, epoch: Token, v: Visit, next: int, m: nat)
    requires v.page.epoch == epoch && Consistent(v.page, next) && v.page.next >= next
             && ReadsTo(q, v.page.events, next, v.limit, m)
    requires m > 0 ==> v.page.events[m - 1].id <= v.page.next
    ensures Serve(q, next, v.limit, epoch, Some(v.page))
            == Served(Matches(q, v.page.events[..m]), if m == 0 then next else v.page.events[m - 1].id)
  {
  }

  lemma PageSlice(s: seq<Event>, next: int, page: Page, m: nat)
    requires Ordered(s) && Answers(s, next, PAGE, page) && m <= |page.events|
    ensures var c := Passed(s, next); c + m <= |s| && page.events[..m] == s[c..c + m]
    ensures m > 0 ==> page.events[m - 1] == s[Passed(s, next) + m - 1] && page.events[m - 1].id <= page.next
  {
    var c := Passed(s, next);
    SliceOfSlice(s, c, |page.events|, m);
    if m > 0 { EventAt(s, next, page, m - 1); }
  }

  lemma SliceOfSlice(s: seq<Event>, c: nat, n: nat, m: nat)
    requires c + n <= |s| && m <= n
    ensures s[c..c + n][..m] == s[c..c + m]
  {
  }

  predicate PageAt(s: seq<Event>, next: int, page: Page, i: nat)
    requires Ordered(s) && i < |page.events|
  {
    Passed(s, next) + i < |s| && page.events[i] == s[Passed(s, next) + i] && next < page.events[i].id <= page.next
  }

  lemma EventAt(s: seq<Event>, next: int, page: Page, i: nat)
    requires Ordered(s) && Answers(s, next, PAGE, page) && i < |page.events|
    ensures PageAt(s, next, page, i)
  {
    var c := Passed(s, next);
    var last := |page.events| - 1;
    assert page.events[last] == s[c + last] && page.events[i] == s[c + i];
  }

  lemma EventsAt(s: seq<Event>, next: int, page: Page)
    requires Ordered(s) && Answers(s, next, PAGE, page)
    ensures forall i | 0 <= i < |page.events| :: PageAt(s, next, page, i)
    ensures page.next >= next
  {
    forall i | 0 <= i < |page.events| ensures PageAt(s, next, page, i) { EventAt(s, next, page, i); }
    assert page.events != [] ==> PageAt(s, next, page, 0);
  }

  /** An honest page is itself a clean stream beyond the cursor. */
  lemma PageIsClean(q: Query, s: seq<Event>, next: int, page: Page)
    requires CleanStream(q, s) && Answers(s, next, PAGE, page)
    ensures CleanStream(q, page.events) && page.next >= next
    ensures forall i | 0 <= i < |page.events| :: PageAt(s, next, page, i)
  {
    EventsAt(s, next, page);
    var c, events := Passed(s, next), page.events;
    forall i, j | 0 <= i < j < |events| ensures events[i].id < events[j].id {
      assert PageAt(s, next, page, i) && PageAt(s, next, page, j);
    }
    forall i | 0 <= i < |events| ensures Clean(q, events[i]) && events[i].id > 0 {
      assert PageAt(s, next, page, i);
    }
  }

  lemma VisitExtends(q: Query, epoch: Token, v: Visit, items: seq<Item>, next: int)
    requires HonestVisit(q, epoch, v, next)
    requires items == Matches(q, v.stream[..Passed(v.stream, next)])
    ensures var r := Serve(q, next, v.limit, epoch, Some(v.page));
            && r.Served? && items + r.items == Matches(q, v.stream[..Passed(v.stream, r.next)])
            && r.next >= next && (v.page.events != [] ==> r.next > next)
            && (v.page.events == [] ==> items + r.items == Matches(q, v.stream))
  {
    var n := VisitLists(q, epoch, v, next);
    MatchesExtend(q, v.stream, Passed(v.stream, next), n);
    CursorAt(v.stream, next, n);
    assert v.page.events == [] <==> Passed(v.stream, next) == |v.stream|;
    assert v.stream[..|v.stream|] == v.stream;
  }

  lemma MatchesExtend(q: Query, s: seq<Event>, c: nat, n: nat)
    requires c <= n <= |s|
    ensures Matches(q, s[..c]) + Matches(q, s[c..n]) == Matches(q, s[..n])
  {
    MatchesSplit(q, s[..c], s[c..n]);
    assert s[..c] + s[c..n] == s[..n];
  }

  lemma CursorAt(s: seq<Event>, next: int, n: nat)
    requires Ordered(s) && Passed(s, next) <= n <= |s|
    ensures var c := Passed(s, next); var at := if n == c then next else s[n - 1].id;
            Passed(s, at) == n && at >= next && (n > c ==> at > next)
  {
    if n > Passed(s, next) { PassedIs(s, s[n - 1].id, n); }
  }

  predicate OnAnEvent(s: seq<Event>, next: int)
    requires Ordered(s)
  {
    next == if Passed(s, next) == 0 then 0 else s[Passed(s, next) - 1].id
  }

  lemma StaysOnAnEvent(s: seq<Event>, s': seq<Event>, next: int)
    requires Ordered(s) && Ordered(s') && s <= s' && OnAnEvent(s, next)
    ensures OnAnEvent(s', next) && Passed(s', next) == Passed(s, next)
  {
    assert forall i | 0 <= i < |s| :: s'[i] == s[i];
    PassedIs(s', next, Passed(s, next));
  }

  lemma VisitEndsOnAnEvent(q: Query, epoch: Token, v: Visit, next: int)
    requires HonestVisit(q, epoch, v, next)
    requires OnAnEvent(v.stream, next)
    ensures Serve(q, next, v.limit, epoch, Some(v.page)).Served?
            && OnAnEvent(v.stream, Serve(q, next, v.limit, epoch, Some(v.page)).next)
  {
    var n := VisitLists(q, epoch, v, next);
    if n > Passed(v.stream, next) { PassedIs(v.stream, v.stream[n - 1].id, n); }
  }

  /** What a caller holds is the plain filter of what its cursor has passed, and the cursor is on an event. */
  predicate Holds(q: Query, s: seq<Event>, r: Response)
    requires Ordered(s)
  {
    r.Served? && OnAnEvent(s, r.next) && r.items == Matches(q, s[..Passed(s, r.next)])
  }

  /** Nothing the stream has since appended lies behind the cursor. */
  lemma HoldsAfterGrowth(q: Query, s: seq<Event>, s': seq<Event>, r: Response)
    requires Ordered(s) && Ordered(s') && s <= s' && Holds(q, s, r)
    ensures Holds(q, s', r)
  {
    StaysOnAnEvent(s, s', r.next);
    assert s'[..Passed(s', r.next)] == s[..Passed(s, r.next)];
  }

  lemma HoldsAtFirst(q: Query, s: seq<Event>)
    requires Ordered(s)
    ensures Holds(q, s, Served([], 0))
  {
    PassedIs(s, 0, 0);
  }

  lemma HoldsAfterVisit(q: Query, epoch: Token, v: Visit, was: Response)
    requires was.Served? && HonestVisit(q, epoch, v, was.next) && Holds(q, v.stream, was)
    ensures var r := After(was.items, Serve(q, was.next, v.limit, epoch, Some(v.page)));
            && Holds(q, v.stream, r) && r.next >= was.next && (v.page.events != [] ==> r.next > was.next)
            && (v.page.events == [] ==> r.items == Matches(q, v.stream))
  {
    VisitExtends(q, epoch, v, was.items, was.next);
    VisitEndsOnAnEvent(q, epoch, v, was.next);
  }

  lemma {:induction false} HoldsBeforeVisit(q: Query, epoch: Token, visits: seq<Visit>, n: nat)
    requires Honest(q, epoch, visits) && n < |visits|
    ensures CleanStream(q, visits[n].stream) && Holds(q, visits[n].stream, Follow(q, epoch, visits, n))
  {
    assert HonestAt(q, epoch, visits, n);
    if n == 0 {
      HoldsAtFirst(q, visits[0].stream);
    } else {
      HoldsBeforeVisit(q, epoch, visits, n - 1);
      assert HonestAt(q, epoch, visits, n - 1);
      HoldsAfterVisit(q, epoch, visits[n - 1], Follow(q, epoch, visits, n - 1));
      HoldsAfterGrowth(q, visits[n - 1].stream, visits[n].stream, Follow(q, epoch, visits, n));
    }
  }

  /** However the limits vary and the stream grows, following the cursor lists exactly the matches among the
      events passed, in order and once each. A page with events moves the cursor past at least one, and a
      caller who meets an empty page holds everything the plain filter selects. */
  lemma FollowingIsFiltering(q: Query, epoch: Token, visits: seq<Visit>, n: nat)
    requires Honest(q, epoch, visits) && n < |visits|
    ensures CleanStream(q, visits[n].stream)
    ensures var v, was, r := visits[n], Follow(q, epoch, visits, n), Follow(q, epoch, visits, n + 1);
            && was.Served? && Holds(q, v.stream, r)
            && r.next >= was.next && (v.page.events != [] ==> r.next > was.next)
            && (v.page.events == [] ==> r.items == Matches(q, v.stream))
  {
    HoldsBeforeVisit(q, epoch, visits, n);
    assert HonestAt(q, epoch, visits, n);
    HoldsAfterVisit(q, epoch, visits[n], Follow(q, epoch, visits, n));
  }

  // ---------- Any scanner ----------

  predicate Forward(items: seq<Item>, low: int, high: int) {
    && (forall i | 0 <= i < |items| :: low < items[i].event <= high)
    && (forall i, j | 0 <= i < j < |items| :: items[i].event < items[j].event)
  }

  lemma {:induction false} ReadIsForward(q: Query, events: seq<Event>, next: int, room: nat)
    ensures var r := Read(q, events, next, room);
            r.Served? ==>
              && r.next >= next && (events != [] ==> r.next > next)
              && |r.items| <= Max(room, 1) && Forward(r.items, next, r.next)
  {
    if events != [] && events[0].id > next {
      ReadIsForward(q, events[1..], events[0].id, room);
      if room > 1 { ReadIsForward(q, events[1..], events[0].id, room - 1); }
    }
  }

  /** Whatever a scanner answers, a page that is served lists at most `limit` deposits of registered
      addresses, in increasing order of event, and its cursor moves forward exactly when there were events. */
  lemma ServedIsForward(q: Query, position: int, limit: nat, epoch: Token, page: Page)
    requires limit >= 1
    ensures var r := Serve(q, position, limit, epoch, Some(page));
            r.Served? ==>
              && page.epoch == epoch
              && page.next == (if page.events == [] then position else page.events[|page.events| - 1].id)
              && |r.items| <= limit && Forward(r.items, position, r.next)
              && (r.next > position <==> page.events != []) && r.next <= page.next
  {
    ReadIsForward(q, page.events, position, limit);
  }

  /** An event is refused by no check of its own: it is sound, a deposit, and its index is the ledger's. */
  predicate Accepted(q: Query, e: Event) {
    && e.id > 0 && e.sound && e.kind.Deposit? && e.action.Some? && e.amount.Some? && e.height.Some?
    && e.address !in q.book.unreadable
    && (e.address in q.book.known ==> q.book.known[e.address] == if e.index.Some? then e.index.value else 0)
  }

  lemma AcceptedIsClean(q: Query, e: Event)
    ensures Accepted(q, e) <==> Clean(q, e)
  {
  }

  lemma ServedReadsOne(q: Query, s: seq<Event>, next: int, room: nat)
    requires s != [] && Read(q, s, next, room).Served?
    ensures Accepted(q, s[0]) && next < s[0].id
    ensures !(Listed(q, s[0]) && room <= 1) ==>
              Read(q, s[1..], s[0].id, if Listed(q, s[0]) then room - 1 else room).Served?
  {
  }

  /** Whatever a scanner answers, what is served of it is the plain filter of the events passed, each of which was
      accepted: a deposit whose index is not the ledger's, or that is not sound, is never passed over. */
  lemma {:induction false} ServedIsAccepted(q: Query, s: seq<Event>, next: int, room: nat) returns (n: nat)
    requires room >= 1 && Read(q, s, next, room).Served?
    ensures ReadsTo(q, s, next, room, n) && forall k | 0 <= k < n :: Accepted(q, s[k])
  {
    if s == [] {
      n := 0;
    } else {
      ServedReadsOne(q, s, next, room);
      AcceptedIsClean(q, s[0]);
      if Listed(q, s[0]) && room == 1 {
        n := 1;
        ReadStops(q, s, next);
      } else {
        var m := ServedIsAccepted(q, s[1..], s[0].id, if Listed(q, s[0]) then room - 1 else room);
        ReadGoesOn(q, s, next, room, m);
        n := m + 1;
        assert forall k | 1 <= k < n :: s[k] == s[1..][k - 1];
      }
    }
  }

  // ---------- What the filter lists ----------

  /** The item reports this event: a sound deposit to an address the ledger knows, under the ledger's index, with
      the status and the address the caller asked for. */
  predicate Reports(q: Query, item: Item, e: Event) {
    && e.kind == Deposit(item.status) && e.sound && e.id > 0 && item.event == e.id && item.txid == e.txid
    && e.action == Some(item.action) && e.amount == Some(item.amount) && e.height == Some(item.height)
    && item.address == e.address && e.address !in q.book.unreadable
    && e.address in q.book.known && q.book.known[e.address] == item.index
    && item.index == (if e.index.Some? then e.index.value else 0)
    && (q.status.None? || q.status == Some(item.status)) && (q.address == EMPTY || q.address == item.address)
  }

  /** The filter lists exactly the items that report an event of the stream. */
  lemma {:induction false} ListsExactlyTheReported(q: Query, s: seq<Event>, item: Item)
    ensures item in Matches(q, s) <==> exists i :: 0 <= i < |s| && Reports(q, item, s[i])
  {
    if s != [] {
      var n := |s| - 1;
      ListsExactlyTheReported(q, s[..n], item);
      LastIsListed(q, s[n], item);
      forall i | 0 <= i < |s| && Reports(q, item, s[i]) ensures item in Matches(q, s) {
        if i < n { assert s[..n][i] == s[i]; }
      }
    }
  }

  lemma LastIsListed(q: Query, e: Event, item: Item)
    ensures Reports(q, item, e) <==>
              Listed(q, e) && Sanitary(e, EMPTY) && item == ItemOf(e, Bind(q.book, e).index)
  {
  }

  /** Each event is listed at most once, in the order of the stream. */
  lemma {:induction false} ListsInOrder(q: Query, s: seq<Event>, i: nat, j: nat)
    requires Ordered(s) && i < j < |Matches(q, s)|
    ensures Matches(q, s)[i].event < Matches(q, s)[j].event
  {
    var n := |s| - 1;
    var before := Matches(q, s[..n]);
    if j < |before| {
      ListsInOrder(q, s[..n], i, j);
    } else {
      ListsExactlyTheReported(q, s[..n], before[i]);
      var k :| 0 <= k < n && Reports(q, before[i], s[..n][k]);
      assert s[k].id < s[n].id;
    }
  }

  /** A caller who followed the cursor to an empty page holds exactly the deposits of the stream that the ledger
      knows and the filters ask for, once each and in order, whatever the limits were and however the stream grew
      meanwhile. */
  lemma FollowingMissesNothing(q: Query, epoch: Token, visits: seq<Visit>, n: nat)
    requires Honest(q, epoch, visits) && n < |visits| && visits[n].page.events == []
    ensures Follow(q, epoch, visits, n + 1).Served?
    ensures var items, s := Follow(q, epoch, visits, n + 1).items, visits[n].stream;
            && (forall item :: item in items <==> exists i :: 0 <= i < |s| && Reports(q, item, s[i]))
            && forall i, j | 0 <= i < j < |items| :: items[i].event < items[j].event
  {
    FollowingIsFiltering(q, epoch, visits, n);
    var s := visits[n].stream;
    forall item ensures item in Matches(q, s) <==> exists i :: 0 <= i < |s| && Reports(q, item, s[i]) {
      ListsExactlyTheReported(q, s, item);
    }
    forall i, j | 0 <= i < j < |Matches(q, s)| ensures Matches(q, s)[i].event < Matches(q, s)[j].event {
      ListsInOrder(q, s, i, j);
    }
  }
}
