/** The scanner's event stream as the API reads it: events, cursors, pages and the address check. */
module Events {
  import opened Common

  datatype Status = Detected | Confirmed | Unconfirmed | Orphaned

  datatype Kind = Deposit(status: Status) | Movement(name: Token) | Unsupported

  /** `sound` stands for the payload checks that concern one event alone. */
  datatype Event = Event(
    id: int, kind: Kind, sound: bool, txid: Token, address: Token, index: Option<nat>,
    action: Option<nat>, amount: Option<nat>, height: Option<int>)

  /** What sanitising accepts; an expected transaction of EMPTY admits any. */
  predicate Sanitary(e: Event, expectedTx: Token) {
    && e.id > 0 && e.sound && !e.kind.Unsupported? && (expectedTx == EMPTY || e.txid == expectedTx)
    && (e.kind.Deposit? ==> e.action.Some? && e.amount.Some? && e.height.Some?)
  }

  /** The allocation ledger: which address has which index, and which lookups fail. */
  datatype Book = Book(known: map<Token, nat>, unreadable: set<Token>)

  datatype Identity = Unreadable | Unregistered | Mismatched | Registered(index: nat)

  /** The index the ledger has for a deposit's address must be the scanner's; an omitted one means 0. */
  function Bind(book: Book, e: Event): Identity {
    if e.address in book.unreadable then Unreadable
    else if e.address !in book.known then Unregistered
    else if book.known[e.address] == (if e.index.Some? then e.index.value else 0) then Registered(book.known[e.address])
    else Mismatched
  }

  datatype Page = Page(events: seq<Event>, next: int, epoch: Token)

  predicate Consistent(page: Page, position: int) {
    page.next == if page.events == [] then position else page.events[|page.events| - 1].id
  }

  // ---------- Honest scanners ----------

  predicate Ordered(s: seq<Event>) {
    && (forall i | 0 <= i < |s| :: s[i].id > 0)
    && (forall i, j | 0 <= i < j < |s| :: s[i].id < s[j].id)
  }

  /** How many events of the stream a cursor has passed. */
  function Passed(s: seq<Event>, position: int): (n: nat)
    requires Ordered(s)
    ensures n <= |s|
    ensures forall i | 0 <= i < n :: s[i].id <= position
    ensures forall i | n <= i < |s| :: position < s[i].id
  {
    if s == [] || s[|s| - 1].id <= position then |s| else Passed(s[..|s| - 1], position)
  }

  /** The events after the cursor, in order, as many as fit, and at least one when there is one. */
  predicate Answers(s: seq<Event>, position: int, limit: nat, page: Page)
    requires Ordered(s)
  {
    var c := Passed(s, position);
    && |page.events| <= limit && c + |page.events| <= |s|
    && page.events == s[c..c + |page.events|]
    && (c < |s| && limit > 0 ==> page.events != [])
    && Consistent(page, position)
  }

  /** A full answer is cut short by nothing but the limit. */
  predicate AnswersFully(s: seq<Event>, position: int, limit: nat, page: Page)
    requires Ordered(s)
  {
    Answers(s, position, limit, page) && |page.events| == Min(limit, |s| - Passed(s, position))
  }

  lemma PassedIs(s: seq<Event>, position: int, n: nat)
    requires Ordered(s) && n <= |s|
    requires n > 0 ==> s[n - 1].id <= position
    requires n < |s| ==> position < s[n].id
    ensures Passed(s, position) == n
  {
  }
}
