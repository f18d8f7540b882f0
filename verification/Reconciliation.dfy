/**
 The controller's pass over its completion ledger: pages of bounded size in key order, a wrap at
 the end, and after it one cycle that goes straight to the retention work.
 */
module Reconciliation {
  /** The ledger is ordered by completion time, then event, then target phase. */
  datatype Key = Key(at: int, event: nat, phase: nat)

  datatype Receipt = Receipt(tombstone: nat, key: Key)

  /** Smaller than the key of every receipt. */
  const START := Key(-1, 0, 0)

  predicate Less(a: Key, b: Key)
  {
    || a.at < b.at
    || (a.at == b.at && (a.event < b.event || (a.event == b.event && a.phase < b.phase)))
  }

  /** One receipt per event and phase, in key order. */
  predicate IsLedger(ledger: seq<Receipt>)
  {
    && (forall i | 0 <= i < |ledger| :: ledger[i].key.at >= 0)
    && (forall i, j | 0 <= i < j < |ledger| :: Less(ledger[i].key, ledger[j].key))
  }

  /** The receipts behind the cursor. */
  function Behind(ledger: seq<Receipt>, cursor: Key): seq<Receipt>
  {
    if ledger == [] then []
    else if Less(cursor, ledger[0].key) then ledger
    else Behind(ledger[1..], cursor)
  }

  function FirstOf(rows: seq<Receipt>, limit: nat): seq<Receipt>
  {
    if |rows| <= limit then rows else rows[..limit]
  }

  function Read(ledger: seq<Receipt>, cursor: Key, limit: nat): seq<Receipt>
  {
    FirstOf(Behind(ledger, cursor), limit)
  }

  datatype Page = PageOf(receipts: seq<Receipt>) | Wrapped | EmptyInitial

  /** What a cycle of the coordinator comes to before the retention work, if it gets there. */
  datatype Cycle = Advanced(receipts: seq<Receipt>) | WrappedAround | Conflict | Maintenance

  datatype State = State(cursor: Key, skip: bool)

  predicate AllCompleted(rows: seq<Receipt>, completed: set<nat>)
  {
    forall r | r in rows :: r.tombstone in completed
  }

  function CycleOf(s: State, ledger: seq<Receipt>, limit: nat, completed: set<nat>): Cycle
  {
    if s.skip then Maintenance
    else if Read(ledger, s.cursor, limit) == [] then
      if s.cursor == START then Maintenance else WrappedAround
    else if AllCompleted(Read(ledger, s.cursor, limit), completed) then
      Advanced(Read(ledger, s.cursor, limit))
    else Conflict
  }

  function StateAfter(s: State, ledger: seq<Receipt>, limit: nat, completed: set<nat>): State
  {
    match CycleOf(s, ledger, limit, completed)
    case Advanced(rows) => if rows == [] then s else State(rows[|rows| - 1].key, false)
    case WrappedAround => State(START, true)
    case Conflict => s
    case Maintenance => s.(skip := false)
  }

  /** The page query: one scan in key order, up to the limit. */
  method ReadPage(ledger: seq<Receipt>, cursor: Key, limit: nat) returns (rows: seq<Receipt>)
    requires IsLedger(ledger)
    ensures rows == Read(ledger, cursor, limit)
  {
    rows := [];
    var i := 0;
    while i < |ledger| && |rows| < limit
      invariant i <= |ledger| && |rows| <= limit
      invariant rows != [] ==> i > 0 && Less(cursor, ledger[i - 1].key)
      invariant Behind(ledger, cursor) == rows + Behind(ledger[i..], cursor)
    {
      assert ledger[i..][1..] == ledger[i + 1..];
      if Less(cursor, ledger[i].key) {
        Onwards(ledger, cursor, i);
        rows := rows + [ledger[i]];
      }
      i := i + 1;
    }
    assert i == |ledger| ==> ledger[i..] == [];
    ReadEnough(rows, Behind(ledger[i..], cursor), limit);
  }

  function PageAt(ledger: seq<Receipt>, cursor: Key, limit: nat): Page
  {
    if Read(ledger, cursor, limit) != [] then PageOf(Read(ledger, cursor, limit))
    else if cursor != START then Wrapped else EmptyInitial
  }

  class CompletionStore {
    var ledger: seq<Receipt>
    var cursor: Key

    constructor (l: seq<Receipt>, c: Key)
      ensures ledger == l && cursor == c
    {
      ledger, cursor := l, c;
    }

    /** Read the next page; only a read beyond the end moves the cursor, back to the start. */
    method ReconciliationPage(limit: nat) returns (page: Page)
      requires IsLedger(ledger) && 1 <= limit
      modifies this`cursor
      ensures page == PageAt(ledger, old(cursor), limit)
      ensures cursor == if page.PageOf? then old(cursor) else START
    {
      var rows := ReadPage(ledger, cursor, limit);
      if rows != [] { return PageOf(rows); }
      if cursor == START { return EmptyInitial; }
      cursor := START;
      return Wrapped;
    }
  }

  class Coordinator {
    var store: CompletionStore
    var skip: bool
    const limit: nat

    constructor (s: CompletionStore, l: nat)
      ensures store == s && !skip && limit == l
    {
      store, skip, limit := s, false, l;
    }

    /** The reconciliation part of one cycle, with the receipts that the engine finds completed. */
    method Reconcile(completed: set<nat>) returns (cycle: Cycle)
      requires IsLedger(store.ledger) && 1 <= limit
      modifies this`skip, store`cursor
      ensures cycle == CycleOf(State(old(store.cursor), old(skip)), store.ledger, limit, completed)
      ensures State(store.cursor, skip) ==
        StateAfter(State(old(store.cursor), old(skip)), store.ledger, limit, completed)
    {
      if skip {
        skip := false;
        return Maintenance;
      }
      var page := store.ReconciliationPage(limit);
      match page
      case Wrapped =>
        skip := true;
        return WrappedAround;
      case EmptyInitial =>
        return Maintenance;
      case PageOf(rows) =>
        for i := 0 to |rows|
          invariant forall j | 0 <= j < i :: rows[j].tombstone in completed
        {
          if rows[i].tombstone !in completed { return Conflict; }
        }
        store.cursor := rows[|rows| - 1].key;
        return Advanced(rows);
    }
  }

  lemma ReadEnough(rows: seq<Receipt>, rest: seq<Receipt>, limit: nat)
    requires |rows| == limit || (|rows| <= limit && rest == [])
    ensures FirstOf(rows + rest, limit) == rows
  {
    assert (rows + rest)[..|rows|] == rows;
  }

  lemma {:induction false} Onwards(ledger: seq<Receipt>, cursor: Key, i: nat)
    requires IsLedger(ledger) && i < |ledger| && Less(cursor, ledger[i].key)
    ensures Behind(ledger[i..], cursor) == ledger[i..]
    ensures Behind(ledger[i + 1..], cursor) == ledger[i + 1..]
  {
  }

  // ----- a whole pass

  /** Where the cursor stands when the first `i` receipts have been read. */
  function CursorAt(ledger: seq<Receipt>, i: nat): Key
    requires i <= |ledger|
  {
    if i == 0 then START else ledger[i - 1].key
  }

  lemma {:induction false} BehindCursor(ledger: seq<Receipt>, i: nat)
    requires IsLedger(ledger) && i <= |ledger|
    ensures Behind(ledger, CursorAt(ledger, i)) == ledger[i..]
  {
    if i == 0 {
      assert ledger[0..] == ledger;
    } else {
      SkipsTo(ledger, CursorAt(ledger, i), i);
      if i < |ledger| { Onwards(ledger, CursorAt(ledger, i), i); }
    }
  }

  lemma {:induction false} SkipsTo(ledger: seq<Receipt>, cursor: Key, i: nat)
    requires i <= |ledger| && forall j | 0 <= j < i :: !Less(cursor, ledger[j].key)
    ensures Behind(ledger, cursor) == Behind(ledger[i..], cursor)
  {
    if i == 0 {
      assert ledger[0..] == ledger;
    } else {
      assert ledger[1..][i - 1..] == ledger[i..];
      SkipsTo(ledger[1..], cursor, i - 1);
    }
  }

  /** The states and pages of `n` cycles. */
  function StateAfterCycles(s: State, ledger: seq<Receipt>, limit: nat, completed: set<nat>, n: nat): State
    decreases n
  {
    if n == 0 then s
    else StateAfterCycles(StateAfter(s, ledger, limit, completed), ledger, limit, completed, n - 1)
  }

  function PagesOf(s: State, ledger: seq<Receipt>, limit: nat, completed: set<nat>, n: nat): seq<Receipt>
    decreases n
  {
    if n == 0 then []
    else
      PageIn(CycleOf(s, ledger, limit, completed))
      + PagesOf(StateAfter(s, ledger, limit, completed), ledger, limit, completed, n - 1)
  }

  function PageIn(c: Cycle): seq<Receipt>
  {
    if c.Advanced? then c.receipts else []
  }

  function Pages(n: nat, limit: nat): nat
    requires limit >= 1
    decreases n
  {
    if n == 0 then 0 else if n <= limit then 1 else 1 + Pages(n - limit, limit)
  }

  /** The number of pages is the ceiling of `n` over `limit`. */
  lemma {:induction false} PagesIsCeiling(n: nat, limit: nat)
    requires limit >= 1
    ensures n <= Pages(n, limit) * limit < n + limit
    decreases n
  {
    if n > limit {
      PagesIsCeiling(n - limit, limit);
      assert Pages(n, limit) * limit == Pages(n - limit, limit) * limit + limit;
    }
  }

  /** One page from position `i`. */
  lemma PageFrom(ledger: seq<Receipt>, limit: nat, completed: set<nat>, i: nat, j: nat)
    requires IsLedger(ledger) && limit >= 1 && AllCompleted(ledger, completed) && i < |ledger|
    requires j == NextPosition(|ledger|, limit, i)
    ensures var s := State(CursorAt(ledger, i), false);
      && CycleOf(s, ledger, limit, completed) == Advanced(ledger[i..j])
      && StateAfter(s, ledger, limit, completed) == State(CursorAt(ledger, j), false)
  {
    BehindCursor(ledger, i);
    assert FirstOf(ledger[i..], limit) == ledger[i..j];
    assert ledger[i..j][j - i - 1] == ledger[j - 1];
    forall r | r in ledger[i..j] ensures r.tombstone in completed {
      assert r in ledger;
    }
  }

  lemma {:induction false} PagesNext(size: nat, limit: nat, i: nat)
    requires i < size && limit >= 1
    ensures i < NextPosition(size, limit, i) <= size
    ensures Pages(size - i, limit) == 1 + Pages(size - NextPosition(size, limit, i), limit)
  {
  }

  /** What one page cycle adds in front of `n` more. */
  lemma OneCycle(s: State, t: State, ledger: seq<Receipt>, limit: nat, completed: set<nat>, page: seq<Receipt>, n: nat)
    requires CycleOf(s, ledger, limit, completed) == Advanced(page) && StateAfter(s, ledger, limit, completed) == t
    ensures PagesOf(s, ledger, limit, completed, 1 + n) == page + PagesOf(t, ledger, limit, completed, n)
    ensures StateAfterCycles(s, ledger, limit, completed, 1 + n) == StateAfterCycles(t, ledger, limit, completed, n)
  {
    hide CycleOf, StateAfter;
  }

  function NextPosition(size: nat, limit: nat, i: nat): nat
  {
    if size <= i + limit then size else i + limit
  }

  /** From any position a pass reads the rest of the ledger, each receipt once, in the expected number of pages. */
  lemma {:induction false} PassFrom(ledger: seq<Receipt>, limit: nat, completed: set<nat>, i: nat)
    requires IsLedger(ledger) && limit >= 1 && AllCompleted(ledger, completed) && i <= |ledger|
    ensures var s, n := State(CursorAt(ledger, i), false), Pages(|ledger| - i, limit);
      && PagesOf(s, ledger, limit, completed, n) == ledger[i..]
      && StateAfterCycles(s, ledger, limit, completed, n) == State(CursorAt(ledger, |ledger|), false)
    decreases |ledger| - i
  {
    if i == |ledger| {
      assert ledger[i..] == [];
    } else {
      var j := NextPosition(|ledger|, limit, i);
      PageFrom(ledger, limit, completed, i, j);
      PassFrom(ledger, limit, completed, j);
      assert ledger[i..] == ledger[i..j] + ledger[j..];
      PagesNext(|ledger|, limit, i);
      hide Pages, NextPosition, CycleOf, StateAfter, IsLedger, PagesOf, StateAfterCycles, CursorAt;
      OneCycle(State(CursorAt(ledger, i), false), State(CursorAt(ledger, j), false), ledger, limit, completed,
               ledger[i..j], Pages(|ledger| - j, limit));
    }
  }

  /**
   From the initial cursor a ledger of n receipts takes exactly the ceiling of n over the limit page
   cycles, whose pages put together are the ledger; then one wrap cycle; and the next cycle goes to
   the retention work.  An empty ledger goes there at once.
   */
  lemma {:induction false} PassTheorem(ledger: seq<Receipt>, limit: nat, completed: set<nat>)
    requires IsLedger(ledger) && limit >= 1 && AllCompleted(ledger, completed)
    ensures var s, n := State(START, false), Pages(|ledger|, limit);
      && PagesOf(s, ledger, limit, completed, n) == ledger
      && var end := StateAfterCycles(s, ledger, limit, completed, n);
         if ledger == [] then CycleOf(end, ledger, limit, completed) == Maintenance
         else
           && CycleOf(end, ledger, limit, completed) == WrappedAround
           && CycleOf(StateAfter(end, ledger, limit, completed), ledger, limit, completed) == Maintenance
           && StateAfter(StateAfter(end, ledger, limit, completed), ledger, limit, completed) == s
  {
    PassFrom(ledger, limit, completed, 0);
    BehindCursor(ledger, |ledger|);
    assert ledger[0..] == ledger && ledger[|ledger|..] == [];
  }

  /** Every cycle of a pass but the last two is a page: retention work is never put off any longer. */
  lemma {:induction false} NoCycleIsWasted(ledger: seq<Receipt>, limit: nat, completed: set<nat>, i: nat, m: nat)
    requires IsLedger(ledger) && limit >= 1 && AllCompleted(ledger, completed) && i <= |ledger|
    requires m < Pages(|ledger| - i, limit)
    ensures var s := State(CursorAt(ledger, i), false);
      CycleOf(StateAfterCycles(s, ledger, limit, completed, m), ledger, limit, completed).Advanced?
    decreases m
  {
    var j := NextPosition(|ledger|, limit, i);
    PageFrom(ledger, limit, completed, i, j);
    if m > 0 { NoCycleIsWasted(ledger, limit, completed, j, m - 1); }
  }

  // ----- a receipt that is missing

  /** The full pages between position `i` and a receipt at position `k`. */
  function FullPages(i: nat, k: nat, limit: nat): nat
    requires i <= k && limit >= 1
    decreases k - i
  {
    if k - i < limit then 0 else 1 + FullPages(i + limit, k, limit)
  }

  /** Where the page begins that a pass from position `i` finds the receipt at position `k` on. */
  function PageOfReceipt(i: nat, k: nat, limit: nat): (start: nat)
    requires i <= k && limit >= 1
    ensures i <= start <= k < start + limit
    decreases k - i
  {
    if k - i < limit then i else PageOfReceipt(i + limit, k, limit)
  }

  /** The receipt at `k` is the first behind position `i` that the engine does not find completed. */
  predicate FirstMissing(ledger: seq<Receipt>, completed: set<nat>, i: nat, k: nat)
  {
    && i <= k < |ledger| && ledger[k].tombstone !in completed
    && forall j | i <= j < k :: ledger[j].tombstone in completed
  }

  /** The page on which a receipt is missing is neither passed nor left. */
  lemma ConflictAt(ledger: seq<Receipt>, limit: nat, completed: set<nat>, i: nat, k: nat)
    requires IsLedger(ledger) && limit >= 1 && FirstMissing(ledger, completed, i, k) && k - i < limit
    ensures var s := State(CursorAt(ledger, i), false);
      CycleOf(s, ledger, limit, completed) == Conflict && StateAfter(s, ledger, limit, completed) == s
  {
    BehindCursor(ledger, i);
    var page := FirstOf(ledger[i..], limit);
    assert page[k - i] == ledger[k];
  }

  /** A full page in front of the missing receipt is passed. */
  lemma PassedPage(ledger: seq<Receipt>, limit: nat, completed: set<nat>, i: nat, k: nat)
    requires IsLedger(ledger) && limit >= 1 && FirstMissing(ledger, completed, i, k) && k - i >= limit
    ensures var s := State(CursorAt(ledger, i), false);
      && CycleOf(s, ledger, limit, completed) == Advanced(ledger[i..i + limit])
      && StateAfter(s, ledger, limit, completed) == State(CursorAt(ledger, i + limit), false)
  {
    BehindCursor(ledger, i);
    var page := ledger[i..i + limit];
    assert FirstOf(ledger[i..], limit) == page && page[limit - 1] == ledger[i + limit - 1];
    forall r | r in page ensures r.tombstone in completed {
      var j :| 0 <= j < limit && page[j] == r;
      assert ledger[i + j] == r;
    }
  }

  /**
   A recorded completion whose receipt is missing stops the coordinator for good: the full pages in
   front of it are passed, and from then on every cycle ends in the conflict on its page, so that
   neither the wrap nor the retention work is ever reached.
   */
  lemma {:induction false} MissingReceiptStops(
      ledger: seq<Receipt>, limit: nat, completed: set<nat>, i: nat, k: nat, n: nat)
    requires IsLedger(ledger) && limit >= 1 && FirstMissing(ledger, completed, i, k)
    ensures var s := StateAfterCycles(State(CursorAt(ledger, i), false), ledger, limit, completed, n);
      if n < FullPages(i, k, limit) then CycleOf(s, ledger, limit, completed).Advanced?
      else
        && s == State(CursorAt(ledger, PageOfReceipt(i, k, limit)), false)
        && CycleOf(s, ledger, limit, completed) == Conflict
    decreases n
  {
    if k - i < limit {
      ConflictAt(ledger, limit, completed, i, k);
      if n > 0 { MissingReceiptStops(ledger, limit, completed, i, k, n - 1); }
    } else {
      PassedPage(ledger, limit, completed, i, k);
      if n > 0 { MissingReceiptStops(ledger, limit, completed, i + limit, k, n - 1); }
    }
  }
}
