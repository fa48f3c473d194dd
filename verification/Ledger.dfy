/** The crash-safe ledger: which obligations exist, that none is lost, and how their
    statuses may move. */
module Ledger {
  import opened ReactionTables
  import opened ReactionProtocol
  import opened ReactionRuns
  import opened Ownership
  import opened Orderly

  /* Obligations come from Record and stay */

  // Exactly one row stands for the handler's obligation.
  ghost predicate OneRow(t: Tables, e: EventId, h: HandlerName) {
    exists r :: RowFor(t, r, e, h) && forall q | RowFor(t, q, e, h) :: q == r
  }

  predicate RowFor(t: Tables, r: ReactionId, e: EventId, h: HandlerName) {
    r in t.reactions && t.reactions[r].event == e && t.reactions[r].handler == h
  }

  // Whatever follows the commit of a Record, crashes included, its event stays and each distinct
  // handler name it was given keeps exactly one row.
  lemma {:induction false} NoObligationIsLost(s: State, before: seq<Step>, step: RecordStep, after: seq<Step>)
    requires Init(s) && Feasible(s, before)
    requires step.Stores() && RecordEnabled(Exec(s, before), step) && Feasible(RecordNext(Exec(s, before), step), after)
    ensures var t := Exec(RecordNext(Exec(s, before), step), after).tables;
      step.e in t.events && t.events[step.e] == step.ty && forall h | h in Handlers(step.rows) :: OneRow(t, step.e, h)
  {
    InitInv(s);
    RunKeepsInv(s, before);
    var b := Exec(s, before);
    var n := RecordNext(b, step);
    RecordKeeps(b, step);
    StoredRows(b, step);
    RunExtends(n, after);
    RunKeepsInv(n, after);
    var t := Exec(n, after).tables;
    forall h | h in Handlers(step.rows) ensures OneRow(t, step.e, h) {
      var r :| RowFor(n.tables, r, step.e, h);
      assert RowFor(t, r, step.e, h);
    }
  }

  lemma StoredRows(b: State, step: RecordStep)
    requires step.Stores() && RecordEnabled(b, step)
    ensures var t := RecordNext(b, step).tables;
      && step.e in t.events && t.events[step.e] == step.ty
      && forall h | h in Handlers(step.rows) :: exists r :: RowFor(t, r, step.e, h)
  {
    var t1 := b.tables.(events := b.tables.events[step.e := step.ty]);
    var t := RecordNext(b, step).tables;
    InsertAllCoversHandlers(t1, step.e, step.rows);
    InsertAllKeepsRows(t1, step.e, step.rows);
    forall h | h in Handlers(step.rows) ensures exists r :: RowFor(t, r, step.e, h) {
      var r :| r in t.reactions && t.reactions[r].event == step.e && t.reactions[r].handler == h;
      assert RowFor(t, r, step.e, h);
    }
  }

  // The step is a Record of this event, for this handler among others.
  predicate Records(step: Step, e: EventId, h: HandlerName) {
    step.Recording? && step.r.Stores() && step.r.e == e && h in Handlers(step.r.rows)
  }

  predicate RecordsEvent(step: Step, e: EventId) {
    step.Recording? && step.r.Stores() && step.r.e == e
  }

  lemma StepAddsOnlyRecorded(s: State, step: Step)
    requires Inv(s) && Enabled(s, step)
    ensures var t := Next(s, step).tables;
      && (forall e | e in t.events && e !in s.tables.events :: RecordsEvent(step, e))
      && (forall r | r in t.reactions && r !in s.tables.reactions ::
        Records(step, t.reactions[r].event, t.reactions[r].handler))
  {
    if step.Recording? && step.r.Stores() {
      InsertAllKeepsRows(s.tables.(events := s.tables.events[step.r.e := step.r.ty]), step.r.e, step.r.rows);
    }
  }

  // Conversely every event and every row that a run adds was given to a Record of that run.
  lemma {:induction false} OnlyRecordedObligations(s: State, steps: seq<Step>)
    requires Inv(s) && Feasible(s, steps)
    ensures var t := Exec(s, steps).tables;
      && (forall e | e in t.events && e !in s.tables.events ::
        exists i :: 0 <= i < |steps| && RecordsEvent(steps[i], e))
      && (forall r | r in t.reactions && r !in s.tables.reactions ::
            exists i :: 0 <= i < |steps| && Records(steps[i], t.reactions[r].event, t.reactions[r].handler))
    decreases |steps|
  {
    if steps != [] {
      var n := Next(s, steps[0]);
      StepKeepsInv(s, steps[0]);
      StepAddsOnlyRecorded(s, steps[0]);
      RunExtends(n, steps[1..]);
      OnlyRecordedObligations(n, steps[1..]);
      var t := Exec(s, steps).tables;
      forall e | e in t.events && e !in s.tables.events
        ensures exists i :: 0 <= i < |steps| && RecordsEvent(steps[i], e)
      {
        if e in n.tables.events {
          assert RecordsEvent(steps[0], e);
        } else {
          var i :| 0 <= i < |steps[1..]| && RecordsEvent(steps[1..][i], e);
          assert RecordsEvent(steps[i + 1], e);
        }
      }
      forall r | r in t.reactions && r !in s.tables.reactions
        ensures exists i :: 0 <= i < |steps| && Records(steps[i], t.reactions[r].event, t.reactions[r].handler)
      {
        if r in n.tables.reactions {
          assert Records(steps[0], t.reactions[r].event, t.reactions[r].handler);
        } else {
          var i :| 0 <= i < |steps[1..]| && Records(steps[1..][i], t.reactions[r].event, t.reactions[r].handler);
          assert Records(steps[i + 1], t.reactions[r].event, t.reactions[r].handler);
        }
      }
    }
  }

  /* The ledger of obligations */

  type Obligation = (EventId, HandlerName)

  function Obligations(t: Tables): set<Obligation> {
    set r | r in t.reactions :: (t.reactions[r].event, t.reactions[r].handler)
  }

  ghost function StatusOf(t: Tables, o: Obligation): Status
    requires o in Obligations(t)
  {
    assert exists r :: RowFor(t, r, o.0, o.1) by {
      var q :| q in t.reactions && (t.reactions[q].event, t.reactions[q].handler) == o;
      assert RowFor(t, q, o.0, o.1);
    }
    var r :| RowFor(t, r, o.0, o.1);
    t.reactions[r].status
  }

  ghost function Book(t: Tables): map<Obligation, Status> {
    map o | o in Obligations(t) :: StatusOf(t, o)
  }

  datatype Move =
    | Stutter
    | Incur(e: EventId, handlers: set<HandlerName>)
    | Begin(o: Obligation)
    | Settle(o: Obligation, ok: bool)
    | GiveUp(o: Obligation)
    | Restart

  // The simple ledger: what one move does to the book.
  ghost predicate Moves(book: map<Obligation, Status>, move: Move, book': map<Obligation, Status>) {
    match move
    case Stutter => book' == book
    case Incur(e, hs) =>
      && (forall o | o in book :: o in book' && book'[o] == book[o])
      && (forall h | h in hs :: (e, h) in book')
      && (forall o | o in book' && o !in book :: o.0 == e && o.1 in hs && book'[o] == Pending)
    case Begin(o) => o in book && book[o] == Pending && book' == book[o := Running]
    case Settle(o, ok) => o in book && book[o] == Running && book' == book[o := if ok then Succeeded else Status.Failed]
    case GiveUp(o) => o in book && book[o] == Pending && book' == book[o := Status.Failed]
    case Restart =>
      && book'.Keys == book.Keys
      && (forall o | o in book :: book'[o] == if book[o] == Running then Pending else book[o])
  }

  // Which move a step of the protocol is.
  function MoveOf(s: State, step: Step): Move {
    match step
    case Recording(r) => if r.Stores() then Incur(r.e, Handlers(r.rows)) else Stutter
    case Life(l) => if l.Resets() then Restart else Stutter
    case Drain(Enqueue(e)) => if s.lock.Held? && s.lock.at.Enqueuing? then EnqueueMove(s, s.lock.at.id, e) else Stutter
    case Working(Mark(w, stored)) => if stored && w in s.own.workers && s.own.workers[w].Handled?
      then Settle(Named(s.tables, s.own.workers[w].id), s.own.workers[w].ok) else Stutter
    case _ => Stutter
  }

  function Named(t: Tables, r: ReactionId): Obligation {
    if r in t.reactions then (t.reactions[r].event, t.reactions[r].handler) else (0, 0)
  }

  function EnqueueMove(s: State, r: ReactionId, step: EnqueueStep): Move
    requires s.lock.Held? && s.lock.at.Enqueuing?
  {
    match step
    case Claim => Begin(Named(s.tables, r))
    case ClaimError(applied) => if applied then Begin(Named(s.tables, r)) else Stutter
    case MarkFailed(stored) =>
      if !stored then Stutter
      else if s.tables.HasStatus(r, Running) then Settle(Named(s.tables, r), false)
      else GiveUp(Named(s.tables, r))
    case _ => Stutter
  }

  lemma BookAt(t: Tables, r: ReactionId)
    requires Unique(t) && r in t.reactions
    ensures Named(t, r) in Book(t) && Book(t)[Named(t, r)] == t.reactions[r].status
  {
    assert RowFor(t, r, Named(t, r).0, Named(t, r).1);
  }

  lemma BookRow(t: Tables, o: Obligation) returns (r: ReactionId)
    requires o in Book(t)
    ensures RowFor(t, r, o.0, o.1) && Book(t)[o] == t.reactions[r].status
  {
    assert exists q :: RowFor(t, q, o.0, o.1) by {
      var q :| q in t.reactions && (t.reactions[q].event, t.reactions[q].handler) == o;
      assert RowFor(t, q, o.0, o.1);
    }
    r :| RowFor(t, r, o.0, o.1) && Book(t)[o] == t.reactions[r].status;
  }

  lemma BookMarked(t: Tables, r: ReactionId, status: Status)
    requires Unique(t) && r in t.reactions
    ensures Book(MarkedAs(t, r, status)) == Book(t)[Named(t, r) := status]
  {
    var t' := MarkedAs(t, r, status);
    BookAt(t, r);
    BookAt(t', r);
    forall o | o in Book(t) ensures o in Book(t') && Book(t')[o] == Book(t)[Named(t, r) := status][o] {
      var q := BookRow(t, o);
      BookAt(t', q);
    }
    forall o | o in Book(t') ensures o in Book(t) {
      var q := BookRow(t', o);
      BookAt(t, q);
    }
  }

  lemma BookReset(t: Tables)
    requires Unique(t)
    ensures Moves(Book(t), Restart, Book(ResetRows(t)))
  {
    var t' := ResetRows(t);
    forall o | o in Book(t)
      ensures o in Book(t') && Book(t')[o] == if Book(t)[o] == Running then Pending else Book(t)[o]
    {
      var q := BookRow(t, o);
      BookAt(t', q);
    }
    forall o | o in Book(t') ensures o in Book(t) {
      var q := BookRow(t', o);
      BookAt(t, q);
    }
  }

  lemma BookStored(t: Tables, e: EventId, ty: EventType, rows: seq<NewRow>)
    requires Unique(t) && FreshIds(t, rows) && e !in t.events
    ensures Moves(Book(t), Incur(e, Handlers(rows)), Book(Recorded(t, e, ty, rows)))
  {
    var t1 := t.(events := t.events[e := ty]);
    var t' := Recorded(t, e, ty, rows);
    InsertAllUnique(t1, e, rows);
    InsertAllKeepsRows(t1, e, rows);
    InsertAllCoversHandlers(t1, e, rows);
    forall o | o in Book(t) ensures o in Book(t') && Book(t')[o] == Book(t)[o] {
      var q := BookRow(t, o);
      BookAt(t', q);
    }
    forall h | h in Handlers(rows) ensures (e, h) in Book(t') {
      var r :| r in t'.reactions && t'.reactions[r].event == e && t'.reactions[r].handler == h;
      BookAt(t', r);
    }
    forall o | o in Book(t') && o !in Book(t) ensures o.0 == e && o.1 in Handlers(rows) && Book(t')[o] == Pending {
      var q := BookRow(t', o);
      if q in t.reactions { BookAt(t, q); }
    }
  }

  lemma EnqueueMoves(s: State, r: ReactionId, stage: Stage, step: EnqueueStep)
    requires Inv(s) && Tidy(s) && AtStage(s, r, stage) && EnqueueEnabled(s, r, stage, step)
    ensures Moves(Book(s.tables), EnqueueMove(s, r, step), Book(EnqueueNext(s, r, stage, step).tables))
  {
    match step {
      case Claim => BookAt(s.tables, r); BookMarked(s.tables, r, Running);
      case ClaimError(_) => BookAt(s.tables, r); BookMarked(s.tables, r, Running);
      case MarkFailed(_) => BookAt(s.tables, r); BookMarked(s.tables, r, Status.Failed);
      case _ =>
    }
  }

  lemma MarkMoves(s: State, w: WorkerId, stored: bool)
    requires Inv(s) && Tidy(s) && WorkEnabled(s, Mark(w, stored))
    ensures Moves(Book(s.tables), MoveOf(s, Working(Mark(w, stored))), Book(WorkNext(s, Mark(w, stored)).tables))
  {
    BookAt(s.tables, s.own.workers[w].id);
    BookMarked(s.tables, s.own.workers[w].id, if s.own.workers[w].ok then Succeeded else Status.Failed);
  }

  // Refinement: in a harmless run every step is one move of the ledger.
  lemma StepMovesBook(s: State, step: Step)
    requires Inv(s) && Tidy(s) && Enabled(s, step)
    ensures Moves(Book(s.tables), MoveOf(s, step), Book(Next(s, step).tables))
  {
    match step {
      case Recording(r) => RecordMoves(s, r);
      case Life(l) => LifeMoves(s, l);
      case Drain(Enqueue(e)) => EnqueueMoves(s, s.lock.at.id, s.lock.at.stage, e);
      case Drain(_) =>
      case Working(Mark(w, stored)) => MarkMoves(s, w, stored);
      case Working(_) =>
    }
  }

  lemma RecordMoves(s: State, step: RecordStep)
    requires Inv(s) && RecordEnabled(s, step)
    ensures Moves(Book(s.tables), MoveOf(s, Recording(step)), Book(RecordNext(s, step).tables))
  {
    if step.Stores() {
      BookStored(s.tables, step.e, step.ty, step.rows);
    }
  }

  lemma LifeMoves(s: State, step: LifeStep)
    requires Inv(s) && LifeEnabled(s, step)
    ensures Moves(Book(s.tables), MoveOf(s, Life(step)), Book(LifeNext(s, step).tables))
  {
    if step.Resets() {
      BookReset(s.tables);
    }
  }

  // Every step is the ledger's move of that name.
  ghost predicate Refines(s: State, steps: seq<Step>)
    requires Feasible(s, steps)
    decreases |steps|
  {
    steps == [] ||
    (Moves(Book(s.tables), MoveOf(s, steps[0]), Book(Next(s, steps[0]).tables))
      && Refines(Next(s, steps[0]), steps[1..]))
  }

  lemma {:induction false} HarmlessRunRefines(s: State, steps: seq<Step>)
    requires Inv(s) && Tidy(s) && Feasible(s, steps) && HarmlessRun(s, steps)
    ensures Refines(s, steps)
    decreases |steps|
  {
    if steps != [] {
      StepMovesBook(s, steps[0]);
      StepKeepsInv(s, steps[0]);
      StepKeepsTidy(s, steps[0]);
      HarmlessRunRefines(Next(s, steps[0]), steps[1..]);
    }
  }

  // From the start of the current process on, the bus makes the ledger's moves.
  lemma {:induction false} BusRefinesLedger(s: State, steps: seq<Step>)
    requires Init(s) && Feasible(s, steps) && HarmlessSinceCrash(s, steps)
    ensures var (b, rest) := CurrentRun(s, steps); Feasible(b, rest) && Refines(b, rest)
  {
    CurrentRunIsARun(s, steps);
    var (b, rest) := CurrentRun(s, steps);
    InitInv(b);
    HarmlessRunRefines(b, rest);
  }

  // Right after Start's reset nothing is left running, so every unfinished reaction is pending.
  lemma ResetLeavesPending(s: State, r: ReactionId)
    requires r in ResetTables(s).tables.reactions
    ensures ResetTables(s).tables.IsTerminal(r) || ResetTables(s).tables.HasStatus(r, Pending)
    ensures r in s.tables.reactions && ResetTables(s).tables.IsTerminal(r) == s.tables.IsTerminal(r)
  {
  }
}
