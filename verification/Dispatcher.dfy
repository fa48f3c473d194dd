/** The persistent dispatcher as its code is written: the body of drainPending, enqueue and the
    worker loop, statement by statement, with every other goroutine free to act in between.
    Each method is shown to be a run of the state machine of ReactionProtocol, and to conclude
    what it does from the answers it got and from what is stored and registered. */
module Dispatcher {
  import opened Counting
  import opened ReactionTables
  import opened ReactionProtocol
  import opened ReactionRuns
  import opened Ownership
  import opened DrainPass
  import opened DrainAlone
  import opened DispatcherRuns
  import Rows = ReactionStore

  class Dispatcher {
    const cfg: Config
    const store: Rows.Store
    const company: Company
    const undecodable: set<EventId>   // events whose payload no handler can decode
    var bus: Bus
    var poll: Poll
    var inFlight: set<ReactionId>
    var pending: int
    var jobs: seq<ReactionId>
    var workers: map<WorkerId, Work>
    var lock: Lock           // drainMu, and the place in the code of whoever holds it
    var notes: Notes
    var callerDone: bool     // the context of the Drain call has ended

    constructor (cfg: Config, store: Rows.Store, company: Company, undecodable: set<EventId>)
      ensures this.cfg == cfg && this.store == store && this.company == company && this.undecodable == undecodable
      ensures Abs() == Boot(Abs()) && notes.log == [] && !callerDone
    {
      this.cfg, this.store, this.company, this.undecodable := cfg, store, company, undecodable;
      bus := Bus(false, false, false, {}, map[]);
      poll := Poll(Absent, false, false, Off);
      inFlight, pending, jobs, workers := {}, 0, [], map[];
      lock := Free;
      notes := Notes([], map[]);
      callerDone := false;
    }

    ghost function Abs(): State
      reads this, store
    {
      State(cfg, store.tables, bus, poll, Own(inFlight, pending, jobs, workers), lock, notes)
    }

    predicate AtStage(id: ReactionId, stage: Stage)
      reads this
    {
      lock.Held? && lock.at == Enqueuing(id, stage)
    }

    // ctx.Err() != nil, for the context of the poller or of the Drain call.
    predicate CtxDone(who: Who)
      reads this
    {
      if who.ByPoller? then poll.cancelled else callerDone
    }

    // A send could go through: the jobs channel is there and has room.
    predicate Room()
      reads this
    {
      poll.chan.Open? && |jobs| < cfg.queueCap
    }

    // With nobody else around, nothing fails.
    predicate Fair(who: Who)
      reads this, store
    {
      company.Nobody? ==> store.script == [] && undecodable == {} && !CtxDone(who)
    }

    function Now(): State
      reads this, store
      ensures Now() == Abs()
    {
      State(cfg, store.tables, bus, poll, Own(inFlight, pending, jobs, workers), lock, notes)
    }

    method Install(s: State)
      requires s.cfg == cfg
      modifies this, store
      ensures Abs() == s && callerDone == old(callerDone)
      ensures store.script == old(store.script) && store.sent == old(store.sent)
    {
      store.tables := s.tables;
      bus, poll := s.bus, s.poll;
      inFlight, pending, jobs, workers := s.own.inFlight, s.own.pending, s.own.jobs, s.own.workers;
      lock, notes := s.lock, s.notes;
    }

    // Any number of steps of the other goroutines, and perhaps the end of the Drain call's context.
    method Yield(me: Me)
      modifies this, store
      ensures Runs(company, old(Abs()), Abs()) && KeptFor(me, old(Abs()), Abs())
      ensures store.script == old(store.script) && store.sent == old(store.sent)
      ensures old(callerDone) ==> callerDone
      ensures company.Nobody? ==> Abs() == old(Abs()) && callerDone == old(callerDone)
    {
      RunsSelf(company, Abs());
      if company.Nobody? {
        return;
      }
      var turns: int := *;
      while turns > 0
        invariant Runs(company, old(Abs()), Abs()) && KeptFor(me, old(Abs()), Abs())
        invariant store.script == old(store.script) && store.sent == old(store.sent)
        invariant callerDone == old(callerDone)
      {
        turns := turns - 1;
        ghost var before := Abs();
        StepOf(me);
        RunsOn(company, old(Abs()), before, Abs());
      }
      var ends: bool := *;
      callerDone := callerDone || ends;
    }

    // Perhaps one step of another goroutine.
    method StepOf(me: Me)
      modifies this, store
      ensures Runs(company, old(Abs()), Abs()) && KeptFor(me, old(Abs()), Abs())
      ensures store.script == old(store.script) && store.sent == old(store.sent)
      ensures callerDone == old(callerDone)
    {
      var step: Step := *;
      ghost var before := Abs();
      RunsSelf(company, before);
      if Enabled(Now(), step) && Others(me, step) && Allowed(company, step) {
        OthersKeep(me, before, step);
        Install(Next(Now(), step));
        RunsStep(company, before, before, step, Abs());
      }
    }

    /* enqueue, one statement at a time */

    method MarkInFlight(id: ReactionId) returns (ok: bool)
      requires lock.Held? && lock.at.Picking? && lock.pass.rest != [] && lock.pass.rest[0] == id
      modifies this
      ensures Took(old(Abs()), Step.Drain(Pick), Abs()) && ok == (id !in old(inFlight)) && callerDone == old(callerDone)
      ensures if ok then AtStage(id, Counting) else lock.Held? && lock.at.Picking?
      ensures lock.who == old(lock.who) && lock.pass == old(lock.pass).(rest := old(lock.pass.rest)[1..])
    {
      var pass := lock.pass.(rest := lock.pass.rest[1..]);
      if id in inFlight {
        lock := lock.(pass := pass);
        return false;
      }
      inFlight := inFlight + {id};
      lock := Held(lock.who, Enqueuing(id, Counting), pass);
      ok := true;
    }

    method AddPending(id: ReactionId)
      requires AtStage(id, Counting)
      modifies this
      ensures Took(old(Abs()), InEnqueue(Count), Abs())
      ensures lock == old(lock).(at := Enqueuing(id, Loading)) && callerDone == old(callerDone)
    {
      pending := pending + 1;
      lock := lock.(at := Enqueuing(id, Loading));
    }

    method LoadEvent(id: ReactionId, e: EventId) returns (r: Rows.LoadResult)
      requires AtStage(id, Loading) && id in store.tables.reactions && store.tables.reactions[id].event == e
      modifies this, store
      ensures Took(old(Abs()), InEnqueue(if r.LoadFailed? then LoadError else Load), Abs())
      ensures store.Sends([Rows.GetEvent(e)]) && callerDone == old(callerDone)
      ensures r == if Rows.AnswerAt(old(store.script), 0).Lost? then Rows.LoadFailed
                   else if e in store.tables.events then Rows.Loaded(store.tables.events[e]) else Rows.EventNotFound
      ensures AtStage(id, if r.Loaded? then Looking else Undoing(if r.EventNotFound? then Missing else Release))
      ensures SameLocals(old(lock), lock)
    {
      r := store.Get(e);
      match r
      case Loaded(_) => lock := lock.(at := Enqueuing(id, Looking));
      case EventNotFound => lock := Held(lock.who, Enqueuing(id, Undoing(Missing)), lock.pass.(clean := false));
      case LoadFailed => lock := Held(lock.who, Enqueuing(id, Undoing(Release)), lock.pass.(clean := false));
    }

    method LookUpHandler(id: ReactionId, ty: EventType, h: HandlerName) returns (ok: bool)
      requires AtStage(id, Looking) && store.tables.HasEvent(id)
      requires store.tables.events[store.tables.reactions[id].event] == ty && store.tables.reactions[id].handler == h
      modifies this
      ensures Took(old(Abs()), InEnqueue(Look), Abs()) && ok == ((ty, h) in bus.handlers)
      ensures AtStage(id, if ok then Claiming else Undoing(Release)) && SameLocals(old(lock), lock)
      ensures callerDone == old(callerDone)
    {
      ok := (ty, h) in bus.handlers;
      if ok {
        lock := lock.(at := Enqueuing(id, Claiming));
      } else {
        lock := Held(lock.who, Enqueuing(id, Undoing(Release)), lock.pass.(unhandled := lock.pass.unhandled + {id}));
      }
    }

    method Claim(id: ReactionId) returns (r: Rows.ClaimResult)
      requires AtStage(id, Claiming)
      modifies this, store
      ensures Took(old(Abs()), InEnqueue(if r.ClaimLost? then ClaimError(r.applied) else ReactionProtocol.Claim), Abs())
      ensures store.Sends([Rows.ClaimOne(id)]) && callerDone == old(callerDone)
      ensures r.ClaimLost? <==> Rows.AnswerAt(old(store.script), 0).Lost?
      ensures !r.ClaimLost? ==> (r.Claimed? <==> old(store.tables).HasStatus(id, Pending))
      ensures AtStage(id, if r.Claimed? then Decoding else Undoing(Release)) && SameLocals(old(lock), lock)
    {
      r := store.ClaimReaction(id);
      match r
      case Claimed =>
        lock := lock.(at := Enqueuing(id, Decoding));
        notes := notes.(fate := notes.fate[id := ReactionProtocol.Claimed]);
      case NotPending => lock := lock.(at := Enqueuing(id, Undoing(Release)));
      case ClaimLost(_) => lock := Held(lock.who, Enqueuing(id, Undoing(Release)), lock.pass.(clean := false));
    }

    method DecodeEvent(id: ReactionId, e: EventId) returns (ok: bool)
      requires AtStage(id, Decoding)
      modifies this
      ensures Took(old(Abs()), InEnqueue(Decode(ok)), Abs()) && ok == (e !in undecodable)
      ensures AtStage(id, if ok then Sending else Undoing(Undecodable)) && SameLocals(old(lock), lock)
      ensures callerDone == old(callerDone)
    {
      ok := e !in undecodable;
      if ok {
        lock := lock.(at := Enqueuing(id, Sending));
      } else {
        notes := notes.(fate := notes.fate[id := FailedDecode]);
        lock := Held(lock.who, Enqueuing(id, Undoing(Undecodable)), lock.pass.(clean := false));
      }
    }

    // Entering the select of enqueue: its channel is the one that d.jobs holds now.
    method EnterSelect(id: ReactionId) returns (live: bool)
      requires AtStage(id, Sending)
      modifies this
      ensures Took(old(Abs()), InEnqueue(Select), Abs()) && live == poll.chan.Open?
      ensures AtStage(id, Parked(live)) && SameLocals(old(lock), lock) && callerDone == old(callerDone)
    {
      live := poll.chan.Open?;
      lock := lock.(at := Enqueuing(id, Parked(live)));
    }

    // Waiting in the select. It goes on waiting exactly on a nil or full channel with a context that is alive.
    method TrySend(id: ReactionId, live: bool) returns (r: SendResult)
      requires AtStage(id, Parked(live))
      modifies this
      ensures r.Sent? ==> live && Took(old(Abs()), InEnqueue(Send), Abs())
      ensures r.Cancelled? ==> Took(old(Abs()), InEnqueue(SendCancelled), Abs()) && CtxDone(lock.who)
      ensures r.Waiting? ==> Abs() == old(Abs())
      ensures r.Waiting? <==> !(live && old(Room())) && !old(CtxDone(lock.who))
      ensures r.Cancelled? ==> AtStage(id, Undoing(Release)) && SameLocals(old(lock), lock)
      ensures !r.Cancelled? ==> EnqueueDone(old(lock), lock, id, r)
      ensures callerDone == old(callerDone)
    {
      var first: bool := *;   // with both branches ready, select is free to choose
      var done := CtxDone(lock.who);
      if live && Room() && (first || !done) {
        jobs := jobs + [id];
        lock := Held(lock.who, Picking, lock.pass.(queued := true, won := lock.pass.won + [id]));
        return Sent;
      }
      if done {
        notes := notes.(fate := notes.fate[id := Released]);
        lock := Held(lock.who, Enqueuing(id, Undoing(Release)), lock.pass.(clean := false));
        return Cancelled;
      }
      r := Waiting;
    }

    // d.pending.Done(), which every early return of enqueue begins with.
    method DonePending(id: ReactionId, why: Why)
      requires AtStage(id, Undoing(why))
      modifies this
      ensures Took(old(Abs()), InEnqueue(Undo), Abs())
      ensures lock == old(lock).(at := Enqueuing(id, Clearing(why))) && callerDone == old(callerDone)
    {
      pending := pending - 1;
      lock := lock.(at := Enqueuing(id, Clearing(why)));
    }

    method ClearInFlight(id: ReactionId, why: Why)
      requires AtStage(id, Clearing(why))
      modifies this
      ensures Took(old(Abs()), InEnqueue(Clear), Abs()) && callerDone == old(callerDone)
      ensures lock == old(lock).(at := if why.Release? then Picking else Enqueuing(id, Failing(why)))
    {
      inFlight := inFlight - {id};
      lock := lock.(at := if why.Release? then Picking else Enqueuing(id, Failing(why)));
    }

    method MarkFailedEntry(id: ReactionId, why: Why)
      requires AtStage(id, Failing(why)) && id in store.tables.reactions
      modifies this, store
      ensures var answer := Rows.AnswerAt(old(store.script), 0);
        && store.Sends([Rows.MarkOne(id, Failed)])
        && Took(old(Abs()), InEnqueue(MarkFailed(answer.Applied())), Abs())
        && (answer.Applied() ==> store.tables.HasStatus(id, Failed))
      ensures lock == old(lock).(at := Picking) && callerDone == old(callerDone)
    {
      var r := store.MarkReaction(id, Failed);
      lock := lock.(at := Picking);
    }

    // d.pending.Done() and d.clearInFlight(id), in the order they run.
    method LeaveEntry(id: ReactionId, why: Why)
      requires AtStage(id, Undoing(why)) && Fair(lock.who)
      modifies this, store
      ensures Runs(company, old(Abs()), Abs()) && SameLocals(old(lock), lock) && (old(callerDone) ==> callerDone)
      ensures lock.at == if why.Release? then Picking else Enqueuing(id, Failing(why))
      ensures store.Sends([]) && Fair(lock.who)
    {
      ghost var start := Abs();
      RunsSelf(company, start);
      DonePending(id, why);
      RunsStep(company, start, start, InEnqueue(Undo), Abs());
      YieldOn(start);
      ghost var before := Abs();
      ClearInFlight(id, why);
      RunsStep(company, start, before, InEnqueue(Clear), Abs());
    }

    // The way out of enqueue when it fails.
    method GiveUp(id: ReactionId, why: Why)
      requires AtStage(id, Undoing(why)) && id in store.tables.reactions && Fair(lock.who)
      modifies this, store
      ensures Runs(company, old(Abs()), Abs()) && SameLocals(old(lock), lock) && (old(callerDone) ==> callerDone)
      ensures lock.at.Picking? && Fair(lock.who)
      ensures store.Sends(if why.Release? then [] else [Rows.MarkOne(id, Failed)])
      ensures !why.Release? && Rows.AnswerAt(old(store.script), 0).Applied() ==> store.tables.HasStatus(id, Failed)
    {
      ghost var start := Abs();
      LeaveEntry(id, why);
      if !why.Release? {
        YieldOn(start);
        ghost var before := Abs();
        RunsGrow(company, start, before);
        ghost var applied := Rows.AnswerAt(store.script, 0).Applied();
        MarkFailedEntry(id, why);
        RunsStep(company, start, before, InEnqueue(MarkFailed(applied)), Abs());
      }
    }

    // Yield, in the middle of a run of the drain goroutine that began at start.
    method YieldOn(ghost start: State)
      requires Runs(company, start, Abs()) && lock.Held?
      modifies this, store
      ensures Runs(company, start, Abs()) && SamePlace(old(lock), lock)
      ensures store.script == old(store.script) && store.sent == old(store.sent)
      ensures old(callerDone) ==> callerDone
      ensures company.Nobody? ==> Abs() == old(Abs()) && callerDone == old(callerDone)
    {
      ghost var before := Abs();
      Yield(Drainer);
      RunsOn(company, start, before, Abs());
    }

    // One look of the goroutine inside the select.
    method LookOn(id: ReactionId, live: bool) returns (r: SendResult)
      requires AtStage(id, Parked(live)) && Fair(lock.who) && (company.Nobody? ==> live == poll.chan.Open?)
      modifies this, store
      ensures Runs(company, old(Abs()), Abs()) && (old(callerDone) ==> callerDone)
      ensures store.Sends([])
      ensures !r.Cancelled? ==> EnqueueDone(old(lock), lock, id, r)
      ensures r.Waiting? ==> AtStage(id, Parked(live)) && SameLocals(old(lock), lock)
      ensures r.Cancelled? ==> AtStage(id, Undoing(Release)) && SameLocals(old(lock), lock) && CtxDone(lock.who)
      ensures lock.Held? && Fair(lock.who)
      ensures company.Nobody? && r.Waiting? ==> !Room() && Abs() == old(Abs())
    {
      ghost var start := Abs();
      RunsSelf(company, start);
      YieldOn(start);
      ghost var before := Abs();
      r := TrySend(id, live);
      if !r.Waiting? {
        RunsStep(company, start, before, InEnqueue(if r.Sent? then Send else SendCancelled), Abs());
      }
    }

    // Inside the select. Looking on ends after patience rounds without room; the goroutine then still waits in it.
    method Wait(id: ReactionId, live: bool, patience: nat) returns (r: SendResult)
      requires AtStage(id, Parked(live)) && Fair(lock.who) && (company.Nobody? ==> live == poll.chan.Open?)
      modifies this, store
      ensures Runs(company, old(Abs()), Abs()) && (old(callerDone) ==> callerDone)
      ensures store.Sends([])
      ensures !r.Cancelled? ==> EnqueueDone(old(lock), lock, id, r)
      ensures r.Cancelled? ==> AtStage(id, Undoing(Release)) && SameLocals(old(lock), lock) && CtxDone(lock.who)
      ensures lock.Held? && Fair(lock.who)
      ensures company.Nobody? && r.Waiting? && patience > 0 ==> !Room()
    {
      ghost var start := Abs();
      RunsSelf(company, start);
      r := Waiting;
      for round := 0 to patience
        invariant Runs(company, start, Abs()) && (old(callerDone) ==> callerDone)
        invariant store.Sends([]) && r.Waiting?
        invariant AtStage(id, Parked(live)) && SameLocals(old(lock), lock) && Fair(lock.who)
        invariant company.Nobody? ==> Abs() == start && (round > 0 ==> !Room())
      {
        ghost var before := Abs();
        r := LookOn(id, live);
        RunsOn(company, start, before, Abs());
        if !r.Waiting? {
          return;
        }
      }
    }

    // The select of enqueue.
    method SendOrGiveUp(id: ReactionId, patience: nat) returns (r: SendResult, ghost v: Verdict)
      requires AtStage(id, Sending) && id in store.tables.reactions && Fair(lock.who)
      modifies this, store
      ensures Runs(company, old(Abs()), Abs()) && (old(callerDone) ==> callerDone)
      ensures EnqueueDone(old(lock), lock, id, r)
      ensures store.Sends([]) && Fair(lock.who)
      ensures r == ResultOf(v) && (v.Queued? || v.Withdrawn? || v.Waits?) && (v.Withdrawn? ==> CtxDone(lock.who))
      ensures company.Nobody? && v.Waits? && patience > 0 ==> !Room()
    {
      ghost var start := Abs();
      RunsSelf(company, start);
      var live := EnterSelect(id);
      RunsStep(company, start, start, InEnqueue(Select), Abs());
      ghost var before := Abs();
      r := Wait(id, live, patience);
      RunsOn(company, start, before, Abs());
      v := if r.Sent? then Queued else if r.Waiting? then Waits else Withdrawn;
      if r.Cancelled? {
        before := Abs();
        RunsGrow(company, start, before);
        GiveUp(id, Release);
        RunsGrow(company, before, Abs());
        RunsOn(company, start, before, Abs());
      }
    }

    // The claim of enqueue, and what others do before it looks at the answer.
    method ClaimNext(id: ReactionId) returns (claim: Rows.ClaimResult)
      requires AtStage(id, Claiming) && Fair(lock.who)
      modifies this, store
      ensures Runs(company, old(Abs()), Abs()) && (old(callerDone) ==> callerDone)
      ensures store.Sends([Rows.ClaimOne(id)])
      ensures claim.ClaimLost? <==> Rows.AnswerAt(old(store.script), 0).Lost?
      ensures !claim.ClaimLost? ==> (claim.Claimed? <==> old(store.tables).HasStatus(id, Pending))
      ensures AtStage(id, if claim.Claimed? then Decoding else Undoing(Release)) && SameLocals(old(lock), lock)
      ensures Fair(lock.who)
    {
      ghost var start := Abs();
      RunsSelf(company, start);
      claim := Claim(id);
      RunsStep(company, start, start,
        InEnqueue(if claim.ClaimLost? then ClaimError(claim.applied) else ReactionProtocol.Claim), Abs());
      YieldOn(start);
    }

    // The tail of enqueue, from the claim on.
    method ClaimAndSend(id: ReactionId, e: EventId, patience: nat) returns (r: SendResult, ghost v: Verdict)
      requires AtStage(id, Claiming) && id in store.tables.reactions && Fair(lock.who)
      modifies this, store
      ensures Runs(company, old(Abs()), Abs()) && (old(callerDone) ==> callerDone)
      ensures EnqueueDone(old(lock), lock, id, r)
      ensures store.Sends(AskedAfterLoad(v, id)) && Fair(lock.who) && r == ResultOf(v)
      ensures ClaimJudged(v, id, e, undecodable, old(store.script), store.tables, CtxDone(lock.who))
      ensures v.NotPending? ==> !old(store.tables).HasStatus(id, Pending)
      ensures company.Nobody? && v.Waits? && patience > 0 ==> !Room()
    {
      ghost var start, script, sent := Abs(), store.script, store.sent;
      var claim := ClaimNext(id);
      ghost var before := Abs();
      RunsGrow(company, start, before);
      if claim.Claimed? {
        r, v := DecodeAndSend(id, e, patience);
      } else {
        GiveUp(id, Release);
        r, v := Cancelled, if claim.ClaimLost? then ClaimLost else NotPending;
      }
      RunsOn(company, start, before, Abs());
      Rows.AnsweredConcat(sent, [Rows.ClaimOne(id)], if v.BadPayload? then [Rows.MarkOne(id, Failed)] else [], script);
    }

    // From the decoding on.
    method DecodeAndSend(id: ReactionId, e: EventId, patience: nat) returns (r: SendResult, ghost v: Verdict)
      requires AtStage(id, Decoding) && id in store.tables.reactions && Fair(lock.who)
      modifies this, store
      ensures Runs(company, old(Abs()), Abs()) && (old(callerDone) ==> callerDone)
      ensures EnqueueDone(old(lock), lock, id, r)
      ensures store.Sends(if v.BadPayload? then [Rows.MarkOne(id, Failed)] else []) && Fair(lock.who)
      ensures r == ResultOf(v) && (v.BadPayload? || v.Queued? || v.Withdrawn? || v.Waits?)
      ensures v.BadPayload? <==> e in undecodable
      ensures v.BadPayload? && Rows.AnswerAt(old(store.script), 0).Applied() ==> store.tables.HasStatus(id, Failed)
      ensures v.Withdrawn? ==> CtxDone(lock.who)
      ensures company.Nobody? && v.Waits? && patience > 0 ==> !Room()
    {
      ghost var start := Abs();
      RunsSelf(company, start);
      var decoded := DecodeEvent(id, e);
      RunsStep(company, start, start, InEnqueue(Decode(decoded)), Abs());
      YieldOn(start);
      ghost var before := Abs();
      RunsGrow(company, start, before);
      if decoded {
        r, v := SendOrGiveUp(id, patience);
      } else {
        GiveUp(id, Undecodable);
        r, v := Cancelled, BadPayload;
      }
      RunsOn(company, start, before, Abs());
    }

    // The lookup of enqueue, and what others do before it looks at the answer.
    method LookNext(id: ReactionId, ty: EventType, h: HandlerName) returns (ok: bool)
      requires AtStage(id, Looking) && store.tables.HasEvent(id) && Fair(lock.who)
      requires store.tables.events[store.tables.reactions[id].event] == ty && store.tables.reactions[id].handler == h
      modifies this, store
      ensures Runs(company, old(Abs()), Abs()) && (old(callerDone) ==> callerDone)
      ensures store.Sends([]) && ok == ((ty, h) in old(bus.handlers))
      ensures AtStage(id, if ok then Claiming else Undoing(Release)) && SameLocals(old(lock), lock)
      ensures Fair(lock.who) && (company.Nobody? ==> store.tables == old(store.tables))
    {
      ghost var start := Abs();
      RunsSelf(company, start);
      ok := LookUpHandler(id, ty, h);
      RunsStep(company, start, start, InEnqueue(Look), Abs());
      YieldOn(start);
    }

    // From the lookup on.
    method LookAndClaim(id: ReactionId, e: EventId, ty: EventType, h: HandlerName, patience: nat)
        returns (r: SendResult, ghost v: Verdict)
      requires AtStage(id, Looking) && store.tables.HasEvent(id) && Fair(lock.who)
      requires store.tables.events[store.tables.reactions[id].event] == ty && store.tables.reactions[id].handler == h
      modifies this, store
      ensures Runs(company, old(Abs()), Abs()) && (old(callerDone) ==> callerDone)
      ensures EnqueueDone(old(lock), lock, id, r)
      ensures store.Sends(if v.NoHandler? then [] else AskedAfterLoad(v, id)) && Fair(lock.who) && r == ResultOf(v)
      ensures v.NoHandler? <==> (ty, h) !in old(bus.handlers)
      ensures !v.NoHandler? ==>
        ClaimJudged(v, id, e, undecodable, old(store.script), store.tables, CtxDone(lock.who))
      ensures company.Nobody? && v.NotPending? ==> !old(store.tables).HasStatus(id, Pending)
      ensures company.Nobody? && v.Waits? && patience > 0 ==> !Room()
    {
      ghost var start := Abs();
      var ok := LookNext(id, ty, h);
      ghost var before := Abs();
      RunsGrow(company, start, before);
      if ok {
        r, v := ClaimAndSend(id, e, patience);
      } else {
        GiveUp(id, Release);
        r, v := Cancelled, NoHandler;
      }
      RunsOn(company, start, before, Abs());
    }

    // The load of enqueue, and what others do before it looks at the answer.
    method LoadNext(id: ReactionId, e: EventId) returns (r: Rows.LoadResult)
      requires AtStage(id, Loading) && id in store.tables.reactions && store.tables.reactions[id].event == e
      requires Fair(lock.who)
      modifies this, store
      ensures Runs(company, old(Abs()), Abs()) && (old(callerDone) ==> callerDone)
      ensures store.Sends([Rows.GetEvent(e)])
      ensures r == if Rows.AnswerAt(old(store.script), 0).Lost? then Rows.LoadFailed
                   else if e in old(store.tables.events) then Rows.Loaded(old(store.tables).events[e])
                   else Rows.EventNotFound
      ensures AtStage(id, if r.Loaded? then Looking else Undoing(if r.EventNotFound? then Missing else Release))
      ensures SameLocals(old(lock), lock) && Fair(lock.who)
      ensures company.Nobody? ==> store.tables == old(store.tables)
    {
      ghost var start := Abs();
      RunsSelf(company, start);
      r := LoadEvent(id, e);
      RunsStep(company, start, start, InEnqueue(if r.LoadFailed? then LoadError else Load), Abs());
      YieldOn(start);
    }

    // What enqueue does with the answer of the load.
    method AfterLoad(id: ReactionId, e: EventId, h: HandlerName, loaded: Rows.LoadResult, patience: nat)
        returns (r: SendResult, ghost v: Verdict)
      requires AtStage(id,
                 if loaded.Loaded? then Looking else Undoing(if loaded.EventNotFound? then Missing else Release))
      requires id in store.tables.reactions && Fair(lock.who)
      requires store.tables.reactions[id].event == e && store.tables.reactions[id].handler == h
      requires loaded.Loaded? ==> e in store.tables.events && store.tables.events[e] == loaded.ty
      modifies this, store
      ensures Runs(company, old(Abs()), Abs()) && (old(callerDone) ==> callerDone)
      ensures EnqueueDone(old(lock), lock, id, r)
      ensures store.Sends(AskedNext(v, id)) && Fair(lock.who) && r == ResultOf(v) && !v.InFlight?
      ensures (v.LoadLost? <==> loaded.LoadFailed?) && (v.NoEvent? <==> loaded.EventNotFound?)
      ensures v.NoEvent? && Rows.AnswerAt(old(store.script), 0).Applied() ==> store.tables.HasStatus(id, Failed)
      ensures loaded.Loaded? ==> (v.Claims() <==> (loaded.ty, h) in old(bus.handlers))
      ensures v.Claims() ==> ClaimJudged(v, id, e, undecodable, old(store.script), store.tables, CtxDone(lock.who))
      ensures company.Nobody? && v.NotPending? ==> !old(store.tables).HasStatus(id, Pending)
      ensures company.Nobody? && v.Waits? && patience > 0 ==> !Room()
    {
      if loaded.Loaded? {
        r, v := LookAndClaim(id, e, loaded.ty, h, patience);
      } else {
        GiveUp(id, if loaded.EventNotFound? then Missing else Release);
        r, v := Cancelled, if loaded.EventNotFound? then NoEvent else LoadLost;
      }
    }

    // From the load on.
    method LoadAndSend(id: ReactionId, e: EventId, h: HandlerName, patience: nat)
        returns (r: SendResult, ghost v: Verdict)
      requires AtStage(id, Loading) && id in store.tables.reactions && Fair(lock.who)
      requires store.tables.reactions[id].event == e && store.tables.reactions[id].handler == h
      modifies this, store
      ensures Runs(company, old(Abs()), Abs()) && (old(callerDone) ==> callerDone)
      ensures EnqueueDone(old(lock), lock, id, r)
      ensures store.Sends(Asked(v, id, e)) && Fair(lock.who) && r == ResultOf(v) && !v.InFlight?
      ensures LoadJudged(v, id, e, h, old(store.script), old(Abs()), Abs())
      ensures v.Claims() ==>
        ClaimJudged(v, id, e, undecodable, Rows.After(old(store.script), 1), store.tables, CtxDone(lock.who))
      ensures company.Nobody? && v.NotPending? ==> !old(store.tables).HasStatus(id, Pending)
      ensures company.Nobody? && v.Waits? && patience > 0 ==> !Room()
    {
      ghost var start, script, sent := Abs(), store.script, store.sent;
      var loaded := LoadNext(id, e);
      ghost var before := Abs();
      RunsGrow(company, start, before);
      r, v := AfterLoad(id, e, h, loaded, patience);
      JudgedAfterLoad(company, v, id, e, h, script, start, before, Abs());
      RunsOn(company, start, before, Abs());
      Rows.AnsweredConcat(sent, [Rows.GetEvent(e)], AskedNext(v, id), script);
    }

    // enqueue, whatever the others do between its statements: it sends the statements its verdict takes, and
    // each verdict has its reason.
    method Enqueue(id: ReactionId, patience: nat) returns (r: SendResult, ghost v: Verdict)
      requires lock.Held? && lock.at.Picking? && lock.pass.rest != [] && lock.pass.rest[0] == id
      requires id in store.tables.reactions && Fair(lock.who)
      modifies this, store
      ensures Runs(company, old(Abs()), Abs()) && EnqueueDone(Popped(old(lock)), lock, id, r)
      ensures (old(callerDone) ==> callerDone) && Fair(lock.who) && r == ResultOf(v)
      ensures v.InFlight? <==> id in old(inFlight)
      ensures store.Sends(Asked(v, id, old(store.tables).reactions[id].event))
      ensures !v.InFlight? ==> var row := old(store.tables).reactions[id];
        LoadJudged(v, id, row.event, row.handler, old(store.script), old(Abs()), Abs())
      ensures v.Claims() ==> var row := old(store.tables).reactions[id];
        ClaimJudged(v, id, row.event, undecodable, Rows.After(old(store.script), 1), store.tables, CtxDone(lock.who))
      ensures company.Nobody? && v.NotPending? ==> !old(store.tables).HasStatus(id, Pending)
      ensures company.Nobody? && v.Waits? && patience > 0 ==> !Room()
    {
      var e, h := store.tables.reactions[id].event, store.tables.reactions[id].handler;
      ghost var start := Abs();
      RunsSelf(company, start);
      var fresh_ := MarkInFlight(id);
      RunsStep(company, start, start, Step.Drain(Pick), Abs());
      if !fresh_ {
        return Cancelled, InFlight;
      }
      CountNext(id, start);
      ghost var before := Abs();
      RunsGrow(company, start, before);
      r, v := LoadAndSend(id, e, h, patience);
      RunsOn(company, start, before, Abs());
    }

    // d.pending.Add(1), between others.
    method CountNext(id: ReactionId, ghost start: State)
      requires Runs(company, start, Abs()) && AtStage(id, Counting) && Fair(lock.who)
      modifies this, store
      ensures Runs(company, start, Abs()) && (old(callerDone) ==> callerDone)
      ensures AtStage(id, Loading) && SameLocals(old(lock), lock)
      ensures store.Sends([]) && Fair(lock.who) && (company.Nobody? ==> store.tables == old(store.tables))
    {
      YieldOn(start);
      ghost var before := Abs();
      AddPending(id);
      RunsStep(company, start, before, InEnqueue(Count), Abs());
      YieldOn(start);
    }

    /* drainPending */

    // drainPending returns, and the deferred unlock runs.
    method UnlockDrainMu()
      requires lock.Held?
      modifies this
      ensures Abs() == Unlock(old(Abs())) && callerDone == old(callerDone)
    {
      if lock.who.ByPoller? {
        poll := poll.(poller := Selecting);
      }
      lock := Free;
    }

    // The list statement, with its error branch and the empty answer.
    method ListOnce() returns (ids: seq<ReactionId>)
      requires lock.Held? && lock.at.Listing? && cfg.pollLimit > 0
      modifies this, store
      ensures store.Sends([Rows.ListPending(cfg.pollLimit)]) && callerDone == old(callerDone)
      ensures var lost := Rows.AnswerAt(old(store.script), 0).Lost?;
        Took(old(Abs()), Step.Drain(if lost then ListError else List(ids)), Abs()) && (lost ==> ids == [])
      ensures ids == [] ==> lock.Free?
      ensures ids != [] ==>
        InPass(ids, false) && lock.who == old(lock.who) && lock.pass.rest == ids
        && lock.pass.before == PendingIds(store.tables)
      ensures store.tables == old(store.tables) && poll.cancelled == old(poll.cancelled)
      ensures |ids| <= cfg.pollLimit
      ensures forall i | 0 <= i < |ids| :: ids[i] in store.tables.reactions
    {
      var listed := store.ListPendingReactions(cfg.pollLimit);
      if listed.ListFailed? {
        UnlockDrainMu();
        return [];
      }
      ids := listed.ids;
      if |ids| == 0 {
        UnlockDrainMu();
      } else {
        lock := Held(lock.who, Picking, NewPass(Now(), ids));
      }
    }

    // In the loop over ids.
    predicate InPass(ids: seq<ReactionId>, queued: bool)
      reads this
    {
      lock.Held? && lock.at.Picking? && lock.pass.full == (|ids| == cfg.pollLimit) && lock.pass.queued == queued
    }

    // One turn of the inner loop of drainPending. It leaves the loop when the context has ended.
    method EnqueueNext(id: ReactionId, patience: nat) returns (r: TurnResult)
      requires lock.Held? && lock.at.Picking? && lock.pass.rest != [] && lock.pass.rest[0] == id
      requires id in store.tables.reactions && Fair(lock.who)
      modifies this, store
      ensures Runs(company, old(Abs()), Abs()) && Fair(old(lock.who)) && (old(callerDone) ==> callerDone)
      ensures old(CtxDone(lock.who)) ==> r == Leave(PassOver)
      ensures r.Leave? ==> r.how == StillSending || (r.how == PassOver && lock.Free? && CtxDone(old(lock.who)))
      ensures r == Leave(StillSending) && company.Nobody? && patience > 0 ==> !Room()
      ensures old(store.sent) <= store.sent
      ensures r.GoOn? ==> EnqueueDone(Popped(old(lock)), lock, id, if r.sent then Sent else Cancelled)
    {
      ghost var start := Abs();
      RunsSelf(company, start);
      YieldOn(start);
      ghost var before := Abs();
      RunsGrow(company, start, before);
      if CtxDone(lock.who) {
        UnlockDrainMu();
        RunsStep(company, start, before, Step.Drain(DrainStep.Stop), Abs());
        return Leave(PassOver);
      }
      var sent;
      ghost var v;
      sent, v := Enqueue(id, patience);
      RunsOn(company, start, before, Abs());
      r := if sent.Waiting? then Leave(StillSending) else GoOn(sent.Sent?);
    }

    // The inner loop of drainPending. ok: it came to the end of ids.
    method EnqueueAll(ids: seq<ReactionId>, patience: nat) returns (ok: bool, queued: bool, r: PassResult)
      requires InPass(ids, false) && lock.pass.rest == ids && Fair(lock.who)
      requires forall i | 0 <= i < |ids| :: ids[i] in store.tables.reactions
      modifies this, store
      ensures Runs(company, old(Abs()), Abs()) && Fair(old(lock.who)) && (old(callerDone) ==> callerDone)
      ensures ok ==>
        InPass(ids, queued) && lock.who == old(lock.who) && lock.pass.rest == []
        && lock.pass.before == old(lock.pass.before)
      ensures !ok ==> r == StillSending || (r == PassOver && lock.Free? && CtxDone(old(lock.who)))
      ensures !ok && r == StillSending && company.Nobody? && patience > 0 ==> !Room()
      ensures old(store.sent) <= store.sent
    {
      ghost var start := Abs();
      RunsSelf(company, start);
      queued := false;
      for i := 0 to |ids|
        invariant Runs(company, start, Abs()) && (old(callerDone) ==> callerDone)
        invariant InPass(ids, queued) && lock.who == old(lock.who) && lock.pass.rest == ids[i..]
        invariant lock.pass.before == old(lock.pass.before) && Fair(lock.who) && old(store.sent) <= store.sent
      {
        ghost var before := Abs();
        RunsGrow(company, start, before);
        var turn := EnqueueNext(ids[i], patience);
        RunsOn(company, start, before, Abs());
        if turn.Leave? {
          return false, queued, turn.how;
        }
        queued := queued || turn.sent;
        assert ids[i..][1..] == ids[i + 1..];
      }
      ok, r := true, Again;
    }

    // if !queued || len(reactions) < d.pollLimit { return }
    method EndOfPass(ids: seq<ReactionId>, queued: bool) returns (r: PassResult)
      requires InPass(ids, queued) && |ids| <= cfg.pollLimit && lock.pass.rest == []
      modifies this
      ensures Took(old(Abs()), Step.Drain(End), Abs()) && callerDone == old(callerDone)
      ensures r == if queued && |ids| == cfg.pollLimit then Again else PassOver
      ensures r.Again? ==> lock.Held? && lock.at.Listing? && lock.who == old(lock.who)
      ensures !r.Again? ==> lock.Free?
      ensures poll.cancelled == old(poll.cancelled)
    {
      if !queued || |ids| < cfg.pollLimit {
        UnlockDrainMu();
        r := PassOver;
      } else {
        lock := lock.(at := Listing);
        r := Again;
      }
    }

    // What a pass does with its list.
    method WorkOff(ids: seq<ReactionId>, patience: nat) returns (r: PassResult)
      requires InPass(ids, false) && lock.pass.rest == ids && Fair(lock.who) && |ids| <= cfg.pollLimit
      requires forall i | 0 <= i < |ids| :: ids[i] in store.tables.reactions
      modifies this, store
      ensures Runs(company, old(Abs()), Abs()) && Fair(old(lock.who)) && (old(callerDone) ==> callerDone)
      ensures old(store.sent) <= store.sent
      ensures r.Again? ==> lock.Held? && lock.at.Listing? && lock.who == old(lock.who)
      ensures r.PassOver? ==> lock.Free?
      ensures r.StillSending? && company.Nobody? && patience > 0 ==> !Room()
      ensures r.Again? && !company.Anyone? && Orderable(company, old(Abs())) ==>
        PendingIds(store.tables) < old(lock.pass.before)
    {
      ghost var start := Abs();
      var ok, queued, over := EnqueueAll(ids, patience);
      if !ok {
        return over;
      }
      ghost var before := Abs();
      r := EndOfPass(ids, queued);
      RunsStep(company, start, before, Step.Drain(End), Abs());
      if r.Again? && !company.Anyone? && Orderable(company, start) {
        RunsKeepOrderable(company, start, before);
        RepeatIsSmaller(before.tables, before.lock);
      }
    }

    // The first statement sent since is the list.
    twostate predicate ListedFirst()
      reads this, store
    {
      old(store.sent) + [Rows.Sent(Rows.ListPending(cfg.pollLimit), Rows.AnswerAt(old(store.script), 0))] <= store.sent
    }

    // One turn of the outer loop of drainPending. Going round again has cost a pending reaction, if nothing
    // new came in.
    method DrainPass(patience: nat) returns (r: PassResult)
      requires lock.Held? && lock.at.Listing? && cfg.pollLimit > 0 && Fair(lock.who)
      modifies this, store
      ensures Runs(company, old(Abs()), Abs()) && Fair(old(lock.who)) && (old(callerDone) ==> callerDone)
      ensures ListedFirst()
      ensures r.Again? ==> lock.Held? && lock.at.Listing? && lock.who == old(lock.who)
      ensures r.PassOver? ==> lock.Free?
      ensures r.StillSending? && company.Nobody? && patience > 0 ==> !Room()
      ensures r.Again? && !company.Anyone? && Orderable(company, old(Abs())) ==>
        PendingIds(store.tables) < PendingIds(old(store.tables))
    {
      ghost var start := Abs();
      RunsSelf(company, start);
      ghost var lost := Rows.AnswerAt(store.script, 0).Lost?;
      var ids := ListOnce();
      RunsStep(company, start, start, Step.Drain(if lost then ListError else List(ids)), Abs());
      if |ids| == 0 {
        return PassOver;
      }
      ghost var before := Abs();
      r := WorkOff(ids, patience);
      if r.Again? && !company.Anyone? && Orderable(company, start) {
        RunsKeepOrderable(company, start, before);
      }
      RunsOn(company, start, before, Abs());
    }

    // drainPending. With records coming in the loop has no bound of its own, so it is followed for turns
    // passes; in calmer company it is followed to its end. Alone it queues everything that has a handler.
    method DrainPending(who: Who, turns: nat, patience: nat) returns (r: PassResult)
      requires cfg.pollLimit > 0 && lock.Free? && (who.ByPoller? ==> poll.poller.Wanting?)
      requires (!company.Anyone? ==> Reachable(Abs())) && Fair(who)
      modifies this, store
      ensures Starts(company, old(Abs()), Life(if who.ByPoller? then PollerAcquire else CallerAcquire), Abs())
      ensures r.PassOver? ==> lock.Free?
      ensures r.Again? ==> company.Anyone?
      ensures r.StillSending? && company.Nobody? && patience > 0 ==> !Room()
      ensures r.PassOver? && company.Nobody? && ReadyToDrain(old(Abs())) ==> Drained(old(Abs()), Abs())
      ensures ListedFirst() || (company.Anyone? && turns == 0)
      ensures Fair(who) && (old(callerDone) ==> callerDone)
    {
      ghost var free := Abs();
      lock := Held(who, Listing, NO_PASS);
      if who.ByPoller? {
        poll := poll.(poller := Draining);
      }
      ghost var start := Abs();
      ghost var acquire := if who.ByPoller? then PollerAcquire else CallerAcquire;
      if !company.Anyone? {
        ReachableOrderable(company, free);
      }
      StartsOrderable(company, free, acquire, start);
      r := DrainPasses(turns, patience);
      if r.PassOver? && company.Nobody? && ReadyToDrain(free) {
        AloneDrainsEverything(free, acquire, start, Abs());
      }
    }

    // The outer loop.
    method DrainPasses(turns: nat, patience: nat) returns (r: PassResult)
      requires cfg.pollLimit > 0 && lock.Held? && lock.at.Listing? && Fair(lock.who)
      requires !company.Anyone? ==> Orderable(company, Abs())
      modifies this, store
      ensures Runs(company, old(Abs()), Abs())
      ensures ListedFirst() || (company.Anyone? && turns == 0)
      ensures r.PassOver? ==> lock.Free?
      ensures r.Again? ==> company.Anyone?
      ensures r.StillSending? && company.Nobody? && patience > 0 ==> !Room()
      ensures Fair(old(lock.who)) && (old(callerDone) ==> callerDone)
    {
      ghost var start := Abs();
      RunsSelf(company, start);
      r := Again;
      var left := turns;
      while r.Again? && (!company.Anyone? || left > 0)
        invariant Runs(company, start, Abs()) && Fair(old(lock.who)) && (old(callerDone) ==> callerDone)
        invariant r.Again? ==> lock.Held? && lock.at.Listing? && lock.who == old(lock.who)
        invariant r.PassOver? ==> lock.Free?
        invariant r.StillSending? && company.Nobody? && patience > 0 ==> !Room()
        invariant ListedFirst() || (r == Again && left == turns && Abs() == start && store.sent == old(store.sent)
                    && store.script == old(store.script))
        decreases r.Again?, if company.Anyone? then left else |PendingIds(store.tables)|
      {
        left := if left > 0 then left - 1 else 0;
        ghost var here := Abs();
        r := NextPass(patience);
        if !company.Anyone? && r.Again? {
          RunsKeepOrderable(company, start, here);
          SmallerCount(PendingIds(store.tables), PendingIds(here.tables));
        }
        RunsOn(company, start, here, Abs());
      }
    }

    // One turn, after what the others do before it.
    method NextPass(patience: nat) returns (r: PassResult)
      requires lock.Held? && lock.at.Listing? && cfg.pollLimit > 0 && Fair(lock.who)
      modifies this, store
      ensures Runs(company, old(Abs()), Abs()) && Fair(old(lock.who)) && (old(callerDone) ==> callerDone)
      ensures ListedFirst()
      ensures r.Again? ==> lock.Held? && lock.at.Listing? && lock.who == old(lock.who)
      ensures r.PassOver? ==> lock.Free?
      ensures r.StillSending? && company.Nobody? && patience > 0 ==> !Room()
      ensures r.Again? && !company.Anyone? && Orderable(company, old(Abs())) ==>
        PendingIds(store.tables) < PendingIds(old(store.tables))
    {
      ghost var start := Abs();
      RunsSelf(company, start);
      YieldOn(start);
      ghost var before := Abs();
      r := DrainPass(patience);
      if !company.Anyone? && r.Again? && Orderable(company, start) {
        RunsKeepOrderable(company, start, before);
      }
      RunsOn(company, start, before, Abs());
    }

    // Drain: a pass of its own, then the wait for the pending count to be zero, for rounds looks at it.
    method Drain(turns: nat, patience: nat, rounds: nat) returns (r: DrainResult)
      requires cfg.pollLimit > 0 && lock.Free? && (!company.Anyone? ==> Reachable(Abs())) && Fair(ByCaller)
      modifies this, store
      ensures Starts(company, old(Abs()), Life(CallerAcquire), Abs())
      ensures ListedFirst() || (company.Anyone? && turns == 0)
      ensures r == NotYet(Again) ==> company.Anyone?
      ensures r == NotYet(StillSending) && company.Nobody? && patience > 0 ==> !Room()
      ensures r.AllDone? ==> pending == 0
      ensures r == NotYet(PassOver) ==> pending != 0
      ensures r.AllDone? && Reachable(old(Abs())) ==> AllSettled(notes)
    {
      ghost var first, start := Abs(), Next(Abs(), Life(CallerAcquire));
      var over := DrainPending(ByCaller, turns, patience);
      if !over.PassOver? {
        return NotYet(over);
      }
      var left := rounds;
      while pending != 0 && left > 0
        invariant Runs(company, start, Abs()) && (ListedFirst() || (company.Anyone? && turns == 0))
        decreases left
      {
        left := left - 1;
        ghost var before := Abs();
        Yield(Waiter);
        RunsOn(company, start, before, Abs());
      }
      if pending != 0 {
        return NotYet(PassOver);
      }
      RunsReach(company, start, Abs());
      DrainedIsSettled(first, start, Abs());
      r := AllDone;
    }

    /* work and run */

    // The handler is called, and returns (ok), or fails or panics; the recovered panic is a failure.
    method CallHandler(w: WorkerId, id: ReactionId, ok: bool)
      requires w in workers && workers[w] == Taken(id)
      modifies this
      ensures Took(old(Abs()), Working(Call(w, ok)), Abs())
      ensures w in workers && workers[w] == Handled(id, ok)
    {
      workers := workers[w := Handled(id, ok)];
      notes := Notes(notes.log + [Called(id)], notes.fate[id := Ran]);
    }

    method MarkDone(w: WorkerId, id: ReactionId, ok: bool)
      requires w in workers && workers[w] == Handled(id, ok)
      modifies this, store
      ensures store.Sends([Rows.MarkOne(id, if ok then Succeeded else Failed)])
      ensures Took(old(Abs()), Working(Mark(w, Rows.AnswerAt(old(store.script), 0).Applied())), Abs())
      ensures w in workers && workers[w] == Work.Marked(id)
    {
      var r := store.MarkReaction(id, if ok then Succeeded else Failed);
      workers := workers[w := Work.Marked(id)];
      notes := notes.(fate := notes.fate[id := MarkTried]);
    }

    // One turn of the worker loop: a job from the channel, the handler, the mark, and the two deferred calls.
    // ok is what the handler does. One mark is sent, that of this job with this outcome, and unless it was lost
    // the row has that status in the end, whatever the others did.
    method RunJob(w: WorkerId, ok: bool)
      requires w !in workers && |workers| < cfg.workers && jobs != [] && !company.Nobody?
      modifies this, store
      ensures Starts(company, old(Abs()), Working(Take(w)), Abs())
      ensures w !in workers
      ensures store.Sends([Rows.MarkOne(old(jobs)[0], if ok then Succeeded else Failed)])
      ensures Rows.AnswerAt(old(store.script), 0).Applied() && Inv(old(Abs())) ==>
        store.tables.HasStatus(old(jobs)[0], if ok then Succeeded else Failed)
    {
      ghost var first := Abs();
      var id := jobs[0];
      jobs, workers := jobs[1..], workers[w := Taken(id)];
      ghost var start := Abs();
      RunsSelf(company, start);
      YieldWorker(w, start);
      ghost var before := Abs();
      CallHandler(w, id, ok);
      RunsStep(company, start, before, Working(Call(w, ok)), Abs());
      YieldWorker(w, start);
      before := Abs();
      FinishJob(w, id, ok);
      RunsOn(company, start, before, Abs());
      if Inv(first) {
        StepKeepsInv(first, Working(Take(w)));
        RunsKeepInv(company, start, before);
      }
    }

    // run, once the handler has returned.
    method FinishJob(w: WorkerId, id: ReactionId, ok: bool)
      requires w in workers && workers[w] == Handled(id, ok) && !company.Nobody?
      modifies this, store
      ensures Runs(company, old(Abs()), Abs()) && w !in workers
      ensures store.Sends([Rows.MarkOne(id, if ok then Succeeded else Failed)])
      ensures Rows.AnswerAt(old(store.script), 0).Applied() && Inv(old(Abs())) ==>
        store.tables.HasStatus(id, if ok then Succeeded else Failed)
    {
      ghost var start, applied := Abs(), Rows.AnswerAt(store.script, 0).Applied();
      RunsSelf(company, start);
      MarkDone(w, id, ok);
      ghost var marked := Abs();
      RunsStep(company, start, start, Working(Mark(w, applied)), marked);
      RunsSelf(company, marked);
      YieldWorker(w, marked);
      ghost var before := Abs();
      LeaveJob(w, id);
      RunsOn(company, marked, before, Abs());
      RunsOn(company, start, marked, Abs());
      if applied && Inv(start) {
        MarkLasts(company, start, w, marked, Abs());
      }
    }

    // defer d.pending.Done() and defer d.clearInFlight(id), in the order they run.
    method LeaveJob(w: WorkerId, id: ReactionId)
      requires w in workers && workers[w] == Work.Marked(id) && !company.Nobody?
      modifies this, store
      ensures Runs(company, old(Abs()), Abs()) && w !in workers && store.Sends([])
    {
      ghost var start := Abs();
      inFlight := inFlight - {id};
      workers := workers[w := Finishing];
      ghost var cleared := Abs();
      RunsSelf(company, start);
      RunsStep(company, start, start, Working(ClearJob(w)), cleared);
      YieldWorker(w, start);
      ghost var before := Abs();
      pending := pending - 1;
      workers := workers - {w};
      RunsStep(company, start, before, Working(Finish(w)), Abs());
    }

    method YieldWorker(w: WorkerId, ghost start: State)
      requires Runs(company, start, Abs()) && w in workers
      modifies this, store
      ensures Runs(company, start, Abs())
      ensures w in workers && workers[w] == old(workers[w])
      ensures store.script == old(store.script) && store.sent == old(store.sent)
    {
      ghost var before := Abs();
      Yield(Worker(w));
      RunsOn(company, start, before, Abs());
    }

    /* Record, Dispatch and notify */

    // notify: a token that is already there is enough. A Record in progress implies a channel.
    method NotifyPoller(task: TaskId)
      requires task in bus.records && bus.records[task].Stored?
      modifies this
      ensures Took(old(Abs()), Recording(Notify(task)), Abs())
    {
      poll := poll.(wake := true);
      bus := bus.(records := bus.records - {task});
    }

    // One new row per handler, under ids never used before.
    method NewRows(names: seq<HandlerName>) returns (rows: seq<NewRow>)
      ensures FreshIds(store.tables, rows) && HandlersInOrder(rows, names)
    {
      var top := 0;
      var left := store.tables.reactions.Keys;
      while left != {}
        invariant left <= store.tables.reactions.Keys
        invariant forall r | r in store.tables.reactions && r !in left :: r < top
        decreases |left|
      {
        var r := Rows.PickOne(left);
        left := left - {r};
        top := if r < top then top else r + 1;
      }
      rows := [];
      for i := 0 to |names|
        invariant |rows| == i
        invariant forall k | 0 <= k < i :: rows[k] == NewRow(top + k, names[k])
      {
        rows := rows + [NewRow(top + i, names[i])];
      }
    }

    // The transaction of Dispatch. It fails exactly when its answer is lost or the event is known.
    method StoreEvent(task: TaskId, e: EventId, ty: EventType, names: seq<HandlerName>)
        returns (r: Rows.RecordResult, ghost rows: seq<NewRow>)
      requires company.Anyone? && task in bus.records && bus.records[task].Entered?
      requires forall i | 0 <= i < |names| :: (ty, names[i]) in bus.handlers
      modifies this, store
      ensures HandlersInOrder(rows, names) && store.Sends([Rows.RecordReactions(e, ty, rows)])
      ensures r.Stored? <==> Rows.AnswerAt(old(store.script), 0).Given? && e !in old(store.tables).events
      ensures r == Rows.RecordLost(true) <==>
        Rows.AnswerAt(old(store.script), 0) == Rows.Lost(true) && e !in old(store.tables).events
      ensures Took(old(Abs()), Recording(if r.Stored? then Store(task, e, ty, rows)
                else if r == Rows.RecordLost(true) then StoreLost(task, e, ty, rows) else Fail(task)), Abs())
    {
      ghost var before := Abs();
      var known := store.tables.reactions.Keys;
      var new_ := NewRows(names);
      rows := new_;
      r := store.RecordEventReactions(e, ty, new_);
      lock := Freshen(lock, store.tables.reactions.Keys - known);
      if r.Stored? {
        bus := bus.(records := bus.records[task := ReactionProtocol.Stored]);
      } else {
        bus := bus.(records := bus.records - {task});
        if r == Rows.RecordLost(true) {
          assert before.bus.records[task := ReactionProtocol.Stored] - {task} == before.bus.records - {task};
        } else {
          assert store.tables.reactions.Keys - known == {};
          assert lock.Held? ==> lock.pass.anew == before.lock.pass.anew;
        }
      }
    }

    // The handlers of one event type.
    method HandlersFor(ty: EventType) returns (names: seq<HandlerName>)
      ensures forall i | 0 <= i < |names| :: (ty, names[i]) in bus.handlers
      ensures forall h | (ty, h) in bus.handlers :: h in names
    {
      names := [];
      var left := bus.handlers;
      while left != {}
        invariant left <= bus.handlers
        invariant forall i | 0 <= i < |names| :: (ty, names[i]) in bus.handlers
        invariant forall h | (ty, h) in bus.handlers && (ty, h) !in left :: h in names
        decreases |left|
      {
        var p := Rows.PickOne(left);
        left := left - {p};
        if p.0 == ty {
          names := names + [p.1];
        }
      }
    }

    // EventBus.Record: the whole call holds the read lock. Success: the event is stored, with a row for every
    // handler its type had at the call. Failure: the answer of the one transaction was lost, or the event is known.
    method Record(task: TaskId, e: EventId, ty: EventType) returns (r: RecordOutcome)
      requires company.Anyone? && task !in bus.records
      modifies this, store
      ensures r == ErrClosed <==> old(bus.closed)
      ensures r == ErrNotStarted <==> !old(bus.closed) && !old(bus.started)
      ensures r == ErrClosed || r == ErrNotStarted ==> Abs() == old(Abs()) && store.Sends([])
      ensures r == Recorded || r == RecordFailed ==>
        Starts(company, old(Abs()), Recording(Enter(task)), Abs()) && task !in bus.records
      ensures r == Recorded ==> Rows.AnswerAt(old(store.script), 0).Given?
      ensures r == Recorded ==> e in store.tables.events && store.tables.events[e] == ty
      ensures r == Recorded ==> forall h | (ty, h) in old(bus.handlers) :: PairStored(store.tables, e, h)
      ensures r == RecordFailed ==> Rows.AnswerAt(old(store.script), 0).Lost? || e in store.tables.events
    {
      if bus.closed {
        return ErrClosed;
      }
      if !bus.started {
        return ErrNotStarted;
      }
      bus := bus.(records := bus.records[task := Entered]);
      ghost var start := Abs();
      RunsSelf(company, start);
      YieldRecorder(task, start);
      RunsGrow(company, start, Abs());
      var names := HandlersFor(ty);
      YieldRecorder(task, start);
      ghost var before := Abs();
      var ok;
      ghost var rows;
      ok, rows := Dispatch(task, e, ty, names);
      RunsGrow(company, before, Abs());
      RunsOn(company, start, before, Abs());
      if ok {
        StartsHasRows(company, before, task, e, ty, rows, names, Abs());
        EveryNamed(store.tables, e, ty, names, old(bus.handlers));
      }
      r := if ok then Recorded else RecordFailed;
    }

    // reactionDispatcher.Dispatch. Success: one fresh pending row per handler was stored with the event, and
    // the poller was notified. Failure: nothing was stored, or the answer of the commit was lost.
    method Dispatch(task: TaskId, e: EventId, ty: EventType, names: seq<HandlerName>)
        returns (ok: bool, ghost rows: seq<NewRow>)
      requires company.Anyone? && task in bus.records && bus.records[task].Entered?
      requires forall i | 0 <= i < |names| :: (ty, names[i]) in bus.handlers
      modifies this, store
      ensures Runs(company, old(Abs()), Abs()) && task !in bus.records
      ensures HandlersInOrder(rows, names) && store.Sends([Rows.RecordReactions(e, ty, rows)])
      ensures ok <==> Rows.AnswerAt(old(store.script), 0).Given? && e !in old(store.tables).events
      ensures ok ==> poll.wake && Starts(company, old(Abs()), Recording(Store(task, e, ty, rows)), Abs())
      ensures !ok ==> Took(old(Abs()), Recording(
                if Rows.AnswerAt(old(store.script), 0) == Rows.Lost(true) && e !in old(store.tables).events
                then StoreLost(task, e, ty, rows) else Fail(task)), Abs())
    {
      ghost var start := Abs();
      RunsSelf(company, start);
      var r;
      r, rows := StoreEvent(task, e, ty, names);
      ghost var stored := Abs();
      ok := r.Stored?;
      if !ok {
        RunsStep(company, start, start, Recording(
          if r == Rows.RecordLost(true) then StoreLost(task, e, ty, rows) else Fail(task)), stored);
        return;
      }
      RunsStep(company, start, start, Recording(Store(task, e, ty, rows)), stored);
      RunsSelf(company, stored);
      YieldRecorder(task, stored);
      ghost var before := Abs();
      NotifyPoller(task);
      RunsStep(company, stored, before, Recording(Notify(task)), Abs());
      RunsOn(company, start, stored, Abs());
    }

    method YieldRecorder(task: TaskId, ghost start: State)
      requires Runs(company, start, Abs()) && task in bus.records
      modifies this, store
      ensures Runs(company, start, Abs())
      ensures task in bus.records && bus.records[task] == old(bus.records[task])
      ensures old(bus.handlers) <= bus.handlers
      ensures store.script == old(store.script) && store.sent == old(store.sent)
    {
      ghost var before := Abs();
      Yield(Recorder(task));
      RunsGrow(company, before, Abs());
      RunsOn(company, start, before, Abs());
    }

    // EventBus.Start around reactionDispatcher.Start: the whole call holds the write lock. It fails exactly when
    // the answer of the reset is lost.
    method Start() returns (r: StartOutcome)
      requires company.Anyone? && bus.records == map[] && !bus.starting
      modifies this, store
      ensures r == StartClosed <==> old(bus.closed)
      ensures r == AlreadyStarted <==> !old(bus.closed) && old(bus.started)
      ensures r == StartClosed || r == AlreadyStarted ==> Abs() == old(Abs()) && store.Sends([])
      ensures r == StartDone || r == StartFailed ==> store.Sends([Rows.ResetRunning])
      ensures r == StartFailed ==> var answer := Rows.AnswerAt(old(store.script), 0);
        answer.Lost? && if answer.applied then Took(old(Abs()), Life(ResetLost), Abs()) else Abs() == old(Abs())
      ensures r == StartDone ==> Rows.AnswerAt(old(store.script), 0).Given?
      ensures r == StartDone ==>
        Starts(company, old(Abs()), Life(StartReset), Abs()) && bus.started && poll.chan.Open? && poll.poller.Wanting?
    {
      if bus.closed {
        return StartClosed;
      }
      if bus.started {
        return AlreadyStarted;
      }
      var reset := ResetForStart();
      if reset.ResetFailed? {
        return StartFailed;
      }
      ghost var start := Abs();
      RunsSelf(company, start);
      Yield(Starter);
      ghost var before := Abs();
      poll := Poll(Open, false, poll.cancelled, Wanting);
      bus := bus.(starting := false, started := true);
      RunsStep(company, start, before, Life(StartOpen), Abs());
      r := StartDone;
    }

    // The reset of Start, and what it writes down.
    method ResetForStart() returns (r: Rows.ResetResult)
      requires CanReset(Abs())
      modifies this, store
      ensures store.Sends([Rows.ResetRunning])
      ensures var answer := Rows.AnswerAt(old(store.script), 0);
        r == if answer.Lost? then Rows.ResetFailed(answer.applied) else Rows.ResetOk
      ensures match r
        case ResetOk => Took(old(Abs()), Life(StartReset), Abs())
        case ResetFailed(true) => Took(old(Abs()), Life(ResetLost), Abs())
        case ResetFailed(false) => Abs() == old(Abs())
    {
      var running := RunningIds(store.tables);
      r := store.ResetRunningReactions();
      if r != Rows.ResetFailed(false) {
        lock := Freshen(lock, running);
        notes := notes.(log := notes.log + [ResetDone]);
      }
      if r.ResetOk? {
        bus := bus.(starting := true);
      }
    }
  }
}
