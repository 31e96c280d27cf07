/** The engine with the dependency check and the parking as two steps, as the code has them: what the
    step between them can break, exactly when it does, and a run in which it does. */
module EngineFine {
  import opened Types
  import opened Canonical
  import opened Store
  import opened Flow
  import opened Gateway
  import opened Engine
  import opened EngineRuns
  import opened EngineOrder
  import opened EngineStories

  // turned: the dependency a worker has found unmet and has yet to park its op on.
  datatype FineWorld = FineWorld(world: World, turned: map<Key, Key>)

  datatype FineStep =
    | Look(w: Key)
    | ParkNow(w: Key)
    | Other(st: Step)

  // A worker about to park holds a fresh op, for which no other step exists.
  ghost predicate CanFine(cfg: Settings, s: FineWorld, st: FineStep) {
    match st
    case Look(w) => CanStep(cfg, s.world, CheckDeps(w)) && w !in s.turned
    case ParkNow(w) =>
      && w in s.turned && |s.world.flow.place| == |s.world.flow.ops|
      && Holds(s.world.flow, w) && MoveAllowed(s.world.flow, Parking(w, s.turned[w]))
    case Other(c) => CanStep(cfg, s.world, c) && !c.CheckDeps?
  }

  ghost function FineNext(cfg: Settings, s: FineWorld, st: FineStep): FineWorld
    requires CanFine(cfg, s, st)
  {
    match st
    case Look(w) =>
      (match FirstUnmet(s.world.tables, OpIn(s.world.flow, w).deps)
       case Some(k) => s.(turned := s.turned[w := k])
       case None => s.(world := Next(s.world, CheckDeps(w))))
    case ParkNow(w) =>
      FineWorld(s.world.(flow := Park(s.world.flow, w, s.turned[w])), s.turned - {w})
    case Other(c) => s.(world := Next(s.world, c))
  }

  ghost predicate FineLegal(cfg: Settings, s: FineWorld, steps: seq<FineStep>)
    decreases |steps|
  {
    steps == [] || (CanFine(cfg, s, steps[0]) && FineLegal(cfg, FineNext(cfg, s, steps[0]), steps[1..]))
  }

  ghost function FineEnd(cfg: Settings, s: FineWorld, steps: seq<FineStep>): FineWorld
    requires FineLegal(cfg, s, steps)
    decreases |steps|
  {
    if steps == [] then s else FineEnd(cfg, FineNext(cfg, s, steps[0]), steps[1..])
  }

  /* What stays true between the check and the parking */

  ghost predicate FineInv(s: FineWorld) {
    && WorldInv(s.world)
    && forall w | w in s.turned :: MoveAllowed(s.world.flow, Parking(w, s.turned[w]))
  }

  lemma {:induction false} OtherKeepsTurned(cfg: Settings, s: FineWorld, c: Step, w: Key)
    requires FineInv(s) && CanFine(cfg, s, Other(c)) && w in s.turned
    ensures MoveAllowed(Next(s.world, c).flow, Parking(w, s.turned[w]))
  {
    MoverOf(s.world, c);
    if c.SubmitOp? || c.SendOp? || c.w != w {
      OtherHandKept(s.world, c, w);
    }
  }

  lemma {:induction false} ParkFrame(f: Flow, w: Key, k: Key)
    requires FlowInv(f) && MoveAllowed(f, Parking(w, k))
    ensures FlowInv(Park(f, w, k)) && Park(f, w, k).ops == f.ops && HandOf(Park(f, w, k), w).Idle?
    ensures forall v | v != w :: HandOf(Park(f, w, k), v) == HandOf(f, v)
  {
    ParkKeeps(f, w, k);
  }

  // Putting an op down takes nothing from what the other hands promise.
  lemma {:induction false} FewerHands(s: World, f: Flow)
    requires WorldInv(s) && FlowInv(f) && f.ops == s.flow.ops
    requires forall v | HandOf(f, v).Busy? :: HandOf(f, v) == HandOf(s.flow, v)
    ensures WorldInv(s.(flow := f))
  {
    var s' := s.(flow := f);
    forall v | Holds(f, v)
      ensures Holds(s.flow, v) && OpIn(f, v) == OpIn(s.flow, v) && StageOf(f, v) == StageOf(s.flow, v) {}
    assert Staged(s');
    forall v | JustAnswered(s', v) ensures JustAnswered(s, v) {}
  }

  lemma {:induction false} ParkKeepsWorld(s: World, w: Key, k: Key)
    requires WorldInv(s) && MoveAllowed(s.flow, Parking(w, k))
    ensures WorldInv(s.(flow := Park(s.flow, w, k)))
    ensures Park(s.flow, w, k).ops == s.flow.ops && forall v | v != w ::
      HandOf(Park(s.flow, w, k), v) == HandOf(s.flow, v)
  {
    ParkFrame(s.flow, w, k);
    FewerHands(s, Park(s.flow, w, k));
  }

  lemma {:induction false} LookKeepsInv(cfg: Settings, s: FineWorld, w: Key)
    requires FineInv(s) && CanFine(cfg, s, Look(w))
    ensures FineInv(FineNext(cfg, s, Look(w)))
  {
    FirstUnmetSpec(s.world.tables, OpIn(s.world.flow, w).deps);
    if FirstUnmet(s.world.tables, OpIn(s.world.flow, w).deps).None? {
      StepKeepsInv(cfg, s.world, CheckDeps(w));
      forall v | v in s.turned ensures MoveAllowed(Next(s.world, CheckDeps(w)).flow, Parking(v, s.turned[v])) {
        OtherHandKept(s.world, CheckDeps(w), v);
      }
    }
  }

  lemma {:induction false} FineStepKeepsInv(cfg: Settings, s: FineWorld, st: FineStep)
    requires FineInv(s) && CanFine(cfg, s, st)
    ensures FineInv(FineNext(cfg, s, st))
  {
    match st
    case Look(w) => LookKeepsInv(cfg, s, w);
    case ParkNow(w) =>
      ParkKeepsWorld(s.world, w, s.turned[w]);
      assert forall v | v in s.turned - {w} :: v in s.turned && v != w;
    case Other(c) =>
      StepKeepsInv(cfg, s.world, c);
      forall v | v in s.turned ensures MoveAllowed(Next(s.world, c).flow, Parking(v, s.turned[v])) {
        OtherKeepsTurned(cfg, s, c, v);
      }
  }

  /* Exactly when a wake-up is lost */

  // Parks an op on a row that is active by now, with nobody left to wake it.
  ghost predicate Strands(s: FineWorld, st: FineStep) {
    && st.ParkNow? && st.w in s.turned
    && IsActive(Lookup(s.world.tables, s.turned[st.w])) && !WakeupPending(s.world, s.turned[st.w])
  }

  ghost predicate WorkerWakes(s: World, v: Key, d: Key) {
    Holds(s.flow, v) && StageOf(s.flow, v).Confirmed? && OpIn(s.flow, v).key == d
  }

  lemma {:induction false} PendingByHands(s: World, s': World, d: Key)
    requires forall v :: WorkerWakes(s', v, d) <==> WorkerWakes(s, v, d)
    ensures WakeupPending(s', d) <==> WakeupPending(s, d)
  {
    if v :| Holds(s.flow, v) && StageOf(s.flow, v).Confirmed? && OpIn(s.flow, v).key == d {
      assert WorkerWakes(s, v, d) && WorkerWakes(s', v, d);
    }
    if v :| Holds(s'.flow, v) && StageOf(s'.flow, v).Confirmed? && OpIn(s'.flow, v).key == d {
      assert WorkerWakes(s', v, d) && WorkerWakes(s, v, d);
    }
  }

  lemma {:induction false} PendingAcrossPark(s: World, w: Key, k: Key, d: Key)
    requires FlowInv(s.flow) && MoveAllowed(s.flow, Parking(w, k))
    ensures WakeupPending(s.(flow := Park(s.flow, w, k)), d) <==> WakeupPending(s, d)
  {
    var s' := s.(flow := Park(s.flow, w, k));
    ParkFrame(s.flow, w, k);
    forall v ensures WorkerWakes(s', v, d) <==> WorkerWakes(s, v, d) {}
    PendingByHands(s, s', d);
  }

  lemma {:induction false} ParkNowLoses(s: World, w: Key, k: Key)
    requires WorldInv(s) && NoLostWakeup(s) && MoveAllowed(s.flow, Parking(w, k))
    ensures NoLostWakeup(s.(flow := Park(s.flow, w, k))) <==> !(IsActive(Lookup(s.tables, k)) && !WakeupPending(s, k))
  {
    var s' := s.(flow := Park(s.flow, w, k));
    PendingAcrossPark(s, w, k, k);
    assert HandOf(s.flow, w).ticket in WaitersOf(s'.flow, k);
    forall d, i | i in WaitersOf(s'.flow, d) && d != k ensures !IsActive(Lookup(s.tables, d)) || WakeupPending(s', d) {
      assert i in WaitersOf(s.flow, d);
      PendingAcrossPark(s, w, k, d);
    }
  }

  /** One fine step loses a wake-up exactly if it parks an op on a row that has become active since the
      check and no worker stands between its confirm and its notify of that row. */
  lemma {:induction false} WakeupLostIff(cfg: Settings, s: FineWorld, st: FineStep)
    requires FineInv(s) && NoLostWakeup(s.world) && CanFine(cfg, s, st)
    ensures NoLostWakeup(FineNext(cfg, s, st).world) <==> !Strands(s, st)
  {
    match st
    case Look(w) =>
      if FirstUnmet(s.world.tables, OpIn(s.world.flow, w).deps).None? {
        WakeupNeverLost(cfg, s.world, CheckDeps(w));
      }
    case ParkNow(w) => ParkNowLoses(s.world, w, s.turned[w]);
    case Other(c) => WakeupNeverLost(cfg, s.world, c);
  }

  ghost predicate SomeStepStrands(cfg: Settings, s: FineWorld, steps: seq<FineStep>)
    requires FineLegal(cfg, s, steps)
    decreases |steps|
  {
    steps != [] && (Strands(s, steps[0]) || SomeStepStrands(cfg, FineNext(cfg, s, steps[0]), steps[1..]))
  }

  // No state of the run has a waiter without a reason.
  ghost predicate AlwaysWoken(cfg: Settings, s: FineWorld, steps: seq<FineStep>)
    requires FineLegal(cfg, s, steps)
    decreases |steps|
  {
    NoLostWakeup(s.world) && (steps == [] || AlwaysWoken(cfg, FineNext(cfg, s, steps[0]), steps[1..]))
  }

  /** Over whole runs of the code's own granularity: no wake-up is ever lost exactly if no step strands. */
  lemma {:induction false} FineRunsWakeIff(cfg: Settings, s: FineWorld, steps: seq<FineStep>)
    requires FineInv(s) && NoLostWakeup(s.world) && FineLegal(cfg, s, steps)
    ensures AlwaysWoken(cfg, s, steps) <==> !SomeStepStrands(cfg, s, steps)
    ensures FineInv(FineEnd(cfg, s, steps))
    decreases |steps|
  {
    if steps != [] {
      var s' := FineNext(cfg, s, steps[0]);
      FineStepKeepsInv(cfg, s, steps[0]);
      WakeupLostIff(cfg, s, steps[0]);
      if NoLostWakeup(s'.world) {
        FineRunsWakeIff(cfg, s', steps[1..]);
      } else {
        FineRunKeepsInv(cfg, s', steps[1..]);
      }
    }
  }

  lemma {:induction false} FineRunKeepsInv(cfg: Settings, s: FineWorld, steps: seq<FineStep>)
    requires FineInv(s) && FineLegal(cfg, s, steps)
    ensures FineInv(FineEnd(cfg, s, steps))
    decreases |steps|
  {
    if steps != [] {
      FineStepKeepsInv(cfg, s, steps[0]);
      FineRunKeepsInv(cfg, FineNext(cfg, s, steps[0]), steps[1..]);
    }
  }

  /* The coarse machine is the fine one with nothing in between */

  // s is where the fine run leads from start.
  ghost predicate FineLeads(cfg: Settings, start: FineWorld, run: seq<FineStep>, s: FineWorld) {
    FineLegal(cfg, start, run) && FineEnd(cfg, start, run) == s
  }

  lemma {:induction false} FineExtends(cfg: Settings, s: FineWorld, run: seq<FineStep>, st: FineStep)
    requires FineLegal(cfg, s, run) && CanFine(cfg, FineEnd(cfg, s, run), st)
    ensures FineLegal(cfg, s, run + [st]) && FineEnd(cfg, s, run + [st]) == FineNext(cfg, FineEnd(cfg, s, run), st)
    decreases |run|
  {
    if run == [] {
      assert run + [st] == [st];
      assert FineLegal(cfg, FineNext(cfg, s, st), [st][1..]);
    } else {
      FineExtends(cfg, FineNext(cfg, s, run[0]), run[1..], st);
      assert (run + [st])[1..] == run[1..] + [st];
    }
  }

  lemma {:induction false} StepRefined(cfg: Settings, start: FineWorld, run: seq<FineStep>, s: FineWorld, st: Step)
    returns (fine: seq<FineStep>)
    requires FineLeads(cfg, start, run, s) && CanStep(cfg, s.world, st) && (st.CheckDeps? ==> st.w !in s.turned)
    ensures FineLeads(cfg, start, fine, s.(world := Next(s.world, st)))
  {
    if !st.CheckDeps? {
      fine := run + [Other(st)];
      FineExtends(cfg, start, run, Other(st));
    } else {
      fine := CheckRefined(cfg, start, run, s, st.w);
    }
  }

  // The check and, if it finds something unmet, the parking at once.
  lemma {:induction false} CheckRefined(cfg: Settings, start: FineWorld, run: seq<FineStep>, s: FineWorld, w: Key)
    returns (fine: seq<FineStep>)
    requires FineLeads(cfg, start, run, s) && CanStep(cfg, s.world, CheckDeps(w)) && w !in s.turned
    ensures FineLeads(cfg, start, fine, s.(world := Next(s.world, CheckDeps(w))))
  {
    fine := run + [Look(w)];
    FineExtends(cfg, start, run, Look(w));
    FirstUnmetSpec(s.world.tables, OpIn(s.world.flow, w).deps);
    if FirstUnmet(s.world.tables, OpIn(s.world.flow, w).deps).Some? {
      var mid := FineNext(cfg, s, Look(w));
      FineExtends(cfg, start, fine, ParkNow(w));
      assert mid.turned - {w} == s.turned;
      fine := fine + [ParkNow(w)];
    }
  }

  /** Every run of the coarse machine is one of the fine machine, around any workers that stand still
      between check and parking. */
  lemma {:induction false} RunRefined(cfg: Settings, start: FineWorld, run: seq<FineStep>, s: FineWorld,
                                      steps: seq<Step>) returns (fine: seq<FineStep>)
    requires FineLeads(cfg, start, run, s)
    requires Legal(cfg, s.world, steps) && forall i | 0 <= i < |steps| ::
      steps[i].CheckDeps? ==> steps[i].w !in s.turned
    ensures FineLeads(cfg, start, fine, s.(world := End(cfg, s.world, steps)))
    decreases |steps|
  {
    if steps == [] {
      fine := run;
    } else {
      var first := StepRefined(cfg, start, run, s, steps[0]);
      fine := RunRefined(cfg, start, first, s.(world := Next(s.world, steps[0])), steps[1..]);
    }
  }

  /* The run in which a wake-up is lost */

  const FINE_BLANK := FineWorld(BLANK, map[])

  lemma {:induction false} CheckedInTime(cfg: Settings, c: Channel, m: Message, run: seq<Step>)
    returns (fine: seq<FineStep>)
    requires Plain(c, m) && Reaches(cfg, run, Untouched(Taken(c, m)))
    ensures FineLeads(cfg, FINE_BLANK, fine,
                      FineWorld(Untouched(Taken(c, m)), map[MessageWorker(c.id) := ChannelKey(c.id)]))
  {
    var w, s := MessageWorker(c.id), FineWorld(Untouched(Taken(c, m)), map[]);
    fine := RunRefined(cfg, FINE_BLANK, [], FINE_BLANK, run);
    MoveIsAllowed(cfg, s.world, CheckDeps(w));
    FineExtends(cfg, FINE_BLANK, fine, Look(w));
    fine := fine + [Look(w)];
  }

  // The channel's worker v runs on while the message's stands still.
  lemma {:induction false} RunOn(cfg: Settings, before: seq<FineStep>, run: seq<Step>, s: World, run': seq<Step>,
                                 s': World, w: Key, v: Key, k: Key) returns (fine: seq<FineStep>)
    requires Reaches(cfg, run, s) && Reaches(cfg, run', s') && AddsOnly(run, run', v) && v != w
    requires FineLeads(cfg, FINE_BLANK, before, FineWorld(s, map[w := k]))
    ensures FineLeads(cfg, FINE_BLANK, fine, FineWorld(s', map[w := k]))
  {
    RunSplits(cfg, BLANK, run', |run|);
    assert run'[..|run|] == run;
    fine := RunRefined(cfg, FINE_BLANK, before, FineWorld(s, map[w := k]), run'[|run|..]);
  }

  lemma {:induction false} ParkAtLast(cfg: Settings, before: seq<FineStep>, s: FineWorld, w: Key, k: Key)
    returns (fine: seq<FineStep>)
    requires FineLeads(cfg, FINE_BLANK, before, s)
    requires s.turned == map[w := k] && |s.world.flow.place| == |s.world.flow.ops|
    requires Holds(s.world.flow, w) && MoveAllowed(s.world.flow, Parking(w, k))
    ensures FineLeads(cfg, FINE_BLANK, fine, FineWorld(s.world.(flow := Park(s.world.flow, w, k)), map[]))
  {
    FineExtends(cfg, FINE_BLANK, before, ParkNow(w));
    fine := before + [ParkNow(w)];
    assert s.turned - {w} == map[];
  }

  /** For every channel without overwrites and every message of it: the message's worker looks at the
      channel's row before it is active and parks after the channel's worker has confirmed and notified.
      The run ends with the message parked for good and Wait never returning. */
  lemma {:induction false} WakeupLost(cfg: Settings, c: Channel, m: Message) returns (fine: seq<FineStep>, e: FineWorld)
    requires !cfg.dryRun && Plain(c, m)
    ensures FineLeads(cfg, FINE_BLANK, fine, e) && SomeStepStrands(cfg, FINE_BLANK, fine)
    ensures Stranded(e.world, c.id) && e.turned == map[]
  {
    var w, k := MessageWorker(c.id), ChannelKey(c.id);
    var run, s, run', s' := LostWakeup(cfg, c, m);
    fine := CheckedInTime(cfg, c, m, run);
    fine := RunOn(cfg, fine, run, s, run', s', w, k, k);
    HeldDependency(s'.flow, c, m);
    fine := ParkAtLast(cfg, fine, FineWorld(s', map[w := k]), w, k);
    e := FineWorld(s'.(flow := Park(s'.flow, w, k)), map[]);
    StrandedWasStranding(cfg, c, fine);
  }

  lemma {:induction false} HeldDependency(f: Flow, c: Channel, m: Message)
    requires Plain(c, m) && f == Notified(c, m)
    ensures MoveAllowed(f, Parking(MessageWorker(c.id), ChannelKey(c.id))) && |f.place| == |f.ops|
  {}

  // A run from the blank start that ends with a lost wake-up has a step that strands.
  lemma {:induction false} StrandedWasStranding(cfg: Settings, c: Channel, fine: seq<FineStep>)
    requires FineLegal(cfg, FINE_BLANK, fine) && Stranded(FineEnd(cfg, FINE_BLANK, fine).world, c.id)
    ensures SomeStepStrands(cfg, FINE_BLANK, fine)
  {
    InitialInv(BLANK);
    FineRunsWakeIff(cfg, FINE_BLANK, fine);
    if AlwaysWoken(cfg, FINE_BLANK, fine) {
      AlwaysAtEnd(cfg, FINE_BLANK, fine);
      StrandedLoses(FineEnd(cfg, FINE_BLANK, fine).world, c.id);
    }
  }

  lemma {:induction false} StrandedLoses(s: World, c: Id)
    requires Stranded(s, c)
    ensures !NoLostWakeup(s)
  {
    assert 1 in WaitersOf(s.flow, ChannelKey(c));
  }

  lemma {:induction false} AlwaysAtEnd(cfg: Settings, s: FineWorld, steps: seq<FineStep>)
    requires FineLegal(cfg, s, steps) && AlwaysWoken(cfg, s, steps)
    ensures NoLostWakeup(FineEnd(cfg, s, steps).world)
    decreases |steps|
  {
    if steps != [] {
      AlwaysAtEnd(cfg, FineNext(cfg, s, steps[0]), steps[1..]);
    }
  }
}
