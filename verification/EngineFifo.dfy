/** One worker, first in first out: exactly what a turned-away op costs. An op that is never turned away
    by its dependency check is passed by nothing that arrived after it, over every run and every worker. */
module EngineFifo {
  import opened Types
  import opened Store
  import opened Flow
  import opened Gateway
  import opened Engine
  import opened EngineRuns
  import opened EngineOrder

  // What worker w has to check, oldest first: the op in hand if it is unchecked, then the queue.
  function Front(f: Flow, w: Key): seq<nat> {
    Unchecked(f, w) + QueueOf(f, w)
  }

  function Unchecked(f: Flow, w: Key): seq<nat> {
    if HandOf(f, w).Busy? && HandOf(f, w).stage.Fresh? then [HandOf(f, w).ticket] else []
  }

  // Tickets of w that wait outside the queue: parked, or in a list being re-sent.
  predicate Aside(f: Flow, w: Key, i: nat) {
    i < |f.place| && i < |f.ops| && WorkerOf(f.ops[i]) == w && (f.place[i].Parked? || f.place[i].Resent?)
  }

  // The op a step lets past its dependency check, and the one it turns away.
  function LetBy(s: World, st: Step, w: Key): seq<nat>
    requires Addressed(s.flow, st)
  {
    if st == CheckDeps(w) && FirstUnmet(s.tables, OpIn(s.flow, w).deps).None? then [HandOf(s.flow, w).ticket] else []
  }

  predicate TurnsAway(s: World, st: Step, w: Key, i: nat)
    requires Addressed(s.flow, st)
  {
    st == CheckDeps(w) && FirstUnmet(s.tables, OpIn(s.flow, w).deps).Some? && HandOf(s.flow, w).ticket == i
  }

  ghost function Through(cfg: Settings, s: World, steps: seq<Step>, w: Key): seq<nat>
    requires Legal(cfg, s, steps)
    decreases |steps|
  {
    if steps == [] then [] else LetBy(s, steps[0], w) + Through(cfg, Next(s, steps[0]), steps[1..], w)
  }

  // An op of w that stands aside at the start of the run, or is turned away in it.
  ghost predicate Delayed(cfg: Settings, s: World, steps: seq<Step>, w: Key, i: nat)
    requires Legal(cfg, s, steps)
    decreases |steps|
  {
    Aside(s.flow, w, i)
      || (steps != [] && (TurnsAway(s, steps[0], w, i) || Delayed(cfg, Next(s, steps[0]), steps[1..], w, i)))
  }

  /* What one step does to the front */

  // The ticket that enters the queue of w from a waiters list.
  function Readmitted(f: Flow, m: Move, w: Key): seq<nat>
    requires MoveAllowed(f, m)
  {
    if m.ResendingOne? && WorkerOf(f.ops[StageOf(f, m.w).rest[0]]) == w then [StageOf(f, m.w).rest[0]] else []
  }

  function Admitted(f: Flow, m: Move, w: Key): seq<nat>
    requires MoveAllowed(f, m)
  {
    if m.Sending? && WorkerOf(f.ops[f.submitting[m.n]]) == w then [f.submitting[m.n]] else []
  }

  // What leaves the front by its worker's check.
  function Checked(f: Flow, m: Move, w: Key): seq<nat> {
    if !m.Entering? && !m.Sending? && m.w == w && (m.Advancing? || m.Parking?) && HandOf(f, w).Busy?
       && HandOf(f, w).stage.Fresh?
    then [HandOf(f, w).ticket] else []
  }

  // Moves a worker makes with an unchecked op in hand: check it, and nothing else.
  predicate Straight(f: Flow, m: Move) {
    && (m.Advancing? ==> !m.stage.Fresh?)
    && (m.Finishing? || m.Collecting? ==> HandOf(f, m.w).Busy? && !HandOf(f, m.w).stage.Fresh?)
  }

  lemma {:induction false} IsStraight(cfg: Settings, s: World, st: Step)
    requires CanStep(cfg, s, st)
    ensures Straight(s.flow, MoveOf(s, st))
  {}

  lemma {:induction false} UncheckedAfter(f: Flow, m: Move, w: Key)
    requires FlowInv(f) && MoveAllowed(f, m) && Straight(f, m)
    ensures Unchecked(Moved(f, m), w) ==
      if m.Entering? || m.Sending? || m.w != w then Unchecked(f, w)
      else if m.Taking? then [QueueOf(f, w)[0]] else []
  {
    MovedFrame(f, m);
  }

  // The ticket that passes from the queue of w into its hand.
  function TakenBy(f: Flow, m: Move, w: Key): seq<nat>
    requires MoveAllowed(f, m)
  {
    if m.Taking? && m.w == w then [QueueOf(f, w)[0]] else []
  }

  lemma {:induction false} HandPartOfFront(f: Flow, m: Move, w: Key)
    requires FlowInv(f) && MoveAllowed(f, m) && Straight(f, m)
    ensures Checked(f, m, w) + Unchecked(Moved(f, m), w) == Unchecked(f, w) + TakenBy(f, m, w)
  {
    UncheckedAfter(f, m, w);
  }

  lemma {:induction false} QueuePartOfFront(f: Flow, m: Move, w: Key)
    requires FlowInv(f) && MoveAllowed(f, m)
    ensures TakenBy(f, m, w) + QueueOf(Moved(f, m), w) == QueueOf(f, w) + (Admitted(f, m, w) + Readmitted(f, m, w))
  {
    QueueAfter(f, m, w);
    if m.Taking? && m.w == w {
      assert QueueOf(f, w) == [QueueOf(f, w)[0]] + QueueOf(f, w)[1..];
    }
  }

  lemma {:induction false} Rejoin(checked: seq<nat>, hand: seq<nat>, hand': seq<nat>, took: seq<nat>, queue: seq<nat>,
                                  queue': seq<nat>, a: seq<nat>, b: seq<nat>)
    requires checked + hand' == hand + took && took + queue' == queue + (a + b)
    ensures checked + (hand' + queue') == (hand + queue) + a + b
  {
    assert checked + (hand' + queue') == (checked + hand') + queue';
    assert (hand + took) + queue' == hand + (took + queue');
    assert hand + (queue + (a + b)) == (hand + queue) + a + b;
  }

  lemma {:induction false} FrontMoved(f: Flow, m: Move, w: Key)
    requires FlowInv(f) && MoveAllowed(f, m) && Straight(f, m)
    ensures Checked(f, m, w) + Front(Moved(f, m), w) == Front(f, w) + Admitted(f, m, w) + Readmitted(f, m, w)
  {
    HandPartOfFront(f, m, w);
    QueuePartOfFront(f, m, w);
    Rejoin(Checked(f, m, w), Unchecked(f, w), Unchecked(Moved(f, m), w), TakenBy(f, m, w), QueueOf(f, w),
           QueueOf(Moved(f, m), w), Admitted(f, m, w), Readmitted(f, m, w));
  }

  lemma {:induction false} CheckedIs(cfg: Settings, s: World, st: Step, w: Key)
    requires WorldInv(s) && CanStep(cfg, s, st)
    ensures Checked(s.flow, MoveOf(s, st), w) ==
      if st == CheckDeps(w) then [HandOf(s.flow, w).ticket] else []
    ensures Admitted(s.flow, MoveOf(s, st), w) == Arrival(s, st, w)
  {
    MoverOf(s, st);
  }

  lemma {:induction false} AsideMoved(f: Flow, m: Move, w: Key, i: nat)
    requires FlowInv(f) && MoveAllowed(f, m) && Aside(Moved(f, m), w, i)
    ensures Aside(f, w, i) || (m == Parking(w, m.dependency) && HandOf(f, w).ticket == i)
  {
    MovedFrame(f, m);
    AsideByMove(f, m, i);
  }

  // A ticket becomes parked or re-sent by parking it or by collecting it where it was parked.
  lemma {:induction false} AsideByMove(f: Flow, m: Move, i: nat)
    requires FlowInv(f) && MoveAllowed(f, m) && i < |Moved(f, m).place|
    requires (Moved(f, m).place[i].Parked? || Moved(f, m).place[i].Resent?)
    ensures i < |f.place|
    ensures (f.place[i].Parked? || f.place[i].Resent?)
            || (m.Parking? && HandOf(f, m.w).ticket == i && f.place[i] == InHand(m.w))
  {
    if m.Sending? {
      assert f.submitting[m.n] in Content(f, Submitting);
    } else if m.Taking? {
      assert QueueOf(f, m.w)[0] in Content(f, Queued(m.w));
    } else if m.Parking? || m.Finishing? {
      assert HandOf(f, m.w).ticket in Content(f, InHand(m.w));
    } else if m.ResendingOne? {
      assert StageOf(f, m.w).rest[0] in Content(f, Resent(m.w));
    }
  }

  // Who stands aside after a step stood aside before it or is turned away by it.
  lemma {:induction false} AsideAfter(cfg: Settings, s: World, st: Step, w: Key, i: nat)
    requires WorldInv(s) && CanStep(cfg, s, st) && Aside(Next(s, st).flow, w, i)
    ensures Aside(s.flow, w, i) || TurnsAway(s, st, w, i)
  {
    WaitersMoves(s, st);
    MoverOf(s, st);
    AsideMoved(s.flow, MoveOf(s, st), w, i);
  }

  lemma {:induction false} ReadmittedWasAside(f: Flow, m: Move, w: Key, i: nat)
    requires FlowInv(f) && MoveAllowed(f, m) && i in Readmitted(f, m, w)
    ensures Aside(f, w, i)
  {
    assert i in Content(f, Resent(m.w));
  }

  /* Order among the undelayed */

  function Without(s: seq<nat>, d: set<nat>): seq<nat> {
    if s == [] then [] else (if s[0] in d then [] else [s[0]]) + Without(s[1..], d)
  }

  lemma {:induction false} WithoutConcat(a: seq<nat>, b: seq<nat>, d: set<nat>)
    ensures Without(a + b, d) == Without(a, d) + Without(b, d)
  {
    if a == [] {
      assert a + b == b;
    } else {
      assert a + b != [] && (a + b)[0] == a[0] && (a + b)[1..] == a[1..] + b;
      WithoutConcat(a[1..], b, d);
    }
  }

  lemma {:induction false} WithoutAll(a: seq<nat>, d: set<nat>)
    requires forall i | i in a :: i in d
    ensures Without(a, d) == []
  {
    if a != [] {
      WithoutAll(a[1..], d);
    }
  }

  // One step, as the front sees it: what it lets by or turns away was in front, what it admits is new.
  lemma {:induction false} FrontStep(cfg: Settings, s: World, st: Step, w: Key)
    returns (checked: seq<nat>, back: seq<nat>)
    requires WorldInv(s) && CanStep(cfg, s, st)
    ensures checked + Front(Next(s, st).flow, w) == Front(s.flow, w) + Arrival(s, st, w) + back
    ensures checked != [] ==> Arrival(s, st, w) == back == [] && checked == [HandOf(s.flow, w).ticket]
    ensures checked == LetBy(s, st, w) || (LetBy(s, st, w) == [] && |checked| == 1 && TurnsAway(s, st, w, checked[0]))
    ensures forall i | i in back :: Aside(s.flow, w, i)
  {
    var m := MoveOf(s, st);
    checked, back := Checked(s.flow, m, w), Readmitted(s.flow, m, w);
    IsStraight(cfg, s, st);
    FrontMoved(s.flow, m, w);
    CheckedIs(cfg, s, st, w);
    forall i | i in back ensures Aside(s.flow, w, i) {
      ReadmittedWasAside(s.flow, m, w, i);
    }
  }

  // Putting one step before the rest of a run, on sequences alone.
  lemma {:induction false} OrderStep(front: seq<nat>, arrival: seq<nat>, back: seq<nat>, checked: seq<nat>,
                                     front': seq<nat>, let: seq<nat>, later: seq<nat>, e: seq<nat>,
                                     arrivals: seq<nat>, d: set<nat>)
    requires checked + front' == front + arrival + back
    requires (forall i | i in back :: i in d) && (let == checked || (let == [] && forall i | i in checked :: i in d))
    requires Without(later + e, d) == Without(front' + arrivals, d)
    ensures Without((let + later) + e, d) == Without(front + (arrival + arrivals), d)
  {
    assert (let + later) + e == let + (later + e);
    assert front + (arrival + arrivals) == (front + arrival) + arrivals;
    WithoutConcat(let, later + e, d);
    WithoutConcat(front', arrivals, d);
    WithoutConcat(front + arrival, arrivals, d);
    WithoutConcat(checked, front', d);
    WithoutConcat(front + arrival, back, d);
    WithoutAll(back, d);
    if let != checked {
      WithoutAll(checked, d);
    }
    Associate(Without(let, d), Without(front', d), Without(arrivals, d));
  }

  /** Over every run and for every worker: leave out its delayed ops, and what has been let by, followed
      by what is still in front, is what was in front followed by what arrived, in the same order. */
  lemma {:induction false} UndelayedKeepOrder(cfg: Settings, s: World, steps: seq<Step>, w: Key, d: set<nat>)
    requires WorldInv(s) && Legal(cfg, s, steps) && forall i | Delayed(cfg, s, steps, w, i) :: i in d
    ensures Without(Through(cfg, s, steps, w) + Front(End(cfg, s, steps).flow, w), d) ==
            Without(Front(s.flow, w) + Arrivals(cfg, s, steps, w), d)
    decreases |steps|
  {
    if steps == [] {
      assert Through(cfg, s, steps, w) + Front(s.flow, w) == Front(s.flow, w) + Arrivals(cfg, s, steps, w);
    } else {
      var st, s' := steps[0], Next(s, steps[0]);
      StepKeepsInv(cfg, s, st);
      UndelayedKeepOrder(cfg, s', steps[1..], w, d);
      var checked, back := FrontStep(cfg, s, st, w);
      OrderStep(Front(s.flow, w), Arrival(s, st, w), back, checked, Front(s'.flow, w), LetBy(s, st, w),
                Through(cfg, s', steps[1..], w), Front(End(cfg, s, steps).flow, w),
                Arrivals(cfg, s', steps[1..], w), d);
    }
  }

  lemma {:induction false} WithoutNone(s: seq<nat>)
    ensures Without(s, {}) == s
  {
    if s != [] {
      WithoutNone(s[1..]);
    }
  }

  /** First in, first out: if no op of w is delayed, w has let by, in order, exactly what was in front
      and what arrived, but for what is still in front. The guard that decides it is the dependency
      check: nothing parked or being re-sent at the start, and no check that meets an inactive row. */
  lemma {:induction false} FirstInFirstOut(cfg: Settings, s: World, steps: seq<Step>, w: Key)
    requires WorldInv(s) && Legal(cfg, s, steps) && forall i :: !Delayed(cfg, s, steps, w, i)
    ensures Through(cfg, s, steps, w) + Front(End(cfg, s, steps).flow, w) ==
      Front(s.flow, w) + Arrivals(cfg, s, steps, w)
  {
    UndelayedKeepOrder(cfg, s, steps, w, {});
    WithoutNone(Through(cfg, s, steps, w) + Front(End(cfg, s, steps).flow, w));
    WithoutNone(Front(s.flow, w) + Arrivals(cfg, s, steps, w));
  }

  /* Who can pass whom */

  // The tickets before the first i in s.
  function Ahead(s: seq<nat>, i: nat): set<nat> {
    if s == [] || s[0] == i then {} else {s[0]} + Ahead(s[1..], i)
  }

  function Tickets(s: seq<nat>): set<nat> {
    set i | i in s
  }

  lemma {:induction false} AheadConcat(a: seq<nat>, b: seq<nat>, i: nat)
    ensures Ahead(a + b, i) == if i in a then Ahead(a, i) else Tickets(a) + Ahead(b, i)
  {
    if a == [] {
      assert a + b == b;
    } else {
      assert a + b != [] && (a + b)[0] == a[0] && (a + b)[1..] == a[1..] + b;
      AheadConcat(a[1..], b, i);
      assert Tickets(a) == {a[0]} + Tickets(a[1..]);
      assert a == [a[0]] + a[1..];
    }
  }

  ghost function AsideOf(f: Flow, w: Key): set<nat> {
    set i | 0 <= i < |f.place| && Aside(f, w, i)
  }

  lemma {:induction false} PassStep(front: seq<nat>, arrival: seq<nat>, back: seq<nat>, checked: seq<nat>,
                                    front': seq<nat>, let: seq<nat>, rest: seq<nat>, arrivals: seq<nat>, j: nat,
                                    aside: set<nat>, aside': set<nat>)
    requires checked + front' == front + arrival + back && |checked| <= 1 && (checked != [] ==> arrival == back == [])
    requires let == checked || (let == [] && checked != [j])
    requires j !in back && Tickets(back) <= aside && aside' <= aside + (if let == checked then {} else Tickets(checked))
    requires Ahead(rest, j) <= Ahead(front' + arrivals, j) + aside'
    ensures Ahead(let + rest, j) <= Ahead(front + (arrival + arrivals), j) + aside
  {
    AheadConcat(let, rest, j);
    if checked == [] {
      assert front' == front + arrival + back && let + rest == rest;
      assert front' + arrivals == (front + arrival) + (back + arrivals);
      assert front + (arrival + arrivals) == (front + arrival) + arrivals;
      AheadConcat(front + arrival, back + arrivals, j);
      AheadConcat(back, arrivals, j);
      AheadConcat(front + arrival, arrivals, j);
    } else {
      assert front == checked + front';
      assert front + (arrival + arrivals) == checked + (front' + arrivals);
      AheadConcat(checked, front' + arrivals, j);
      assert let == [] ==> let + rest == rest;
    }
  }

  lemma {:induction false} AsideSets(cfg: Settings, s: World, st: Step, w: Key, checked: seq<nat>)
    requires WorldInv(s) && CanStep(cfg, s, st)
    requires checked == LetBy(s, st, w) || (|checked| == 1 && TurnsAway(s, st, w, checked[0]))
    requires checked == LetBy(s, st, w) ==> forall i :: !TurnsAway(s, st, w, i)
    ensures AsideOf(Next(s, st).flow, w) <=
            AsideOf(s.flow, w) + if checked == LetBy(s, st, w) then {} else Tickets(checked)
  {
    forall i | i in AsideOf(Next(s, st).flow, w)
      ensures Aside(s.flow, w, i) || (checked != LetBy(s, st, w) && i == checked[0])
    {
      AsideAfter(cfg, s, st, w, i);
    }
  }
  // One step before the rest of a run.
  lemma {:induction false} PassOne(cfg: Settings, s: World, st: Step, w: Key, j: nat, rest: seq<nat>,
                                   arrivals: seq<nat>)
    requires WorldInv(s) && CanStep(cfg, s, st) && !Aside(s.flow, w, j) && !TurnsAway(s, st, w, j)
    requires Ahead(rest, j) <= Ahead(Front(Next(s, st).flow, w) + arrivals, j) + AsideOf(Next(s, st).flow, w)
    ensures Ahead(LetBy(s, st, w) + rest, j) <=
            Ahead(Front(s.flow, w) + (Arrival(s, st, w) + arrivals), j) + AsideOf(s.flow, w)
  {
    var checked, back := FrontStep(cfg, s, st, w);
    AsideSets(cfg, s, st, w, checked);
    PassStep(Front(s.flow, w), Arrival(s, st, w), back, checked, Front(Next(s, st).flow, w), LetBy(s, st, w), rest,
             arrivals, j, AsideOf(s.flow, w), AsideOf(Next(s, st).flow, w));
  }

  // Ahead of j at the end only those that were so at the start, arrived in between or stood aside.
  ghost predicate Unpassed(cfg: Settings, s: World, steps: seq<Step>, w: Key, j: nat)
    requires Legal(cfg, s, steps)
  {
    Ahead(Through(cfg, s, steps, w) + Front(End(cfg, s, steps).flow, w), j)
    <= Ahead(Front(s.flow, w) + Arrivals(cfg, s, steps, w), j) + AsideOf(s.flow, w)
  }

  lemma {:induction false} UnpassedAtOnce(cfg: Settings, s: World, w: Key, j: nat)
    ensures Unpassed(cfg, s, [], w, j)
  {
    var e := Front(s.flow, w);
    assert Through(cfg, s, [], w) + e == e && e + Arrivals(cfg, s, [], w) == e;
  }

  // A run's letting by and arrivals are those of its first step and of the rest.
  lemma {:induction false} RunUnfolds(cfg: Settings, s: World, steps: seq<Step>, w: Key, e: seq<nat>)
    requires steps != [] && Legal(cfg, s, steps)
    ensures Through(cfg, s, steps, w) + e ==
      LetBy(s, steps[0], w) + (Through(cfg, Next(s, steps[0]), steps[1..], w) + e)
    ensures Arrivals(cfg, s, steps, w) == Arrival(s, steps[0], w) + Arrivals(cfg, Next(s, steps[0]), steps[1..], w)
    ensures End(cfg, s, steps) == End(cfg, Next(s, steps[0]), steps[1..])
  {
    assert (LetBy(s, steps[0], w) + Through(cfg, Next(s, steps[0]), steps[1..], w)) + e
        == LetBy(s, steps[0], w) + (Through(cfg, Next(s, steps[0]), steps[1..], w) + e);
  }

  lemma {:induction false} UnpassedBefore(cfg: Settings, s: World, steps: seq<Step>, w: Key, j: nat)
    requires WorldInv(s) && steps != [] && Legal(cfg, s, steps) && !Aside(s.flow, w, j) && !TurnsAway(s, steps[0], w, j)
    requires Unpassed(cfg, Next(s, steps[0]), steps[1..], w, j)
    ensures Unpassed(cfg, s, steps, w, j)
  {
    var s' := Next(s, steps[0]);
    var e := Front(End(cfg, s', steps[1..]).flow, w);
    RunUnfolds(cfg, s, steps, w, e);
    PassOne(cfg, s, steps[0], w, j, Through(cfg, s', steps[1..], w) + e, Arrivals(cfg, s', steps[1..], w));
  }

  /** Nothing passes an op that is not delayed: over every run, whoever is ahead of it among those let by
      and those still in front was ahead of it in front or arrived before it, or stood aside at the start. */
  lemma {:induction false} NothingPasses(cfg: Settings, s: World, steps: seq<Step>, w: Key, j: nat)
    requires WorldInv(s) && Legal(cfg, s, steps) && !Delayed(cfg, s, steps, w, j)
    ensures Unpassed(cfg, s, steps, w, j)
    decreases |steps|
  {
    if steps == [] {
      UnpassedAtOnce(cfg, s, w, j);
    } else {
      StepKeepsInv(cfg, s, steps[0]);
      NothingPasses(cfg, Next(s, steps[0]), steps[1..], w, j);
      UnpassedBefore(cfg, s, steps, w, j);
    }
  }

  /* Nobody is lost on the way */

  // j is in front of w's check or stands aside from it.
  predicate Due(f: Flow, w: Key, j: nat) {
    j in Front(f, w) || Aside(f, w, j)
  }

  lemma {:induction false} AsideKept(f: Flow, m: Move, w: Key, j: nat)
    requires FlowInv(f) && MoveAllowed(f, m) && Aside(f, w, j)
    ensures Aside(Moved(f, m), w, j) || j in Front(Moved(f, m), w)
  {
    MovedFrame(f, m);
    QueueAfter(f, m, w);
    if m.Sending? {
      assert f.submitting[m.n] in Content(f, Submitting);
    } else if m.Taking? {
      assert QueueOf(f, m.w)[0] in Content(f, Queued(m.w));
    } else if m.Parking? || m.Finishing? {
      assert HandOf(f, m.w).ticket in Content(f, InHand(m.w));
    }
  }

  lemma {:induction false} TurnedAwayIsAside(cfg: Settings, s: World, st: Step, w: Key, j: nat)
    requires WorldInv(s) && CanStep(cfg, s, st) && TurnsAway(s, st, w, j)
    ensures Aside(Next(s, st).flow, w, j)
  {
    assert HandOf(s.flow, w).ticket in Content(s.flow, InHand(w));
  }

  lemma {:induction false} DueKept(cfg: Settings, s: World, st: Step, w: Key, j: nat)
    requires WorldInv(s) && CanStep(cfg, s, st) && (Due(s.flow, w, j) || j in Arrival(s, st, w))
    ensures Due(Next(s, st).flow, w, j) || j in LetBy(s, st, w)
  {
    var checked, back := FrontStep(cfg, s, st, w);
    if Aside(s.flow, w, j) {
      AsideKept(s.flow, MoveOf(s, st), w, j);
    } else {
      assert j in Front(s.flow, w) + Arrival(s, st, w) + back;
      assert j in checked + Front(Next(s, st).flow, w);
      if j in checked && j !in LetBy(s, st, w) {
        TurnedAwayIsAside(cfg, s, st, w, j);
      }
    }
  }

  /** Whoever is due, or arrives, is let by or is still due at the end. */
  lemma {:induction false} NobodyIsLost(cfg: Settings, s: World, steps: seq<Step>, w: Key, j: nat)
    requires WorldInv(s) && Legal(cfg, s, steps) && (Due(s.flow, w, j) || j in Arrivals(cfg, s, steps, w))
    ensures j in Through(cfg, s, steps, w) || Due(End(cfg, s, steps).flow, w, j)
    decreases |steps|
  {
    if steps != [] {
      var st := steps[0];
      StepKeepsInv(cfg, s, st);
      if Due(s.flow, w, j) || j in Arrival(s, st, w) {
        DueKept(cfg, s, st, w, j);
      }
      if j !in LetBy(s, st, w) {
        NobodyIsLost(cfg, Next(s, st), steps[1..], w, j);
      }
    }
  }

  /** The converse: if i has been let by and j, in front of it or arrived before it, has not, then a check
      has turned j away, or j stood aside from the start. So order is broken only by letting an op by
      while an earlier one that was turned away is parked, being re-sent, or queued once more. */
  lemma {:induction false} OvertakenWasDelayed(cfg: Settings, s: World, steps: seq<Step>, w: Key, i: nat, j: nat)
    requires WorldInv(s) && Legal(cfg, s, steps) && i != j
    requires i in Through(cfg, s, steps, w) && j !in Through(cfg, s, steps, w) && !Aside(s.flow, w, i)
    requires j in Front(s.flow, w) + Arrivals(cfg, s, steps, w)
    requires i !in Ahead(Front(s.flow, w) + Arrivals(cfg, s, steps, w), j)
    ensures Delayed(cfg, s, steps, w, j) && Due(End(cfg, s, steps).flow, w, j)
  {
    NobodyIsLost(cfg, s, steps, w, j);
    AheadConcat(Through(cfg, s, steps, w), Front(End(cfg, s, steps).flow, w), j);
    assert i in Tickets(Through(cfg, s, steps, w));
    if !Delayed(cfg, s, steps, w, j) {
      NothingPasses(cfg, s, steps, w, j);
    }
  }

  /* The condition is live */

  // No step of the run confirms k.
  ghost predicate Unconfirmed(cfg: Settings, s: World, steps: seq<Step>, k: Key)
    requires Legal(cfg, s, steps)
    decreases |steps|
  {
    steps == [] || (!Confirming(s, steps[0], k) && Unconfirmed(cfg, Next(s, steps[0]), steps[1..], k))
  }

  lemma {:induction false} InactiveUntilConfirmed(cfg: Settings, s: World, steps: seq<Step>, k: Key)
    requires Legal(cfg, s, steps) && Unconfirmed(cfg, s, steps, k) && !IsActive(Lookup(s.tables, k))
    ensures !IsActive(Lookup(End(cfg, s, steps).tables, k))
    decreases |steps|
  {
    if steps != [] {
      if IsActive(Lookup(TablesAfter(s, steps[0]), k)) {
        ActiveOnlyByConfirm(s, steps[0], k);
      }
      InactiveUntilConfirmed(cfg, Next(s, steps[0]), steps[1..], k);
    }
  }

  lemma {:induction false} OneUnmet(t: Tables, k: Key)
    requires !IsActive(Lookup(t, k))
    ensures FirstUnmet(t, [k]) == Some(k)
  {}

  /** Any update of a channel opens such a window: over every run from its intent on, for as long as no
      step confirms the channel, every op depending on it that reaches its check is turned away, a message
      of the channel to the channel's own waiters. */
  lemma {:induction false} UpdateTurnsMessagesAway(cfg: Settings, s: World, st: Step, steps: seq<Step>, w: Key)
    requires CanStep(cfg, s, st) && st.WriteIntent? && OpIn(s.flow, st.w).key.kind.ChannelEntity?
    requires Legal(cfg, Next(s, st), steps) && Unconfirmed(cfg, Next(s, st), steps, OpIn(s.flow, st.w).key)
    requires var e := End(cfg, Next(s, st), steps);
      CanStep(cfg, e, CheckDeps(w)) && OpIn(s.flow, st.w).key in OpIn(e.flow, w).deps
    ensures var e, k := End(cfg, Next(s, st), steps), OpIn(s.flow, st.w).key;
      && MoveOf(e, CheckDeps(w)).Parking?
      && (OpIn(e.flow, w).deps == [k] ==> MoveOf(e, CheckDeps(w)) == Parking(w, k))
  {
    var e, k := End(cfg, Next(s, st), steps), OpIn(s.flow, st.w).key;
    InactiveUntilConfirmed(cfg, Next(s, st), steps, k);
    FirstUnmetSpec(e.tables, OpIn(e.flow, w).deps);
    OneUnmet(e.tables, k);
  }
}
