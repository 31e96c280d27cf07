/** The diff cache is invisible, for all: whatever order the maps are visited in, the plain mirror that
    applies every op ends with the engine's ids and entities. */
module EngineMirror {
  import opened Types
  import opened Canonical
  import opened Store
  import opened Flow
  import opened Gateway
  import opened Engine
  import opened EngineRuns
  import opened EngineDrain
  import opened EngineQuiescence
  import opened EngineCache

  /** One write of one desired state on one entity has one outcome. */
  lemma {:induction false} WroteOnce(cfg: Settings, t: Tables, d: Desired, before: Option<Entity>, a: Entity, b: Entity)
    requires d.ToRole? || d.ToChannel?
    requires RowsDistinct(t) && RolesKnown(cfg, t, d)
    requires Wrote(cfg, t, d, before, a) && Wrote(cfg, t, d, before, b)
    ensures a == b
  {
    if d.ToChannel? {
      var ow := OverwritesToStoat(d.channel.overwrites);
      var base := Granted(if before.Some? then before.value.perms else map[], cfg.adminRoles, cfg.grant);
      var x :| Resolves(t, cfg.guildID, ow, x) && Pushed(base, x, a.perms);
      var y :| Resolves(t, cfg.guildID, ow, y) && Pushed(base, y, b.perms);
      KnownTargetsSeparate(cfg, t, d);
      assert ow.Keys == d.channel.overwrites.Keys;
      ResolutionUnique(t, cfg.guildID, ow, x, y);
      assert NO_ID !in x;
      PushUnique(base, x, a.perms, b.perms);
    }
  }

  // What the plain mirror writes depends on the engine's rows alone.
  lemma {:induction false} PlainStepUnique(cfg: Settings, s: World, w: Key, m: Plain, id: Id, m1: Plain, m2: Plain)
    requires CacheInv(cfg, s) && Mirrors(s, m) && Holds(s.flow, w) && !StageOf(s.flow, w).Fresh?
    requires IsStructure(OpIn(s.flow, w).key.kind)
    requires PlainStep(cfg, m, OpIn(s.flow, w), id, m1) && PlainStep(cfg, m, OpIn(s.flow, w), id, m2)
    ensures m1 == m2
  {
    var op := OpIn(s.flow, w);
    StructureOp(s, w);
    OpRolesKnown(cfg, s, w);
    PlainTargets(cfg, s, m, op.desired);
    var e := if op.key in m.ids then m.ids[op.key] else id;
    var before := if op.key in m.ids then Some(m.entities[e]) else None;
    SelfShape(op.desired);
    WroteTransfers(cfg, PlainTables(m), s.tables, op.desired, op.desired, before, m1.entities[e]);
    WroteTransfers(cfg, PlainTables(m), s.tables, op.desired, op.desired, before, m2.entities[e]);
    WroteOnce(cfg, s.tables, op.desired, before, m1.entities[e], m2.entities[e]);
  }

  lemma {:induction false} SelfShape(d: Desired)
    requires d.ToRole? || d.ToChannel?
    ensures SameShape(d, d)
  {}

  /** One engine step is no step or one always-apply step of the plain mirror, and every such step of
      the mirror keeps it in agreement. */
  lemma {:induction false} StepMirrored(cfg: Settings, s: World, st: Step, m: Plain, m': Plain)
    requires CacheInv(cfg, s) && SmoothStep(cfg, s, st) && Mirrors(s, m)
    requires if EntryOf(s, st) == [] then m' == m else PlainStep(cfg, m, EntryOf(s, st)[0].op, EntryOf(s, st)[0].id, m')
    ensures Mirrors(Next(s, st), m')
  {
    var mid := StepSimulated(cfg, s, st, m);
    if EntryOf(s, st) != [] {
      PlainStepUnique(cfg, s, st.w, m, EntryOf(s, st)[0].id, m', mid);
    }
  }

  lemma {:induction false} RunMirrored(cfg: Settings, s: World, steps: seq<Step>, m: Plain, m': Plain)
    requires CacheInv(cfg, s) && SmoothRun(cfg, s, steps) && Mirrors(s, m)
    requires Legal(cfg, s, steps) && PlainRun(cfg, m, LogOf(cfg, s, steps), m')
    ensures Mirrors(End(cfg, s, steps), m')
    decreases |steps|
  {
    if steps != [] {
      var st, s' := steps[0], Next(s, steps[0]);
      var entry, rest := EntryOf(s, st), LogOf(cfg, s', steps[1..]);
      CacheKept(cfg, s, st);
      var mid := SplitRun(cfg, s, st, m, rest, m');
      StepMirrored(cfg, s, st, m, mid);
      RunMirrored(cfg, s', steps[1..], mid, m');
    }
  }

  // The part of a plain run that belongs to one engine step.
  lemma {:induction false} SplitRun(cfg: Settings, s: World, st: Step, m: Plain, rest: seq<Entry>, m': Plain)
    returns (mid: Plain)
    requires Addressed(s.flow, st) && PlainRun(cfg, m, EntryOf(s, st) + rest, m')
    ensures if EntryOf(s, st) == [] then mid == m
      else PlainStep(cfg, m, EntryOf(s, st)[0].op, EntryOf(s, st)[0].id, mid)
    ensures PlainRun(cfg, mid, rest, m')
  {
    var log := EntryOf(s, st) + rest;
    if EntryOf(s, st) == [] {
      assert log == rest;
      mid := m;
    } else {
      assert log[0] == EntryOf(s, st)[0] && log[1..] == rest;
      mid :| PlainStep(cfg, m, log[0].op, log[0].id, mid) && PlainRun(cfg, mid, log[1..], m');
    }
  }

  /** The theorem, for every smooth run: the mirror can apply every logged op in order, with no Diff at
      all, and in whatever way it does, it ends with the engine's ids and entities. */
  lemma {:induction false} CacheInvisible(cfg: Settings, s: World, steps: seq<Step>, m: Plain)
    requires CacheInv(cfg, s) && SmoothRun(cfg, s, steps) && Mirrors(s, m)
    ensures Legal(cfg, s, steps)
    ensures exists m' :: PlainRun(cfg, m, LogOf(cfg, s, steps), m')
    ensures forall m' | PlainRun(cfg, m, LogOf(cfg, s, steps), m') :: Mirrors(End(cfg, s, steps), m')
  {
    var one := CacheSimulated(cfg, s, steps, m);
    forall m' | PlainRun(cfg, m, LogOf(cfg, s, steps), m') ensures Mirrors(End(cfg, s, steps), m') {
      RunMirrored(cfg, s, steps, m, m');
    }
  }
}
