// `Emitter` and `emitter_system`: the tick-driven scheduler that decides how
// many particles to launch and calls the particle factory for each.
//
// The collaborators are explicit: the entity's `lifetime` and `momentum`
// components are an `EntityView` (the answers of `eid_has`/`comp_of_eid`),
// the zone is the sequence of its `emit()` results during one call, and the
// factory calls and the removal request are returned to the caller.

module Emitters {
  import opened Geometry
  import opened Interp
  import opened Timers
  import opened Zones

  /** What the ECS answers about the emitter entity: the `normalized` value of
      its `lifetime` component and its `momentum` component, when present. */
  datatype EntityView = EntityView(lifetime: Option<real>, momentum: Option<Vec2>)

  /** One recorded `particle_factory(t=..., position=..., momentum=...)` call. */
  datatype FactoryCall = FactoryCall(t: real, position: Vec2, momentum: Vec2)

  /** The emit count after the budget clamp, and the budget left. */
  datatype Clamped = Clamped(emits: int, remaining: int)

  /** What one call of `emitter_system` does. */
  datatype Outcome = Outcome(resetTick: bool, removeEntity: bool, remaining: int, calls: seq<FactoryCall>)

  /** The normalised time of a call: the duration timer's, else the entity
      lifetime's, else 0. */
  function EmitTime(duration: Option<real>, entity: EntityView): (t: real)
    ensures duration.Some? ==> t == duration.value
    ensures duration.None? && entity.lifetime.Some? ==> t == entity.lifetime.value
    ensures duration.None? && entity.lifetime.None? ==> t == 0.0
  {
    match duration
    case Some(d) => d
    case None => if entity.lifetime.Some? then entity.lifetime.value else 0.0
  }

  /** `int(_lerp(ept0, ept1, t))`. The easing `ept_ease` is not applied. */
  function EmitCount(ept0: int, ept1: int, t: real): (n: int)
    ensures t == 0.0 ==> n == ept0
    ensures t == 1.0 ==> n == ept1
    ensures ept0 == ept1 ==> n == ept0
    ensures 0.0 <= t <= 1.0 ==> MinInt(ept0, ept1) <= n <= MaxInt(ept0, ept1)
  {
    var x := Lerp(ept0 as real, ept1 as real, t);
    TruncBetween(x, MinInt(ept0, ept1), MaxInt(ept0, ept1));
    Trunc(x)
  }

  /** The clamp against a finite budget. Only a positive `remaining` takes
      part: 0 (exhausted) and negative values (unlimited) leave the count and
      the budget as they are. */
  function ClampToBudget(remaining: int, emits: int): (c: Clamped)
    ensures remaining > 0 ==> c.emits <= emits && c.emits <= remaining
    ensures remaining > 0 ==> c.emits == emits || c.emits == remaining
    ensures remaining > 0 ==> c.remaining == remaining - c.emits && c.remaining >= 0
    ensures remaining > 0 && emits >= 0 ==> c.emits >= 0
    ensures remaining <= 0 ==> c == Clamped(emits, remaining)
  {
    if remaining > 0 then
      var e := MinInt(emits, remaining);
      Clamped(e, remaining - e)
    else
      Clamped(emits, remaining)
  }

  /** How many times `for i in range(emits)` runs. */
  function Spawned(emits: int): (n: nat)
    ensures emits >= 0 ==> n == emits
    ensures emits < 0 ==> n == 0
  {
    if emits > 0 then emits else 0
  }

  /** `inherit_momentum & 1`, `inherit_momentum & 2`: Dafny's Euclidean `/`
      and `%` give the bits of Python's two's-complement integers. */
  predicate InheritsEmitter(flags: int) {
    flags % 2 == 1
  }

  predicate InheritsZone(flags: int) {
    (flags / 2) % 2 == 1
  }

  /** `e_momentum`: the entity's momentum when bit 1 is set and it has one, else zero. */
  function EmitterMomentum(flags: int, entity: EntityView): (m: Vec2)
    ensures InheritsEmitter(flags) && entity.momentum.Some? ==> m == entity.momentum.value
    ensures !(InheritsEmitter(flags) && entity.momentum.Some?) ==> m == Zero
  {
    if InheritsEmitter(flags) && entity.momentum.Some? then entity.momentum.value else Zero
  }

  /** The momentum handed to the factory for a launch whose zone sample
      carries `zoneMomentum`. Only the two low bits of the flags matter: they
      select nothing, the emitter, the zone or the sum of both. */
  function SpawnMomentum(flags: int, entity: EntityView, zoneMomentum: Vec2): (m: Vec2)
    ensures flags % 4 == 0 ==> m == Zero
    ensures flags % 4 == 1 ==> m == EmitterMomentum(1, entity)
    ensures flags % 4 == 2 ==> m == zoneMomentum
    ensures flags % 4 == 3 ==> m == EmitterMomentum(1, entity).Add(zoneMomentum)
  {
    assert flags % 2 == (flags % 4) % 2 && (flags / 2) % 2 == (flags % 4) / 2;
    var m := if InheritsEmitter(flags) then Zero.Add(EmitterMomentum(flags, entity)) else Zero;
    if InheritsZone(flags) then m.Add(zoneMomentum) else m
  }

  /** The factory calls of one batch of n launches: every call gets the same
      t, the emitter position plus that call's zone offset, and the inherited momentum. */
  function Batch(t: real, position: Vec2, flags: int, entity: EntityView, zone: nat -> ZoneSample, n: nat)
    : (calls: seq<FactoryCall>)
    ensures |calls| == n
  {
    if n == 0 then []
    else
      Batch(t, position, flags, entity, zone, n - 1)
        + [FactoryCall(t, position.Add(zone(n - 1).position), SpawnMomentum(flags, entity, zone(n - 1).momentum))]
  }

  /** Launch i of a batch reads zone sample i: the i-th factory call gets t,
      the position offset by that sample, and the momentum it inherits. */
  lemma {:induction false} BatchCalls(t: real, position: Vec2, flags: int, entity: EntityView,
                                      zone: nat -> ZoneSample, n: nat)
    ensures forall i :: 0 <= i < n ==>
              Batch(t, position, flags, entity, zone, n)[i]
                == FactoryCall(t, position.Add(zone(i).position), SpawnMomentum(flags, entity, zone(i).momentum))
  {
    if n > 0 {
      BatchCalls(t, position, flags, entity, zone, n - 1);
    }
  }

  /** One call of `emitter_system` on an emitter whose tick is `hot`, whose
      budget is `remaining` and whose duration timer reports `duration`. */
  function Fire(hot: bool, remaining: int, ept0: int, ept1: int, flags: int, duration: Option<real>,
                entity: EntityView, position: Vec2, zone: nat -> ZoneSample): (o: Outcome)
    // a hot tick does nothing at all
    ensures hot ==> o == Outcome(false, false, remaining, [])
    // otherwise the tick is reset once, and removal is requested exactly when the budget is exhausted
    ensures !hot ==> o.resetTick && (o.removeEntity <==> remaining == 0)
    // a finite budget is never overdrawn: what is launched comes out of it
    ensures !hot && remaining > 0 ==> o.remaining >= 0 && |o.calls| <= remaining
    ensures !hot && remaining > 0 && EmitCount(ept0, ept1, EmitTime(duration, entity)) >= 0 ==>
              |o.calls| + o.remaining == remaining
    // exhausted and unlimited budgets stay as they are, and nothing clamps the count
    ensures remaining <= 0 ==> o.remaining == remaining
    ensures !hot && remaining <= 0 ==> |o.calls| == Spawned(EmitCount(ept0, ept1, EmitTime(duration, entity)))
    // with non-negative rates and t in [0, 1], a batch is at most the larger rate
    ensures 0 <= ept0 && 0 <= ept1 && 0.0 <= EmitTime(duration, entity) <= 1.0 ==> |o.calls| <= MaxInt(ept0, ept1)
    // every launch gets t, the offset position and the inherited momentum
    ensures forall i :: 0 <= i < |o.calls| ==>
              o.calls[i] == FactoryCall(EmitTime(duration, entity), position.Add(zone(i).position),
                                        SpawnMomentum(flags, entity, zone(i).momentum))
  {
    if hot then Outcome(false, false, remaining, [])
    else
      var t := EmitTime(duration, entity);
      var c := ClampToBudget(remaining, EmitCount(ept0, ept1, t));
      BatchCalls(t, position, flags, entity, zone, Spawned(c.emits));
      Outcome(true, remaining == 0, c.remaining, Batch(t, position, flags, entity, zone, Spawned(c.emits)))
  }

  /** The budget bookkeeping of one tick that fires, as written: how many
      particles are launched, the budget left, and whether removal is requested. */
  datatype TickTotal = TickTotal(launched: nat, remaining: int, removeEntity: bool)

  function FiredTick(remaining: int, count: int): TickTotal {
    var c := ClampToBudget(remaining, count);
    TickTotal(Spawned(c.emits), c.remaining, remaining == 0)
  }

  /** A tick that fires is `FiredTick` applied to the budget and the emit count of its t. */
  lemma FireIsFiredTick(remaining: int, ept0: int, ept1: int, flags: int, duration: Option<real>,
                        entity: EntityView, position: Vec2, zone: nat -> ZoneSample)
    ensures var o := Fire(false, remaining, ept0, ept1, flags, duration, entity, position, zone);
            var f := FiredTick(remaining, EmitCount(ept0, ept1, EmitTime(duration, entity)));
            |o.calls| == f.launched && o.remaining == f.remaining && o.removeEntity == f.removeEntity
  {
  }

  /** Totals over a run of ticks. */
  datatype RunTotal = RunTotal(launched: nat, remaining: int, removed: bool)

  /** Consecutive ticks that fire, with raw emit counts `counts`, as written.
      The run ends with the first tick that requests removal: that tick still
      launches its batch, and the entity is gone afterwards. Hot ticks in
      between change nothing and are not listed. */
  function Run(remaining: int, counts: seq<int>): RunTotal
    decreases |counts|
  {
    if counts == [] then RunTotal(0, remaining, false)
    else
      var tick := FiredTick(remaining, counts[0]);
      if tick.removeEntity then RunTotal(tick.launched, tick.remaining, true)
      else
        var rest := Run(tick.remaining, counts[1..]);
        RunTotal(tick.launched + rest.launched, rest.remaining, rest.removed)
  }

  /** With a finite budget and non-negative emit counts, every launch before
      the removal request is paid for from the budget, and the budget never
      goes negative. */
  lemma {:induction false} RunPaysUntilRemoval(total: int, counts: seq<int>)
    requires total >= 0
    requires forall i :: 0 <= i < |counts| ==> counts[i] >= 0
    ensures Run(total, counts).remaining >= 0
    ensures !Run(total, counts).removed ==> Run(total, counts).launched + Run(total, counts).remaining == total
    ensures Run(total, counts).removed ==> Run(total, counts).remaining == 0
    decreases |counts|
  {
    if counts != [] {
      var tick := FiredTick(total, counts[0]);
      if !tick.removeEntity {
        RunPaysUntilRemoval(tick.remaining, counts[1..]);
      }
    }
  }

  /** An unlimited emitter (remaining -1) never spends budget and never asks to be removed. */
  lemma {:induction false} RunUnlimited(counts: seq<int>)
    ensures Run(-1, counts).remaining == -1 && !Run(-1, counts).removed
    decreases |counts|
  {
    if counts != [] {
      RunUnlimited(counts[1..]);
    }
  }

  /** The tick that finds the budget exhausted still launches a full batch:
      a budget of 10 at 5 per tick yields 15 launches, not 10. */
  lemma RunOverrunsBudget()
    ensures Run(10, [5, 5, 5]) == RunTotal(15, 0, true)
  {
    assert FiredTick(10, 5) == TickTotal(5, 5, false);
    assert FiredTick(5, 5) == TickTotal(5, 0, false);
    assert FiredTick(0, 5) == TickTotal(5, 0, true);
    assert [5, 5, 5][1..] == [5, 5] && [5, 5][1..] == [5];
  }

  /** The evidently intended tick: an exhausted budget requests removal and
      launches nothing. */
  function FiredTickFixed(remaining: int, count: int): TickTotal {
    if remaining == 0 then TickTotal(0, 0, true) else FiredTick(remaining, count)
  }

  function RunFixed(remaining: int, counts: seq<int>): RunTotal
    decreases |counts|
  {
    if counts == [] then RunTotal(0, remaining, false)
    else
      var tick := FiredTickFixed(remaining, counts[0]);
      if tick.removeEntity then RunTotal(tick.launched, tick.remaining, true)
      else
        var rest := RunFixed(tick.remaining, counts[1..]);
        RunTotal(tick.launched + rest.launched, rest.remaining, rest.removed)
  }

  /** With the fix, the launches of the whole run never exceed `total_emits`. */
  lemma {:induction false} RunFixedWithinBudget(total: int, counts: seq<int>)
    requires total >= 0
    requires forall i :: 0 <= i < |counts| ==> counts[i] >= 0
    ensures RunFixed(total, counts).launched + RunFixed(total, counts).remaining == total
    ensures RunFixed(total, counts).remaining >= 0
    ensures RunFixed(total, counts).launched <= total
    decreases |counts|
  {
    if counts != [] {
      var tick := FiredTickFixed(total, counts[0]);
      if !tick.removeEntity {
        RunFixedWithinBudget(tick.remaining, counts[1..]);
      }
    }
  }

  /** The budget bounds need non-negative emit counts. A negative count, such
      as `int(_lerp(-10, 10, 0.25)) == -5`, raises the budget at
      `remaining -= emits`, so a run goes past `total_emits` with or without
      the fix. */
  lemma NegativeCountOverrunsBudget()
    ensures EmitCount(-10, 10, 0.25) == -5
    ensures Run(10, [-5, 15]).launched == 15
    ensures RunFixed(10, [-5, 15]).launched == 15
  {
    assert Lerp(-10.0, 10.0, 0.25) == -5.0;
    assert FiredTick(10, -5) == TickTotal(0, 15, false);
    assert FiredTick(15, 15) == TickTotal(15, 0, false);
    assert [-5, 15][1..] == [15] && [15][1..] == [];
  }

  class Emitter {
    var ept0: int
    var ept1: int
    /** Stored, but never consulted by `emitter_system`. */
    var eptEase: real -> real
    var tick: Cooldown
    var remaining: int
    /** The duration timer, or null for None. */
    var duration: Cooldown?
    var inheritMomentum: int

    ghost predicate Valid()
      reads this
    {
      duration != tick
    }

    /** The normalised time of the duration timer, if there is one. */
    function DurationTime(): (d: Option<real>)
      reads this, duration
      ensures d.Some? <==> duration != null
    {
      if duration == null then None else Some(duration.normalized)
    }

    /** The dataclass constructor with its defaults, then `__post_init__`: the
        tick starts cold, `None` total emits means unlimited (-1), and a
        duration of None or 0 means no duration timer. */
    constructor (nameonly ept0: int := 1, nameonly ept1: int := 1, nameonly eptEase: real -> real := x => x,
                 nameonly duration: Option<real> := None, nameonly tick: real := 0.1,
                 nameonly totalEmits: Option<int> := None, nameonly inheritMomentum: int := 3)
      ensures Valid()
      ensures this.ept0 == ept0 && this.ept1 == ept1 && this.eptEase == eptEase
      ensures this.inheritMomentum == inheritMomentum
      ensures fresh(this.tick) && this.tick.duration == tick && this.tick.cold && this.tick.resets == 0
      ensures remaining == (if totalEmits.Some? then totalEmits.value else -1)
      ensures (this.duration == null) <==> (duration.None? || duration.value == 0.0)
      ensures this.duration != null ==>
                fresh(this.duration) && this.duration.duration == duration.value && !this.duration.cold
    {
      this.ept0 := ept0;
      this.ept1 := ept1;
      this.eptEase := eptEase;
      this.inheritMomentum := inheritMomentum;
      this.tick := new Cooldown(tick, cold := true);
      remaining := if totalEmits.Some? then totalEmits.value else -1;
      if duration.Some? && duration.value != 0.0 {
        this.duration := new Cooldown(duration.value);
      } else {
        this.duration := null;
      }
    }
  }

  /** The `for i in range(emits)` loop of `emitter_system`: one factory call per
      launch, in order, each with its own zone sample. */
  method LaunchBatch(t: real, position: Vec2, flags: int, entity: EntityView, eMomentum: Vec2,
                     zone: nat -> ZoneSample, emits: int)
    returns (calls: seq<FactoryCall>)
    requires eMomentum == EmitterMomentum(flags, entity)
    ensures calls == Batch(t, position, flags, entity, zone, Spawned(emits))
  {
    calls := [];
    var i := 0;
    while i < emits
      invariant 0 <= i && (i <= emits || i == 0)
      invariant calls == Batch(t, position, flags, entity, zone, i)
    {
      var sample := zone(i);
      var momentum := Zero;
      if InheritsEmitter(flags) {
        momentum := momentum.Add(eMomentum);
      }
      if InheritsZone(flags) {
        momentum := momentum.Add(sample.momentum);
      }
      calls := calls + [FactoryCall(t, position.Add(sample.position), momentum)];
      assert calls == Batch(t, position, flags, entity, zone, i + 1);
      i := i + 1;
    }
  }

  /** `emitter_system(dt, eid, emitter, position)`: returns whether
      `remove_entity(eid)` was called and the factory calls in order. Only the
      tick timer and the budget change. */
  method EmitterSystem(emitter: Emitter, entity: EntityView, position: Vec2, zone: nat -> ZoneSample)
    returns (removeEntity: bool, calls: seq<FactoryCall>)
    requires emitter.Valid()
    modifies emitter`remaining, emitter.tick
    ensures var o := Fire(old(emitter.tick.Hot()), old(emitter.remaining), emitter.ept0, emitter.ept1,
                          emitter.inheritMomentum, old(emitter.DurationTime()), entity, position, zone);
            && removeEntity == o.removeEntity
            && calls == o.calls
            && emitter.remaining == o.remaining
            && emitter.tick.resets == old(emitter.tick.resets) + (if o.resetTick then 1 else 0)
    ensures old(emitter.tick.Hot()) ==> unchanged(emitter.tick)
    ensures !old(emitter.tick.Hot()) && emitter.tick.duration > 0.0 ==> emitter.tick.Hot() && emitter.tick.normalized == 0.0
  {
    removeEntity, calls := false, [];
    if emitter.tick.Hot() {
      return;
    }

    if emitter.remaining == 0 {
      removeEntity := true;
    }

    ghost var duration := emitter.DurationTime();
    emitter.tick.Reset();
    assert emitter.tick.duration > 0.0 ==> emitter.tick.Hot() && emitter.tick.normalized == 0.0;

    var t := 0.0;
    if emitter.duration == null {
      if entity.lifetime.Some? {
        t := entity.lifetime.value;
      }
    } else {
      t := emitter.duration.normalized;
    }
    assert t == EmitTime(duration, entity);

    var emits := Trunc(Lerp(emitter.ept0 as real, emitter.ept1 as real, t));

    if emitter.remaining > 0 {
      emits := MinInt(emits, emitter.remaining);
      emitter.remaining := emitter.remaining - emits;
    }

    var flags := emitter.inheritMomentum;
    var eMomentum := Zero;
    if InheritsEmitter(flags) && entity.momentum.Some? {
      eMomentum := entity.momentum.value;
    }

    calls := LaunchBatch(t, position, flags, entity, eMomentum, zone, emits);
    assert emitter.tick.duration > 0.0 ==> emitter.tick.Hot() && emitter.tick.normalized == 0.0;
  }

  /** Two calls at the same instant, with a positive tick: whichever way the
      first one goes, it leaves the tick hot, so the second launches nothing,
      requests nothing and spends nothing. Missed ticks are not caught up. */
  method SameInstantTwice(emitter: Emitter, entity: EntityView, position: Vec2, zone: nat -> ZoneSample)
    returns (first: seq<FactoryCall>, second: seq<FactoryCall>, secondRemoves: bool)
    requires emitter.Valid()
    modifies emitter`remaining, emitter.tick
    ensures emitter.tick.duration > 0.0 ==> second == [] && !secondRemoves
    ensures emitter.tick.duration > 0.0 ==> emitter.tick.resets <= old(emitter.tick.resets) + 1
  {
    var firstRemoves;
    firstRemoves, first := EmitterSystem(emitter, entity, position, zone);
    assert emitter.tick.duration > 0.0 ==> emitter.tick.Hot();
    secondRemoves, second := EmitterSystem(emitter, entity, position, zone);
  }
}
