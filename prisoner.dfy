/**
 The prisoner AI of RigelEngine (src/game_logic/ai/prisoner.cpp).

 A prisoner entity is a record of the components the prisoner system touches;
 the entity store is an array of such records that the system updates in
 place. The `Prisoner` component (aggression flag, grab flag, grab step) is an
 optional field: removing it on death is what stops the system from visiting
 the entity again.
 */
module Prisoner {
  import opened Optional

  // ---------------------------------------------------------------------------
  // Constants
  // ---------------------------------------------------------------------------

  /** Frame list handed to the animation sequencer when a prisoner is hit. */
  const DeathSequence: seq<int> := [5, 5, 6, 7]

  /** Number of frames a dead prisoner stays alive before it is destroyed. */
  const DeathFramesToLive: nat := 6

  /** Damage dealt to the player by a grabbing prisoner. */
  const GrabDamage: int := 1

  /** Bit of an RNG value that makes a non-aggressive prisoner shake its bars. */
  const ShakeBit: bv32 := 0x4

  /** Bit of an RNG value that makes an aggressive prisoner want to grab. */
  const GrabBit: bv32 := 0x10

  /** Number of renderable frames of a prisoner sprite besides the grab overlay. */
  const BaseFrameCount: nat := 1

  /** Overlay frames shown by the first seven updates of a grab that starts on an odd frame. */
  const GrabOverlays: seq<int> := [1, 2, 2, 3, 3, 4, 4]

  // ---------------------------------------------------------------------------
  // Data model
  // ---------------------------------------------------------------------------

  /** The `Prisoner` component. */
  datatype PrisonerState = PrisonerState(isAggressive: bool, isGrabbing: bool, grabStep: nat)

  /**
   One entity of the store, reduced to the components the prisoner system
   reads or writes: the x coordinate of `WorldPosition`, the frame list of
   `Sprite`, `Shootable.mInvincible`, the `Active` marker, the
   `PlayerDamaging` component with its damage amount, the `Prisoner`
   component, and what `onEntityHit` hands to the animation sequencer and to
   `AutoDestroy`.
   */
  datatype Entity = Entity(
    x: int,
    frames: seq<int>,
    invincible: bool,
    active: bool,
    playerDamaging: Option<int>,
    prisoner: Option<PrisonerState>,
    animationSequence: Option<seq<int>>,
    autoDestroyAfter: Option<nat>)

  /** What one step of the system did to one entity, and how many RNG values it drew. */
  datatype Outcome = Outcome(entity: Entity, draws: nat)

  /** What one pass over the store did, and how many RNG values it drew. */
  datatype Pass = Pass(entities: seq<Entity>, draws: nat)

  /** A run of consecutive updates of one entity: its state after each, and the RNG values drawn. */
  datatype Trace = Trace(states: seq<Entity>, draws: nat)

  // ---------------------------------------------------------------------------
  // Predicates over entities
  // ---------------------------------------------------------------------------

  /** The entity has every component of the system's query, `Active` included. */
  predicate Processed(e: Entity) {
    e.active && e.prisoner.Some?
  }

  predicate Grabbing(e: Entity) {
    e.prisoner.Some? && e.prisoner.value.isGrabbing
  }

  /**
   The frames a visited prisoner's update indexes exist: frame 0 always, and
   the overlay at index 1 while it grabs.
   */
  predicate CanUpdate(e: Entity) {
    Processed(e) ==> |e.frames| >= 1 && (e.prisoner.value.isGrabbing ==> |e.frames| >= 2)
  }

  /**
   The state a prisoner keeps between updates: it grabs exactly when its
   sprite carries one overlay frame beyond the base and exactly when it damages
   the player; only an aggressive prisoner grabs, and it is vulnerable while it
   does; a grab in progress is at step 1 to 4.
   */
  predicate Consistent(e: Entity) {
    e.prisoner.Some? ==>
      var st := e.prisoner.value;
      && |e.frames| == BaseFrameCount + (if st.isGrabbing then 1 else 0)
      && (e.playerDamaging.Some? <==> st.isGrabbing)
      && st.grabStep <= 5
      && (st.isGrabbing ==> st.isAggressive && !e.invincible && 1 <= st.grabStep <= 4)
  }

  /**
   The grab step agrees with the parity of the frame last processed: on an
   even frame a grab in progress is at most at step 3, so the next (odd) frame
   cannot end it and then increment past 4.
   */
  predicate Paced(e: Entity, lastOdd: bool) {
    e.prisoner.Some? ==>
      var st := e.prisoner.value;
      && st.grabStep <= 4
      && (st.isGrabbing ==> st.isAggressive && 1 <= st.grabStep && (!lastOdd ==> st.grabStep <= 3))
  }

  lemma ConsistentCanUpdate(e: Entity)
    requires Consistent(e)
    ensures CanUpdate(e)
  {
  }

  // ---------------------------------------------------------------------------
  // The specification of one update
  // ---------------------------------------------------------------------------

  /**
   Strict, asymmetric horizontal window of a prisoner at `prisonerX` in which
   it can grab the player; as a closed range, three units behind the prisoner
   and six ahead.
   */
  predicate PlayerInRange(prisonerX: int, playerX: int): (r: bool)
    ensures r <==> prisonerX - 3 <= playerX <= prisonerX + 6
  {
    prisonerX - 4 < playerX && prisonerX + 7 > playerX
  }

  /** Frame 0 of a non-aggressive prisoner: 1 ("shaking") when the shake bit of the draw is set, else 0 ("idle"). */
  function IdleFrame(v: bv32): (f: int)
    ensures f == 0 || f == 1
    ensures f == 1 <==> v & ShakeBit != 0
  {
    if v & ShakeBit != 0 then 1 else 0
  }

  /** How many RNG values one update draws for `e`; it depends neither on the values nor on the parity. */
  function Draws(e: Entity, playerX: int): (n: nat)
    ensures n <= 1
    ensures n == 1 <==> Processed(e) && (!e.prisoner.value.isAggressive
                                          || (!e.prisoner.value.isGrabbing && PlayerInRange(e.x, playerX)))
  {
    if !Processed(e) then 0
    else if !e.prisoner.value.isAggressive then 1
    else if !e.prisoner.value.isGrabbing && PlayerInRange(e.x, playerX) then 1
    else 0
  }

  /**
   The grab-progress block: show overlay `(step + 1) % 5`; end the grab when
   the step has reached 4; then, on an odd frame, increment the step.
   */
  function ProgressGrab(e: Entity, odd: bool): (r: Entity)
    requires Grabbing(e) ==> |e.frames| >= 2
    ensures !Grabbing(e) ==> r == e
    // a grab that has reached step 4 ends: slot 1 shows (step + 1) % 5, the
    // last frame is popped, the prisoner is invincible and harmless again, and
    // the odd-frame increment still happens
    ensures Grabbing(e) && e.prisoner.value.grabStep >= 4 ==>
              && r == e.(frames := r.frames,
                         prisoner := Some(e.prisoner.value.(isGrabbing := false,
                                            grabStep := e.prisoner.value.grabStep + (if odd then 1 else 0))),
                         invincible := true,
                         playerDamaging := None)
              && |r.frames| == |e.frames| - 1
              && r.frames[0] == e.frames[0]
              && (|e.frames| > 2 ==> r.frames[1] == (e.prisoner.value.grabStep + 1) % 5)
              && (forall k :: 2 <= k < |e.frames| - 1 ==> r.frames[k] == e.frames[k])
    // otherwise the grab continues: slot 1 shows step + 1, the step advances
    // on odd frames only, and nothing else changes
    ensures Grabbing(e) && e.prisoner.value.grabStep < 4 ==>
              r == e.(frames := e.frames[1 := e.prisoner.value.grabStep + 1],
                      prisoner := Some(e.prisoner.value.(
                                    grabStep := e.prisoner.value.grabStep + (if odd then 1 else 0))))
  {
    if !Grabbing(e) then e
    else
      var st := e.prisoner.value;
      var shown := e.(frames := e.frames[1 := (st.grabStep + 1) % 5]);
      var checked :=
        if st.grabStep >= 4 then
          shown.(prisoner := Some(st.(isGrabbing := false)),
                 frames := shown.frames[..|shown.frames| - 1],
                 invincible := true,
                 playerDamaging := None)
        else shown;
      if odd then checked.(prisoner := Some(checked.prisoner.value.(grabStep := st.grabStep + 1)))
      else checked
  }

  /**
   One update of an aggressive prisoner (`updateAggressivePrisoner`): the
   grab decision, then the grab-progress block in the same call.
   */
  function AggressiveStep(e: Entity, playerX: int, odd: bool, values: nat -> bv32, pos: nat): (r: Outcome)
    requires Processed(e) && e.prisoner.value.isAggressive && CanUpdate(e)
    ensures r.draws == (if !e.prisoner.value.isGrabbing && PlayerInRange(e.x, playerX) then 1 else 0)
    ensures r.entity.prisoner.Some? && r.entity.prisoner.value.isAggressive
    // a grab starts exactly when the player is in range, the grab bit is set and the frame is odd
    ensures !Grabbing(e) ==>
              (Grabbing(r.entity) <==> PlayerInRange(e.x, playerX) && values(pos) & GrabBit != 0 && odd)
    // a prisoner that does not grab is left as it was
    ensures !Grabbing(e) && !Grabbing(r.entity) ==> r.entity == e
    // a new grab appends the overlay and shows overlay 1 in slot 1; the prisoner
    // becomes vulnerable and damaging and is at step 1; nothing else changes
    ensures !Grabbing(e) && Grabbing(r.entity) ==>
              && r.entity == e.(frames := r.entity.frames,
                                prisoner := Some(PrisonerState(true, true, 1)),
                                invincible := false,
                                playerDamaging := Some(GrabDamage))
              && |r.entity.frames| == |e.frames| + 1
              && r.entity.frames[0] == e.frames[0]
              && r.entity.frames[1] == 1
              && r.entity.frames[|e.frames|] == 1
              && (forall k :: 2 <= k < |e.frames| ==> r.entity.frames[k] == e.frames[k])
    // a grab in progress goes through the grab-progress block alone, without a draw
    ensures Grabbing(e) ==> r == Outcome(ProgressGrab(e, odd), 0)
  {
    var st := e.prisoner.value;
    if !st.isGrabbing && PlayerInRange(e.x, playerX) then
      var wantsToGrab := values(pos) & GrabBit != 0 && odd;
      var started :=
        if wantsToGrab then
          e.(prisoner := Some(st.(isGrabbing := true, grabStep := 0)),
             frames := e.frames + [1],
             invincible := false,
             playerDamaging := Some(GrabDamage))
        else e;
      Outcome(ProgressGrab(started, odd), 1)
    else
      Outcome(ProgressGrab(e, odd), 0)
  }

  /** One prisoner visited by one pass of `update`, with parity `odd` and the RNG positioned at `pos`. */
  function PrisonerStep(e: Entity, playerX: int, odd: bool, values: nat -> bv32, pos: nat): (r: Outcome)
    requires CanUpdate(e)
    ensures r.draws == Draws(e, playerX)
    ensures CanUpdate(r.entity)
    ensures !Processed(e) ==> r.entity == e
    // the update never moves, deactivates or kills the entity, nor changes its aggression
    ensures r.entity.x == e.x && r.entity.active == e.active
    ensures e.prisoner.Some? ==>
              r.entity.prisoner.Some? && r.entity.prisoner.value.isAggressive == e.prisoner.value.isAggressive
    // a non-aggressive prisoner only has frame 0 set from one draw
    ensures Processed(e) && !e.prisoner.value.isAggressive ==>
              && |r.entity.frames| == |e.frames|
              && r.entity.frames[0] == IdleFrame(values(pos))
              && r.entity.frames[1..] == e.frames[1..]
              && r.entity == e.(frames := r.entity.frames)
  {
    if !Processed(e) then Outcome(e, 0)
    else if e.prisoner.value.isAggressive then AggressiveStep(e, playerX, odd, values, pos)
    else Outcome(e.(frames := e.frames[0 := IdleFrame(values(pos))]), 1)
  }

  /**
   One pass of `update` over the store: every entity in store order, all with
   the same parity, each drawing its RNG values right after the previous one's.
   */
  function UpdateAll(es: seq<Entity>, playerX: int, odd: bool, values: nat -> bv32, pos: nat): (r: Pass)
    requires forall i :: 0 <= i < |es| ==> CanUpdate(es[i])
    ensures |r.entities| == |es|
    decreases |es|
  {
    if es == [] then Pass([], 0)
    else
      var prev := UpdateAll(es[..|es| - 1], playerX, odd, values, pos);
      var o := PrisonerStep(es[|es| - 1], playerX, odd, values, pos + prev.draws);
      Pass(prev.entities + [o.entity], prev.draws + o.draws)
  }

  /** RNG values one pass needs for the whole store. */
  function TotalDraws(es: seq<Entity>, playerX: int): (n: nat)
    ensures n <= |es|
    decreases |es|
  {
    if es == [] then 0 else TotalDraws(es[..|es| - 1], playerX) + Draws(es[|es| - 1], playerX)
  }

  /**
   The effect of `onEntityHit`. A hit on a prisoner releases its grab (the
   overlay frame is popped and it stops damaging the player), hands over the
   death sequence and the auto-destroy timeout and strips the `Prisoner`
   component; nothing else changes. A hit on any other entity changes nothing.
   */
  function Hit(e: Entity): (r: Entity)
    requires Grabbing(e) ==> |e.frames| >= 1
    ensures e.prisoner.None? ==> r == e
    ensures e.prisoner.Some? ==>
              && r == e.(frames := r.frames,
                         playerDamaging := r.playerDamaging,
                         prisoner := None,
                         animationSequence := Some([5, 5, 6, 7]),
                         autoDestroyAfter := Some(6))
              && |r.frames| == |e.frames| - (if Grabbing(e) then 1 else 0)
              && (forall k :: 0 <= k < |r.frames| ==> r.frames[k] == e.frames[k])
              && r.playerDamaging == (if Grabbing(e) then None else e.playerDamaging)
  {
    if e.prisoner.None? then e
    else
      var released :=
        if e.prisoner.value.isGrabbing
        then e.(frames := e.frames[..|e.frames| - 1], playerDamaging := None)
        else e;
      released.(animationSequence := Some(DeathSequence),
                autoDestroyAfter := Some(DeathFramesToLive),
                prisoner := None)
  }

  /**
   `n` consecutive updates of one prisoner, starting at game frame `frame`
   with parity `odd`, the parity alternating; the update of frame `f` sees the
   player at `playerXs(f)`.
   */
  function Run(e: Entity, playerXs: nat -> int, frame: nat, odd: bool, values: nat -> bv32, pos: nat, n: nat): (t: Trace)
    requires CanUpdate(e)
    ensures |t.states| == n
    decreases n
  {
    if n == 0 then Trace([], 0)
    else
      var o := PrisonerStep(e, playerXs(frame), odd, values, pos);
      var rest := Run(o.entity, playerXs, frame + 1, !odd, values, pos + o.draws, n - 1);
      Trace([o.entity] + rest.states, o.draws + rest.draws)
  }

  // ---------------------------------------------------------------------------
  // Properties of one pass
  // ---------------------------------------------------------------------------

  /** A pass draws exactly as many RNG values as its entities need. */
  lemma {:induction false} UpdateAllDraws(es: seq<Entity>, playerX: int, odd: bool, values: nat -> bv32, pos: nat)
    requires forall i :: 0 <= i < |es| ==> CanUpdate(es[i])
    ensures UpdateAll(es, playerX, odd, values, pos).draws == TotalDraws(es, playerX)
    decreases |es|
  {
    if es != [] {
      UpdateAllDraws(es[..|es| - 1], playerX, odd, values, pos);
    }
  }

  /**
   Entity `i` after a pass is the one-entity step with the pass's parity, and
   with the RNG positioned after the draws of the entities before it.
   */
  lemma {:induction false} UpdateAllAt(es: seq<Entity>, playerX: int, odd: bool, values: nat -> bv32, pos: nat, i: nat)
    requires forall j :: 0 <= j < |es| ==> CanUpdate(es[j])
    requires i < |es|
    ensures UpdateAll(es, playerX, odd, values, pos).entities[i]
         == PrisonerStep(es[i], playerX, odd, values, pos + TotalDraws(es[..i], playerX)).entity
    decreases |es|
  {
    var init := es[..|es| - 1];
    if i == |es| - 1 {
      assert es[..i] == init;
      UpdateAllDraws(init, playerX, odd, values, pos);
    } else {
      UpdateAllAt(init, playerX, odd, values, pos, i);
      assert init[..i] == es[..i];
    }
  }

  /** A pass over one more entity: the pass so far, then that entity's step. */
  lemma UpdateAllExtend(es: seq<Entity>, i: nat, playerX: int, odd: bool, values: nat -> bv32, pos: nat, pass: Pass)
    requires forall j :: 0 <= j < |es| ==> CanUpdate(es[j])
    requires i < |es| && pass == UpdateAll(es[..i], playerX, odd, values, pos)
    ensures UpdateAll(es[..i + 1], playerX, odd, values, pos)
         == Pass(pass.entities + [PrisonerStep(es[i], playerX, odd, values, pos + pass.draws).entity],
                 pass.draws + PrisonerStep(es[i], playerX, odd, values, pos + pass.draws).draws)
  {
    assert es[..i + 1][..i] == es[..i];
  }

  /** One update keeps a prisoner consistent. */
  lemma StepPreservesConsistency(e: Entity, playerX: int, odd: bool, values: nat -> bv32, pos: nat)
    requires Consistent(e)
    ensures CanUpdate(e) && Consistent(PrisonerStep(e, playerX, odd, values, pos).entity)
  {
  }

  /** A pass keeps every prisoner of the store consistent. */
  lemma {:induction false} UpdateAllPreservesConsistency(es: seq<Entity>, playerX: int, odd: bool, values: nat -> bv32, pos: nat)
    requires forall i :: 0 <= i < |es| ==> Consistent(es[i])
    ensures forall i :: 0 <= i < |es| ==> CanUpdate(es[i])
    ensures forall i :: 0 <= i < |es| ==> Consistent(UpdateAll(es, playerX, odd, values, pos).entities[i])
    decreases |es|
  {
    forall i | 0 <= i < |es| ensures CanUpdate(es[i]) {
      ConsistentCanUpdate(es[i]);
    }
    if es != [] {
      var init := es[..|es| - 1];
      UpdateAllPreservesConsistency(init, playerX, odd, values, pos);
      var prev := UpdateAll(init, playerX, odd, values, pos);
      StepPreservesConsistency(es[|es| - 1], playerX, odd, values, pos + prev.draws);
      var last := PrisonerStep(es[|es| - 1], playerX, odd, values, pos + prev.draws).entity;
      var r := UpdateAll(es, playerX, odd, values, pos);
      assert r.entities == prev.entities + [last];
      forall i | 0 <= i < |r.entities| ensures Consistent(r.entities[i]) {
        if i < |prev.entities| {
          assert r.entities[i] == prev.entities[i];
        }
      }
    }
  }

  // ---------------------------------------------------------------------------
  // Properties of one prisoner over several updates
  // ---------------------------------------------------------------------------

  /** With the parity alternating, one update keeps the grab step in step with the parity. */
  lemma StepKeepsPace(e: Entity, playerX: int, lastOdd: bool, values: nat -> bv32, pos: nat)
    requires Processed(e) && CanUpdate(e) && Paced(e, lastOdd)
    ensures Paced(PrisonerStep(e, playerX, !lastOdd, values, pos).entity, !lastOdd)
  {
  }

  /**
   With the parity alternating, the grab step of a prisoner never exceeds 4,
   wherever the player moves from frame to frame.
   */
  lemma {:induction false} RunKeepsGrabStepBounded(e: Entity, playerXs: nat -> int, frame: nat, odd: bool, values: nat -> bv32, pos: nat, n: nat)
    requires Processed(e) && CanUpdate(e) && Paced(e, !odd)
    ensures forall k :: 0 <= k < n ==>
              Paced(Run(e, playerXs, frame, odd, values, pos, n).states[k], (k % 2 == 0) == odd)
    decreases n
  {
    if n > 0 {
      var o := PrisonerStep(e, playerXs(frame), odd, values, pos);
      StepKeepsPace(e, playerXs(frame), !odd, values, pos);
      RunKeepsGrabStepBounded(o.entity, playerXs, frame + 1, !odd, values, pos + o.draws, n - 1);
      var rest := Run(o.entity, playerXs, frame + 1, !odd, values, pos + o.draws, n - 1);
      var t := Run(e, playerXs, frame, odd, values, pos, n);
      assert t.states == [o.entity] + rest.states;
      forall k | 0 <= k < n ensures Paced(t.states[k], (k % 2 == 0) == odd) {
        if k > 0 {
          assert t.states[k] == rest.states[k - 1];
        }
      }
    }
  }

  /**
   One pass with the parity after the previous pass's keeps every prisoner of
   the store paced, provided every prisoner in it is active (an inactive one is
   skipped and falls out of step with the parity).
   */
  lemma UpdateAllKeepsPace(es: seq<Entity>, playerX: int, odd: bool, values: nat -> bv32, pos: nat)
    requires forall i :: 0 <= i < |es| ==> CanUpdate(es[i]) && Paced(es[i], !odd)
    requires forall i :: 0 <= i < |es| ==> es[i].prisoner.Some? ==> es[i].active
    ensures forall i :: 0 <= i < |es| ==> Paced(UpdateAll(es, playerX, odd, values, pos).entities[i], odd)
  {
    forall i | 0 <= i < |es| ensures Paced(UpdateAll(es, playerX, odd, values, pos).entities[i], odd) {
      UpdateAllAt(es, playerX, odd, values, pos, i);
      if es[i].prisoner.Some? {
        StepKeepsPace(es[i], playerX, !odd, values, pos + TotalDraws(es[..i], playerX));
      }
    }
  }

  /** The update that starts a grab (an odd frame) already shows overlay 1 and advances to step 1. */
  lemma GrabStartStep(e: Entity, playerX: int, values: nat -> bv32, pos: nat)
    requires Consistent(e) && Processed(e)
    requires e.prisoner.value.isAggressive && !e.prisoner.value.isGrabbing
    requires PlayerInRange(e.x, playerX) && values(pos) & GrabBit != 0
    ensures CanUpdate(e)
    ensures PrisonerStep(e, playerX, true, values, pos)
         == Outcome(e.(prisoner := Some(PrisonerState(true, true, 1)), frames := e.frames + [1],
                       invincible := false, playerDamaging := Some(GrabDamage)), 1)
  {
    ConsistentCanUpdate(e);
    assert e.frames + [1] == (e.frames + [1])[1 := 1];
  }

  /** An update of a grab in progress below step 4 shows overlay `step + 1`, draws nothing, and advances on an odd frame only. */
  lemma GrabHoldStep(e: Entity, step: nat, playerX: int, odd: bool, values: nat -> bv32, pos: nat)
    requires Consistent(e) && Processed(e) && e.prisoner.value == PrisonerState(true, true, step) && step < 4
    ensures CanUpdate(e)
    ensures PrisonerStep(e, playerX, odd, values, pos)
         == Outcome(e.(prisoner := Some(PrisonerState(true, true, step + (if odd then 1 else 0))),
                       frames := [e.frames[0], step + 1]), 0)
  {
    ConsistentCanUpdate(e);
  }

  /** An update of a grab at step 4 on an even frame ends it and leaves the step at 4. */
  lemma GrabEndStep(e: Entity, playerX: int, values: nat -> bv32, pos: nat)
    requires Consistent(e) && Processed(e) && e.prisoner.value == PrisonerState(true, true, 4)
    ensures CanUpdate(e)
    ensures PrisonerStep(e, playerX, false, values, pos)
         == Outcome(e.(prisoner := Some(PrisonerState(true, false, 4)), frames := [e.frames[0]],
                       invincible := true, playerDamaging := None), 0)
  {
    ConsistentCanUpdate(e);
  }

  /** `Run` unfolded once. */
  lemma RunStep(e: Entity, playerXs: nat -> int, frame: nat, odd: bool, values: nat -> bv32, pos: nat, n: nat)
    requires CanUpdate(e) && n > 0
    ensures var o := PrisonerStep(e, playerXs(frame), odd, values, pos);
            var rest := Run(o.entity, playerXs, frame + 1, !odd, values, pos + o.draws, n - 1);
            Run(e, playerXs, frame, odd, values, pos, n) == Trace([o.entity] + rest.states, o.draws + rest.draws)
  {
  }

  /**
   A grab that starts on an odd frame shows overlays 1,2,2,3,3,4,4 in its
   first seven updates, and the eighth update (an even frame) shows 0 and ends
   it: the overlay is removed, the prisoner is invincible and harmless again,
   and its step stays at 4. Only the first update draws an RNG value, and once
   the grab has started, where the player stands no longer matters.
   */
  lemma GrabSequence(e: Entity, playerXs: nat -> int, frame: nat, values: nat -> bv32, pos: nat)
    requires Consistent(e) && Processed(e)
    requires e.prisoner.value.isAggressive && !e.prisoner.value.isGrabbing
    requires PlayerInRange(e.x, playerXs(frame)) && values(pos) & GrabBit != 0
    ensures CanUpdate(e)
    ensures var t := Run(e, playerXs, frame, true, values, pos, 8);
            && t.draws == 1
            && (forall k :: 0 <= k < 7 ==>
                  && t.states[k].frames == e.frames + [GrabOverlays[k]]
                  && t.states[k].prisoner == Some(PrisonerState(true, true, (k + 2) / 2))
                  && !t.states[k].invincible
                  && t.states[k].playerDamaging == Some(GrabDamage))
            && t.states[7].frames == e.frames
            && t.states[7].prisoner == Some(PrisonerState(true, false, 4))
            && t.states[7].invincible
            && t.states[7].playerDamaging.None?
  {
    ConsistentCanUpdate(e);
    var p := pos + 1;
    GrabStartStep(e, playerXs(frame), values, pos);
    var s0 := PrisonerStep(e, playerXs(frame), true, values, pos).entity;
    GrabHoldStep(s0, 1, playerXs(frame + 1), false, values, p);
    var s1 := PrisonerStep(s0, playerXs(frame + 1), false, values, p).entity;
    GrabHoldStep(s1, 1, playerXs(frame + 2), true, values, p);
    var s2 := PrisonerStep(s1, playerXs(frame + 2), true, values, p).entity;
    GrabHoldStep(s2, 2, playerXs(frame + 3), false, values, p);
    var s3 := PrisonerStep(s2, playerXs(frame + 3), false, values, p).entity;
    GrabHoldStep(s3, 2, playerXs(frame + 4), true, values, p);
    var s4 := PrisonerStep(s3, playerXs(frame + 4), true, values, p).entity;
    GrabHoldStep(s4, 3, playerXs(frame + 5), false, values, p);
    var s5 := PrisonerStep(s4, playerXs(frame + 5), false, values, p).entity;
    GrabHoldStep(s5, 3, playerXs(frame + 6), true, values, p);
    var s6 := PrisonerStep(s5, playerXs(frame + 6), true, values, p).entity;
    GrabEndStep(s6, playerXs(frame + 7), values, p);
    var s7 := PrisonerStep(s6, playerXs(frame + 7), false, values, p).entity;

    RunStep(s6, playerXs, frame + 7, false, values, p, 1);
    RunStep(s5, playerXs, frame + 6, true, values, p, 2);
    RunStep(s4, playerXs, frame + 5, false, values, p, 3);
    RunStep(s3, playerXs, frame + 4, true, values, p, 4);
    RunStep(s2, playerXs, frame + 3, false, values, p, 5);
    RunStep(s1, playerXs, frame + 2, true, values, p, 6);
    RunStep(s0, playerXs, frame + 1, false, values, p, 7);
    RunStep(e, playerXs, frame, true, values, pos, 8);
    var t := Run(e, playerXs, frame, true, values, pos, 8);
    assert t.states == [s0, s1, s2, s3, s4, s5, s6, s7] && t.draws == 1;
    assert e.frames == [e.frames[0]];
    forall k | 0 <= k < 7
      ensures && t.states[k].frames == e.frames + [GrabOverlays[k]]
              && t.states[k].prisoner == Some(PrisonerState(true, true, (k + 2) / 2))
              && !t.states[k].invincible
              && t.states[k].playerDamaging == Some(GrabDamage)
    {
      if k == 0 { assert t.states[k] == s0; }
      else if k == 1 { assert t.states[k] == s1; }
      else if k == 2 { assert t.states[k] == s2; }
      else if k == 3 { assert t.states[k] == s3; }
      else if k == 4 { assert t.states[k] == s4; }
      else if k == 5 { assert t.states[k] == s5; }
      else { assert t.states[k] == s6; }
    }
  }

  /**
   The termination check comes before the increment: a prisoner that is still
   grabbing at step 4 when an odd frame comes (possible only if it missed an
   update, for instance while inactive) ends its grab and still has its step
   incremented to 5.
   */
  lemma GrabEndingOnOddFrame(e: Entity, playerX: int, values: nat -> bv32, pos: nat)
    requires Processed(e) && Consistent(e) && e.prisoner.value == PrisonerState(true, true, 4)
    ensures CanUpdate(e)
    ensures var r := PrisonerStep(e, playerX, true, values, pos).entity;
            r.prisoner == Some(PrisonerState(true, false, 5)) && r.frames == [e.frames[0]]
  {
    ConsistentCanUpdate(e);
  }

  // ---------------------------------------------------------------------------
  // Properties of a hit
  // ---------------------------------------------------------------------------

  /** A second hit is a no-op. */
  lemma HitIdempotent(e: Entity)
    requires Grabbing(e) ==> |e.frames| >= 1
    ensures Hit(Hit(e)) == Hit(e)
  {
  }

  /** A hit on a consistent prisoner leaves only the base frames and no `PlayerDamaging`, and a dead prisoner is never visited again. */
  lemma HitOnConsistent(e: Entity)
    requires Consistent(e)
    ensures Consistent(Hit(e))
    ensures e.prisoner.Some? ==> |Hit(e).frames| == BaseFrameCount && Hit(e).playerDamaging.None?
    ensures !Processed(Hit(e)) || Hit(e) == e
  {
  }

  // ---------------------------------------------------------------------------
  // The imperative system
  // ---------------------------------------------------------------------------

  /** The game's random number generator, seen as a stream of values read in order. */
  class RandomNumberGenerator {
    const values: nat -> bv32
    var position: nat

    constructor (values: nat -> bv32)
      ensures this.values == values && position == 0
    {
      this.values := values;
      position := 0;
    }

    /** `gen()`: the next value of the stream. */
    method Gen() returns (v: bv32)
      modifies this
      ensures v == values(old(position)) && position == old(position) + 1
    {
      v := values(position);
      position := position + 1;
    }
  }

  /** `PrisonerSystem`: its own state is the frame parity. */
  class PrisonerSystem {
    var isOddFrame: bool
    const random: RandomNumberGenerator

    constructor (random: RandomNumberGenerator)
      ensures this.random == random && !isOddFrame
    {
      this.random := random;
      isOddFrame := false;
    }

    /**
     `update`: flip the parity once, then visit every active prisoner of the
     store in order, all with the new parity.
     */
    method Update(es: array<Entity>, playerX: int)
      requires forall i :: 0 <= i < es.Length ==> CanUpdate(es[i])
      modifies this, es, random
      ensures isOddFrame == !old(isOddFrame)
      ensures es[..] == UpdateAll(old(es[..]), playerX, isOddFrame, random.values, old(random.position)).entities
      ensures random.position
           == old(random.position) + UpdateAll(old(es[..]), playerX, isOddFrame, random.values, old(random.position)).draws
    {
      isOddFrame := !isOddFrame;
      ghost var before := es[..];
      ghost var start := random.position;
      ghost var pass := Pass([], 0);
      var i := 0;
      while i < es.Length
        invariant 0 <= i <= es.Length
        invariant isOddFrame == !old(isOddFrame)
        invariant forall k :: i <= k < es.Length ==> es[k] == before[k]
        invariant pass == UpdateAll(before[..i], playerX, isOddFrame, random.values, start)
        invariant |pass.entities| == i && random.position == start + pass.draws
        invariant forall k :: 0 <= k < i ==> es[k] == pass.entities[k]
      {
        UpdateAllExtend(before, i, playerX, isOddFrame, random.values, start, pass);
        assert es[i] == before[i];
        ghost var o := PrisonerStep(before[i], playerX, isOddFrame, random.values, start + pass.draws);
        VisitPrisoner(es, i, playerX);
        pass := Pass(pass.entities + [o.entity], pass.draws + o.draws);
        i := i + 1;
      }
      assert before[..es.Length] == before;
      assert es[..] == pass.entities;
    }

    /** The body of the query loop of `update`, for the entity at index `i` of the store. */
    method VisitPrisoner(es: array<Entity>, i: nat, playerX: int)
      requires i < es.Length && CanUpdate(es[i])
      modifies es, random
      ensures es[i] == PrisonerStep(old(es[i]), playerX, isOddFrame, random.values, old(random.position)).entity
      ensures forall k :: 0 <= k < es.Length && k != i ==> es[k] == old(es[k])
      ensures random.position
           == old(random.position) + PrisonerStep(old(es[i]), playerX, isOddFrame, random.values, old(random.position)).draws
    {
      var e := es[i];
      if e.active && e.prisoner.Some? {
        if e.prisoner.value.isAggressive {
          UpdateAggressivePrisoner(es, i, playerX);
        } else {
          UpdatePassivePrisoner(es, i);
        }
      }
    }

    /** A non-aggressive prisoner at index `i` of the store shakes its bars or stays idle. */
    method UpdatePassivePrisoner(es: array<Entity>, i: nat)
      requires i < es.Length && Processed(es[i]) && !es[i].prisoner.value.isAggressive && CanUpdate(es[i])
      modifies es, random
      ensures es[i] == old(es[i]).(frames := old(es[i]).frames[0 := IdleFrame(random.values(old(random.position)))])
      ensures forall k :: 0 <= k < es.Length && k != i ==> es[k] == old(es[k])
      ensures random.position == old(random.position) + 1
    {
      var shakeIronBars := random.Gen();
      es[i] := es[i].(frames := es[i].frames[0 := IdleFrame(shakeIronBars)]);
    }

    /** `updateAggressivePrisoner`, for the prisoner at index `i` of the store. */
    method UpdateAggressivePrisoner(es: array<Entity>, i: nat, playerX: int)
      requires i < es.Length && Processed(es[i]) && es[i].prisoner.value.isAggressive && CanUpdate(es[i])
      modifies es, random
      ensures es[i] == AggressiveStep(old(es[i]), playerX, isOddFrame, random.values, old(random.position)).entity
      ensures forall k :: 0 <= k < es.Length && k != i ==> es[k] == old(es[k])
      ensures random.position
           == old(random.position) + AggressiveStep(old(es[i]), playerX, isOddFrame, random.values, old(random.position)).draws
    {
      var st := es[i].prisoner.value;

      if !st.isGrabbing {
        var playerInRange := es[i].x - 4 < playerX && es[i].x + 7 > playerX;
        if playerInRange {
          var v := random.Gen();
          var wantsToGrab := v & GrabBit != 0 && isOddFrame;
          if wantsToGrab {
            st := st.(isGrabbing := true, grabStep := 0);
            es[i] := es[i].(prisoner := Some(st), frames := es[i].frames + [1]);
            es[i] := es[i].(invincible := false);
            es[i] := es[i].(playerDamaging := Some(GrabDamage));
          }
        }
      }

      // A grab that just started is updated in the same call
      if st.isGrabbing {
        es[i] := es[i].(frames := es[i].frames[1 := (st.grabStep + 1) % 5]);

        if st.grabStep >= 4 {
          st := st.(isGrabbing := false);
          es[i] := es[i].(prisoner := Some(st));
          es[i] := es[i].(frames := es[i].frames[..|es[i].frames| - 1]);
          es[i] := es[i].(invincible := true);
          es[i] := es[i].(playerDamaging := None);
        }

        // The increment comes after the termination check
        if isOddFrame {
          st := st.(grabStep := st.grabStep + 1);
          es[i] := es[i].(prisoner := Some(st));
        }
      }
    }

    /** `onEntityHit`, for the entity at index `i` of the store. */
    method OnEntityHit(es: array<Entity>, i: nat)
      requires i < es.Length && (Grabbing(es[i]) ==> |es[i].frames| >= 1)
      modifies es
      ensures es[..] == old(es[..])[i := Hit(old(es[i]))]
    {
      if es[i].prisoner.None? {
        return;
      }

      if es[i].prisoner.value.isGrabbing {
        es[i] := es[i].(frames := es[i].frames[..|es[i].frames| - 1]);
        es[i] := es[i].(playerDamaging := None);
      }

      es[i] := es[i].(animationSequence := Some(DeathSequence));
      es[i] := es[i].(autoDestroyAfter := Some(DeathFramesToLive));
      es[i] := es[i].(prisoner := None);
    }
  }
}
