# Prisoner AI and player vocabulary of RigelEngine, in Dafny

RigelEngine re-implements Duke Nukem II. This project models two parts of it.

**The prisoner system** (`prisoner.dfy`, module `Prisoner`). Prisoners sit
behind iron bars. Once per game frame the system flips its odd/even frame
parity and visits every active entity that carries a `Prisoner` component,
in store order:

- a non-aggressive prisoner draws one random number and shows frame 1
  ("shaking the bars") when bit `0x4` of it is set, frame 0 otherwise;
- an aggressive prisoner that is not grabbing checks whether the player is
  in the strict window `x - 4 < playerX < x + 7`; only then does it draw one
  random number, and it starts a grab when bit `0x10` is set and the frame is
  odd: the grab overlay frame is appended to its sprite, it becomes
  vulnerable and it damages the player by 1;
- in the same call, a grabbing prisoner shows overlay `(step + 1) % 5` in
  sprite slot 1, ends the grab when its step has reached 4 (overlay popped,
  invincible again, no longer damaging), and afterwards, on odd frames only,
  increments its step.

When a prisoner is shot, `onEntityHit` releases a grab in progress, starts
the death animation `5, 5, 6, 7`, schedules the entity's destruction after 6
frames and removes the `Prisoner` component, so a second hit does nothing.

The entity store is an `array<Entity>` that `PrisonerSystem.Update` changes
in place. Each entity is a record of the components the system reads or
writes. The random number generator is a class whose `Gen` hands out the
values of a stream in order. Every imperative method is proved against a
pure specification function: `Update` against `UpdateAll` for one pass,
`VisitPrisoner` against `PrisonerStep` for one entity,
`UpdateAggressivePrisoner` against `AggressiveStep`, `UpdatePassivePrisoner`
against `IdleFrame`, and `OnEntityHit` against `Hit`; in `player.dfy`,
`AttachSpider` and `DetachSpider` are proved against `WithSpider` and
`WithoutSpider`. The lemmas about those functions carry the properties: how many
random numbers a pass draws, that every prisoner of the store stays
consistent and in step with the frame parity, and what a hit does.
Consecutive frames are described by `Run`, which follows one prisoner alone:
it stays active throughout and is the only user of the random number
generator. Over such a run, a grab started on an odd frame shows overlays
1, 2, 2, 3, 3, 4, 4 and ends on its eighth update, and the grab step never
exceeds 4.

**The player vocabulary** (`player.dfy`, module `Player`). This covers the
state records with their initial counters and the `Dieing` and
`PlayerState` variants. It also covers the `VisualState` enumeration, whose
values are animation-frame indices, and the three spider cling positions
kept as a 3-bit set. The `Player` class holds the state, visual state,
stance and spider set; the header's other fields are listed under
"Left out".

`option.dfy` (module `Optional`) holds the `Option` type used for optional
components.

Two consequences of the code's ordering are worth stating on their own:

- The end-of-grab check comes before the odd-frame increment
  (src/game_logic/ai/prisoner.cpp:115-127). A grab that ends on an odd frame
  therefore leaves the step at 5 (`GrabEndingOnOddFrame`).
- A grab that starts on an odd frame shows overlays 1, 2, 2, 3, 3, 4, 4 over
  seven updates and ends on its eighth update (`GrabSequence`).

## Model

| member | source | states |
|---|---|---|
| Prisoner.PlayerInRange | src/game_logic/ai/prisoner.cpp:93-95 | the strict range test holds exactly when the player is between 3 units behind and 6 units ahead of the prisoner |
| Prisoner.IdleFrame | src/game_logic/ai/prisoner.cpp:71-73 | a non-aggressive prisoner's frame 0 is 0 or 1, and it is 1 exactly when bit 0x4 of the drawn value is set |
| Prisoner.Draws | src/game_logic/ai/prisoner.cpp:60-75 | one update draws at most one value, and exactly one when the entity is an active prisoner that is either non-aggressive or aggressive, not grabbing and with the player in range |
| Prisoner.AggressiveStep | src/game_logic/ai/prisoner.cpp:79-129 | a grab starts exactly when the player is in range, the grab bit is set and the frame is odd; a new grab appends overlay 1, is vulnerable, damaging and at step 1, and nothing else changes; a prisoner that does not grab is unchanged; a grab in progress goes through the grab-progress block alone, without a draw |
| Prisoner.ProgressGrab | src/game_logic/ai/prisoner.cpp:112-127 | a grab at step 4 or more shows (step + 1) % 5 in slot 1, pops its last frame, is invincible and not damaging, and the step is still incremented on odd frames; otherwise slot 1 shows step + 1 and the step advances on odd frames only; in every case all other fields keep their values, and a prisoner that is not grabbing is left alone |
| Prisoner.PrisonerStep | src/game_logic/ai/prisoner.cpp:60-75 | one visit draws `Draws` values, leaves entities outside the query unchanged, never moves, deactivates or untags a prisoner nor changes its aggression, and a non-aggressive prisoner changes only frame 0 |
| Prisoner.UpdateAll | src/game_logic/ai/prisoner.cpp:60-75 | a pass yields one entity per entity of the store |
| Prisoner.TotalDraws | src/game_logic/ai/prisoner.cpp:60-75 | a pass draws at most one value per entity |
| Prisoner.Run | src/game_logic/ai/prisoner.cpp:58-92 | n consecutive updates of one prisoner followed alone (always active, the only user of the generator) with alternating parity, each seeing the player where it stands on that frame, yield n states |
| Prisoner.UpdateAllDraws | src/game_logic/ai/prisoner.cpp:60-75 | the values a pass draws are exactly the sum of what each entity needs, independent of the values and of the parity |
| Prisoner.UpdateAllAt | src/game_logic/ai/prisoner.cpp:60-75 | entity i after a pass is its own one-entity update, with the generator advanced by the draws of the entities before it |
| Prisoner.UpdateAllExtend | src/game_logic/ai/prisoner.cpp:60-75 | a pass over one more entity is the pass so far followed by that entity's update |
| Prisoner.StepPreservesConsistency | src/game_logic/ai/prisoner.cpp:100-127 | one update keeps the invariant: grabbing exactly when the overlay frame is present and exactly when damaging, grabbing only when aggressive and vulnerable, step within bounds |
| Prisoner.UpdateAllPreservesConsistency | src/game_logic/ai/prisoner.cpp:60-75 | a whole pass keeps that invariant for every entity of the store |
| Prisoner.UpdateAllKeepsPace | src/game_logic/ai/prisoner.cpp:58-75 | a pass whose parity alternates with the previous one keeps every prisoner of the store in step with the parity, so its grab step stays within 1 to 4, provided every prisoner is active |
| Prisoner.StepKeepsPace | src/game_logic/ai/prisoner.cpp:115-127 | with parity alternating, a grab that was at most at step 3 after an even frame stays within steps 1 to 4 |
| Prisoner.RunKeepsGrabStepBounded | src/game_logic/ai/prisoner.cpp:115-127 | over any run of one active prisoner with alternating parity and any player movement, its grab step never exceeds 4 |
| Prisoner.GrabStartStep | src/game_logic/ai/prisoner.cpp:97-113 | the update that starts a grab appends overlay 1, clears invincibility, adds damage 1 and leaves the step at 1 |
| Prisoner.GrabHoldStep | src/game_logic/ai/prisoner.cpp:112-127 | a grab at step 1 to 3 shows step + 1 and advances on odd frames only |
| Prisoner.GrabEndStep | src/game_logic/ai/prisoner.cpp:115-120 | a grab at step 4 on an even frame ends: overlay popped, invincible, no damage, step stays 4 |
| Prisoner.GrabSequence | src/game_logic/ai/prisoner.cpp:97-127 | a grab started on an odd frame, wherever the player then moves, draws one value and shows overlays 1, 2, 2, 3, 3, 4, 4 on seven updates while damaging and vulnerable, then the eighth update ends it at step 4 |
| Prisoner.GrabEndingOnOddFrame | src/game_logic/ai/prisoner.cpp:115-127 | a grab at step 4 that is updated on an odd frame ends and its step reaches 5 |
| Prisoner.Hit | src/game_logic/ai/prisoner.cpp:132-150 | a hit prisoner loses its last frame and its damage if it was grabbing, gets death sequence 5, 5, 6, 7, destruction after 6 frames and loses its Prisoner component, and nothing else changes; any other entity is untouched |
| Prisoner.HitIdempotent | src/game_logic/ai/prisoner.cpp:135-137 | a second hit changes nothing |
| Prisoner.HitOnConsistent | src/game_logic/ai/prisoner.cpp:142-145 | a consistent prisoner that is hit is left with its base frame only and does not damage the player |
| Prisoner.RandomNumberGenerator.Gen | src/game_logic/ai/prisoner.cpp:71 | returns the next value of the stream and advances by one |
| Prisoner.PrisonerSystem.constructor | src/game_logic/ai/prisoner.cpp:41-48 | keeps the given generator and starts on an even frame |
| Prisoner.PrisonerSystem.Update | src/game_logic/ai/prisoner.cpp:51-76 | flips the parity once, leaves the store equal to `UpdateAll` of the old store with the new parity, and advances the generator by exactly that pass's draws |
| Prisoner.PrisonerSystem.VisitPrisoner | src/game_logic/ai/prisoner.cpp:60-75 | entity i becomes its `PrisonerStep`, every other entity is unchanged, the generator advances by its draws |
| Prisoner.PrisonerSystem.UpdatePassivePrisoner | src/game_logic/ai/prisoner.cpp:70-74 | draws one value and sets only frame 0 to the idle or shaking frame |
| Prisoner.PrisonerSystem.UpdateAggressivePrisoner | src/game_logic/ai/prisoner.cpp:79-129 | entity i becomes its `AggressiveStep`, every other entity is unchanged, the generator advances by its draws |
| Prisoner.PrisonerSystem.OnEntityHit | src/game_logic/ai/prisoner.cpp:132-150 | entity i becomes its `Hit` image and no other entity changes |
| Player.NewJumping | src/game_logic/player.hpp:61-72 | a default jump has elapsed 0 frames and did not start from a ladder |
| Player.NewJumpingFromLadder | src/game_logic/player.hpp:65-68 | a ladder jump has elapsed 0 frames, is flagged as from a ladder, and differs from a default jump only in that flag |
| Player.NewFalling | src/game_logic/player.hpp:74-76 | a fall starts with 0 elapsed frames |
| Player.NewInteracting | src/game_logic/player.hpp:86-94 | an interaction keeps the given duration and starts with 0 elapsed frames |
| Player.NewFlyingUp | src/game_logic/player.hpp:104-108 | the first death phase starts with 0 elapsed frames |
| Player.NewExploding | src/game_logic/player.hpp:112-114 | the explosion phase starts with 0 elapsed frames |
| Player.DieingIndex | src/game_logic/player.hpp:121-125 | the four death phases have the alternative indices 0 to 3 in declaration order |
| Player.KindOf | src/game_logic/player.hpp:128-138 | each player state belongs to exactly the alternative it was built with |
| Player.StateIndex | src/game_logic/player.hpp:128-138 | a state's alternative index is below ten and names its alternative in declaration order |
| Player.HoldsAlternative | src/game_logic/player.hpp:226 | a state holds its own alternative and no other |
| Player.AllKindsDistinct | src/game_logic/player.hpp:128-138 | the ten alternatives are pairwise distinct |
| Player.ExactlyOneAlternative | src/game_logic/player.hpp:128-138 | every player state holds one alternative and no other |
| Player.FrameIndex | src/game_logic/player.hpp:141-163 | each visual state maps to its declared animation frame, at most 37 |
| Player.VisualStateAt | src/game_logic/player.hpp:141-163 | the frame-to-state lookup only returns a state whose frame is the one asked for |
| Player.FrameIndexRoundTrip | src/game_logic/player.hpp:141-163 | looking up a visual state's frame gives back that state |
| Player.FrameIndexInjective | src/game_logic/player.hpp:141-163 | distinct visual states have distinct frame values |
| Player.BitIndex | src/game_logic/player.hpp:169-173 | each cling position has a bit index below 3 |
| Player.BitIndexInjective | src/game_logic/player.hpp:169-173 | distinct cling positions use distinct bits |
| Player.HasSpider | src/game_logic/player.hpp:237-239 | a position is occupied exactly when its bit is set |
| Player.WithSpider | src/game_logic/player.hpp:241-243 | attaching sets the position's bit and leaves the others unchanged |
| Player.WithoutSpider | src/game_logic/player.hpp:245-247 | detaching clears the position's bit and leaves the others unchanged |
| Player.AttachIdempotent | src/game_logic/player.hpp:241-243 | attaching twice is the same as attaching once |
| Player.AttachDetachRestores | src/game_logic/player.hpp:241-247 | attaching to a free position and then detaching restores the set |
| Player.Player.constructor | src/game_logic/player.hpp:291-307 | a new player is on the ground, standing, in regular stance, with no spider attached |
| Player.Player.StateIs | src/game_logic/player.hpp:224-227 | true exactly for the alternative at the current state's variant index |
| Player.Player.HasSpiderAt | src/game_logic/player.hpp:237-239 | true exactly when the position's bit of the spider set is set |
| Player.Player.AttachSpider | src/game_logic/player.hpp:241-243 | the position becomes occupied, the other positions and all other fields are unchanged |
| Player.Player.DetachSpider | src/game_logic/player.hpp:245-247 | the position becomes free, the other positions and all other fields are unchanged |

## Left out

- The entity-component framework: queries, component assignment and removal are modelled as setting and clearing fields of an entity record. `Sprite`, `WorldPosition` and `Shootable` are assumed present on every prisoner.
- The random number generator's algorithm: it is modelled as an arbitrary stream of 32-bit values read in order.
- The effects of `startAnimationSequence` and `AutoDestroy`: only the values handed to them are recorded.
- The player's position: `Update` takes the player's x coordinate as a parameter, and `Run` takes one position per game frame. The orientation adjustment is marked TODO in the source and is not modelled.
- The event manager and the time delta of `update`: both are unused.
- The initial value of the frame parity is declared in prisoner.hpp, which is not part of this model. The constructor is assumed to start on an even frame.
- Integer widths of positions, frame indices and the grab step are unbounded here. Only `Jumping`'s frame counter is a 16-bit value.
- Prisoner.Run: follows one prisoner alone. It assumes that prisoner stays active and is the only user of the random number generator. Store-level pacing over one pass is `UpdateAllKeepsPace`. An inactive prisoner is skipped, so it can fall out of step with the parity; a grab that then ends on an odd frame reaches step 5 (`GrabEndingOnOddFrame`).
- Prisoner.PrisonerSystem.Update: requires every visited prisoner to have frame 0, plus the overlay slot while it grabs. The source indexes these without checking.
- Prisoner.PrisonerSystem.OnEntityHit: requires a grabbing prisoner's sprite to have a frame to pop. The source pops without checking.
- The behaviour of `Player` defined in player.cpp (movement, jumping, death animation, update loop, constructor arguments) is not part of this model. Only the declarations and inline members of player.hpp are modelled.
- The `Player` fields `mFramesElapsedHavingRapidFire`, `mFramesElapsedHavingCloak`, `mRapidFiredLastFrame`, `mIsOddFrame`, `mRecoilAnimationActive` and `mIsRidingElevator` (player.hpp:305-311) are not modelled: only the player.cpp behaviour left out above reads or writes them. The same holds for the player's entity handle `mEntity` and the elevator handle `mAttachedElevator` (player.hpp:292-293), the mercy-frame counters, the hit box and the pointers to other services.
