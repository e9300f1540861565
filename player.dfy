/**
 The player's state vocabulary of RigelEngine (src/game_logic/player.hpp):
 the per-state records with their initial counters, the `Dieing` and
 `PlayerState` variants, the visual states that double as animation-frame
 indices, and the set of spiders clinging to the player.
 */
module Player {
  import opened Optional

  /** `std::uint16_t`. */
  newtype uint16 = x: int | 0 <= x < 0x1_0000

  datatype WeaponStance = Regular | RegularCrouched | Upwards | Downwards

  // ---------------------------------------------------------------------------
  // State records and their constructors
  // ---------------------------------------------------------------------------

  /** `Jumping`: frames since the jump began, and whether it began on a ladder. */
  datatype JumpingState = JumpingState(framesElapsed: uint16, jumpedFromLadder: bool)

  /** `Falling`. */
  datatype FallingState = FallingState(framesElapsed: int)

  /** `Interacting`: how long the interaction lasts, and how much of it has passed. */
  datatype InteractingState = InteractingState(duration: int, framesElapsed: int)

  /** `Incapacitated`: how many more frames the player stays visible. */
  datatype IncapacitatedState = IncapacitatedState(visibleFramesRemaining: int)

  /** `Dieing`: the sub-states of the death animation, in the order they are played. */
  datatype Dieing =
    | FlyingUp(framesElapsed: int)
    | FallingDown
    | Exploding(framesElapsed: int)
    | Finished

  /** `PlayerState`: exactly one of ten alternatives, in declaration order. */
  datatype PlayerState =
    | OnGround
    | Jumping(jumping: JumpingState)
    | Falling(falling: FallingState)
    | PushedByFan
    | RecoveringFromLanding
    | ClimbingLadder
    | OnPipe
    | Interacting(interacting: InteractingState)
    | Incapacitated(incapacitated: IncapacitatedState)
    | Dieing(dieing: Dieing)

  /** `Jumping()`: a jump that did not start on a ladder, at frame 0. */
  function NewJumping(): (j: JumpingState)
    ensures j.framesElapsed == 0 && !j.jumpedFromLadder
  {
    JumpingState(0, false)
  }

  /** `Jumping(FromLadder{})`: a jump from a ladder, at frame 0. */
  function NewJumpingFromLadder(): (j: JumpingState)
    ensures j.framesElapsed == 0 && j.jumpedFromLadder
    ensures j != NewJumping() && j == NewJumping().(jumpedFromLadder := true)
  {
    JumpingState(0, true)
  }

  /** `Falling{}`. */
  function NewFalling(): (f: FallingState)
    ensures f.framesElapsed == 0
  {
    FallingState(0)
  }

  /** `Interacting(duration)`. */
  function NewInteracting(duration: int): (s: InteractingState)
    ensures s.duration == duration && s.framesElapsed == 0
  {
    InteractingState(duration, 0)
  }

  /** `death_animation::FlyingUp{}`. */
  function NewFlyingUp(): (d: Dieing)
    ensures d.FlyingUp? && d.framesElapsed == 0
  {
    FlyingUp(0)
  }

  /** `death_animation::Exploding{}`. */
  function NewExploding(): (d: Dieing)
    ensures d.Exploding? && d.framesElapsed == 0
  {
    Exploding(0)
  }

  /** `Dieing::index()`: the position of the sub-state in the variant. */
  function DieingIndex(d: Dieing): (i: nat)
    ensures i < 4
    ensures (i == 0 <==> d.FlyingUp?) && (i == 1 <==> d.FallingDown?)
    ensures (i == 2 <==> d.Exploding?) && (i == 3 <==> d.Finished?)
  {
    match d
    case FlyingUp(_) => 0
    case FallingDown => 1
    case Exploding(_) => 2
    case Finished => 3
  }

  // ---------------------------------------------------------------------------
  // Which alternative a state holds
  // ---------------------------------------------------------------------------

  /** The ten alternative types of `PlayerState`, as the type argument of `stateIs<T>`. */
  datatype StateKind =
    | OnGroundKind | JumpingKind | FallingKind | PushedByFanKind | RecoveringFromLandingKind
    | ClimbingLadderKind | OnPipeKind | InteractingKind | IncapacitatedKind | DieingKind

  /** The alternative types in declaration order. */
  const AllKinds: seq<StateKind> := [
    OnGroundKind, JumpingKind, FallingKind, PushedByFanKind, RecoveringFromLandingKind,
    ClimbingLadderKind, OnPipeKind, InteractingKind, IncapacitatedKind, DieingKind]

  /** The alternative `s` holds. */
  function KindOf(s: PlayerState): (k: StateKind)
    ensures (k == OnGroundKind <==> s.OnGround?) && (k == JumpingKind <==> s.Jumping?)
    ensures (k == FallingKind <==> s.Falling?) && (k == PushedByFanKind <==> s.PushedByFan?)
    ensures (k == RecoveringFromLandingKind <==> s.RecoveringFromLanding?)
    ensures (k == ClimbingLadderKind <==> s.ClimbingLadder?) && (k == OnPipeKind <==> s.OnPipe?)
    ensures (k == InteractingKind <==> s.Interacting?) && (k == IncapacitatedKind <==> s.Incapacitated?)
    ensures k == DieingKind <==> s.Dieing?
  {
    match s
    case OnGround => OnGroundKind
    case Jumping(_) => JumpingKind
    case Falling(_) => FallingKind
    case PushedByFan => PushedByFanKind
    case RecoveringFromLanding => RecoveringFromLandingKind
    case ClimbingLadder => ClimbingLadderKind
    case OnPipe => OnPipeKind
    case Interacting(_) => InteractingKind
    case Incapacitated(_) => IncapacitatedKind
    case Dieing(_) => DieingKind
  }

  /** `PlayerState::index()`. */
  function StateIndex(s: PlayerState): (i: nat)
    ensures i < |AllKinds| && AllKinds[i] == KindOf(s)
  {
    match s
    case OnGround => 0
    case Jumping(_) => 1
    case Falling(_) => 2
    case PushedByFan => 3
    case RecoveringFromLanding => 4
    case ClimbingLadder => 5
    case OnPipe => 6
    case Interacting(_) => 7
    case Incapacitated(_) => 8
    case Dieing(_) => 9
  }

  /** `std::holds_alternative<T>(state)`: true for the state's own alternative and no other. */
  predicate HoldsAlternative(s: PlayerState, k: StateKind): (r: bool)
    ensures r <==> k == KindOf(s)
  {
    match k
    case OnGroundKind => s.OnGround?
    case JumpingKind => s.Jumping?
    case FallingKind => s.Falling?
    case PushedByFanKind => s.PushedByFan?
    case RecoveringFromLandingKind => s.RecoveringFromLanding?
    case ClimbingLadderKind => s.ClimbingLadder?
    case OnPipeKind => s.OnPipe?
    case InteractingKind => s.Interacting?
    case IncapacitatedKind => s.Incapacitated?
    case DieingKind => s.Dieing?
  }

  /** The ten alternative types are distinct, so the variant has ten alternatives. */
  lemma AllKindsDistinct()
    ensures |AllKinds| == 10
    ensures forall i, j :: 0 <= i < j < |AllKinds| ==> AllKinds[i] != AllKinds[j]
  {
  }

  /** A state holds exactly one alternative: the one at its variant index. */
  lemma ExactlyOneAlternative(s: PlayerState)
    ensures forall i :: 0 <= i < |AllKinds| ==> (HoldsAlternative(s, AllKinds[i]) <==> i == StateIndex(s))
  {
    forall i | 0 <= i < |AllKinds|
      ensures HoldsAlternative(s, AllKinds[i]) <==> i == StateIndex(s)
    {
      AllKindsDistinct();
    }
  }

  // ---------------------------------------------------------------------------
  // Visual states
  // ---------------------------------------------------------------------------

  datatype VisualState =
    | Standing | Walking | LookingUp | Crouching | HangingFromPipe | MovingOnPipe
    | AimingDownOnPipe | PullingLegsUpOnPipe | CoilingForJumpOrLanding | Jumping | DoingSalto
    | Falling | FallingFullSpeed | Interacting | ClimbingLadder | UsingJetpack | Dieing | Dead

  /** The numeric value of a visual state: the first animation frame of its cycle. */
  function FrameIndex(v: VisualState): (n: nat)
    ensures n <= 37
  {
    match v
    case Standing => 0
    case Walking => 1
    case LookingUp => 16
    case Crouching => 17
    case HangingFromPipe => 20
    case MovingOnPipe => 21
    case AimingDownOnPipe => 25
    case PullingLegsUpOnPipe => 28
    case CoilingForJumpOrLanding => 5
    case Jumping => 6
    case DoingSalto => 9
    case Falling => 7
    case FallingFullSpeed => 8
    case Interacting => 33
    case ClimbingLadder => 35
    case UsingJetpack => 37
    case Dieing => 29
    case Dead => 32
  }

  /** The visual state whose first animation frame is `n`, if any. */
  function VisualStateAt(n: int): (r: Option<VisualState>)
    ensures r.Some? ==> FrameIndex(r.value) == n
  {
    match n
    case 0 => Some(VisualState.Standing)
    case 1 => Some(VisualState.Walking)
    case 16 => Some(VisualState.LookingUp)
    case 17 => Some(VisualState.Crouching)
    case 20 => Some(VisualState.HangingFromPipe)
    case 21 => Some(VisualState.MovingOnPipe)
    case 25 => Some(VisualState.AimingDownOnPipe)
    case 28 => Some(VisualState.PullingLegsUpOnPipe)
    case 5 => Some(VisualState.CoilingForJumpOrLanding)
    case 6 => Some(VisualState.Jumping)
    case 9 => Some(VisualState.DoingSalto)
    case 7 => Some(VisualState.Falling)
    case 8 => Some(VisualState.FallingFullSpeed)
    case 33 => Some(VisualState.Interacting)
    case 35 => Some(VisualState.ClimbingLadder)
    case 37 => Some(VisualState.UsingJetpack)
    case 29 => Some(VisualState.Dieing)
    case 32 => Some(VisualState.Dead)
    case _ => None
  }

  /** Every visual state is found again from its frame index, so no two share one. */
  lemma FrameIndexRoundTrip(v: VisualState)
    ensures VisualStateAt(FrameIndex(v)) == Some(v)
  {
  }

  lemma FrameIndexInjective(v: VisualState, w: VisualState)
    ensures FrameIndex(v) == FrameIndex(w) ==> v == w
  {
    FrameIndexRoundTrip(v);
    FrameIndexRoundTrip(w);
  }

  // ---------------------------------------------------------------------------
  // Spiders clinging to the player
  // ---------------------------------------------------------------------------

  datatype SpiderClingPosition = Head | Weapon | Back

  /** The bit of `std::bitset<3>` that stands for a position. */
  function BitIndex(p: SpiderClingPosition): (i: nat)
    ensures i < 3
  {
    match p
    case Head => 0
    case Weapon => 1
    case Back => 2
  }

  /** Distinct positions use distinct bits. */
  lemma BitIndexInjective(p: SpiderClingPosition, q: SpiderClingPosition)
    ensures BitIndex(p) == BitIndex(q) ==> p == q
  {
  }

  /** `bitset::test`. */
  function HasSpider(bits: bv3, p: SpiderClingPosition): (r: bool)
    ensures r <==> (bits >> BitIndex(p)) & 1 == 1
  {
    bits & (1 << BitIndex(p)) != 0
  }

  /** `bitset::set`. */
  function WithSpider(bits: bv3, p: SpiderClingPosition): (r: bv3)
    ensures HasSpider(r, p)
    ensures forall q :: q != p ==> HasSpider(r, q) == HasSpider(bits, q)
  {
    bits | (1 << BitIndex(p))
  }

  /** `bitset::reset`. */
  function WithoutSpider(bits: bv3, p: SpiderClingPosition): (r: bv3)
    ensures !HasSpider(r, p)
    ensures forall q :: q != p ==> HasSpider(r, q) == HasSpider(bits, q)
  {
    bits & !(1 << BitIndex(p))
  }

  /** Two spider sets that agree on every position are equal: the three bits are all there is. */
  lemma SpiderSetExtensional(a: bv3, b: bv3)
    requires forall p :: HasSpider(a, p) == HasSpider(b, p)
    ensures a == b
  {
    assert HasSpider(a, Head) == HasSpider(b, Head);
    assert HasSpider(a, Weapon) == HasSpider(b, Weapon);
    assert HasSpider(a, Back) == HasSpider(b, Back);
  }

  lemma AttachIdempotent(bits: bv3, p: SpiderClingPosition)
    ensures WithSpider(WithSpider(bits, p), p) == WithSpider(bits, p)
  {
    SpiderSetExtensional(WithSpider(WithSpider(bits, p), p), WithSpider(bits, p));
  }

  /** Attaching a spider to a free position and detaching it again restores the set. */
  lemma AttachDetachRestores(bits: bv3, p: SpiderClingPosition)
    requires !HasSpider(bits, p)
    ensures WithoutSpider(WithSpider(bits, p), p) == bits
  {
    SpiderSetExtensional(WithoutSpider(WithSpider(bits, p), p), bits);
  }

  // ---------------------------------------------------------------------------
  // The player object
  // ---------------------------------------------------------------------------

  /** The part of `Player` that its header defines: the state variant and the spider set. */
  class Player {
    var state: PlayerState
    var visualState: VisualState
    var stance: WeaponStance
    var attachedSpiders: bv3

    /** The in-class initialisers: default state, standing, regular stance, no spiders. */
    constructor ()
      ensures state == OnGround && visualState == VisualState.Standing && stance == Regular
      ensures forall p :: !HasSpiderAt(p)
    {
      state := OnGround;
      visualState := VisualState.Standing;
      stance := Regular;
      attachedSpiders := 0;
    }

    /** `stateIs<T>()`: true for exactly the alternative at the state's variant index. */
    predicate StateIs(k: StateKind): (r: bool)
      reads this
      ensures r <==> AllKinds[StateIndex(state)] == k
    {
      HoldsAlternative(state, k)
    }

    /** `hasSpiderAt`: the bit of the position is set. */
    predicate HasSpiderAt(p: SpiderClingPosition): (r: bool)
      reads this
      ensures r <==> (attachedSpiders >> BitIndex(p)) & 1 == 1
    {
      HasSpider(attachedSpiders, p)
    }

    /** `attachSpider`. */
    method AttachSpider(p: SpiderClingPosition)
      modifies this
      ensures attachedSpiders == WithSpider(old(attachedSpiders), p)
      ensures HasSpiderAt(p) && forall q :: q != p ==> HasSpiderAt(q) == old(HasSpiderAt(q))
      ensures state == old(state) && visualState == old(visualState) && stance == old(stance)
    {
      attachedSpiders := WithSpider(attachedSpiders, p);
    }

    /** `detachSpider`. */
    method DetachSpider(p: SpiderClingPosition)
      modifies this
      ensures attachedSpiders == WithoutSpider(old(attachedSpiders), p)
      ensures !HasSpiderAt(p) && forall q :: q != p ==> HasSpiderAt(q) == old(HasSpiderAt(q))
      ensures state == old(state) && visualState == old(visualState) && stance == old(stance)
    {
      attachedSpiders := WithoutSpider(attachedSpiders, p);
    }
  }
}
