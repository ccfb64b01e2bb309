/**
 * The easing table of src/utils/easings.ts: functions from a progress value to an eased
 * progress value. The table has no `easeOutBounce` member, although the frame evaluator
 * asks for one; `Lookup` makes that absence explicit.
 */
module Easings {
  import opened Wrappers
  import opened MathModel

  /** `linear`: the identity, so it keeps a progress value at both ends and inside [0, 1]. */
  function Linear(t: real): (r: real)
    ensures t == 0.0 ==> r == 0.0
    ensures t == 1.0 ==> r == 1.0
    ensures 0.0 <= t <= 1.0 ==> 0.0 <= r <= 1.0
  {
    t
  }

  lemma LinearEndpoints()
    ensures Linear(0.0) == 0.0 && Linear(1.0) == 1.0
    ensures forall t :: Linear(t) == t
  {
  }

  /** `easeOutExpo`: 1 - 2^(-10 t), pinned to exactly 1 at t = 1. */
  function EaseOutExpo(m: MathLib, t: real): (r: real)
    ensures t == 1.0 ==> r == 1.0
    ensures Sound(m) && t == 0.0 ==> r == 0.0
    ensures Sound(m) && 0.0 <= t ==> 0.0 <= r <= 1.0
    ensures Sound(m) ==> r <= 1.0
  {
    if t == 1.0 then 1.0 else 1.0 - m.exp2(-10.0 * t)
  }

  /** `easeOutElastic`: a decaying sine about 1, pinned to 0 and 1 at the ends. */
  function EaseOutElastic(m: MathLib, t: real): (r: real)
    ensures t == 0.0 ==> r == 0.0
    ensures t == 1.0 ==> r == 1.0
  {
    var c4 := (2.0 * m.pi) / 3.0;
    if t == 0.0 then 0.0
    else if t == 1.0 then 1.0
    else m.exp2(-10.0 * t) * m.sin((t * 10.0 - 0.75) * c4) + 1.0
  }

  /** `easeInOutCubic`: a cubic ease-in below one half, its mirror image above. */
  function EaseInOutCubic(t: real): (r: real)
    ensures t == 0.0 ==> r == 0.0
    ensures t == 1.0 ==> r == 1.0
    ensures t == 0.5 ==> r == 0.5
  {
    if t < 0.5 then 4.0 * t * t * t else 1.0 - Cube(-2.0 * t + 2.0) / 2.0
  }

  /** Both branches of `easeInOutCubic` give one half at t = 1/2, so the curve has no jump there. */
  lemma CubicBranchesMeet()
    ensures 4.0 * 0.5 * 0.5 * 0.5 == 0.5
    ensures 1.0 - Cube(-2.0 * 0.5 + 2.0) / 2.0 == 0.5
  {
  }

  const BackC1: real := 1.70158
  const BackC3: real := BackC1 + 1.0

  /** `easeOutBack`: 1 + c3 (t-1)^3 + c1 (t-1)^2, which overshoots 1 before settling. */
  function EaseOutBack(t: real): (r: real)
    ensures t == 0.0 ==> r == 0.0
    ensures t == 1.0 ==> r == 1.0
  {
    1.0 + BackC3 * Cube(t - 1.0) + BackC1 * Square(t - 1.0)
  }

  /** The overshoot the source's comment announces: half way through, the curve is above 1. */
  lemma {:induction false} EaseOutBackOvershoots()
    ensures EaseOutBack(0.5) > 1.0
  {
    assert Cube(-0.5) == -0.125 && Square(-0.5) == 0.25;
    assert EaseOutBack(0.5) == 1.0 + BackC3 * (-0.125) + BackC1 * 0.25;
  }

  /** `easeInQuad`: t squared. */
  function EaseInQuad(t: real): (r: real)
    ensures t == 0.0 ==> r == 0.0
    ensures t == 1.0 ==> r == 1.0
    ensures 0.0 <= t <= 1.0 ==> 0.0 <= r <= t
  {
    SquareBelowIdentity(t);
    t * t
  }

  lemma SquareBelowIdentity(t: real)
    ensures 0.0 <= t <= 1.0 ==> 0.0 <= t * t <= t
  {
    if 0.0 <= t <= 1.0 {
      MulNonNegative(t, 1.0 - t);
      MulNonNegative(t, t);
      assert Mul(t, 1.0 - t) == t - t * t;
    }
  }

  lemma EaseInQuadMonotone(a: real, b: real)
    requires 0.0 <= a <= b <= 1.0
    ensures EaseInQuad(a) <= EaseInQuad(b)
  {
    MulNonNegative(b - a, b + a);
    assert b * b - a * a == Mul(b - a, b + a);
  }

  /** The members a caller may ask the table for; `EaseOutBounce` is asked for but missing. */
  datatype Member =
    | LinearMember
    | EaseOutExpoMember
    | EaseOutElasticMember
    | EaseInOutCubicMember
    | EaseOutBackMember
    | EaseInQuadMember
    | EaseOutBounceMember

  /** Reading `Easing.<member>(t)`: `None` for a member the table does not define. */
  function Lookup(m: MathLib, member: Member, t: real): (r: Option<real>)
    ensures r.None? <==> member == EaseOutBounceMember
    ensures member == EaseOutExpoMember ==> r == Some(EaseOutExpo(m, t))
    ensures member == EaseOutElasticMember ==> r == Some(EaseOutElastic(m, t))
  {
    match member
    case LinearMember => Some(Linear(t))
    case EaseOutExpoMember => Some(EaseOutExpo(m, t))
    case EaseOutElasticMember => Some(EaseOutElastic(m, t))
    case EaseInOutCubicMember => Some(EaseInOutCubic(t))
    case EaseOutBackMember => Some(EaseOutBack(t))
    case EaseInQuadMember => Some(EaseInQuad(t))
    case EaseOutBounceMember => None
  }

  /** Every defined member starts at 0 and ends at 1 (given the host's 2^0 = 1). */
  lemma DefinedMembersPinEndpoints(m: MathLib, member: Member)
    requires Sound(m) && member != EaseOutBounceMember
    ensures Lookup(m, member, 0.0) == Some(0.0)
    ensures Lookup(m, member, 1.0) == Some(1.0)
  {
  }
}
