/**
 * The animation driver's arithmetic: how one frame advances the dash offset and the easing
 * incrementer under the `linear`, `ease-out` and `ease-in` styles.
 */
module Animation {

  /**
   * A JavaScript number as far as the animator can see: a finite value, or NaN. An
   * `undefined` incrementer behaves exactly like NaN in `<`, `>`, `+` and `Math.pow`.
   */
  datatype JsNumber = NaN | Finite(v: real)

  /** `a + b`. */
  function Plus(a: JsNumber, b: JsNumber): JsNumber
  {
    if a.Finite? && b.Finite? then Finite(a.v + b.v) else NaN
  }

  /** `-a`. */
  function Negate(a: JsNumber): JsNumber
  {
    if a.Finite? then Finite(-a.v) else NaN
  }

  /** `a < b`; false for NaN. */
  predicate Less(a: JsNumber, b: real)
  {
    a.Finite? && a.v < b
  }

  /** `a > b`; false for NaN. */
  predicate Greater(a: JsNumber, b: real)
  {
    a.Finite? && a.v > b
  }

  const Linear := "linear"
  const EaseOut := "ease-out"
  const EaseIn := "ease-in"

  /** `_resetOffset`: the offset past which the eased styles start over. */
  const ResetOffset: real := 200.0
  const DefaultEaseOutIncrementer: real := 0.2
  const DefaultEaseInIncrementer: real := 0.1

  /** `_offset` and `_incrementer`. */
  datatype AnimState = AnimState(offset: JsNumber, incrementer: JsNumber)

  /** Every incrementer the layer can hold is NaN or positive, so `0.9 / incrementer` is defined. */
  predicate IncrementerOk(i: JsNumber)
  {
    i.NaN? || i.v > 0.0
  }

  /** The incrementer the constructor sets up for a style; other styles leave it undefined. */
  function InitialIncrementer(style: string): (i: JsNumber)
    ensures IncrementerOk(i)
    ensures i.NaN? <==> style != EaseOut && style != EaseIn
  {
    if style == EaseOut then Finite(DefaultEaseOutIncrementer)
    else if style == EaseIn then Finite(DefaultEaseInIncrementer)
    else NaN
  }

  /** `_linearAnimator`: one more pixel of offset, with no reset. */
  function LinearStep(s: AnimState): (r: AnimState)
    ensures r.incrementer == s.incrementer
    ensures s.offset.Finite? ==> r.offset.Finite? && r.offset.v == s.offset.v + 1.0
  {
    s.(offset := Plus(s.offset, Finite(1.0)))
  }

  /** The ease-out incrementer after its update: grows by 0.009 while below 1, then is 1. */
  function NextEaseOutIncrementer(i: JsNumber): (r: real)
    requires IncrementerOk(i)
    ensures r > 0.0
  {
    if Less(i, 1.0) then i.v + 0.009 else 1.0
  }

  /** `_easeOutAnimator`: advance by `0.9 / incrementer`, start over past `_resetOffset`. */
  function EaseOutStep(s: AnimState): (r: AnimState)
    requires IncrementerOk(s.incrementer)
    ensures IncrementerOk(r.incrementer)
  {
    var inc := NextEaseOutIncrementer(s.incrementer);
    var offset := Plus(s.offset, Finite(0.9 / inc));
    if Greater(offset, ResetOffset) then AnimState(Finite(0.0), Finite(DefaultEaseOutIncrementer))
    else AnimState(offset, Finite(inc))
  }

  /** The ease-in incrementer after its update: grows by 1 while below 55, then stays. */
  function NextEaseInIncrementer(i: JsNumber): (r: JsNumber)
    ensures IncrementerOk(i) ==> IncrementerOk(r)
    ensures i.NaN? <==> r.NaN?
  {
    if Less(i, 55.0) then Finite(i.v + 1.0) else i
  }

  /**
   * `_easeInAnimator`: advance by `Math.pow(1.05, incrementer)`, start over past
   * `_resetOffset`; `pow105` stands for that power.
   */
  function EaseInStep(s: AnimState, pow105: real -> real): (r: AnimState)
    requires IncrementerOk(s.incrementer)
    ensures IncrementerOk(r.incrementer)
  {
    var inc := NextEaseInIncrementer(s.incrementer);
    var offset := if inc.Finite? then Plus(s.offset, Finite(pow105(inc.v))) else NaN;
    if Greater(offset, ResetOffset) then AnimState(Finite(0.0), Finite(DefaultEaseInIncrementer))
    else AnimState(offset, inc)
  }

  /** `_applyAnimator`: dispatch on the style; an unrecognised style does nothing. */
  function Step(style: string, s: AnimState, pow105: real -> real): (r: AnimState)
    requires IncrementerOk(s.incrementer)
    ensures IncrementerOk(r.incrementer)
  {
    if style == Linear then LinearStep(s)
    else if style == EaseOut then EaseOutStep(s)
    else if style == EaseIn then EaseInStep(s, pow105)
    else s
  }

  /** An unrecognised style leaves the offset and the incrementer as they were. */
  lemma UnknownStyleKeepsState(style: string, s: AnimState, pow105: real -> real)
    requires IncrementerOk(s.incrementer)
    requires style != Linear && style != EaseOut && style != EaseIn
    ensures Step(style, s, pow105) == s
  {
  }

  /** The eased styles start over, at offset 0 and their own default incrementer, exactly when the advanced offset passes 200. */
  lemma EasedResetRule(s: AnimState, pow105: real -> real)
    requires IncrementerOk(s.incrementer)
    requires s.offset.Finite? && s.offset.v >= 0.0
    requires forall x :: pow105(x) > 0.0
    ensures var r := EaseOutStep(s);
      var advanced := s.offset.v + 0.9 / NextEaseOutIncrementer(s.incrementer);
      && (advanced > ResetOffset ==> r == AnimState(Finite(0.0), Finite(DefaultEaseOutIncrementer)))
      && (advanced <= ResetOffset ==> r == AnimState(Finite(advanced), Finite(NextEaseOutIncrementer(s.incrementer))))
      && (r.offset == Finite(0.0) <==> advanced > ResetOffset)
    ensures var r := EaseInStep(s, pow105);
      s.incrementer.Finite? ==>
        var inc := NextEaseInIncrementer(s.incrementer);
        var advanced := s.offset.v + pow105(inc.v);
        && (advanced > ResetOffset ==> r == AnimState(Finite(0.0), Finite(DefaultEaseInIncrementer)))
        && (advanced <= ResetOffset ==> r == AnimState(Finite(advanced), inc))
        && (r.offset == Finite(0.0) <==> advanced > ResetOffset)
  {
    var inc := NextEaseOutIncrementer(s.incrementer);
    assert 0.9 / inc > 0.0 by { DivPositive(0.9, inc); }
    if s.incrementer.Finite? {
      var e := NextEaseInIncrementer(s.incrementer);
      assert pow105(e.v) > 0.0;
    }
  }

  lemma DivPositive(a: real, b: real)
    requires a > 0.0 && b > 0.0
    ensures a / b > 0.0
  {
  }

  /**
   * Under an eased style a finite offset in [0, 200] stays in [0, 200]; the linear style
   * moves it on by exactly 1 and never brings it back.
   */
  lemma OffsetStaysInRange(style: string, s: AnimState, pow105: real -> real)
    requires IncrementerOk(s.incrementer)
    requires s.offset.Finite? && 0.0 <= s.offset.v <= ResetOffset
    requires s.incrementer.Finite?
    requires forall x :: pow105(x) > 0.0
    ensures style == EaseOut || style == EaseIn ==>
      var r := Step(style, s, pow105);
      r.offset.Finite? && 0.0 <= r.offset.v <= ResetOffset
    ensures style == Linear ==> Step(style, s, pow105).offset == Finite(s.offset.v + 1.0)
  {
    EasedResetRule(s, pow105);
  }

  /**
   * Ease-out slows down: while the incrementer is below 1 it grows, so each frame advances
   * less than the one before; from 1 on it stays 1 and every frame advances exactly 0.9.
   */
  lemma EaseOutDecelerates(i: real)
    requires i > 0.0
    ensures i < 1.0 ==> NextEaseOutIncrementer(Finite(i)) > i
    ensures i < 1.0 ==> 0.9 / NextEaseOutIncrementer(Finite(i)) < 0.9 / i
    ensures i >= 1.0 ==> NextEaseOutIncrementer(Finite(i)) == 1.0
    ensures NextEaseOutIncrementer(Finite(1.0)) == 1.0 && 0.9 / NextEaseOutIncrementer(Finite(1.0)) == 0.9
  {
    if i < 1.0 {
      var n := i + 0.009;
      assert (0.9 / n) * n == 0.9;
      assert (0.9 / i) * i == 0.9;
      DivDecreasing(0.9, i, n);
    }
  }

  /** Dividing a positive amount by a larger positive number gives less. */
  lemma DivDecreasing(a: real, b: real, c: real)
    requires a > 0.0 && 0.0 < b < c
    ensures a / c < a / b
  {
    var x, y := a / b, a / c;
    assert x * b == a && y * c == a;
    DivPositive(a, b);
    assert x * c > x * b;
    assert y * c < x * c;
  }

  /** Ease-in speeds up: its incrementer never decreases, and once at 55 or above it stays put. */
  lemma EaseInAccelerates(i: real)
    ensures NextEaseInIncrementer(Finite(i)).v >= i
    ensures i >= 55.0 ==> NextEaseInIncrementer(Finite(i)) == Finite(i)
    ensures i < 55.0 ==> NextEaseInIncrementer(Finite(i)) == Finite(i + 1.0)
  {
  }

  /** Once the offset is NaN, no style ever brings it back: the dash freezes. */
  lemma NaNOffsetIsPermanent(style: string, s: AnimState, pow105: real -> real)
    requires IncrementerOk(s.incrementer)
    requires s.offset.NaN?
    ensures Step(style, s, pow105).offset.NaN?
  {
  }

  /**
   * A layer constructed with the `linear` style has an undefined incrementer; switching to
   * `ease-in` makes the offset NaN after one frame, and by NaNOffsetIsPermanent for good.
   */
  lemma LinearThenEaseInFreezes(pow105: real -> real)
    ensures Step(EaseIn, AnimState(Finite(0.0), InitialIncrementer(Linear)), pow105).offset.NaN?
  {
  }
}
