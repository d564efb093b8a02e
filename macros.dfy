/**
 * The macro auto-fill button of the nutrition form: four inputs (calories,
 * protein, carbs, fat), any of which may be empty. When exactly one of them
 * is empty it is solved from the other three, using 4 kcal per gram of
 * protein or carbs and 9 kcal per gram of fat; otherwise nothing changes.
 */
module Macros {
  import opened Wrappers
  import opened Rounding

  /** Energy per gram of each macronutrient, in kcal. */
  const ProteinKcal: real := 4.0
  const CarbsKcal: real := 4.0
  const FatKcal: real := 9.0

  datatype Field = Calories | Protein | Carbs | Fat

  /** kcal per unit of a field: per gram for a macro, 1 for calories themselves. */
  function KcalPerUnit(fld: Field): real
  {
    match fld
    case Calories => 1.0
    case Protein => ProteinKcal
    case Carbs => CarbsKcal
    case Fat => FatKcal
  }

  /** The four inputs held in session state: calories (kcal), protein, carbs and fat (g). */
  datatype MacroState = MacroState(cal: Option<real>, p: Option<real>, c: Option<real>, f: Option<real>)
  {
    function Get(fld: Field): Option<real>
    {
      match fld
      case Calories => cal
      case Protein => p
      case Carbs => c
      case Fat => f
    }

    /** The same state with one input replaced. */
    function With(fld: Field, v: Option<real>): (r: MacroState)
      ensures r.Get(fld) == v
      ensures forall g :: g != fld ==> r.Get(g) == Get(g)
    {
      match fld
      case Calories => this.(cal := v)
      case Protein => this.(p := v)
      case Carbs => this.(c := v)
      case Fat => this.(f := v)
    }

    /** How many of the four inputs are empty. */
    function MissingCount(): nat
    {
      (if cal.None? then 1 else 0) + (if p.None? then 1 else 0) +
      (if c.None? then 1 else 0) + (if f.None? then 1 else 0)
    }

    predicate Complete()
    {
      cal.Some? && p.Some? && c.Some? && f.Some?
    }
  }

  /** The state after the first run of the script: every input empty. */
  const EmptyState := MacroState(None, None, None, None)

  /** Energy of the macros that are filled in; an empty macro contributes nothing. */
  function KnownEnergy(s: MacroState): real
  {
    (if s.p.Some? then ProteinKcal * s.p.value else 0.0) +
    (if s.c.Some? then CarbsKcal * s.c.value else 0.0) +
    (if s.f.Some? then FatKcal * s.f.value else 0.0)
  }

  /** All four inputs are present and the calories are exactly the macros' energy. */
  predicate Balanced(s: MacroState)
  {
    s.Complete() && s.cal.value == KnownEnergy(s)
  }

  /** Python's `max(0.0, x)`. */
  function Clamp(x: real): (r: real)
    ensures 0.0 <= r
    ensures x <= r
    ensures r == x || r == 0.0
  {
    if 0.0 < x then x else 0.0
  }

  /**
   * The auto-fill rule. Calories are solved when they alone are empty; a
   * macro is solved, and clamped at 0, when calories are present and it
   * alone is empty; in every other case the state is returned unchanged.
   * `round` stands for Python's `round(_, 1)`.
   */
  function Fill(s: MacroState, round: real -> real): (r: MacroState)
    ensures forall fld :: s.Get(fld).Some? ==> r.Get(fld) == s.Get(fld)
    ensures s.MissingCount() == 1 ==> r.Complete()
    ensures s.MissingCount() != 1 ==> r == s
    ensures forall fld :: fld != Calories && s.Get(fld).None? && r.Get(fld).Some? ==> 0.0 <= r.Get(fld).value
  {
    if s.cal.None? && s.p.Some? && s.c.Some? && s.f.Some? then
      s.(cal := Some(round(s.p.value * ProteinKcal + s.c.value * CarbsKcal + s.f.value * FatKcal)))
    else if s.cal.Some? then
      var cal := s.cal.value;
      if s.p.None? && s.c.Some? && s.f.Some? then
        s.(p := Some(Clamp(round((cal - s.c.value * CarbsKcal - s.f.value * FatKcal) / ProteinKcal))))
      else if s.c.None? && s.p.Some? && s.f.Some? then
        s.(c := Some(Clamp(round((cal - s.p.value * ProteinKcal - s.f.value * FatKcal) / CarbsKcal))))
      else if s.f.None? && s.p.Some? && s.c.Some? then
        s.(f := Some(Clamp(round((cal - s.p.value * ProteinKcal - s.c.value * CarbsKcal) / FatKcal))))
      else
        s
    else
      s
  }

  /** The button changes the state exactly when one input is empty. */
  lemma FillNoOpIff(s: MacroState, round: real -> real)
    ensures Fill(s, round) == s <==> s.MissingCount() != 1
  {
  }

  /** The value written into the one empty input, whatever the rounding. */
  lemma FilledValue(s: MacroState, fld: Field, round: real -> real)
    requires s.MissingCount() == 1 && s.Get(fld).None?
    ensures fld == Calories ==> Fill(s, round).cal == Some(round(KnownEnergy(s)))
    ensures fld != Calories ==> s.cal.Some?
    ensures fld != Calories && s.cal.Some? ==>
              Fill(s, round).Get(fld) == Some(Clamp(round((s.cal.value - KnownEnergy(s)) / KcalPerUnit(fld))))
  {
  }

  /** Pressing the button a second time changes nothing. */
  lemma FillIdempotent(s: MacroState, round: real -> real)
    ensures Fill(Fill(s, round), round) == Fill(s, round)
  {
  }

  /**
   * Before rounding, a fill balances the state exactly when the solved
   * value needed no clamping: calories were solved, or the macros already
   * present hold no more energy than the calories.
   */
  lemma ExactFillBalances(s: MacroState)
    requires s.MissingCount() == 1
    ensures Balanced(Fill(s, Exact)) <==> s.cal.None? || KnownEnergy(s) <= s.cal.value
  {
  }

  /**
   * Filling calories from three non-negative macros and then solving any one
   * macro back from those calories and the other two gives back the original
   * amount to within 1/16 g, for any rounding off by at most 0.05.
   */
  lemma RoundTrip(s: MacroState, fld: Field, round: real -> real)
    requires s.cal.None? && s.p.Some? && s.c.Some? && s.f.Some?
    requires 0.0 <= s.p.value && 0.0 <= s.c.value && 0.0 <= s.f.value
    requires fld != Calories
    requires WithinHalfTenth(round)
    ensures var t := Fill(Fill(s, round).With(fld, None), round);
            t.Complete() && -0.0625 <= t.Get(fld).value - s.Get(fld).value <= 0.0625
  {
  }

  /**
   * Two fills with decimal rounding: calories from 50 g protein, 200 g carbs
   * and 60 g fat; carbs from 2000 kcal, 150 g protein and 50 g fat.
   */
  lemma MacroExamples()
    ensures Fill(MacroState(None, Some(50.0), Some(200.0), Some(60.0)), Round1).cal == Some(1540.0)
    ensures Fill(MacroState(Some(2000.0), Some(150.0), None, Some(50.0)), Round1).c == Some(237.5)
  {
  }

  /**
   * The session state of the form: the four inputs, updated in place by the
   * button's callback.
   */
  class Session {
    var cal: Option<real>
    var p: Option<real>
    var c: Option<real>
    var f: Option<real>

    function State(): MacroState
      reads this
    {
      MacroState(cal, p, c, f)
    }

    /** First run of the script: no key exists yet, so each is set to None. */
    constructor ()
      ensures State() == EmptyState
    {
      cal := None;
      p := None;
      c := None;
      f := None;
    }

    /** The button's callback; `round` stands for Python's `round(_, 1)`. */
    method AutoFillMacros(round: real -> real)
      modifies this
      ensures State() == Fill(old(State()), round)
    {
      var cal, p, c, f := this.cal, this.p, this.c, this.f;
      if cal.None? && p.Some? && c.Some? && f.Some? {
        this.cal := Some(round(p.value * ProteinKcal + c.value * CarbsKcal + f.value * FatKcal));
      } else if cal.Some? {
        if p.None? && c.Some? && f.Some? {
          this.p := Some(Clamp(round((cal.value - c.value * CarbsKcal - f.value * FatKcal) / ProteinKcal)));
        } else if c.None? && p.Some? && f.Some? {
          this.c := Some(Clamp(round((cal.value - p.value * ProteinKcal - f.value * FatKcal) / CarbsKcal)));
        } else if f.None? && p.Some? && c.Some? {
          this.f := Some(Clamp(round((cal.value - p.value * ProteinKcal - c.value * CarbsKcal) / FatKcal)));
        }
      }
    }
  }
}
