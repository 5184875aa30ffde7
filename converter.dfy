/**
 * The kcal/kJ converter (app.js:137-190): two linked fields, where typing
 * into one rewrites the other, to one decimal, unless the typed number is
 * negative. Each field is represented by the number `toNumber` reads from
 * it, so a blank field reads as 0.
 */
module Converter {
  import opened Numeric

  /** The kJ value written for `kcal` kilocalories (`round1(kcal * KJ_PER_KCAL)`). */
  function KcalToKj(kcal: real): (kj: real)
    ensures kcal >= 0.0 ==> kj >= 0.0
    ensures kcal * KJ_PER_KCAL - 0.05 < kj <= kcal * KJ_PER_KCAL + 0.05
    ensures (kj * 10.0).Floor as real == kj * 10.0
  {
    ToKj(kcal)
  }

  /** The kcal value written for `kj` kilojoules (`round1(kj / KJ_PER_KCAL)`). */
  function KjToKcal(kj: real): (kcal: real)
    ensures kj >= 0.0 ==> kcal >= 0.0
    ensures kj / KJ_PER_KCAL - 0.05 < kcal <= kj / KJ_PER_KCAL + 0.05
    ensures (kcal * 10.0).Floor as real == kcal * 10.0
  {
    Round1(kj / KJ_PER_KCAL)
  }

  class EnergyConverter {
    var kcal: real
    var kj: real
    /** Set while a handler runs, so that the field it writes does not trigger the other handler. */
    var updating: bool

    /** Between events no handler is running. */
    ghost predicate Valid()
      reads this
    {
      !updating
    }

    /** Both fields blank. */
    constructor ()
      ensures Valid() && kcal == 0.0 && kj == 0.0
    {
      kcal, kj, updating := 0.0, 0.0, false;
    }

    /** `updateFromKcal`: a non-negative kcal reading rewrites the kJ field; a negative one changes nothing. */
    method UpdateFromKcal()
      requires Valid()
      modifies this
      ensures Valid() && kcal == old(kcal)
      ensures kj == if kcal >= 0.0 then KcalToKj(kcal) else old(kj)
    {
      if updating {
        return;
      }
      updating := true;
      if kcal >= 0.0 {
        kj := KcalToKj(kcal);
      }
      updating := false;
    }

    /** `updateFromKj`, the mirror case. */
    method UpdateFromKj()
      requires Valid()
      modifies this
      ensures Valid() && kj == old(kj)
      ensures kcal == if kj >= 0.0 then KjToKcal(kj) else old(kcal)
    {
      if updating {
        return;
      }
      updating := true;
      if kj >= 0.0 {
        kcal := KjToKcal(kj);
      }
      updating := false;
    }

    /** An 'input' event on the kcal field: its new reading, then `updateFromKcal`. */
    method InputKcal(value: real)
      requires Valid()
      modifies this
      ensures Valid() && kcal == value
      ensures kj == if value >= 0.0 then KcalToKj(value) else old(kj)
    {
      kcal := value;
      UpdateFromKcal();
    }

    /** An 'input' event on the kJ field: its new reading, then `updateFromKj`. */
    method InputKj(value: real)
      requires Valid()
      modifies this
      ensures Valid() && kj == value
      ensures kcal == if value >= 0.0 then KjToKcal(value) else old(kcal)
    {
      kj := value;
      UpdateFromKj();
    }

    /** The reset button: both fields cleared. */
    method Reset()
      requires Valid()
      modifies this
      ensures Valid() && kcal == 0.0 && kj == 0.0
    {
      kcal, kj := 0.0, 0.0;
    }
  }

  /** kJ to kcal and back lands within 0.2592 kJ (0.05 kcal of rounding scaled by 4.184, plus 0.05 kJ). */
  lemma KjRoundTrip(kj: real)
    ensures -0.2592 < KcalToKj(KjToKcal(kj)) - kj <= 0.2592
  {
  }

  /** kcal to kJ and back lands within 0.062 kcal. */
  lemma KcalRoundTrip(kcal: real)
    ensures -0.062 < KjToKcal(KcalToKj(kcal)) - kcal <= 0.062
  {
  }

  /** A one-decimal tolerance is not enough: 0.2 kJ becomes 0.0 kcal, which converts back to 0.0 kJ. */
  lemma KjRoundTripExceedsOneTenth()
    ensures KjToKcal(0.2) == 0.0 && KcalToKj(0.0) == 0.0
  {
  }

  /** 100 kcal is 418.4 kJ, and 418.4 kJ is 100 kcal. */
  lemma ScenarioHundredKcal()
    ensures KcalToKj(100.0) == 418.4 && KjToKcal(418.4) == 100.0
  {
  }
}
