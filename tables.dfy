/**
 The two fixed vocabularies of the converter: the unit words (0 to 20 and
 the tens 20 to 90) and the scale words (10^3 up to 10^33).
 */
module Tables {

  /** The unit words and their values. */
  const SmallNumbers: map<string, int> := map[
    "zero" := 0, "one" := 1, "two" := 2, "three" := 3, "four" := 4,
    "five" := 5, "six" := 6, "seven" := 7, "eight" := 8, "nine" := 9,
    "ten" := 10, "eleven" := 11, "twelve" := 12, "thirteen" := 13,
    "fourteen" := 14, "fifteen" := 15, "sixteen" := 16, "seventeen" := 17,
    "eighteen" := 18, "nineteen" := 19, "twenty" := 20, "thirty" := 30,
    "forty" := 40, "fifty" := 50, "sixty" := 60, "seventy" := 70,
    "eighty" := 80, "ninety" := 90
  ]

  /** The scale words and the magnitudes they stand for. */
  const Magnitudes: map<string, int> := map[
    "thousand" := 1000,
    "million" := 1000000,
    "billion" := 1000000000,
    "trillion" := 1000000000000,
    "quadrillion" := 1000000000000000,
    "quintillion" := 1000000000000000000,
    "sextillion" := 1000000000000000000000,
    "septillion" := 1000000000000000000000000,
    "octillion" := 1000000000000000000000000000,
    "nonillion" := 1000000000000000000000000000000,
    "decillion" := 1000000000000000000000000000000000
  ]

  /** The scale words in increasing order of magnitude. */
  const ScaleNames: seq<string> := [
    "thousand", "million", "billion", "trillion", "quadrillion", "quintillion",
    "sextillion", "septillion", "octillion", "nonillion", "decillion"
  ]

  /** The one word handled outside both tables. */
  const Hundred: string := "hundred"

  /** A pair of tables the converter reads words against. */
  datatype Vocabulary = Vocabulary(units: map<string, int>, scales: map<string, int>)

  /** The converter's own tables. */
  const English: Vocabulary := Vocabulary(SmallNumbers, Magnitudes)

  /** What the algorithm relies on in its tables: no negative unit value,
      every magnitude at least 1, no word in both tables, and "hundred" in
      neither. */
  ghost predicate WellFormed(v: Vocabulary) {
    && (forall w :: w in v.units ==> v.units[w] >= 0)
    && (forall w :: w in v.scales ==> v.scales[w] >= 1)
    && (forall w :: w in v.scales ==> w !in v.units)
    && Hundred !in v.units && Hundred !in v.scales
  }

  /** b raised to the power e. */
  function Pow(b: nat, e: nat): nat {
    if e == 0 then 1 else b * Pow(b, e - 1)
  }

  /** Every unit word stands for a value between 0 and 90. */
  lemma SmallNumbersInRange()
    ensures forall w :: w in SmallNumbers ==> 0 <= SmallNumbers[w] <= 90
  {
  }

  /** Each scale word stands for a thousand times the one before it. */
  lemma MagnitudesStepByThousand()
    ensures Magnitudes[ScaleNames[0]] == 1000
    ensures forall i :: 0 < i < |ScaleNames| ==> Magnitudes[ScaleNames[i]] == 1000 * Magnitudes[ScaleNames[i - 1]]
  {
  }

  /** The scale words are exactly the ScaleNames, the i-th of them standing
      for 1000^(i+1): the magnitudes run from 10^3 to 10^33. */
  lemma MagnitudesArePowersOfThousand()
    ensures forall w :: w in Magnitudes <==> w in ScaleNames
    ensures |ScaleNames| == 11
    ensures forall i :: 0 <= i < |ScaleNames| ==> Magnitudes[ScaleNames[i]] == Pow(1000, i + 1)
  {
    forall i | 0 <= i < |ScaleNames| ensures Magnitudes[ScaleNames[i]] == Pow(1000, i + 1) {
      PowerAt(i);
    }
  }

  lemma {:induction false} PowerAt(i: nat)
    requires i < |ScaleNames|
    ensures Magnitudes[ScaleNames[i]] == Pow(1000, i + 1)
  {
    MagnitudesStepByThousand();
    if i > 0 {
      PowerAt(i - 1);
    }
  }

  /** Every magnitude is at least a thousand. */
  lemma MagnitudesAtLeastThousand()
    ensures forall w :: w in Magnitudes ==> Magnitudes[w] >= 1000
  {
  }

  /** "hundred" is in neither table. */
  lemma HundredInNeitherTable()
    ensures Hundred !in SmallNumbers && Hundred !in Magnitudes
  {
  }

  /** No scale word is also a unit word. */
  lemma TablesDisjoint()
    ensures forall w :: w in Magnitudes ==> w !in SmallNumbers
  {
    MagnitudesArePowersOfThousand();
    forall i | 0 <= i < |ScaleNames| ensures ScaleNames[i] !in SmallNumbers {
      ScaleNameNotUnit(i);
    }
  }

  lemma ScaleNameNotUnit(i: nat)
    requires i < |ScaleNames|
    ensures ScaleNames[i] !in SmallNumbers
  {
    if i < 4 {
      LowScalesNotUnits(ScaleNames[i]);
    } else if i < 8 {
      MiddleScalesNotUnits(ScaleNames[i]);
    } else {
      HighScalesNotUnits(ScaleNames[i]);
    }
  }

  lemma LowScalesNotUnits(w: string)
    requires w in ["thousand", "million", "billion", "trillion"]
    ensures w !in SmallNumbers
  {
  }

  lemma MiddleScalesNotUnits(w: string)
    requires w in ["quadrillion", "quintillion", "sextillion", "septillion"]
    ensures w !in SmallNumbers
  {
  }

  lemma HighScalesNotUnits(w: string)
    requires w in ["octillion", "nonillion", "decillion"]
    ensures w !in SmallNumbers
  {
  }

  /** The converter's tables have the shape the algorithm relies on. */
  lemma EnglishWellFormed()
    ensures WellFormed(English)
  {
    SmallNumbersInRange();
    MagnitudesAtLeastThousand();
    TablesDisjoint();
    HundredInNeitherTable();
  }
}
