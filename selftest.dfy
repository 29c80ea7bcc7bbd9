/**
 The assertions of the converter's self-test, the conversions it prints,
 and edge cases of the same algorithm, stated as lemmas about the model
 over the English tables.

 For each phrase, a lemma over any vocabulary that gives the phrase's words
 their English values states what the words fold to; the conversion of the
 phrase over the English tables follows. A phrase of more than two words is
 written as the join of its words with single spaces, which is the same
 string as the phrase.
 */
module SelfTest {
  import opened Tables
  import opened Tokenizer
  import opened Text2Num

  // ---------------------------------------------------------------------
  // Reading a phrase

  /** No word is empty or holds a separator. */
  predicate Plain(words: seq<string>) {
    forall i :: 0 <= i < |words| ==> words[i] != [] && SeparatorFree(words[i])
  }

  /** Two lists of plain words make one. */
  lemma PlainAppend(a: seq<string>, b: seq<string>)
    requires Plain(a) && Plain(b)
    ensures Plain(a + b)
  {
    assert forall i :: 0 <= i < |a + b| ==> (a + b)[i] == if i < |a| then a[i] else b[i - |a|];
  }

  /** A phrase of two or more words is read as exactly its words, whatever
      the numeric reading. */
  lemma Phrase(v: Vocabulary, words: seq<string>, numeric: string -> Option<int>)
    requires |words| > 1 && Plain(words)
    ensures Convert(v, Single(Str(Join(words))), numeric) == WordsValue(v, words)
  {
    TokenizeJoin(words);
  }

  /** A lone word that the numeric reading refuses is read as a word. */
  lemma LoneWord(v: Vocabulary, w: string, numeric: string -> Option<int>)
    requires w != [] && SeparatorFree(w) && numeric(w).None?
    ensures Convert(v, Single(Str(w)), numeric) == WordsValue(v, [w])
  {
    TokenizeWord(w);
  }

  /** Folding over a + b from acc reaches out when a leads to mid and b
      leads from mid to out. */
  lemma Folds(v: Vocabulary, acc: Accumulator, a: seq<string>, mid: Accumulator, b: seq<string>, out: Accumulator)
    requires Fold(v, acc, a) == Consumed(mid) && Fold(v, mid, b) == Consumed(out)
    ensures Fold(v, acc, a + b) == Consumed(out)
  {
    FoldAppend(v, acc, a, b);
  }

  // ---------------------------------------------------------------------
  // The English words the phrases use

  predicate Unit(v: Vocabulary, w: string, n: int) {
    w in v.units && v.units[w] == n
  }

  predicate Scale(v: Vocabulary, w: string, n: int) {
    w in v.scales && v.scales[w] == n
  }

  lemma EnglishOneToThree()
    ensures Unit(English, "one", 1) && Unit(English, "two", 2) && Unit(English, "three", 3)
  {
  }

  lemma EnglishFourToSix()
    ensures Unit(English, "four", 4) && Unit(English, "five", 5) && Unit(English, "six", 6)
  {
  }

  lemma EnglishSevenToTwelve()
    ensures Unit(English, "seven", 7) && Unit(English, "nine", 9) && Unit(English, "twelve", 12)
  {
  }

  lemma EnglishTens()
    ensures Unit(English, "twenty", 20) && Unit(English, "fifty", 50)
    ensures Unit(English, "seventy", 70) && Unit(English, "eighty", 80)
  {
  }

  lemma EnglishScales()
    ensures Scale(English, "thousand", 1000) && Scale(English, "million", 1000000)
    ensures Scale(English, "billion", 1000000000)
    ensures Scale(English, "decillion", 1000000000000000000000000000000000)
  {
  }

  lemma EnglishWords()
    ensures WellFormed(English)
    ensures Unit(English, "one", 1) && Unit(English, "two", 2) && Unit(English, "three", 3)
    ensures Unit(English, "four", 4) && Unit(English, "five", 5)
    ensures Unit(English, "six", 6) && Unit(English, "seven", 7) && Unit(English, "nine", 9)
    ensures Unit(English, "twelve", 12)
    ensures Unit(English, "twenty", 20) && Unit(English, "fifty", 50)
    ensures Unit(English, "seventy", 70) && Unit(English, "eighty", 80)
    ensures Scale(English, "thousand", 1000) && Scale(English, "million", 1000000)
    ensures Scale(English, "billion", 1000000000)
    ensures Scale(English, "decillion", 1000000000000000000000000000000000)
  {
    EnglishWellFormed();
    EnglishOneToThree();
    EnglishFourToSix();
    EnglishSevenToTwelve();
    EnglishTens();
    EnglishScales();
  }

  // ---------------------------------------------------------------------
  // The self-test assertions

  lemma OneWords(v: Vocabulary)
    requires WellFormed(v) && Unit(v, "one", 1)
    ensures "one" != [] && SeparatorFree("one")
    ensures WordsValue(v, ["one"]) == Value(1)
  {
  }

  lemma One(numeric: string -> Option<int>)
    requires numeric("one").None?
    ensures Convert(English, Single(Str("one")), numeric) == Value(1)
  {
    EnglishWords();
    OneWords(English);
    LoneWord(English, "one", numeric);
  }

  lemma TwelveWords(v: Vocabulary)
    requires WellFormed(v) && Unit(v, "twelve", 12)
    ensures "twelve" != [] && SeparatorFree("twelve")
    ensures WordsValue(v, ["twelve"]) == Value(12)
  {
  }

  lemma Twelve(numeric: string -> Option<int>)
    requires numeric("twelve").None?
    ensures Convert(English, Single(Str("twelve")), numeric) == Value(12)
  {
    EnglishWords();
    TwelveWords(English);
    LoneWord(English, "twelve", numeric);
  }

  lemma SeventyTwoWords(v: Vocabulary)
    requires WellFormed(v) && Unit(v, "seventy", 70) && Unit(v, "two", 2)
    ensures Join(["seventy", "two"]) == "seventy two" && Plain(["seventy", "two"])
    ensures WordsValue(v, ["seventy", "two"]) == Value(72)
  {
  }

  lemma SeventyTwo(numeric: string -> Option<int>)
    ensures Convert(English, Single(Str("seventy two")), numeric) == Value(72)
  {
    EnglishWords();
    SeventyTwoWords(English);
    Phrase(English, ["seventy", "two"], numeric);
  }

  lemma ThreeHundredWords(v: Vocabulary)
    requires WellFormed(v) && Unit(v, "three", 3)
    ensures Join(["three", "hundred"]) == "three hundred" && Plain(["three", "hundred"])
    ensures WordsValue(v, ["three", "hundred"]) == Value(300)
  {
  }

  lemma ThreeHundred(numeric: string -> Option<int>)
    ensures Convert(English, Single(Str("three hundred")), numeric) == Value(300)
  {
    EnglishWords();
    ThreeHundredWords(English);
    Phrase(English, ["three", "hundred"], numeric);
  }

  lemma TwelveHundredWords(v: Vocabulary)
    requires WellFormed(v) && Unit(v, "twelve", 12)
    ensures Join(["twelve", "hundred"]) == "twelve hundred" && Plain(["twelve", "hundred"])
    ensures WordsValue(v, ["twelve", "hundred"]) == Value(1200)
  {
  }

  lemma TwelveHundred(numeric: string -> Option<int>)
    ensures Convert(English, Single(Str("twelve hundred")), numeric) == Value(1200)
  {
    EnglishWords();
    TwelveHundredWords(English);
    Phrase(English, ["twelve", "hundred"], numeric);
  }

  lemma TwelveThousandFold(v: Vocabulary)
    requires WellFormed(v) && Unit(v, "twelve", 12) && Scale(v, "thousand", 1000)
    ensures Plain(["twelve", "thousand"])
    ensures Fold(v, Start, ["twelve", "thousand"]) == Consumed(Accumulator(12000, 0))
  {
  }

  lemma ThreeHundredFourFold(v: Vocabulary)
    requires WellFormed(v) && Unit(v, "three", 3) && Unit(v, "four", 4)
    ensures Plain(["three", "hundred", "four"])
    ensures Fold(v, Accumulator(12000, 0), ["three", "hundred", "four"]) == Consumed(Accumulator(12000, 304))
  {
  }

  lemma TwelveThousandThreeHundredFourWords(v: Vocabulary)
    requires WellFormed(v) && Unit(v, "twelve", 12) && Unit(v, "three", 3) && Unit(v, "four", 4)
    requires Scale(v, "thousand", 1000)
    ensures Plain(["twelve", "thousand", "three", "hundred", "four"])
    ensures WordsValue(v, ["twelve", "thousand", "three", "hundred", "four"]) == Value(12304)
  {
    TwelveThousandFold(v);
    ThreeHundredFourFold(v);
    PlainAppend(["twelve", "thousand"], ["three", "hundred", "four"]);
    Folds(v, Start, ["twelve", "thousand"], Accumulator(12000, 0), ["three", "hundred", "four"], Accumulator(12000, 304));
    assert ["twelve", "thousand", "three", "hundred", "four"] == ["twelve", "thousand"] + ["three", "hundred", "four"];
  }

  lemma TwelveThousandThreeHundredFour(numeric: string -> Option<int>)
    ensures Convert(English, Single(Str(Join(["twelve", "thousand", "three", "hundred", "four"]))), numeric) == Value(12304)
  {
    EnglishWords();
    TwelveThousandThreeHundredFourWords(English);
    Phrase(English, ["twelve", "thousand", "three", "hundred", "four"], numeric);
  }

  lemma SixMillionWords(v: Vocabulary)
    requires WellFormed(v) && Unit(v, "six", 6) && Scale(v, "million", 1000000)
    ensures Join(["six", "million"]) == "six million" && Plain(["six", "million"])
    ensures WordsValue(v, ["six", "million"]) == Value(6000000)
  {
  }

  lemma SixMillion(numeric: string -> Option<int>)
    ensures Convert(English, Single(Str("six million")), numeric) == Value(6000000)
  {
    EnglishWords();
    SixMillionWords(English);
    Phrase(English, ["six", "million"], numeric);
  }

  lemma SixMillionFold(v: Vocabulary)
    requires WellFormed(v) && Unit(v, "six", 6) && Scale(v, "million", 1000000)
    ensures Plain(["six", "million"])
    ensures Fold(v, Start, ["six", "million"]) == Consumed(Accumulator(6000000, 0))
  {
  }

  lemma FourHundredThousandFiveFold(v: Vocabulary)
    requires WellFormed(v) && Unit(v, "four", 4) && Unit(v, "five", 5) && Scale(v, "thousand", 1000)
    ensures Plain(["four", "hundred", "thousand", "five"])
    ensures Fold(v, Accumulator(6000000, 0), ["four", "hundred", "thousand", "five"]) == Consumed(Accumulator(6400000, 5))
  {
  }

  lemma SixMillionFourHundredThousandFiveWords(v: Vocabulary)
    requires WellFormed(v) && Unit(v, "six", 6) && Unit(v, "four", 4) && Unit(v, "five", 5)
    requires Scale(v, "million", 1000000) && Scale(v, "thousand", 1000)
    ensures Plain(["six", "million", "four", "hundred", "thousand", "five"])
    ensures WordsValue(v, ["six", "million", "four", "hundred", "thousand", "five"]) == Value(6400005)
  {
    SixMillionFold(v);
    FourHundredThousandFiveFold(v);
    PlainAppend(["six", "million"], ["four", "hundred", "thousand", "five"]);
    Folds(v, Start, ["six", "million"], Accumulator(6000000, 0), ["four", "hundred", "thousand", "five"], Accumulator(6400000, 5));
    assert ["six", "million", "four", "hundred", "thousand", "five"] == ["six", "million"] + ["four", "hundred", "thousand", "five"];
  }

  lemma SixMillionFourHundredThousandFive(numeric: string -> Option<int>)
    ensures Convert(English, Single(Str(Join(["six", "million", "four", "hundred", "thousand", "five"]))), numeric) == Value(6400005)
  {
    EnglishWords();
    SixMillionFourHundredThousandFiveWords(English);
    Phrase(English, ["six", "million", "four", "hundred", "thousand", "five"], numeric);
  }

  /** The words of the twelve-digit phrase, in its three groups. */
  const Billions: seq<string> := ["one", "hundred", "twenty", "three", "billion"]
  const Millions: seq<string> := ["four", "hundred", "fifty", "six", "million"]
  const Thousands: seq<string> := ["seven", "hundred", "eighty", "nine", "thousand", "twelve"]

  lemma BillionsFold(v: Vocabulary)
    requires WellFormed(v) && Unit(v, "one", 1) && Unit(v, "twenty", 20) && Unit(v, "three", 3)
    requires Scale(v, "billion", 1000000000)
    ensures Plain(Billions)
    ensures Fold(v, Start, Billions) == Consumed(Accumulator(123000000000, 0))
  {
    assert Billions == ["one", "hundred", "twenty", "three", "billion"];
  }

  lemma MillionsFold(v: Vocabulary)
    requires WellFormed(v) && Unit(v, "four", 4) && Unit(v, "fifty", 50) && Unit(v, "six", 6)
    requires Scale(v, "million", 1000000)
    ensures Plain(Millions)
    ensures Fold(v, Accumulator(123000000000, 0), Millions) == Consumed(Accumulator(123456000000, 0))
  {
    assert Millions == ["four", "hundred", "fifty", "six", "million"];
  }

  lemma ThousandsFold(v: Vocabulary)
    requires WellFormed(v) && Unit(v, "seven", 7) && Unit(v, "eighty", 80) && Unit(v, "nine", 9)
    requires Unit(v, "twelve", 12) && Scale(v, "thousand", 1000)
    ensures Plain(Thousands)
    ensures Fold(v, Accumulator(123456000000, 0), Thousands) == Consumed(Accumulator(123456789000, 12))
  {
    assert Thousands == ["seven", "hundred", "eighty", "nine", "thousand", "twelve"];
  }

  lemma TwelveDigitsWords(v: Vocabulary)
    requires WellFormed(v)
    requires Unit(v, "one", 1) && Unit(v, "three", 3) && Unit(v, "four", 4) && Unit(v, "six", 6)
    requires Unit(v, "seven", 7) && Unit(v, "nine", 9) && Unit(v, "twelve", 12)
    requires Unit(v, "twenty", 20) && Unit(v, "fifty", 50) && Unit(v, "eighty", 80)
    requires Scale(v, "thousand", 1000) && Scale(v, "million", 1000000) && Scale(v, "billion", 1000000000)
    ensures Plain(Billions + Millions + Thousands)
    ensures WordsValue(v, Billions + Millions + Thousands) == Value(123456789012)
  {
    BillionsFold(v);
    MillionsFold(v);
    ThousandsFold(v);
    PlainAppend(Billions, Millions);
    PlainAppend(Billions + Millions, Thousands);
    Folds(v, Start, Billions, Accumulator(123000000000, 0), Millions, Accumulator(123456000000, 0));
    Folds(v, Start, Billions + Millions, Accumulator(123456000000, 0), Thousands, Accumulator(123456789000, 12));
  }

  /** "one hundred twenty three billion four hundred fifty six million
      seven hundred eighty nine thousand twelve" */
  lemma TwelveDigits(numeric: string -> Option<int>)
    ensures Convert(English, Single(Str(Join(Billions + Millions + Thousands))), numeric) == Value(123456789012)
  {
    EnglishWords();
    TwelveDigitsWords(English);
    Phrase(English, Billions + Millions + Thousands, numeric);
  }

  lemma FourDecillionWords(v: Vocabulary)
    requires WellFormed(v) && Unit(v, "four", 4)
    requires Scale(v, "decillion", 1000000000000000000000000000000000)
    ensures Join(["four", "decillion"]) == "four decillion" && Plain(["four", "decillion"])
    ensures WordsValue(v, ["four", "decillion"]) == Value(4000000000000000000000000000000000)
  {
  }

  lemma FourDecillion(numeric: string -> Option<int>)
    ensures Convert(English, Single(Str("four decillion")), numeric) == Value(4000000000000000000000000000000000)
  {
    EnglishWords();
    FourDecillionWords(English);
    Phrase(English, ["four", "decillion"], numeric);
  }

  // ---------------------------------------------------------------------
  // The conversions the self-test prints

  lemma OneHundredTwentyThreeWords(v: Vocabulary)
    requires WellFormed(v) && Unit(v, "one", 1) && Unit(v, "twenty", 20) && Unit(v, "three", 3)
    ensures Plain(["one", "hundred", "twenty", "three"])
    ensures WordsValue(v, ["one", "hundred", "twenty", "three"]) == Value(123)
  {
  }

  const OneHundredTwentyThreeItems: seq<Item> := [Str("one"), Str("hundred"), Str("twenty"), Str("three")]

  lemma OneHundredTwentyThreeItemsShown()
    ensures forall i :: 0 <= i < |OneHundredTwentyThreeItems| ==>
      OneHundredTwentyThreeItems[i].Str? && OneHundredTwentyThreeItems[i].s != [] && SeparatorFree(OneHundredTwentyThreeItems[i].s)
    ensures ShowAll(OneHundredTwentyThreeItems) == ["one", "hundred", "twenty", "three"]
  {
  }

  /** A list of words is joined with single spaces and read as those words. */
  lemma OneHundredTwentyThreeList(numeric: string -> Option<int>)
    ensures Convert(English, List(OneHundredTwentyThreeItems), numeric) == Value(123)
  {
    EnglishWords();
    OneHundredTwentyThreeWords(English);
    OneHundredTwentyThreeItemsShown();
    ListItemsAreWords(English, OneHundredTwentyThreeItems, numeric);
  }

  lemma OneHundredTwentyThree(numeric: string -> Option<int>)
    ensures Convert(English, Single(Str(Join(["one", "hundred", "twenty", "three"]))), numeric) == Value(123)
  {
    EnglishWords();
    OneHundredTwentyThreeWords(English);
    Phrase(English, ["one", "hundred", "twenty", "three"], numeric);
  }

  /** A string of digits is a lone token and takes the numeric reading, in
      any vocabulary. */
  lemma DigitString(v: Vocabulary, numeric: string -> Option<int>)
    requires numeric("123") == Some(123)
    ensures Convert(v, Single(Str("123")), numeric) == Value(123)
  {
    TokenizeWord("123");
  }

  lemma DigitStringInList(v: Vocabulary, numeric: string -> Option<int>)
    requires numeric("123") == Some(123)
    ensures Convert(v, List([Str("123")]), numeric) == Value(123)
  {
    assert ShowAll([Str("123")]) == ["123"];
    TokenizeWord("123");
  }

  /** An integer is shown in decimal and read back. */
  lemma Integer(v: Vocabulary, numeric: string -> Option<int>)
    requires numeric("123") == Some(123)
    ensures Convert(v, Single(Int(123)), numeric) == Value(123)
  {
    assert Decimal(123) == "123";
    NaturalIntegerRoundTrip(v, 123, numeric);
  }

  lemma IntegerInList(v: Vocabulary, numeric: string -> Option<int>)
    requires numeric("123") == Some(123)
    ensures Convert(v, List([Int(123)]), numeric) == Value(123)
  {
    assert Decimal(123) == "123";
    assert ShowAll([Int(123)]) == ["123"];
    TokenizeWord("123");
  }

  // ---------------------------------------------------------------------
  // Edge cases

  lemma EnglishHasNoEmptyWord()
    ensures "" !in English.units && "" !in English.scales
  {
  }

  lemma UnitsWithoutGrammarWords(v: Vocabulary)
    requires WellFormed(v) && Unit(v, "one", 1) && Unit(v, "two", 2) && Unit(v, "three", 3)
    requires Scale(v, "thousand", 1000)
    ensures Plain(["one", "two", "three", "thousand"])
    ensures WordsValue(v, ["one", "two", "three", "thousand"]) == Value(6000)
  {
  }

  /** Unit words are added up with no check of their order: "one two three
      thousand" is six thousand. */
  lemma UnitsWithoutGrammar(numeric: string -> Option<int>)
    ensures Convert(English, Single(Str(Join(["one", "two", "three", "thousand"]))), numeric) == Value(6000)
  {
    EnglishWords();
    UnitsWithoutGrammarWords(English);
    Phrase(English, ["one", "two", "three", "thousand"], numeric);
  }

  lemma LoneHundredWords(v: Vocabulary)
    requires WellFormed(v)
    ensures "hundred" != [] && SeparatorFree("hundred")
    ensures WordsValue(v, ["hundred"]) == UnknownWord("hundred")
  {
  }

  /** "hundred" with nothing before it to multiply is an unknown word. */
  lemma LoneHundred(numeric: string -> Option<int>)
    requires numeric("hundred").None?
    ensures Convert(English, Single(Str("hundred")), numeric) == UnknownWord("hundred")
  {
    EnglishWords();
    LoneHundredWords(English);
    LoneWord(English, "hundred", numeric);
  }

  lemma ThousandHundredWords(v: Vocabulary)
    requires WellFormed(v) && Scale(v, "thousand", 1000)
    ensures Join(["thousand", "hundred"]) == "thousand hundred" && Plain(["thousand", "hundred"])
    ensures WordsValue(v, ["thousand", "hundred"]) == UnknownWord("hundred")
  {
  }

  /** A scale word empties the current group, so a "hundred" right after it
      has nothing to multiply. */
  lemma ThousandHundred(numeric: string -> Option<int>)
    ensures Convert(English, Single(Str("thousand hundred")), numeric) == UnknownWord("hundred")
  {
    EnglishWords();
    ThousandHundredWords(English);
    Phrase(English, ["thousand", "hundred"], numeric);
  }

  /** A hyphen separates words as a space does. */
  lemma HyphenatedSeventyTwo(numeric: string -> Option<int>)
    ensures Convert(English, Single(Str("seventy-two")), numeric) == Value(72)
  {
    assert SameShape("seventy-two", "seventy two");
    SeparatorChoiceIrrelevant(English, "seventy-two", "seventy two", numeric);
    SeventyTwo(numeric);
  }

  /** A leading '-' is a separator, not a sign: it leaves an empty first word. */
  lemma MinusOne(numeric: string -> Option<int>)
    ensures Convert(English, Single(Str("-one")), numeric) == UnknownWord("")
  {
    EnglishHasNoEmptyWord();
    LeadingSeparatorFails(English, "-one", numeric);
  }

  lemma Blank(numeric: string -> Option<int>)
    ensures Convert(English, Single(Str(" ")), numeric) == UnknownWord("")
  {
    EnglishHasNoEmptyWord();
    LeadingSeparatorFails(English, " ", numeric);
  }

  lemma EmptyString(numeric: string -> Option<int>)
    ensures Convert(English, Single(Str("")), numeric) == NoValue
  {
  }

  lemma EmptyList(numeric: string -> Option<int>)
    ensures Convert(English, List([]), numeric) == NoValue
  {
  }

  lemma NegativeInteger(numeric: string -> Option<int>)
    ensures Convert(English, Single(Int(-123)), numeric) == UnknownWord("")
  {
    EnglishHasNoEmptyWord();
    NegativeIntegerFails(English, -123, numeric);
  }
}
