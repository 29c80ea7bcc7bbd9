/**
 The converter from English number words to integers. The working string
 is split into words; a lone word is first offered to a numeric reading,
 then every word is folded into two accumulators: `total`, the sum of the
 groups already closed by a scale word, and `current`, the group being built.

 The algorithm is stated over any Vocabulary (a table of unit words and a
 table of scale words); the converter itself runs it over English.
 */
module Text2Num {
  import opened Tables
  import opened Tokenizer

  datatype Option<T> = None | Some(value: T)

  /** What a conversion yields: no value for an empty input, a number, or
      the first word that could not be placed. */
  datatype Conversion = NoValue | Value(n: int) | UnknownWord(w: string)

  /** One element of an input: a string, or an integer. */
  datatype Item = Str(s: string) | Int(i: int)

  /** An input is a single item or a list of items. */
  datatype Input = Single(item: Item) | List(items: seq<Item>)

  // ---------------------------------------------------------------------
  // Normalisation of the input to one working string

  function Digit(d: nat): (c: char)
    requires d < 10
    ensures '0' <= c <= '9' && DigitValue(c) == d
  {
    "0123456789"[d]
  }

  /** The value of a digit character. */
  function DigitValue(c: char): int {
    c as int - '0' as int
  }

  /** The integer a string of decimal digits denotes, read most significant
      digit first. */
  function DigitsValue(s: string): int
    decreases |s|
  {
    if s == [] then 0 else 10 * DigitsValue(s[..|s| - 1]) + DigitValue(s[|s| - 1])
  }

  /** The decimal digits of a natural number, most significant first. Read
      back as a decimal numeral, they give the number. */
  function Digits(n: nat): (s: string)
    ensures |s| > 0
    ensures forall i :: 0 <= i < |s| ==> '0' <= s[i] <= '9'
    ensures DigitsValue(s) == n
    ensures s[0] == '0' ==> n == 0
  {
    if n < 10 then [Digit(n)]
    else
      var s := Digits(n / 10) + [Digit(n % 10)];
      assert s[..|s| - 1] == Digits(n / 10);
      s
  }

  /** The decimal rendering of an integer: a '-' for a negative one, then its digits. */
  function Decimal(n: int): string {
    if n < 0 then "-" + Digits(-n) else Digits(n)
  }

  /** The string an item stands for. */
  function Show(item: Item): string {
    match item
    case Str(s) => s
    case Int(i) => Decimal(i)
  }

  /** The strings the items of a list stand for, each in its place. */
  function ShowAll(items: seq<Item>): (r: seq<string>)
    ensures |r| == |items| && forall k :: 0 <= k < |items| ==> r[k] == Show(items[k])
  {
    if items == [] then [] else [Show(items[0])] + ShowAll(items[1..])
  }

  /** The working string: a list's items are shown and joined with single spaces. */
  function Normalize(input: Input): string {
    match input
    case Single(item) => Show(item)
    case List(items) => Join(ShowAll(items))
  }

  // ---------------------------------------------------------------------
  // The word-accumulation step

  datatype Accumulator = Accumulator(total: int, current: int)

  const Start: Accumulator := Accumulator(0, 0)

  /** The value the accumulators stand for once the words run out. */
  function Sum(acc: Accumulator): int {
    acc.total + acc.current
  }

  predicate NonNegative(acc: Accumulator) {
    acc.total >= 0 && acc.current >= 0
  }

  /** A word the step can place: a unit word, "hundred" after a non-zero
      group, or a scale word. */
  predicate Accepted(v: Vocabulary, acc: Accumulator, word: string) {
    word in v.units || (word == Hundred && acc.current != 0) || word in v.scales
  }

  /** Places one word into the accumulators, or fails. */
  function Step(v: Vocabulary, acc: Accumulator, word: string): (r: Option<Accumulator>)
    ensures r.Some? <==> Accepted(v, acc, word)
    ensures r.Some? && r.value.total != acc.total ==> word in v.scales && r.value.current == 0
  {
    if word in v.units then Some(Accumulator(acc.total, acc.current + v.units[word]))
    else if word == Hundred && acc.current != 0 then Some(Accumulator(acc.total, acc.current * 100))
    else if word in v.scales then Some(Accumulator(acc.total + acc.current * v.scales[word], 0))
    else None
  }

  /** Where the fold over the words ends: all words consumed, with the final
      accumulators, or stopped at a word it could not place. */
  datatype Scan = Consumed(acc: Accumulator) | Stopped(word: string)

  /** Folds Step over the words from the left, stopping at the first failure. */
  function Fold(v: Vocabulary, acc: Accumulator, words: seq<string>): (r: Scan)
    ensures r.Stopped? ==> r.word in words && r.word !in v.units && r.word !in v.scales
    decreases |words|
  {
    if words == [] then Consumed(acc)
    else
      match Step(v, acc, words[0])
      case None => Stopped(words[0])
      case Some(next) => Fold(v, next, words[1..])
  }

  /** The conversion of a finished fold: no partial total on failure. */
  function Finish(s: Scan): Conversion {
    match s
    case Consumed(acc) => Value(Sum(acc))
    case Stopped(w) => UnknownWord(w)
  }

  /** The value of a word sequence, starting from empty accumulators. */
  function WordsValue(v: Vocabulary, words: seq<string>): Conversion {
    Finish(Fold(v, Start, words))
  }

  /** The converter on a working string. `numeric` is the reading of a lone
      token as a number (a floating-point parse truncated to an integer);
      it answers None where that parse refuses the token. */
  function Parse(v: Vocabulary, text: string, numeric: string -> Option<int>): Conversion {
    if |text| == 0 then NoValue
    else
      var words := Tokenize(text);
      if |words| == 1 && numeric(words[0]).Some? then Value(numeric(words[0]).value)
      else WordsValue(v, words)
  }

  /** The converter on an input. */
  function Convert(v: Vocabulary, input: Input, numeric: string -> Option<int>): Conversion {
    Parse(v, Normalize(input), numeric)
  }

  /** The converter as the source runs it: normalise, refuse an empty string,
      split, try the numeric reading of a lone token, then accumulate. */
  method Text2Num(input: Input, numeric: string -> Option<int>) returns (r: Conversion)
    ensures r == Convert(English, input, numeric)
  {
    var text := Normalize(input);
    if |text| == 0 {
      return NoValue;
    }
    var words := Tokenize(text);
    if |words| == 1 {
      var fast := numeric(words[0]);
      if fast.Some? {
        return Value(fast.value);
      }
    }
    r := Accumulate(English, words);
  }

  /** The word loop: update the two accumulators word by word, leaving at
      the first word that cannot be placed. */
  method Accumulate(v: Vocabulary, words: seq<string>) returns (r: Conversion)
    ensures r == WordsValue(v, words)
  {
    var total, current := 0, 0;
    for i := 0 to |words|
      invariant Fold(v, Start, words) == Fold(v, Accumulator(total, current), words[i..])
    {
      var word := words[i];
      assert words[i..][0] == word && words[i..][1..] == words[i + 1..];
      if word in v.units {
        current := current + v.units[word];
      } else if word == Hundred && current != 0 {
        current := current * 100;
      } else if word in v.scales {
        total := total + current * v.scales[word];
        current := 0;
      } else {
        return UnknownWord(word);
      }
    }
    assert words[|words|..] == [];
    return Value(total + current);
  }

  // ---------------------------------------------------------------------
  // What one word does

  /** A unit word adds its value to the current group and leaves the total alone. */
  lemma UnitWordAdds(v: Vocabulary, acc: Accumulator, w: string, rest: seq<string>)
    requires w in v.units
    ensures Fold(v, acc, [w] + rest) == Fold(v, Accumulator(acc.total, acc.current + v.units[w]), rest)
  {
    assert ([w] + rest)[1..] == rest;
  }

  /** "hundred" after a non-zero group multiplies the group by 100. */
  lemma HundredMultiplies(v: Vocabulary, acc: Accumulator, rest: seq<string>)
    requires WellFormed(v) && acc.current != 0
    ensures Fold(v, acc, [Hundred] + rest) == Fold(v, Accumulator(acc.total, acc.current * 100), rest)
  {
    assert ([Hundred] + rest)[1..] == rest;
  }

  /** "hundred" with an empty group is looked up as a scale word, is not
      found, and stops the fold naming "hundred". */
  lemma HundredWithoutGroupFails(v: Vocabulary, acc: Accumulator, rest: seq<string>)
    requires WellFormed(v) && acc.current == 0
    ensures Fold(v, acc, [Hundred] + rest) == Stopped(Hundred)
  {
  }

  /** A scale word closes the group: current times the magnitude goes into
      the total and the group starts again from zero. */
  lemma ScaleWordFlushes(v: Vocabulary, acc: Accumulator, w: string, rest: seq<string>)
    requires WellFormed(v) && w in v.scales
    ensures Fold(v, acc, [w] + rest) == Fold(v, Accumulator(acc.total + acc.current * v.scales[w], 0), rest)
  {
    assert w !in v.units && w != Hundred;
    assert Step(v, acc, w) == Some(Accumulator(acc.total + acc.current * v.scales[w], 0));
    assert ([w] + rest)[0] == w && ([w] + rest)[1..] == rest;
  }

  /** A word the step cannot place ends the fold, naming that word, whatever follows. */
  lemma RejectedWordStops(v: Vocabulary, acc: Accumulator, w: string, rest: seq<string>)
    requires !Accepted(v, acc, w)
    ensures Fold(v, acc, [w] + rest) == Stopped(w)
  {
  }

  /** A step keeps the accumulators non-negative and never lowers their sum. */
  lemma StepMonotone(v: Vocabulary, acc: Accumulator, word: string)
    requires WellFormed(v) && NonNegative(acc) && Step(v, acc, word).Some?
    ensures NonNegative(Step(v, acc, word).value)
    ensures Sum(Step(v, acc, word).value) >= Sum(acc)
  {
    if word !in v.units && !(word == Hundred && acc.current != 0) {
      ProductAtLeast(acc.current, v.scales[word]);
    } else if word !in v.units {
      ProductAtLeast(acc.current, 100);
    }
  }

  lemma ProductAtLeast(a: int, b: int)
    requires a >= 0 && b >= 1
    ensures a * b >= a
  {
  }

  // ---------------------------------------------------------------------
  // The fold over a word sequence

  /** Continues a fold over more words, unless it has already stopped. */
  function Then(v: Vocabulary, s: Scan, words: seq<string>): Scan {
    match s
    case Stopped(w) => Stopped(w)
    case Consumed(acc) => Fold(v, acc, words)
  }

  /** Folding over two pieces is folding over the first, then over the second. */
  lemma {:induction false} FoldAppend(v: Vocabulary, acc: Accumulator, a: seq<string>, b: seq<string>)
    ensures Fold(v, acc, a + b) == Then(v, Fold(v, acc, a), b)
    decreases |a|
  {
    if a == [] {
      assert a + b == b;
    } else {
      assert (a + b)[0] == a[0] && (a + b)[1..] == a[1..] + b;
      match Step(v, acc, a[0])
      case None =>
      case Some(next) => FoldAppend(v, next, a[1..], b);
    }
  }

  /** From non-negative accumulators the fold stays non-negative and its sum
      never drops. */
  lemma {:induction false} FoldMonotone(v: Vocabulary, acc: Accumulator, words: seq<string>)
    requires WellFormed(v) && NonNegative(acc) && Fold(v, acc, words).Consumed?
    ensures NonNegative(Fold(v, acc, words).acc)
    ensures Sum(Fold(v, acc, words).acc) >= Sum(acc)
    decreases |words|
  {
    if words != [] {
      StepMonotone(v, acc, words[0]);
      FoldMonotone(v, Step(v, acc, words[0]).value, words[1..]);
    }
  }

  /** The sum of the values of unit words. */
  function UnitSum(v: Vocabulary, words: seq<string>): int
    requires forall i :: 0 <= i < |words| ==> words[i] in v.units
  {
    if words == [] then 0 else v.units[words[0]] + UnitSum(v, words[1..])
  }

  /** Unit words accumulate with no grammar check: a run of them adds up
      into the current group. */
  lemma {:induction false} UnitsAccumulate(v: Vocabulary, acc: Accumulator, words: seq<string>)
    requires forall i :: 0 <= i < |words| ==> words[i] in v.units
    ensures Fold(v, acc, words) == Consumed(Accumulator(acc.total, acc.current + UnitSum(v, words)))
    decreases |words|
  {
    if words != [] {
      UnitsAccumulate(v, Accumulator(acc.total, acc.current + v.units[words[0]]), words[1..]);
    }
  }

  /** The fold leaves at the first word it cannot place and names it; no
      partial result escapes. */
  lemma FirstRejectedStops(v: Vocabulary, acc: Accumulator, words: seq<string>, i: nat)
    requires i < |words|
    requires Fold(v, acc, words[..i]).Consumed?
    requires !Accepted(v, Fold(v, acc, words[..i]).acc, words[i])
    ensures Fold(v, acc, words) == Stopped(words[i])
  {
    assert words == words[..i] + words[i..];
    FoldAppend(v, acc, words[..i], words[i..]);
    assert words[i..] == [words[i]] + words[i + 1..];
  }

  /** Conversely, a stopped fold names a word that the words before it left
      unplaceable. */
  lemma {:induction false} StoppedAtRejected(v: Vocabulary, acc: Accumulator, words: seq<string>)
    requires Fold(v, acc, words).Stopped?
    ensures exists i :: (0 <= i < |words| && words[i] == Fold(v, acc, words).word &&
                         Fold(v, acc, words[..i]).Consumed? && !Accepted(v, Fold(v, acc, words[..i]).acc, words[i]))
    decreases |words|
  {
    assert words[..0] == [];
    match Step(v, acc, words[0])
    case None =>
    case Some(next) =>
      StoppedAtRejected(v, next, words[1..]);
      var j :| 0 <= j < |words[1..]| && words[1..][j] == Fold(v, next, words[1..]).word &&
        Fold(v, next, words[1..][..j]).Consumed? && !Accepted(v, Fold(v, next, words[1..][..j]).acc, words[1..][j]);
      assert words[..j + 1] == [words[0]] + words[1..][..j];
      assert words[..j + 1][1..] == words[1..][..j];
  }

  /** A word in neither table and other than "hundred" always stops the
      fold, at that word or at an earlier one. */
  lemma {:induction false} ForeignWordStops(v: Vocabulary, acc: Accumulator, words: seq<string>, i: nat)
    requires i < |words|
    requires words[i] !in v.units && words[i] != Hundred && words[i] !in v.scales
    ensures Fold(v, acc, words).Stopped?
    ensures Fold(v, acc, words).word in words[..i + 1]
    decreases i
  {
    match Step(v, acc, words[0])
    case None =>
    case Some(next) =>
      ForeignWordStops(v, next, words[1..], i - 1);
      assert words[1..][..i] == words[1..i + 1];
  }

  /** A sequence made only of table words is always consumed. */
  lemma {:induction false} TableWordsConsumed(v: Vocabulary, acc: Accumulator, words: seq<string>)
    requires forall i :: 0 <= i < |words| ==> words[i] in v.units || words[i] in v.scales
    ensures Fold(v, acc, words).Consumed?
    decreases |words|
  {
    if words != [] {
      TableWordsConsumed(v, Step(v, acc, words[0]).value, words[1..]);
    }
  }

  /** A fold result with its total raised by d. */
  function Shift(s: Scan, d: int): Scan {
    match s
    case Stopped(w) => Stopped(w)
    case Consumed(acc) => Consumed(Accumulator(acc.total + d, acc.current))
  }

  /** The total is only ever added to: starting from a larger total shifts
      the result by the same amount and changes nothing else. */
  lemma {:induction false} TotalOnlyAccumulates(v: Vocabulary, total: int, current: int, d: int, words: seq<string>)
    ensures Fold(v, Accumulator(total + d, current), words) == Shift(Fold(v, Accumulator(total, current), words), d)
    decreases |words|
  {
    if words != [] {
      match Step(v, Accumulator(total, current), words[0])
      case None =>
      case Some(next) =>
        TotalOnlyAccumulates(v, next.total, next.current, d, words[1..]);
    }
  }

  // ---------------------------------------------------------------------
  // The conversion of a working string

  /** Only the empty string yields no value; any other input is a number or an error. */
  lemma NoValueOnlyForEmpty(v: Vocabulary, text: string, numeric: string -> Option<int>)
    ensures Parse(v, text, numeric) == NoValue <==> |text| == 0
  {
  }

  /** A failed conversion names one of the words of the input, and that word
      is in neither table. */
  lemma UnknownWordIsAWord(v: Vocabulary, text: string, numeric: string -> Option<int>)
    requires Parse(v, text, numeric).UnknownWord?
    ensures Parse(v, text, numeric).w in Tokenize(text)
    ensures Parse(v, text, numeric).w !in v.units && Parse(v, text, numeric).w !in v.scales
  {
  }

  /** A numeric reading that gives a negative number only to a string
      holding '-', as a floating-point parse does. */
  ghost predicate SignedByHyphen(numeric: string -> Option<int>) {
    forall s :: numeric(s).Some? && numeric(s).value < 0 ==> '-' in s
  }

  /** Every number the converter yields is non-negative: the tables hold no
      negative value, and '-' is a separator, so it never reaches the
      numeric reading of a lone token. */
  lemma ResultNonNegative(v: Vocabulary, text: string, numeric: string -> Option<int>)
    requires WellFormed(v) && SignedByHyphen(numeric)
    requires Parse(v, text, numeric).Value?
    ensures Parse(v, text, numeric).n >= 0
  {
    var words := Tokenize(text);
    if |words| == 1 && numeric(words[0]).Some? {
      assert SeparatorFree(words[0]);
      assert '-' !in words[0];
    } else {
      FoldMonotone(v, Start, words);
    }
  }

  /** The numeric reading is only consulted for a lone token: for any other
      input two readings give the same result. */
  lemma NumericOnlyForLoneToken(v: Vocabulary, text: string, numeric1: string -> Option<int>, numeric2: string -> Option<int>)
    requires |Tokenize(text)| != 1
    ensures Parse(v, text, numeric1) == Parse(v, text, numeric2)
  {
  }

  /** A lone token the numeric reading refuses is read as a word. */
  lemma LoneTokenFallsThrough(v: Vocabulary, text: string, numeric: string -> Option<int>)
    requires |text| > 0 && |Tokenize(text)| == 1 && numeric(Tokenize(text)[0]).None?
    ensures Parse(v, text, numeric) == WordsValue(v, Tokenize(text))
  {
  }

  /** Hyphens and whitespace are interchangeable separators. */
  lemma SeparatorChoiceIrrelevant(v: Vocabulary, s: string, t: string, numeric: string -> Option<int>)
    requires SameShape(s, t)
    ensures Parse(v, s, numeric) == Parse(v, t, numeric)
  {
    SeparatorsInterchangeable(s, t);
  }

  /** A leading separator produces an empty first word, which is unknown:
      the conversion fails naming the empty word. */
  lemma LeadingSeparatorFails(v: Vocabulary, text: string, numeric: string -> Option<int>)
    requires "" !in v.units && "" !in v.scales
    requires |text| > 0 && IsSeparator(text[0])
    ensures Parse(v, text, numeric) == UnknownWord("")
  {
    LeadingRunTokens(text);
    var words := Tokenize(text);
    RejectedWordStops(v, Start, words[0], words[1..]);
    assert words == [words[0]] + words[1..];
  }

  lemma {:induction false} LeadingRunTokens(s: string)
    requires |s| > 0 && IsSeparator(s[0])
    ensures |Tokenize(s)| >= 2 && Tokenize(s)[0] == ""
    decreases |s|
  {
    if |s| > 1 && IsSeparator(s[1]) {
      LeadingRunTokens(s[1..]);
    }
  }

  // ---------------------------------------------------------------------
  // The conversion of an input

  /** A negative integer input fails: its '-' sign is read as a separator,
      leaving an empty first word. */
  lemma NegativeIntegerFails(v: Vocabulary, n: int, numeric: string -> Option<int>)
    requires "" !in v.units && "" !in v.scales
    requires n < 0
    ensures Convert(v, Single(Int(n)), numeric) == UnknownWord("")
  {
    LeadingSeparatorFails(v, Decimal(n), numeric);
  }

  /** A non-negative integer input comes back unchanged, where the numeric
      reading of its decimal form agrees with the decimal numeral it is. */
  lemma NaturalIntegerRoundTrip(v: Vocabulary, n: int, numeric: string -> Option<int>)
    requires n >= 0 && numeric(Decimal(n)) == Some(DigitsValue(Decimal(n)))
    ensures Convert(v, Single(Int(n)), numeric) == Value(n)
  {
    assert SeparatorFree(Digits(n));
    TokenizeWord(Digits(n));
  }

  /** The strings of a list of words are exactly the words the fold reads. */
  lemma ListItemsAreWords(v: Vocabulary, items: seq<Item>, numeric: string -> Option<int>)
    requires |items| > 1
    requires forall i :: 0 <= i < |items| ==> items[i].Str? && items[i].s != [] && SeparatorFree(items[i].s)
    ensures Convert(v, List(items), numeric) == WordsValue(v, ShowAll(items))
  {
    TokenizeJoin(ShowAll(items));
  }
}
