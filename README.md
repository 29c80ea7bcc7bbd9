# text2num in Dafny

A model of `text2num`, a function that turns English number words such as
"twelve thousand three hundred four" into their integer value, and proofs
about it.

The converter works in four steps:

1. It normalises its input to one working string. A list is shown item by
   item and joined with single spaces. Anything else is shown on its own.
2. An empty working string gives "no value". This is not zero and not an
   error.
3. The string is split at every run of whitespace and hyphen characters.
   When that yields one token, the token is first tried as a number. This
   path parses a float and truncates it to an integer.
4. Otherwise every word is folded into two accumulators. `total` holds the
   groups already closed by a scale word. `current` holds the group being
   built. The rules for each word are:
   - a unit word (zero … ninety) adds its value to `current`;
   - "hundred" multiplies a non-zero `current` by 100;
   - a scale word (thousand … decillion) adds `current` times its
     magnitude to `total` and resets `current`;
   - any other word aborts the whole conversion, naming that word.

   The result is `total + current`.

The project has four modules:

- `Tables` (`tables.dfy`):
  - the two vocabularies, exactly as the source lists them;
  - `Vocabulary`, a pair of unit table and scale table;
  - `English`, the source's pair;
  - `WellFormed`, the shape of a vocabulary that the algorithm relies on.
- `Tokenizer` (`tokenizer.dfy`):
  - the separator split `Tokenize`;
  - the single-space join `Join`, which list inputs use;
  - the lemmas relating the two.
- `Text2Num` (`text2num.dfy`):
  - the specification functions `Step`, `Fold`, `WordsValue`, `Parse` and
    `Convert`, stated over any vocabulary;
  - the imperative converter: method `Text2Num` over `English`, built on
    the loop method `Accumulate`;
  - the lemmas about the algorithm.
- `SelfTest` (`selftest.dfy`): every assertion of the source's self-test
  and every conversion it prints, plus edge cases, as lemmas over `English`.

The algorithm is stated over a `Vocabulary` parameter rather than over the
two constant tables. This keeps its proofs independent of the tables'
28 + 11 entries. The converter itself, method `Text2Num`, and the self-test
lemmas use `English`, and `Tables.EnglishWellFormed` proves that `English`
has the required shape.

The float parse of a lone token is a parameter of the model,
`numeric: string -> Option<int>`: `Some(n)` where the parse succeeds, with
`n` its truncation, and `None` where it raises `ValueError`. Python 2's `\s`
without the Unicode flag is ASCII whitespace: space, tab, line feed,
carriage return, form feed and vertical tab. Together with `-`, these are
the separators.

Two consequences of the split are worth stating:

- The regular-expression split at text2num.py:88 keeps the empty fragment
  before a leading separator run and the one after a trailing run, and the
  empty word is in neither table. So "-one" and " " fail naming the empty
  word (`Text2Num.LeadingSeparatorFails`, `SelfTest.MinusOne`, `SelfTest.Blank`).
- For the same reason a negative integer input fails rather than coming
  back (`Text2Num.NegativeIntegerFails`): its decimal form at text2num.py:83
  starts with '-', which the split at line 88 treats as a separator.

## Model

| member | source | states |
|---|---|---|
| Tables.SmallNumbersInRange | text2num.py:29-58 | every unit word has a value between 0 and 90 |
| Tables.MagnitudesArePowersOfThousand | text2num.py:60-72 | the scale words are exactly the eleven words thousand … decillion, and the i-th of them (from 0) is worth 1000^(i+1) |
| Tables.MagnitudesStepByThousand | text2num.py:60-72 | thousand is 1000, and each scale word is worth 1000 times the one before it |
| Tables.MagnitudesAtLeastThousand | text2num.py:60-72 | every scale word is worth at least 1000 |
| Tables.HundredInNeitherTable | text2num.py:29-72 | "hundred" is in neither table, so only the special case at line 103 can place it |
| Tables.TablesDisjoint | text2num.py:29-72 | no scale word is also a unit word, so the order of the two lookups never matters |
| Tables.EnglishWellFormed | text2num.py:29-72 | the source's tables have non-negative unit values, scale values of at least 1, no shared word, and no entry for "hundred" |
| Tokenizer.IsSeparator | text2num.py:88 | the character class `[\s-]` without the Unicode flag: space, tab, line feed, carriage return, form feed, vertical tab and `-` (no contract; `SeparatorsInterchangeable` and the split lemmas use it) |
| Tokenizer.Tokenize | text2num.py:88 | the split yields at least one token; no token holds a separator; no inner token is empty; the first token is non-empty when the text starts with a non-separator; the tokens laid end to end are the text without its separators |
| Tokenizer.TokenizeWord | text2num.py:88 | a separator-free string splits into itself alone |
| Tokenizer.TokenizeWordThenRun | text2num.py:88 | a word followed by a run of separators of any kind and length is cut off as one token |
| Tokenizer.RunThenRest | text2num.py:88 | a leading run of separators yields exactly one empty token |
| Tokenizer.TokenizeJoin | text2num.py:81-88 | splitting undoes joining with single spaces: non-empty separator-free words come back unchanged |
| Tokenizer.JoinAppend | text2num.py:81 | joining two non-empty lists is joining each and putting one space between |
| Tokenizer.SeparatorsInterchangeable | text2num.py:88 | two strings that differ only in which separator characters they use split into the same tokens |
| Text2Num.Digits | text2num.py:83 | the decimal form of a natural number is non-empty, made only of digits, has no leading zero unless the number is 0, and read back as a decimal numeral gives the number |
| Text2Num.Decimal | text2num.py:83 | `str()` of an integer: a '-' and the digits of its magnitude when negative, its digits otherwise (no contract; `NegativeIntegerFails` and `NaturalIntegerRoundTrip` carry its properties) |
| Text2Num.ShowAll | text2num.py:81 | the list comprehension `[str(item) for item in number]`: one string per item, each the item shown, in order |
| Text2Num.Normalize | text2num.py:80-83 | the working string: a list's shown items joined with single spaces, any other input shown (no contract; `ListItemsAreWords` and `NoValueOnlyForEmpty` carry its properties) |
| Tokenizer.Join | text2num.py:81 | `' '.join`: the words separated by single spaces (no contract; `JoinAppend` and `TokenizeJoin` carry its properties) |
| Text2Num.Parse | text2num.py:85-112 | no value for the empty text; a lone token is offered to the numeric reading; otherwise the word fold (no contract; `NoValueOnlyForEmpty`, `ResultNonNegative`, `UnknownWordIsAWord`, `NumericOnlyForLoneToken` and `LoneTokenFallsThrough` carry its properties) |
| Text2Num.Convert | text2num.py:79-112 | the whole conversion: normalise the input, then parse it (no contract; `Text2Num.Text2Num` is proved equal to it over English, and the lemmas on `Parse` carry its properties) |
| Text2Num.Step | text2num.py:100-111 | a word is placed exactly when it is a unit word, "hundred" after a non-zero group, or a scale word; the total changes only for a scale word, which also resets the group |
| Text2Num.Fold | text2num.py:99-111 | a fold that stops names a word of the input that is in neither table |
| Text2Num.Text2Num | text2num.py:79-112 | the imperative converter over the source's tables returns what `Convert` specifies for every input and numeric reading |
| Text2Num.Accumulate | text2num.py:97-112 | the word loop returns `UnknownWord` of the first unplaceable word, or else `Value(total + current)`, exactly as the fold `WordsValue` specifies |
| Text2Num.UnitWordAdds | text2num.py:100-102 | a unit word adds its value to the current group and leaves the total alone |
| Text2Num.HundredMultiplies | text2num.py:103-104 | "hundred" after a non-zero group multiplies the group by 100 |
| Text2Num.HundredWithoutGroupFails | text2num.py:103-111 | "hundred" with an empty group falls through to the scale lookup and stops the conversion naming "hundred" |
| Text2Num.ScaleWordFlushes | text2num.py:105-109 | a scale word adds the group times its magnitude to the total and resets the group to 0 |
| Text2Num.RejectedWordStops | text2num.py:110-111 | a word the step cannot place ends the fold naming it, whatever follows |
| Text2Num.StepMonotone | text2num.py:100-109 | from non-negative accumulators a step keeps them non-negative and never lowers their sum |
| Text2Num.FoldAppend | text2num.py:99-111 | folding over two pieces is folding over the first, then continuing over the second unless it stopped |
| Text2Num.FoldMonotone | text2num.py:97-112 | a completed fold from non-negative accumulators ends non-negative, with a sum no smaller than at the start |
| Text2Num.UnitsAccumulate | text2num.py:100-102 | a run of unit words, in any order, just adds up into the current group |
| Text2Num.FirstRejectedStops | text2num.py:99-111 | when the words before position i are consumed and word i cannot be placed, the fold stops naming word i |
| Text2Num.StoppedAtRejected | text2num.py:99-111 | conversely, a stopped fold names some word i that the words before it left unplaceable |
| Text2Num.ForeignWordStops | text2num.py:110-111 | a word in neither table and other than "hundred" always stops the fold, at that word or at an earlier one |
| Text2Num.TableWordsConsumed | text2num.py:99-109 | a sequence made only of table words is always consumed |
| Text2Num.TotalOnlyAccumulates | text2num.py:105-109 | raising the starting total by d raises the final total by d and changes nothing else |
| Text2Num.NoValueOnlyForEmpty | text2num.py:85-86 | the conversion yields no value if and only if the working string is empty |
| Text2Num.UnknownWordIsAWord | text2num.py:88-111 | a failed conversion names one of the tokens of the input, and that token is in neither table |
| Text2Num.ResultNonNegative | text2num.py:88-112 | every value the converter yields is non-negative, given a numeric reading that yields negatives only for strings holding '-' |
| Text2Num.NumericOnlyForLoneToken | text2num.py:92-96 | the numeric reading matters only when the split yields one token |
| Text2Num.LoneTokenFallsThrough | text2num.py:92-112 | a lone token the numeric reading refuses is converted as a word |
| Text2Num.SeparatorChoiceIrrelevant | text2num.py:88 | hyphens and whitespace are interchangeable in the input |
| Text2Num.LeadingSeparatorFails | text2num.py:88-111 | a text that starts with a separator fails naming the empty word |
| Text2Num.LeadingRunTokens | text2num.py:88 | a text that starts with a separator splits into an empty token followed by at least one more |
| Text2Num.NegativeIntegerFails | text2num.py:83-111 | a negative integer input fails naming the empty word, because its sign is a separator |
| Text2Num.NaturalIntegerRoundTrip | text2num.py:83-96 | a non-negative integer input comes back unchanged when the numeric reading of its decimal form agrees with the decimal numeral it is (`DigitsValue`) |
| Text2Num.ListItemsAreWords | text2num.py:80-81 | a list of two or more non-empty, separator-free strings is converted as exactly those words |
| SelfTest.Phrase | text2num.py:88 | a phrase made of its words joined by single spaces is converted as those words, whatever the numeric reading |
| SelfTest.LoneWord | text2num.py:92-97 | a single word the numeric reading refuses is converted as a word |
| SelfTest.One | text2num.py:115 | "one" converts to 1 |
| SelfTest.Twelve | text2num.py:116 | "twelve" converts to 12 |
| SelfTest.SeventyTwo | text2num.py:117 | "seventy two" converts to 72 |
| SelfTest.ThreeHundred | text2num.py:118 | "three hundred" converts to 300 |
| SelfTest.TwelveHundred | text2num.py:119 | "twelve hundred" converts to 1200 |
| SelfTest.TwelveThousandThreeHundredFour | text2num.py:120 | "twelve thousand three hundred four" converts to 12304 |
| SelfTest.SixMillion | text2num.py:121 | "six million" converts to 6000000 |
| SelfTest.SixMillionFourHundredThousandFive | text2num.py:122 | "six million four hundred thousand five" converts to 6400005 |
| SelfTest.TwelveDigits | text2num.py:123 | "one hundred twenty three billion four hundred fifty six million seven hundred eighty nine thousand twelve" converts to 123456789012 |
| SelfTest.FourDecillion | text2num.py:124 | "four decillion" converts to 4·10^33 |
| SelfTest.OneHundredTwentyThreeList | text2num.py:136 | the list ["one", "hundred", "twenty", "three"] converts to 123 |
| SelfTest.OneHundredTwentyThree | text2num.py:137 | "one hundred twenty three" converts to 123 |
| SelfTest.DigitString | text2num.py:138 | "123" converts to 123 when the numeric reading of "123" is 123 |
| SelfTest.DigitStringInList | text2num.py:139 | the list ["123"] converts to 123 likewise |
| SelfTest.Integer | text2num.py:140 | the integer 123 converts to 123 likewise |
| SelfTest.IntegerInList | text2num.py:141 | the list [123] converts to 123 likewise |
| SelfTest.UnitsWithoutGrammar | text2num.py:100-109 | "one two three thousand" converts to 6000: unit words are summed with no check of their order |
| SelfTest.LoneHundred | text2num.py:103-111 | "hundred" alone fails naming "hundred" |
| SelfTest.ThousandHundred | text2num.py:103-111 | "thousand hundred" fails naming "hundred", because the scale word left the group empty |
| SelfTest.HyphenatedSeventyTwo | text2num.py:88 | "seventy-two" converts to 72 |
| SelfTest.MinusOne | text2num.py:88-111 | "-one" fails naming the empty word |
| SelfTest.Blank | text2num.py:88-111 | " " fails naming the empty word |
| SelfTest.EmptyString | text2num.py:85-86 | "" gives no value |
| SelfTest.EmptyList | text2num.py:80-86 | the empty list gives no value |
| SelfTest.NegativeInteger | text2num.py:83-111 | the integer -123 fails naming the empty word |

## Left out

- The float parse `int(float(token))` is the parameter `numeric`. The model does not contain a float parser, floating-point rounding, or the loss of precision for large digit strings. So an integer input is proved to come back unchanged only where the reading of its decimal form agrees with the numeral's exact value (`Text2Num.NaturalIntegerRoundTrip`).
- An `OverflowError` from the float parse ("inf") escapes the source uncaught. `numeric` has no outcome for it.
- `str()` of objects other than strings and integers is not modelled. Inputs are strings, integers, and lists of them, as the source's comment at line 78 lists.
- A Dafny `string` stands for a Python 2 byte string, or for text made only of ASCII characters. `str()` of a `unicode` argument holding a non-ASCII character raises `UnicodeEncodeError` (text2num.py:83, and line 81 for a list item). That error path is not modelled: `Show` passes every string through unchanged, so such an input gives `UnknownWord` where the source raises.
- Unicode whitespace is not a separator. The source's pattern has no Unicode flag, so `\s` means ASCII whitespace.
- The `len(words) == 0` branch (text2num.py:90-91) is not modelled. A regular-expression split always yields at least one fragment, and `Tokenizer.Tokenize` proves `|r| >= 1`.
- The `re` library is replaced by `Tokenizer.Tokenize`, written directly for the one pattern the source uses.
- The exception class `NumberException` (text2num.py:74-76) and its message are not modelled. A failed conversion is the value `UnknownWord(w)`, which carries the word.
- The self-test's assertions are stated as lemmas. The phrases with more than two words are stated as `Join` of their word list, which is the same string as the phrase. Proving long literal strings equal character by character is expensive for the verifier, so the literal phrase itself is not written out.
