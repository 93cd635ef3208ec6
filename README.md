# unitobfuscator in Dafny

unitobfuscator rewrites a measurement such as `"5 meters"` in odd historical
units. It has two parts:
- The alias table `defaultAliases`. It holds two default aliases, applied to
  every input, and one alias each for `liter`, `meter` and `gram`.
- The routine `obfuscate`, which works in five steps:
  1. It drops one trailing `s` or `S`.
  2. It reads the leading integer.
  3. It takes the unit that follows.
  4. It builds a numerator and a denominator out of the aliases, and scales
     the amount.
  5. It returns `"<amount> <numerator> per <denominator>"`.

The project has four modules:

- `Wrappers` declares `Option`, used where the program gets no value: a key
  that `indexOf` does not find, or a `parseInt` that gives NaN.
- `Text` models the JavaScript string operations the routine uses, over
  `seq<char>`: `indexOf` (`IndexOf`, `Contains`), `replace` with a string
  pattern (`ReplaceFirst`), one-argument `substr` (`Substr`) and
  `split(' ')[0]` (`FirstField`). It also holds the space-joined (`Join`) and
  space-led (`SpaceLed`) lists the routine accumulates, and the lemmas that
  let a prefix pass through replacement untouched.
- `Numerals` models `parseInt` on a word that starts with decimal digits
  (`ParseInt`) and `toString` of a natural number (`DecimalString`). It proves
  that reading the text back returns the number (`ParseDecimal`).
- `UnitObfuscator` models the rest:
  - The table: `AliasTable`, `WellFormed`.
  - The amount: `Amount`, with NaN for an input that has no number.
  - A closed-form reference for the fraction the routine builds:
    `DefaultPass`, `UnitPass`, `Obfuscation` and `Render`.
  - The routine itself, as imperative methods that follow the source's
    loops: `ReadQuantity`, `VisitDefaults`, `VisitUnit`, `VisitKey`,
    `VisitKeys` and `Obfuscate`. They are proved to compute `Render` of
    `Obfuscation`.
  - The properties of that reference, for every table and for the program's
    own table, plus worked inputs.

`Obfuscate` takes the table as a parameter `t`. It requires only the shape
the loop relies on: the `'default'` key first and nowhere else, and an entry
for every other key. The program's own table is `AliasTable`, and
`AliasTableIsWellFormed` proves it has that shape.

Only the printing of the final amount is left abstract: `Obfuscate` takes it
as the parameter `render`, and a NaN amount prints as `"NaN"`. The printing
of the parsed integer, which decides where the unit starts (line 42), is
modelled by `IntegerText` and `DecimalString`.

Two behaviours of the code are easy to misread; the model follows the code:
- **When a unit alias applies.** The header comment says the other aliases
  "replace an SI unit" (unitobfuscator.js:5). The code applies an alias
  whenever its key occurs anywhere in the numerator built so far (lines
  62-63), so the key can sit inside a longer word or be the output of an
  earlier replacement. `KilogramScenario` and `ReplacementCreatesMatch` show
  both cases.
- **Where the unit starts.** The unit is not cut at the space after the
  written number. It is cut after the printed length of the parsed number
  plus one (line 42). A number written with a leading zero therefore shifts
  the unit (`LeadingZeroShiftsUnit`).

## Model

| member | source | states |
|---|---|---|
| UnitObfuscator.Obfuscate | unitobfuscator.js:35-70 | for a table of the required shape, the returned string is the amount text, a space, the numerator, `" per "` and the denominator of the reference fraction `Obfuscation` |
| UnitObfuscator.ReadQuantity | unitobfuscator.js:37-42 | the amount and unit the routine reads are those `SplitQuantity` gives for the depluralised input |
| UnitObfuscator.VisitDefaults | unitobfuscator.js:50-61 | the `'default'` branch leaves: the amount times the product of every default multiplier; the numerator followed by each default name and a space, then the original unit; the denominator followed by a space and each reference unit, less its first character |
| UnitObfuscator.VisitUnit | unitobfuscator.js:62-65 | a non-default key replaces its first occurrence in the numerator and applies its factor, or changes nothing when it does not occur; the denominator is not touched |
| UnitObfuscator.VisitKey | unitobfuscator.js:49-65 | one round of the key loop: before key 0 nothing has been done, and after the default key or a unit key the state is one visit further along the pass that ends at the obfuscation |
| UnitObfuscator.VisitKeys | unitobfuscator.js:44-66 | the key loop, run from empty texts over every key in table order, ends at the reference fraction |
| UnitObfuscator.AliasTableIsWellFormed | unitobfuscator.js:19-33 | the program's table has `'default'` first and then exactly the keys `liter`, `meter`, `gram`, in that order; each key has an entry and holds no space |
| UnitObfuscator.AliasTableUnits | unitobfuscator.js:26-32 | the three unit entries: puncheon 0.003145, furlong 0.004971, scrupulum 1.14 |
| UnitObfuscator.AliasTableDefaultPass | unitobfuscator.js:20-23 | after the defaults of the program's table, the numerator is `"square hogshead firkin "` followed by the unit, the denominator is `"US butt rundlet siliqua"`, and the amount is the parsed value times 1/(3.5*0.5) times 40823.3133/(1/0.19) |
| UnitObfuscator.Depluralise | unitobfuscator.js:37-39 | the result is a prefix of the input at most one character shorter, and it is shorter exactly when the input is non-empty and ends in `s` or `S` |
| UnitObfuscator.SplitQuantity | unitobfuscator.js:41-42 | the amount is NaN exactly when the text does not start with a digit, and the unit is a suffix of the text |
| UnitObfuscator.Scale | unitobfuscator.js:55 | multiplying keeps NaN as NaN and a number as a number |
| UnitObfuscator.IntegerText | unitobfuscator.js:42 | the text of a NaN amount is three characters long |
| UnitObfuscator.TrailingEssIgnored | unitobfuscator.js:37-39 | adding one `s` or `S` to an input that does not already end in one leaves the obfuscation unchanged |
| UnitObfuscator.DepluraliseAppend | unitobfuscator.js:37-39 | only the last character can be stripped, so stripping a concatenation strips its non-empty last part |
| UnitObfuscator.CanonicalInput | unitobfuscator.js:41-42 | the input `"<n> <unit>"`, with n written in decimal, reads as amount n and the depluralised unit |
| UnitObfuscator.FirstFieldOfDigits | unitobfuscator.js:41 | the first word of digits followed by a space and anything is the digits |
| UnitObfuscator.LeadingZeroShiftsUnit | unitobfuscator.js:41-42 | `"05 meter"` reads as amount 5 and unit `" meter"`, because the unit is cut at the length of `"5"` |
| UnitObfuscator.NonNumericAmount | unitobfuscator.js:41-42 | text that does not start with a digit reads as NaN, with the unit from its fifth character on (`"NaN".length + 1`) |
| UnitObfuscator.DefaultsPrefixStep | unitobfuscator.js:52-56 | one more default alias extends the names by its name and a space, the space-led references by a space and its reference, and the factor by its multiplier |
| UnitObfuscator.DefaultNamesStep | unitobfuscator.js:53 | `textTop += name + ' '` keeps the numerator equal to the start plus the names visited so far |
| UnitObfuscator.DefaultReferencesStep | unitobfuscator.js:54 | `textBottom += ' ' + reference` keeps the denominator equal to the start plus the space-led references visited so far |
| UnitObfuscator.DefaultFactorStep | unitobfuscator.js:55 | `amount *= multiplier` keeps the amount equal to the start times the factor of the defaults visited so far |
| UnitObfuscator.DefaultBranchIsDefaultPass | unitobfuscator.js:50-61 | what the `'default'` branch leaves, starting from empty texts, is the reference default pass: the names, then the unit, over the space-joined references |
| UnitObfuscator.ObfuscationLoopStart | unitobfuscator.js:48-61 | after the default pass, the visits of the remaining keys lead to the obfuscation |
| UnitObfuscator.ObfuscationLoopStep | unitobfuscator.js:48-65 | visiting key i moves the state one key further along the same pass |
| UnitObfuscator.PassReachesAtEnd | unitobfuscator.js:48 | once no key is left, the state is the obfuscation |
| UnitObfuscator.UnitPassKeepsBottom | unitobfuscator.js:62-65 | unit aliases never change the denominator |
| UnitObfuscator.UnitPassWithoutMatches | unitobfuscator.js:62-65 | a numerator that holds none of the keys leaves the whole pass unchanged, amount included |
| UnitObfuscator.UnitPassBehindPrefix | unitobfuscator.js:61-63 | a prefix that ends in a space and holds no key is left untouched by the pass, which rewrites what follows it exactly as it would rewrite that text alone |
| UnitObfuscator.MatchedKeys | unitobfuscator.js:62 | the keys found at their turn are among the visited keys |
| UnitObfuscator.UnitPassAmount | unitobfuscator.js:62-64 | the final amount is the amount before the pass times the factor of each key that matched at its turn; the matched keys form a subsequence of the table's keys, so each is applied at most once and in table order |
| UnitObfuscator.KeysMissFromDefaultNames | unitobfuscator.js:21-32 | none of `liter`, `meter`, `gram` occurs in the default names |
| UnitObfuscator.UnitKeysFitBehindDefaults | unitobfuscator.js:21-32 | the default names end in a space, and every unit key of the program's table is space-free and absent from them |
| UnitObfuscator.ObfuscationShape | unitobfuscator.js:35-66 | over the program's table, every result is the default names followed by the unit as the unit pass rewrites it, over the reference units, with the amount times both default factors and, through the pass, the factor of each key matched |
| UnitObfuscator.DefaultsAlwaysPresent | unitobfuscator.js:53-61 | for every input, the numerator starts with `"square hogshead firkin "` and the denominator is `"US butt rundlet siliqua"` |
| UnitObfuscator.CanonicalObfuscation | unitobfuscator.js:35-66 | a canonical input `"<n> <unit>"` obfuscates as the default names followed by the unit pass of the depluralised unit, with amount n times both default factors |
| UnitObfuscator.UnitPassOfThree | unitobfuscator.js:48-65 | a pass over three keys is the three visits in turn |
| UnitObfuscator.VisitAt | unitobfuscator.js:62-64 | a key whose first occurrence follows `front` is replaced in place, with everything before and after it kept, and its factor applied |
| UnitObfuscator.MeterUnitPass | unitobfuscator.js:29 | over the program's table, the unit `meter` becomes `furlong` with the factor 0.004971 and nothing else applies |
| UnitObfuscator.LiterUnitPass | unitobfuscator.js:26 | the unit `liter` becomes `puncheon` with the factor 0.003145 and nothing else applies |
| UnitObfuscator.WidgetUnitPass | unitobfuscator.js:62-65 | a unit that holds no key passes unchanged |
| UnitObfuscator.KilogramUnitPass | unitobfuscator.js:32 | `kilogram` becomes `kiloscrupulum`: the key matches inside the word, only that part is replaced, and the factor 1.14 applies |
| UnitObfuscator.MeterramFirstVisits | unitobfuscator.js:62-64 | on `meterram` the key `liter` misses and `meter` turns the unit into `furlongram` |
| UnitObfuscator.FurlongramGramVisit | unitobfuscator.js:62-64 | on `furlongram` the key `gram` matches behind `furlon` |
| UnitObfuscator.MeterramUnitPass | unitobfuscator.js:62-64 | `meterram` becomes `furlonscrupulum` with both the meter and the gram factor |
| UnitObfuscator.MeterScenario | unitobfuscator.js:35-66 | `"1 meters"` gives amount 1 times both default factors times 0.004971, the numerator `"square hogshead firkin furlong"` and the default denominator |
| UnitObfuscator.LiterScenario | unitobfuscator.js:35-66 | `"3 liters"` gives amount 3 times both default factors times 0.003145 over `puncheon` |
| UnitObfuscator.UnknownUnitScenario | unitobfuscator.js:35-66 | `"1 widget"` keeps the unit `widget`, and only the default factors apply |
| UnitObfuscator.KilogramScenario | unitobfuscator.js:35-66 | `"2 kilograms"` gives `kiloscrupulum` with amount 2 times both default factors times 1.14 |
| UnitObfuscator.ReplacementCreatesMatch | unitobfuscator.js:62-65 | `"meterram"` holds no `gram`, yet `"1 meterram"` ends as `furlonscrupulum` with both factors: keys are looked for in the text built so far, not in the input |
| Text.IndexFrom | unitobfuscator.js:62 | the result is the least occurrence at or after the start, or none when the key occurs nowhere from there on |
| Text.IndexOf | unitobfuscator.js:62 | `indexOf` finds an occurrence with no occurrence before it, and finds none only when there is none |
| Text.Contains | unitobfuscator.js:62 | `indexOf(key) != -1` holds exactly when the key occurs somewhere |
| Text.IndexOfIsLeast | unitobfuscator.js:62 | an occurrence with none before it is the one `indexOf` reports |
| Text.ReplaceFirst | unitobfuscator.js:63 | replacing a key that does not occur leaves the text as it is |
| Text.ReplaceFirstAt | unitobfuscator.js:63 | when the text is front + key + back and the key does not occur earlier, `replace` gives front + name + back |
| Text.MissingCharacterRulesOut | unitobfuscator.js:62 | a key with a character that does not occur in the text cannot be found in it |
| Text.ReplaceBehindPrefix | unitobfuscator.js:61-63 | behind a prefix that ends in a space and holds no occurrence of a space-free key, the key is found, and replaced, exactly as in the rest alone |
| Text.Substr | unitobfuscator.js:42 | `substr(start)` is the suffix from `start` on, and empty once `start` passes the end |
| Text.FirstField | unitobfuscator.js:41 | `split(' ')[0]` is a space-free prefix that stops at the first space |
| Text.TrimmedSpaceLedIsJoin | unitobfuscator.js:54-57 | dropping the first character of the space-led references gives them joined by single spaces, with no space at either end |
| Numerals.DecimalString | unitobfuscator.js:42 | `toString` of a natural is a non-empty string of digits with no leading zero |
| Numerals.LeadingDigits | unitobfuscator.js:41 | the digits `parseInt` reads are the longest prefix of digits |
| Numerals.ParseInt | unitobfuscator.js:41 | `parseInt` gives NaN exactly when the word does not start with a digit |
| Numerals.DigitsValueOfDecimal | unitobfuscator.js:41-42 | the value of the decimal text of n is n |
| Numerals.LeadingDigitsOfRun | unitobfuscator.js:41 | a run of digits followed by a non-digit reads as that run |
| Numerals.ParseDecimal | unitobfuscator.js:41-42 | `parseInt` of the text of n, followed by anything that does not start with a digit, gives n |

## Left out

- Floating point: amounts are exact reals, and the multipliers are their exact decimal values. IEEE-754 rounding of `amount *= m` is not modelled.
- UnitObfuscator.AmountText: printing a number (`Number.prototype.toString`, including exponent notation) is the parameter `render`, left abstract; only NaN's text `"NaN"` is fixed.
- Numerals.ParseInt: reads only leading decimal digits. Several inputs to `parseInt` are not covered:
  - A sign (`"-5 meter"` reads as NaN here and as -5 in the program).
  - Leading whitespace other than the space `split` removes.
  - A `0x` prefix.
  - Integers too large to be exact in a double.
- UnitObfuscator.IntegerText: for parsed integers of 10^21 or more the text is the plain digits, but JavaScript prints such a number in exponent form (10^21 prints as `"1e+21"`). So for those inputs the program cuts the unit at a different position (index 6 instead of 23 for 10^21).
- Strings are sequences of Unicode scalar values, while JavaScript's `length`, `charAt` and `substr` count UTF-16 code units. After a character outside the Basic Multilingual Plane these positions differ. For example, NaN input `"\u{1F600}abcd"` gives the unit `"cd"` in the program (`substr(4)` skips two code units for the emoji) and `"d"` in the model. Inputs made of BMP characters, such as every canonical input, are unaffected.
- Case mapping: only the characters `s` and `S` count as a trailing `s`. The model does not do `toLowerCase` on other characters.
- Text.ReplaceFirst: the model does not handle `$` replacement patterns in the replacement text; no alias name in the table contains `$`.
- Object.keys order: the key order is written out explicitly as `Table.keys`.
- The implicit globals `textTop` and `defaultAliasesArray` (lines 44 and 46): the model keeps them as local variables and does not keep the global state they leak.
- The commented-out output format (line 68) and the header comment (lines 3-17) are documentation, not code.
