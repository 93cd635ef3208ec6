/** unitobfuscator.js: rewrite "<amount> <unit>" in whimsical historical units.
    The alias table, the routine `obfuscate` as an imperative method, a
    closed-form reference for what it computes, and the properties of both. */
module UnitObfuscator {
  import opened Wrappers
  import opened Text
  import opened Numerals

  // ---------------------------------------------------------------------------
  // The alias table
  // ---------------------------------------------------------------------------

  /** A default alias: the unit name added to the numerator, the reference
      unit added to the denominator, and the factor applied to the amount. */
  datatype DefaultAlias = DefaultAlias(name: string, reference: string, multiplier: real)

  /** A unit alias: the name that replaces its key, and the factor such that
      one unit of the key is `multiplier` units of the name. */
  datatype UnitAlias = UnitAlias(name: string, multiplier: real)

  /** An alias table: its keys in declaration order (the order in which
      `Object.keys` lists them), the list under the `'default'` key, and the
      entries under the other keys. */
  datatype Table = Table(keys: seq<string>, defaults: seq<DefaultAlias>, units: map<string, UnitAlias>)

  const DefaultKey: string := "default"

  /** `defaultAliases`, the table the program declares. */
  const AliasTable: Table := Table(
    [DefaultKey, "liter", "meter", "gram"],
    [ DefaultAlias("square hogshead", "US butt rundlet", 1.0 / (3.5 * 0.5)),
      DefaultAlias("firkin", "siliqua", 40823.3133 / (1.0 / 0.19)) ],
    map[
      "liter" := UnitAlias("puncheon", 0.003145),
      "meter" := UnitAlias("furlong", 0.004971),
      "gram" := UnitAlias("scrupulum", 1.14)
    ])

  /** The shape of table `obfuscate` relies on: the `'default'` key comes
      first and nowhere else, and every other key has an entry. */
  predicate WellFormed(t: Table) {
    && |t.keys| > 0
    && t.keys[0] == DefaultKey
    && forall i :: 1 <= i < |t.keys| ==> t.keys[i] != DefaultKey && t.keys[i] in t.units
  }

  /** The keys after the default one, in order. */
  function UnitKeys(t: Table): (ks: seq<string>)
    requires WellFormed(t)
    ensures forall k :: k in ks ==> k in t.units
  {
    t.keys[1..]
  }

  /** The program's table has that shape, with `liter`, `meter` and `gram`
      after the defaults, none of them holding a space. */
  lemma AliasTableIsWellFormed()
    ensures WellFormed(AliasTable)
    ensures UnitKeys(AliasTable) == ["liter", "meter", "gram"]
    ensures forall k :: k in UnitKeys(AliasTable) ==> ' ' !in k
  {
  }

  // ---------------------------------------------------------------------------
  // Amounts
  // ---------------------------------------------------------------------------

  /** The running amount: a number, or NaN when the input had no number. */
  datatype Amount = NaN | Number(value: real)

  /** `amount *= m`; NaN absorbs every factor. */
  function Scale(a: Amount, m: real): (b: Amount)
    ensures b.NaN? <==> a.NaN?
  {
    match a
    case NaN => NaN
    case Number(v) => Number(v * m)
  }

  /** The amount `parseInt` produced. */
  function Start(parsed: Option<nat>): Amount
  {
    match parsed
    case None => NaN
    case Some(n) => Number(n as real)
  }

  /** `amount.toString()` right after parsing: the digits of the integer, or "NaN". */
  function IntegerText(parsed: Option<nat>): (t: string)
    ensures parsed.None? ==> |t| == 3
  {
    match parsed
    case None => "NaN"
    case Some(n) => DecimalString(n)
  }

  /** The final amount as text. How JavaScript prints a number is not modelled:
      `render` stands for it; a NaN amount prints "NaN". */
  function AmountText(a: Amount, render: real -> string): string
  {
    match a
    case NaN => "NaN"
    case Number(v) => render(v)
  }

  // ---------------------------------------------------------------------------
  // Depluralisation and parsing
  // ---------------------------------------------------------------------------

  predicate IsEss(c: char) {
    c == 's' || c == 'S'
  }

  /** Drop one trailing `s` or `S`. At most one character goes, and it goes
      exactly when it is an `s` or `S`; the empty string stays as it is. */
  function Depluralise(s: string): (r: string)
    ensures r <= s && |s| - |r| <= 1
    ensures |r| < |s| <==> |s| > 0 && IsEss(s[|s| - 1])
  {
    if |s| > 0 && IsEss(s[|s| - 1]) then s[..|s| - 1] else s
  }

  /** What the routine reads from its (depluralised) input. */
  datatype Quantity = Quantity(amount: Option<nat>, unit: string)

  /** The amount is `parseInt` of the first word; the unit is the rest of the
      string after as many characters as the amount's text has, plus one. */
  function SplitQuantity(s: string): (q: Quantity)
    ensures q.amount.None? <==> s == [] || !IsDigit(s[0])
    ensures |q.unit| <= |s| && q.unit == s[|s| - |q.unit|..]
  {
    var parsed := ParseInt(FirstField(s));
    Quantity(parsed, Substr(s, |IntegerText(parsed)| + 1))
  }

  // ---------------------------------------------------------------------------
  // Reference definition of what obfuscate computes
  // ---------------------------------------------------------------------------

  /** The amount with the numerator and denominator texts it is expressed in. */
  datatype Fraction = Fraction(amount: Amount, top: string, bottom: string)

  /** Each alias name followed by a space. */
  function AliasNames(ds: seq<DefaultAlias>): string
  {
    if ds == [] then "" else AliasNames(ds[..|ds| - 1]) + ds[|ds| - 1].name + " "
  }

  /** The reference units, in order. */
  function References(ds: seq<DefaultAlias>): seq<string>
  {
    if ds == [] then [] else References(ds[..|ds| - 1]) + [ds[|ds| - 1].reference]
  }

  /** The product of the multipliers. */
  function Factor(ds: seq<DefaultAlias>): real
  {
    if ds == [] then 1.0 else Factor(ds[..|ds| - 1]) * ds[|ds| - 1].multiplier
  }

  /** The state after the `'default'` key: every default alias name, then the
      original unit, over the space-joined reference units. */
  function DefaultPass(t: Table, q: Quantity): Fraction
  {
    Fraction(Scale(Start(q.amount), Factor(t.defaults)),
             AliasNames(t.defaults) + q.unit,
             Join(References(t.defaults)))
  }

  /** The visit of one non-default key: if it occurs in the numerator, its
      first occurrence becomes the alias name and the amount takes the factor. */
  function VisitUnitKey(t: Table, f: Fraction, key: string): Fraction
    requires key in t.units
  {
    if Contains(f.top, key) then
      f.(top := ReplaceFirst(f.top, key, t.units[key].name),
         amount := Scale(f.amount, t.units[key].multiplier))
    else f
  }

  /** The visits of `keys`, first to last. */
  function UnitPass(t: Table, keys: seq<string>, f: Fraction): Fraction
    requires forall k :: k in keys ==> k in t.units
    decreases |keys|
  {
    if keys == [] then f else UnitPass(t, keys[1..], VisitUnitKey(t, f, keys[0]))
  }

  /** The fraction `obfuscate(s)` builds over table `t`. */
  function Obfuscation(t: Table, s: string): Fraction
    requires WellFormed(t)
  {
    UnitPass(t, UnitKeys(t), DefaultPass(t, SplitQuantity(Depluralise(s))))
  }

  /** `amount + ' ' + textTop + ' per ' + textBottom`. */
  function Render(f: Fraction, render: real -> string): string
  {
    AmountText(f.amount, render) + " " + f.top + " per " + f.bottom
  }

  // ---------------------------------------------------------------------------
  // The routine
  // ---------------------------------------------------------------------------

  /** One more default alias extends each accumulation by that alias. */
  lemma DefaultsPrefixStep(ds: seq<DefaultAlias>, x: nat)
    requires x < |ds|
    ensures AliasNames(ds[..x + 1]) == AliasNames(ds[..x]) + ds[x].name + " "
    ensures SpaceLed(References(ds[..x + 1])) == SpaceLed(References(ds[..x])) + " " + ds[x].reference
    ensures Factor(ds[..x + 1]) == Factor(ds[..x]) * ds[x].multiplier
  {
    assert ds[..x + 1][..x] == ds[..x];
    var refs := References(ds[..x + 1]);
    assert refs[..|refs| - 1] == References(ds[..x]);
  }

  /** The numerator step of the `'default'` loop. */
  lemma DefaultNamesStep(ds: seq<DefaultAlias>, x: nat, top0: string, top: string)
    requires x < |ds|
    requires top == top0 + AliasNames(ds[..x])
    ensures top + ds[x].name + " " == top0 + AliasNames(ds[..x + 1])
  {
    DefaultsPrefixStep(ds, x);
    var names := AliasNames(ds[..x]);
    assert top0 + names + ds[x].name + " " == top0 + (names + ds[x].name + " ");
  }

  /** The denominator step of the `'default'` loop. */
  lemma DefaultReferencesStep(ds: seq<DefaultAlias>, x: nat, bottom0: string, bottom: string)
    requires x < |ds|
    requires bottom == bottom0 + SpaceLed(References(ds[..x]))
    ensures bottom + " " + ds[x].reference == bottom0 + SpaceLed(References(ds[..x + 1]))
  {
    DefaultsPrefixStep(ds, x);
    var spaced := SpaceLed(References(ds[..x]));
    assert bottom0 + spaced + " " + ds[x].reference == bottom0 + (spaced + " " + ds[x].reference);
  }

  /** The amount step of the `'default'` loop. */
  lemma DefaultFactorStep(ds: seq<DefaultAlias>, x: nat, amount0: Amount, amount: Amount)
    requires x < |ds|
    requires amount == Scale(amount0, Factor(ds[..x]))
    ensures Scale(amount, ds[x].multiplier) == Scale(amount0, Factor(ds[..x + 1]))
  {
    DefaultsPrefixStep(ds, x);
    if amount0.Number? {
      var v, f, m := amount0.value, Factor(ds[..x]), ds[x].multiplier;
      assert v * f * m == v * (f * m);
    }
  }

  /** After the `'default'` key, the default branch has built the default pass
      of what it read. */
  lemma DefaultBranchIsDefaultPass(t: Table, parsed: Option<nat>, originalUnit: string,
                                   top0: string, bottom0: string,
                                   amount: Amount, top: string, bottom: string)
    requires top0 == "" && bottom0 == ""
    requires amount == Scale(Start(parsed), Factor(t.defaults))
    requires top == top0 + AliasNames(t.defaults) + originalUnit
    requires bottom == Substr(bottom0 + SpaceLed(References(t.defaults)), 1)
    ensures Fraction(amount, top, bottom) == DefaultPass(t, Quantity(parsed, originalUnit))
  {
    TrimmedSpaceLedIsJoin(References(t.defaults));
    assert top0 + AliasNames(t.defaults) == AliasNames(t.defaults);
    assert bottom0 + SpaceLed(References(t.defaults)) == SpaceLed(References(t.defaults));
  }

  /** The pass over the keys from `i` on takes `f` to `target`. */
  ghost predicate PassReaches(t: Table, i: nat, f: Fraction, target: Fraction)
    requires WellFormed(t) && 0 < i <= |t.keys|
  {
    UnitPass(t, t.keys[i..], f) == target
  }

  /** The default pass starts the unit pass over the remaining keys. */
  lemma ObfuscationLoopStart(t: Table, s: string, f: Fraction)
    requires WellFormed(t)
    requires f == DefaultPass(t, SplitQuantity(Depluralise(s)))
    ensures PassReaches(t, 1, f, Obfuscation(t, s))
  {
  }

  /** Visiting key `i` moves the pass over the keys from `i` on one key further. */
  lemma ObfuscationLoopStep(t: Table, i: nat, before: Fraction, after: Fraction, target: Fraction)
    requires WellFormed(t) && 0 < i < |t.keys|
    requires PassReaches(t, i, before, target)
    requires after == VisitUnitKey(t, before, t.keys[i])
    ensures PassReaches(t, i + 1, after, target)
  {
    assert t.keys[i..][1..] == t.keys[i + 1..];
  }

  /** Once every key is visited, the pass has reached its target. */
  lemma PassReachesAtEnd(t: Table, f: Fraction, target: Fraction)
    requires WellFormed(t)
    requires PassReaches(t, |t.keys|, f, target)
    ensures f == target
  {
    assert t.keys[|t.keys|..] == [];
  }

  /** The `'default'` branch of `obfuscate`: append each default alias name and
      a space to the numerator, a space and each reference unit to the
      denominator, apply each default multiplier, then drop the denominator's
      first character and put the original unit after the default names. */
  method VisitDefaults(defaults: seq<DefaultAlias>, amount0: Amount, top0: string, bottom0: string,
                       originalUnit: string)
    returns (amount: Amount, textTop: string, textBottom: string)
    ensures amount == Scale(amount0, Factor(defaults))
    ensures textTop == top0 + AliasNames(defaults) + originalUnit
    ensures textBottom == Substr(bottom0 + SpaceLed(References(defaults)), 1)
  {
    amount, textTop, textBottom := amount0, top0, bottom0;
    for x := 0 to |defaults|
      invariant textTop == top0 + AliasNames(defaults[..x])
      invariant textBottom == bottom0 + SpaceLed(References(defaults[..x]))
      invariant amount == Scale(amount0, Factor(defaults[..x]))
    {
      DefaultNamesStep(defaults, x, top0, textTop);
      DefaultReferencesStep(defaults, x, bottom0, textBottom);
      DefaultFactorStep(defaults, x, amount0, amount);
      textTop := textTop + defaults[x].name + " ";
      textBottom := textBottom + " " + defaults[x].reference;
      amount := Scale(amount, defaults[x].multiplier);
    }
    assert defaults[..|defaults|] == defaults;
    textBottom := Substr(textBottom, 1);
    textTop := textTop + originalUnit;
  }

  /** The start of `obfuscate`: strip a trailing `s` or `S`, parse the first
      word as the amount, and take the unit after the amount's text and a space. */
  method ReadQuantity(originalData: string) returns (parsed: Option<nat>, originalUnit: string)
    ensures Quantity(parsed, originalUnit) == SplitQuantity(Depluralise(originalData))
  {
    var data := originalData;
    if |data| > 0 && IsEss(data[|data| - 1]) {
      data := data[..|data| - 1];
    }
    assert data == Depluralise(originalData);
    parsed := ParseInt(FirstField(data));
    originalUnit := Substr(data, |IntegerText(parsed)| + 1);
  }

  /** A non-default key of `obfuscate`: if it occurs in the numerator, its
      first occurrence becomes the alias name and the amount takes the factor. */
  method VisitUnit(t: Table, key: string, amount0: Amount, top0: string, bottom: string)
    returns (amount: Amount, textTop: string)
    requires key in t.units
    ensures Fraction(amount, textTop, bottom) == VisitUnitKey(t, Fraction(amount0, top0, bottom), key)
  {
    amount, textTop := amount0, top0;
    if Contains(textTop, key) {
      textTop := ReplaceFirst(textTop, key, t.units[key].name);
      amount := Scale(amount, t.units[key].multiplier);
    }
  }

  /** Where the key loop of `obfuscate` stands before key `i`: nothing done
      yet at the start, and afterwards on course for `target`. */
  ghost predicate Visited(t: Table, start: Amount, target: Fraction, i: nat, f: Fraction)
    requires WellFormed(t) && i <= |t.keys|
  {
    if i == 0 then f == Fraction(start, "", "") else PassReaches(t, i, f, target)
  }

  /** One round of the key loop of `obfuscate`: the `'default'` key runs the
      default branch, any other key the unit branch. */
  method VisitKey(t: Table, parsed: Option<nat>, originalUnit: string, ghost target: Fraction, i: nat,
                  amount0: Amount, top0: string, bottom0: string)
    returns (amount: Amount, textTop: string, textBottom: string)
    requires WellFormed(t) && i < |t.keys|
    requires PassReaches(t, 1, DefaultPass(t, Quantity(parsed, originalUnit)), target)
    requires Visited(t, Start(parsed), target, i, Fraction(amount0, top0, bottom0))
    ensures Visited(t, Start(parsed), target, i + 1, Fraction(amount, textTop, textBottom))
  {
    var key := t.keys[i];
    if key == DefaultKey {
      assert i == 0;
      amount, textTop, textBottom := VisitDefaults(t.defaults, amount0, top0, bottom0, originalUnit);
      DefaultBranchIsDefaultPass(t, parsed, originalUnit, top0, bottom0, amount, textTop, textBottom);
    } else {
      assert i > 0;
      textBottom := bottom0;
      amount, textTop := VisitUnit(t, key, amount0, top0, bottom0);
      ObfuscationLoopStep(t, i, Fraction(amount0, top0, bottom0), Fraction(amount, textTop, textBottom), target);
    }
  }

  /** The key loop of `obfuscate`, from the amount and unit it read: visit the
      keys in order (the defaults, then each unit key found in the numerator). */
  method VisitKeys(t: Table, parsed: Option<nat>, originalUnit: string, ghost target: Fraction)
    returns (amount: Amount, textTop: string, textBottom: string)
    requires WellFormed(t)
    requires PassReaches(t, 1, DefaultPass(t, Quantity(parsed, originalUnit)), target)
    ensures Fraction(amount, textTop, textBottom) == target
  {
    amount := Start(parsed);
    textTop, textBottom := "", "";
    for i := 0 to |t.keys|
      invariant Visited(t, Start(parsed), target, i, Fraction(amount, textTop, textBottom))
    {
      amount, textTop, textBottom := VisitKey(t, parsed, originalUnit, target, i, amount, textTop, textBottom);
    }
    PassReachesAtEnd(t, Fraction(amount, textTop, textBottom), target);
  }

  /** `obfuscate(originalData)` over table `t` (the program runs it over
      `AliasTable`): strip a trailing s, read the amount and unit, run the key
      loop, then write `amount + ' ' + textTop + ' per ' + textBottom`. */
  method Obfuscate(t: Table, originalData: string, render: real -> string) returns (result: string)
    requires WellFormed(t)
    ensures result == Render(Obfuscation(t, originalData), render)
  {
    var parsed, originalUnit := ReadQuantity(originalData);
    ObfuscationLoopStart(t, originalData, DefaultPass(t, Quantity(parsed, originalUnit)));
    var amount, textTop, textBottom := VisitKeys(t, parsed, originalUnit, Obfuscation(t, originalData));
    result := AmountText(amount, render) + " " + textTop + " per " + textBottom;
  }

  // ---------------------------------------------------------------------------
  // Depluralisation and parsing
  // ---------------------------------------------------------------------------

  /** Only the last character can be stripped, so a non-empty end decides. */
  lemma DepluraliseAppend(p: string, u: string)
    requires u != []
    ensures Depluralise(p + u) == p + Depluralise(u)
  {
  }

  /** A trailing `s` or `S` on a string that does not already end in one
      makes no difference to the result. */
  lemma TrailingEssIgnored(t: Table, s: string, c: char)
    requires WellFormed(t)
    requires IsEss(c) && (s == [] || !IsEss(s[|s| - 1]))
    ensures Obfuscation(t, s + [c]) == Obfuscation(t, s)
  {
    assert Depluralise(s + [c]) == s;
    assert Depluralise(s) == s;
  }

  /** A canonical input "<n> <unit>", with `n` in decimal without leading
      zeros, reads as the amount `n` and the (depluralised) unit. */
  lemma CanonicalInput(n: nat, unit: string)
    ensures SplitQuantity(Depluralise(DecimalString(n) + " " + unit)) == Quantity(Some(n), Depluralise(unit))
  {
    var digits := DecimalString(n);
    var s := Depluralise(digits + " " + unit);
    if unit == [] {
      assert s == digits + " ";
    } else {
      DepluraliseAppend(digits + " ", unit);
    }
    assert s == digits + (" " + Depluralise(unit));
    FirstFieldOfDigits(digits, Depluralise(unit));
    ParseDecimal(n, "");
    assert digits + "" == digits;
    assert s[|digits| + 1..] == Depluralise(unit);
  }

  /** The first word of digits, a space and anything is the digits. */
  lemma {:induction false} FirstFieldOfDigits(digits: string, u: string)
    requires AllDigits(digits)
    ensures FirstField(digits + (" " + u)) == digits
  {
    if digits == [] {
      assert digits + (" " + u) == " " + u;
    } else {
      assert (digits + (" " + u))[1..] == digits[1..] + (" " + u);
      FirstFieldOfDigits(digits[1..], u);
      assert [digits[0]] + digits[1..] == digits;
    }
  }

  /** The unit is read after the length of the parsed number's own text, not
      after the digits written: a leading zero shifts it by one, so
      "05 meter" reads as 5 and the unit " meter". */
  lemma LeadingZeroShiftsUnit()
    ensures SplitQuantity("05 meter") == Quantity(Some(5), " meter")
  {
    assert FirstField("05 meter") == "05" by {
      assert "05 meter"[1..] == "5 meter";
      assert "5 meter"[1..] == " meter";
    }
    assert LeadingDigits("05") == "05" by {
      assert "05"[1..] == "5";
      assert "5"[1..] == "";
    }
    assert "05"[..1] == "0";
    assert DigitsValue("05") == 5;
    assert DecimalString(5) == "5";
  }

  /** Without a leading digit the amount is NaN, whose text "NaN" is three
      characters long, so the unit is what follows the fourth character. */
  lemma NonNumericAmount(s: string)
    requires s == [] || !IsDigit(s[0])
    ensures SplitQuantity(s) == Quantity(None, Substr(s, 4))
  {
  }

  // ---------------------------------------------------------------------------
  // The default pass
  // ---------------------------------------------------------------------------

  /** The product of the two default factors. */
  const DefaultFactor: real := 1.0 / (3.5 * 0.5) * (40823.3133 / (1.0 / 0.19))

  /** The two default alias names, each followed by a space. */
  const DefaultNames: string := "square hogshead firkin "

  /** The two default reference units, joined by a space. */
  const DefaultReferences: string := "US butt rundlet siliqua"

  /** Both default names come before the original unit, each followed by one
      space; the denominator is the two reference units joined by one space;
      the amount takes both default factors. */
  lemma AliasTableDefaultPass(q: Quantity)
    ensures DefaultPass(AliasTable, q) ==
      Fraction(Scale(Start(q.amount), DefaultFactor),
               DefaultNames + q.unit,
               DefaultReferences)
  {
    var ds := AliasTable.defaults;
    assert ds[..|ds| - 1] == ds[..1] && ds[..1][..0] == [];
    assert AliasNames(ds[..1]) == "square hogshead ";
    assert AliasNames(ds) == DefaultNames;
    assert References(ds[..1]) == ["US butt rundlet"];
    assert References(ds) == ["US butt rundlet", "siliqua"];
    var refs := References(ds);
    assert refs[..|refs| - 1] == ["US butt rundlet"];
    assert Join(refs) == DefaultReferences;
    assert Factor(ds) == 1.0 / (3.5 * 0.5) * (40823.3133 / (1.0 / 0.19));
  }

  // ---------------------------------------------------------------------------
  // The unit pass
  // ---------------------------------------------------------------------------

  /** Unit aliases only ever touch the numerator and the amount. */
  lemma {:induction false} UnitPassKeepsBottom(t: Table, keys: seq<string>, f: Fraction)
    requires forall k :: k in keys ==> k in t.units
    ensures UnitPass(t, keys, f).bottom == f.bottom
    decreases |keys|
  {
    if keys != [] {
      UnitPassKeepsBottom(t, keys[1..], VisitUnitKey(t, f, keys[0]));
    }
  }

  /** A numerator that holds none of the keys passes the unit pass unchanged,
      amount included. */
  lemma {:induction false} UnitPassWithoutMatches(t: Table, keys: seq<string>, f: Fraction)
    requires forall k :: k in keys ==> k in t.units && !Contains(f.top, k)
    ensures UnitPass(t, keys, f) == f
    decreases |keys|
  {
    if keys != [] {
      assert VisitUnitKey(t, f, keys[0]) == f;
      UnitPassWithoutMatches(t, keys[1..], f);
    }
  }

  /** A prefix that ends in a space and holds none of the (space-free) keys
      comes through the unit pass untouched: the pass rewrites only what
      follows it, exactly as it would rewrite that text alone. */
  lemma {:induction false} UnitPassBehindPrefix(t: Table, keys: seq<string>, p: string, f: Fraction)
    requires |p| > 0 && p[|p| - 1] == ' '
    requires forall k :: k in keys ==> k in t.units && ' ' !in k && !Contains(p, k)
    ensures UnitPass(t, keys, f.(top := p + f.top)) == UnitPass(t, keys, f).(top := p + UnitPass(t, keys, f).top)
    decreases |keys|
  {
    if keys != [] {
      var k := keys[0];
      ReplaceBehindPrefix(p, f.top, k, t.units[k].name);
      var g := VisitUnitKey(t, f, k);
      assert VisitUnitKey(t, f.(top := p + f.top), k) == g.(top := p + g.top);
      UnitPassBehindPrefix(t, keys[1..], p, g);
    }
  }

  /** The keys whose visit found them in the numerator, in visiting order. */
  function MatchedKeys(t: Table, keys: seq<string>, top: string): (matched: seq<string>)
    requires forall k :: k in keys ==> k in t.units
    ensures forall k :: k in matched ==> k in keys
    decreases |keys|
  {
    if keys == [] then []
    else if Contains(top, keys[0]) then
      [keys[0]] + MatchedKeys(t, keys[1..], ReplaceFirst(top, keys[0], t.units[keys[0]].name))
    else MatchedKeys(t, keys[1..], top)
  }

  /** The product of the factors of `keys`. */
  function KeyFactor(t: Table, keys: seq<string>): real
    requires forall k :: k in keys ==> k in t.units
  {
    if keys == [] then 1.0 else t.units[keys[0]].multiplier * KeyFactor(t, keys[1..])
  }

  /** `xs` is `ys` with some elements left out, the rest in their order. */
  predicate IsSubsequence(xs: seq<string>, ys: seq<string>)
    decreases |ys|
  {
    if xs == [] then true
    else if ys == [] then false
    else (xs[0] == ys[0] && IsSubsequence(xs[1..], ys[1..])) || IsSubsequence(xs, ys[1..])
  }

  /** The amount after the unit pass is the amount before it times the factor
      of each key that matched at its turn; the matched keys are some of the
      visited keys, each used once and in order. */
  lemma {:induction false} UnitPassAmount(t: Table, keys: seq<string>, f: Fraction)
    requires forall k :: k in keys ==> k in t.units
    ensures UnitPass(t, keys, f).amount == Scale(f.amount, KeyFactor(t, MatchedKeys(t, keys, f.top)))
    ensures IsSubsequence(MatchedKeys(t, keys, f.top), keys)
    decreases |keys|
  {
    if keys != [] {
      var k := keys[0];
      var g := VisitUnitKey(t, f, k);
      UnitPassAmount(t, keys[1..], g);
      var rest := MatchedKeys(t, keys[1..], g.top);
      if Contains(f.top, k) {
        assert MatchedKeys(t, keys, f.top) == [k] + rest;
        assert ([k] + rest)[1..] == rest;
        assert KeyFactor(t, [k] + rest) == t.units[k].multiplier * KeyFactor(t, rest);
      } else {
        assert g == f;
        assert MatchedKeys(t, keys, f.top) == rest;
        ScaleOne(f.amount);
        SubsequenceOfTail(rest, keys);
      }
    }
  }

  /** Scale by one is no change. */
  lemma ScaleOne(a: Amount)
    ensures Scale(a, 1.0) == a
  {
  }

  /** A subsequence of the tail is a subsequence of the whole. */
  lemma SubsequenceOfTail(xs: seq<string>, ys: seq<string>)
    requires ys != [] && IsSubsequence(xs, ys[1..])
    ensures IsSubsequence(xs, ys)
  {
  }

  // ---------------------------------------------------------------------------
  // The whole routine over the program's table
  // ---------------------------------------------------------------------------

  /** The default names hold no `l` and no `m`, so neither can start a unit key. */
  lemma DefaultNamesLetters()
    ensures 'l' !in DefaultNames && 'm' !in DefaultNames
  {
  }

  lemma DefaultNamesEndInSpace()
    ensures |DefaultNames| > 0 && DefaultNames[|DefaultNames| - 1] == ' '
  {
  }

  /** No unit key occurs among the default names. */
  lemma KeysMissFromDefaultNames()
    ensures !Contains(DefaultNames, "liter")
    ensures !Contains(DefaultNames, "meter")
    ensures !Contains(DefaultNames, "gram")
  {
    DefaultNamesLetters();
    MissingCharacterRulesOut(DefaultNames, "liter", 0);
    MissingCharacterRulesOut(DefaultNames, "meter", 0);
    MissingCharacterRulesOut(DefaultNames, "gram", 3);
  }

  /** What the unit pass needs to leave the default names alone: they end in
      a space, and every unit key is space-free and absent from them. */
  lemma UnitKeysFitBehindDefaults()
    ensures WellFormed(AliasTable)
    ensures |DefaultNames| > 0 && DefaultNames[|DefaultNames| - 1] == ' '
    ensures forall k :: k in UnitKeys(AliasTable) ==> k in AliasTable.units && ' ' !in k && !Contains(DefaultNames, k)
  {
    AliasTableIsWellFormed();
    KeysMissFromDefaultNames();
    DefaultNamesEndInSpace();
  }

  /** The shape of every result: the numerator starts with both default
      names, which the unit pass never alters, and continues with the unit as
      the unit pass rewrites it; the denominator is the reference units; the
      amount is the parsed number times both default factors times the factor
      of every key matched in the unit, in table order. */
  lemma ObfuscationShape(s: string)
    ensures WellFormed(AliasTable)
    ensures var q := SplitQuantity(Depluralise(s));
            var g := UnitPass(AliasTable, UnitKeys(AliasTable),
                              Fraction(Scale(Start(q.amount), DefaultFactor),
                                       q.unit, DefaultReferences));
            Obfuscation(AliasTable, s) == g.(top := DefaultNames + g.top)
  {
    AliasTableIsWellFormed();
    var keys := UnitKeys(AliasTable);
    var q := SplitQuantity(Depluralise(s));
    AliasTableDefaultPass(q);
    var f := Fraction(Scale(Start(q.amount), DefaultFactor), q.unit, DefaultReferences);
    assert Obfuscation(AliasTable, s) == UnitPass(AliasTable, keys, f.(top := DefaultNames + f.top));
    UnitKeysFitBehindDefaults();
    UnitPassBehindPrefix(AliasTable, keys, DefaultNames, f);
  }

  /** Whatever the input, the numerator begins with the default names and the
      denominator is the default reference units. */
  lemma DefaultsAlwaysPresent(s: string)
    ensures DefaultNames <= Obfuscation(AliasTable, s).top
    ensures Obfuscation(AliasTable, s).bottom == DefaultReferences
  {
    ObfuscationShape(s);
    var q := SplitQuantity(Depluralise(s));
    AliasTableIsWellFormed();
    UnitPassKeepsBottom(AliasTable, UnitKeys(AliasTable),
      Fraction(Scale(Start(q.amount), DefaultFactor), q.unit, DefaultReferences));
  }

  // ---------------------------------------------------------------------------
  // Worked inputs
  // ---------------------------------------------------------------------------

  /** A pass over three keys is the three visits in turn. */
  lemma UnitPassOfThree(t: Table, a: string, b: string, c: string, f: Fraction)
    requires a in t.units && b in t.units && c in t.units
    ensures UnitPass(t, [a, b, c], f) == VisitUnitKey(t, VisitUnitKey(t, VisitUnitKey(t, f, a), b), c)
  {
    var f1 := VisitUnitKey(t, f, a);
    var f2 := VisitUnitKey(t, f1, b);
    assert [a, b, c][1..] == [b, c] && [b, c][1..] == [c] && [c][1..] == [];
    assert UnitPass(t, [a, b, c], f) == UnitPass(t, [b, c], f1);
    assert UnitPass(t, [b, c], f1) == UnitPass(t, [c], f2);
  }

  /** A visit whose key first occurs after `front` replaces it there and takes its factor. */
  lemma VisitAt(t: Table, f: Fraction, key: string, front: string, back: string)
    requires key in t.units
    requires f.top == front + key + back
    requires forall j: nat :: j < |front| ==> !OccursAt(f.top, key, j)
    ensures VisitUnitKey(t, f, key) ==
      Fraction(Scale(f.amount, t.units[key].multiplier), front + t.units[key].name + back, f.bottom)
  {
    ReplaceFirstAt(f.top, key, t.units[key].name, front, back);
  }

  /** The entries of the program's table. */
  lemma AliasTableUnits()
    ensures AliasTable.units["liter"] == UnitAlias("puncheon", 0.003145)
    ensures AliasTable.units["meter"] == UnitAlias("furlong", 0.004971)
    ensures AliasTable.units["gram"] == UnitAlias("scrupulum", 1.14)
  {
  }

  /** An input written the canonical way, a natural number, one space, a
      unit: the amount is the number times the default factors and the unit
      pass starts from the depluralised unit. */
  lemma CanonicalObfuscation(n: nat, unit: string)
    ensures WellFormed(AliasTable)
    ensures var g := UnitPass(AliasTable, UnitKeys(AliasTable),
                              Fraction(Scale(Start(Some(n)), DefaultFactor), Depluralise(unit), DefaultReferences));
            Obfuscation(AliasTable, DecimalString(n) + " " + unit) == g.(top := DefaultNames + g.top)
  {
    AliasTableIsWellFormed();
    CanonicalInput(n, unit);
    ObfuscationShape(DecimalString(n) + " " + unit);
  }

  // Facts about string literals that the worked inputs below need: which
  // keys of the program's table occur in the units they go through, and how
  // those units split around a key. Each is proved in a small lemma of its
  // own, away from the table. The verifier settles such facts quickly on
  // their own, but slowly inside a proof that also unfolds the table and the
  // unit pass.

  lemma MeterText()
    ensures !Contains("meter", "liter") && !Contains("furlong", "gram")
    ensures "meter" == "" + "meter" + "" && "" + "furlong" + "" == "furlong"
  {
    MissingCharacterRulesOut("meter", "liter", 0);
    MissingCharacterRulesOut("furlong", "gram", 3);
  }

  lemma PuncheonText()
    ensures !Contains("puncheon", "meter") && !Contains("puncheon", "gram")
    ensures "liter" == "" + "liter" + "" && "" + "puncheon" + "" == "puncheon"
  {
    MissingCharacterRulesOut("puncheon", "meter", 0);
    MissingCharacterRulesOut("puncheon", "gram", 0);
  }

  lemma WidgetText()
    ensures !Contains("widget", "liter") && !Contains("widget", "meter") && !Contains("widget", "gram")
  {
    MissingCharacterRulesOut("widget", "liter", 0);
    MissingCharacterRulesOut("widget", "meter", 0);
    MissingCharacterRulesOut("widget", "gram", 1);
  }

  lemma KilogramText()
    ensures !Contains("kilogram", "liter") && !Contains("kilogram", "meter")
  {
    MissingCharacterRulesOut("kilogram", "liter", 2);
    MissingCharacterRulesOut("kilogram", "meter", 1);
  }

  lemma MeterramText()
    ensures !Contains("meterram", "liter") && !Contains("meterram", "gram")
  {
    MissingCharacterRulesOut("meterram", "liter", 0);
    MissingCharacterRulesOut("meterram", "gram", 0);
  }

  lemma MeterramPieces()
    ensures "meterram" == "" + "meter" + "ram" && "" + "furlong" + "ram" == "furlongram"
  {
  }

  /** The first occurrence of "gram" in "kilogram" and in "furlongram". */
  lemma GramInsideWords()
    ensures "kilogram" == "kilo" + "gram" + ""
    ensures forall j: nat :: j < 4 ==> !OccursAt("kilogram", "gram", j)
    ensures "furlongram" == "furlon" + "gram" + ""
    ensures forall j: nat :: j < 6 ==> !OccursAt("furlongram", "gram", j)
    ensures "kilo" + "scrupulum" + "" == "kiloscrupulum" && "furlon" + "scrupulum" + "" == "furlonscrupulum"
  {
    forall j: nat | j < 4 ensures !OccursAt("kilogram", "gram", j) {
      assert "kilogram"[j] != 'g';
    }
    forall j: nat | j < 6 ensures !OccursAt("furlongram", "gram", j) {
      assert "furlongram"[j] != 'g';
    }
  }

  /** The unit pass of the program's table on the unit "meter". */
  lemma MeterUnitPass(a: Amount, bottom: string)
    ensures WellFormed(AliasTable)
    ensures UnitPass(AliasTable, UnitKeys(AliasTable), Fraction(a, "meter", bottom)) ==
      Fraction(Scale(a, 0.004971), "furlong", bottom)
  {
    AliasTableIsWellFormed();
    AliasTableUnits();
    var f := Fraction(a, "meter", bottom);
    UnitPassOfThree(AliasTable, "liter", "meter", "gram", f);
    MeterText();
    assert VisitUnitKey(AliasTable, f, "liter") == f;
    VisitAt(AliasTable, f, "meter", "", "");
    var f2 := Fraction(Scale(a, 0.004971), "furlong", bottom);
    assert VisitUnitKey(AliasTable, f, "meter") == f2;
    assert VisitUnitKey(AliasTable, f2, "gram") == f2;
  }

  /** "1 meters": both default names, then "furlong" for "meter"; the amount
      takes the default factors and the meter factor. */
  lemma MeterScenario()
    ensures Obfuscation(AliasTable, "1 meters") ==
      Fraction(Number(1.0 * DefaultFactor * 0.004971), DefaultNames + "furlong", DefaultReferences)
  {
    assert DecimalString(1) + " " + "meters" == "1 meters";
    assert Depluralise("meters") == "meter";
    CanonicalObfuscation(1, "meters");
    MeterUnitPass(Scale(Start(Some(1)), DefaultFactor), DefaultReferences);
  }

  /** The unit pass of the program's table on the unit "liter". */
  lemma LiterUnitPass(a: Amount, bottom: string)
    ensures WellFormed(AliasTable)
    ensures UnitPass(AliasTable, UnitKeys(AliasTable), Fraction(a, "liter", bottom)) ==
      Fraction(Scale(a, 0.003145), "puncheon", bottom)
  {
    AliasTableIsWellFormed();
    AliasTableUnits();
    var f := Fraction(a, "liter", bottom);
    UnitPassOfThree(AliasTable, "liter", "meter", "gram", f);
    PuncheonText();
    VisitAt(AliasTable, f, "liter", "", "");
    var f1 := Fraction(Scale(a, 0.003145), "puncheon", bottom);
    assert VisitUnitKey(AliasTable, f, "liter") == f1;
    assert VisitUnitKey(AliasTable, f1, "meter") == f1;
    assert VisitUnitKey(AliasTable, f1, "gram") == f1;
  }

  /** "3 liters": "puncheon" replaces "liter"; the liter factor applies. */
  lemma LiterScenario()
    ensures Obfuscation(AliasTable, "3 liters") ==
      Fraction(Number(3.0 * DefaultFactor * 0.003145), DefaultNames + "puncheon", DefaultReferences)
  {
    assert DecimalString(3) + " " + "liters" == "3 liters";
    assert Depluralise("liters") == "liter";
    CanonicalObfuscation(3, "liters");
    LiterUnitPass(Scale(Start(Some(3)), DefaultFactor), DefaultReferences);
  }

  /** The unit pass of the program's table on the unit "widget". */
  lemma WidgetUnitPass(a: Amount, bottom: string)
    ensures WellFormed(AliasTable)
    ensures UnitPass(AliasTable, UnitKeys(AliasTable), Fraction(a, "widget", bottom)) ==
      Fraction(a, "widget", bottom)
  {
    AliasTableIsWellFormed();
    var f := Fraction(a, "widget", bottom);
    UnitPassOfThree(AliasTable, "liter", "meter", "gram", f);
    WidgetText();
    assert VisitUnitKey(AliasTable, f, "liter") == f;
    assert VisitUnitKey(AliasTable, f, "meter") == f;
    assert VisitUnitKey(AliasTable, f, "gram") == f;
  }

  /** "1 widget": no key occurs, so the unit is kept as it is and only the
      default factors apply. */
  lemma UnknownUnitScenario()
    ensures Obfuscation(AliasTable, "1 widget") ==
      Fraction(Number(1.0 * DefaultFactor), DefaultNames + "widget", DefaultReferences)
  {
    WidgetInput();
    CanonicalObfuscation(1, "widget");
    WidgetUnitPass(Scale(Start(Some(1)), DefaultFactor), DefaultReferences);
  }

  /** The literal facts behind "1 widget": its text, its depluralisation and its amount. */
  lemma WidgetInput()
    ensures DecimalString(1) + " " + "widget" == "1 widget"
    ensures Depluralise("widget") == "widget"
    ensures Scale(Start(Some(1)), DefaultFactor) == Number(1.0 * DefaultFactor)
  {
  }

  /** The unit pass of the program's table on the unit "kilogram". */
  lemma KilogramUnitPass(a: Amount, bottom: string)
    ensures WellFormed(AliasTable)
    ensures UnitPass(AliasTable, UnitKeys(AliasTable), Fraction(a, "kilogram", bottom)) ==
      Fraction(Scale(a, 1.14), "kiloscrupulum", bottom)
  {
    AliasTableIsWellFormed();
    AliasTableUnits();
    var f := Fraction(a, "kilogram", bottom);
    UnitPassOfThree(AliasTable, "liter", "meter", "gram", f);
    KilogramText();
    GramInsideWords();
    VisitAt(AliasTable, f, "gram", "kilo", "");
  }

  /** "2 kilograms": the key "gram" matches inside the word and only that part
      is replaced, giving "kiloscrupulum". */
  lemma KilogramScenario()
    ensures Obfuscation(AliasTable, "2 kilograms") ==
      Fraction(Number(2.0 * DefaultFactor * 1.14), DefaultNames + "kiloscrupulum", DefaultReferences)
  {
    assert DecimalString(2) + " " + "kilograms" == "2 kilograms";
    assert Depluralise("kilograms") == "kilogram";
    CanonicalObfuscation(2, "kilograms");
    KilogramUnitPass(Scale(Start(Some(2)), DefaultFactor), DefaultReferences);
  }

  /** On "meterram", `liter` misses and `meter` turns the unit into "furlongram". */
  lemma MeterramFirstVisits(a: Amount, bottom: string)
    ensures WellFormed(AliasTable)
    ensures VisitUnitKey(AliasTable, VisitUnitKey(AliasTable, Fraction(a, "meterram", bottom), "liter"), "meter") ==
      Fraction(Scale(a, 0.004971), "furlongram", bottom)
  {
    AliasTableIsWellFormed();
    AliasTableUnits();
    var f := Fraction(a, "meterram", bottom);
    MeterramText();
    MeterramPieces();
    assert VisitUnitKey(AliasTable, f, "liter") == f;
    VisitAt(AliasTable, f, "meter", "", "ram");
  }

  /** On "furlongram", `gram` matches behind "furlon". */
  lemma FurlongramGramVisit(a: Amount, bottom: string)
    ensures WellFormed(AliasTable)
    ensures VisitUnitKey(AliasTable, Fraction(a, "furlongram", bottom), "gram") ==
      Fraction(Scale(a, 1.14), "furlonscrupulum", bottom)
  {
    AliasTableIsWellFormed();
    AliasTableUnits();
    GramInsideWords();
    VisitAt(AliasTable, Fraction(a, "furlongram", bottom), "gram", "furlon", "");
  }

  /** The unit pass of the program's table on the unit "meterram". */
  lemma MeterramUnitPass(a: Amount, bottom: string)
    ensures WellFormed(AliasTable)
    ensures UnitPass(AliasTable, UnitKeys(AliasTable), Fraction(a, "meterram", bottom)) ==
      Fraction(Scale(Scale(a, 0.004971), 1.14), "furlonscrupulum", bottom)
  {
    AliasTableIsWellFormed();
    UnitPassOfThree(AliasTable, "liter", "meter", "gram", Fraction(a, "meterram", bottom));
    MeterramFirstVisits(a, bottom);
    FurlongramGramVisit(Scale(a, 0.004971), bottom);
  }

  /** "1 meterram": the unit holds no "gram", but replacing "meter" by
      "furlong" makes "furlongram", which does, so the gram alias applies as
      well: each key is looked for in the text built so far, not in the input. */
  lemma ReplacementCreatesMatch()
    ensures !Contains("meterram", "gram")
    ensures Obfuscation(AliasTable, "1 meterram") ==
      Fraction(Number(1.0 * DefaultFactor * 0.004971 * 1.14), DefaultNames + "furlonscrupulum",
               DefaultReferences)
  {
    MeterramText();
    MeterramInput();
    CanonicalObfuscation(1, "meterram");
    MeterramUnitPass(Scale(Start(Some(1)), DefaultFactor), DefaultReferences);
  }

  /** The literal facts behind "1 meterram": its text, its depluralisation and its amount. */
  lemma MeterramInput()
    ensures DecimalString(1) + " " + "meterram" == "1 meterram"
    ensures Depluralise("meterram") == "meterram"
    ensures Scale(Scale(Scale(Start(Some(1)), DefaultFactor), 0.004971), 1.14) ==
            Number(1.0 * DefaultFactor * 0.004971 * 1.14)
  {
  }
}
