/** Which way conversions go (evaluation/normalization.py:160-242). */
module NormalizationFacts {
  import opened Wrappers
  import opened Text
  import opened Normalization

  /** A converted value is the same quantity in the base unit of the dimension, where one unit is `factor` base
      units; symbols that mean the same unit leave the value as it is. */
  lemma {:induction false} SameQuantity(units: Units, value: real, source: string, target: string, x: real)
    requires UnitsOk(units) && CanonicalUnit(units, source).Ok? && CanonicalUnit(units, target).Ok?
    ensures var s, t := CanonicalUnit(units, source).value, CanonicalUnit(units, target).value;
            ConvertUnit(units, value, source, target) == Ok(x) <==>
              if s == t then x == value
              else
                && s in units.definitions && t in units.definitions
                && units.definitions[s].dimension == units.definitions[t].dimension
                && x * units.definitions[t].factor + units.definitions[t].offset
                   == value * units.definitions[s].factor + units.definitions[s].offset
  {
    var s, t := CanonicalUnit(units, source).value, CanonicalUnit(units, target).value;
    hide CanonicalUnit;
    if s != t && s in units.definitions && t in units.definitions {
      var converted := Affine(value, units.definitions[s], units.definitions[t]);
      AffineDefines(value, units.definitions[s], units.definitions[t]);
      hide Affine;
      if x * units.definitions[t].factor == converted * units.definitions[t].factor {
        SameProduct(x, converted, units.definitions[t].factor);
      }
    }
  }

  /** A symbol is folded and stripped, then replaced by the unit it is an alias of; a blank one is refused. */
  lemma {:induction false} SymbolMeans(units: Units, unit: string)
    ensures var symbol := units.folding.fold(Strip(unit));
            && (CanonicalUnit(units, unit) == Err(EmptyUnit) <==> symbol == "")
            && (symbol != "" && symbol in units.aliases ==> CanonicalUnit(units, unit) == Ok(units.aliases[symbol]))
            && (symbol != "" && symbol !in units.aliases ==> CanonicalUnit(units, unit) == Ok(symbol))
  {}

  /** Unknown units, and units of different dimensions, are refused. */
  lemma {:induction false} NotConvertible(units: Units, value: real, source: string, target: string)
    requires UnitsOk(units) && CanonicalUnit(units, source).Ok? && CanonicalUnit(units, target).Ok?
    requires CanonicalUnit(units, source) != CanonicalUnit(units, target)
    ensures var s, t := CanonicalUnit(units, source).value, CanonicalUnit(units, target).value;
            && (s !in units.definitions || t !in units.definitions ==>
                  ConvertUnit(units, value, source, target) == Err(UndefinedUnit(source, target)))
            && (s in units.definitions && t in units.definitions
                && units.definitions[s].dimension != units.definitions[t].dimension ==>
                  ConvertUnit(units, value, source, target) == Err(IncompatibleUnits(source, target)))
  {
    hide CanonicalUnit;
  }

  /** A thousand grams are a kilogram, and a larger measurement stays larger in any unit. */
  lemma {:induction false} GramsAreFewerKilograms(units: Units, value: real)
    requires UnitsOk(units) && CanonicalUnit(units, "g") == Ok("g") && CanonicalUnit(units, "kg") == Ok("kg")
    requires "g" in units.definitions && units.definitions["g"] == UnitDefinition("mass", 0.001, 0.0)
    requires "kg" in units.definitions && units.definitions["kg"] == UnitDefinition("mass", 1.0, 0.0)
    ensures ConvertUnit(units, value, "g", "kg") == Ok(value / 1000.0)
    ensures ConvertUnit(units, value, "kg", "g") == Ok(value * 1000.0)
  {
    assert "g" != "kg" by { assert |"g"| != |"kg"|; }
    SameQuantity(units, value, "g", "kg", value / 1000.0);
    SameQuantity(units, value, "kg", "g", value * 1000.0);
    hide CanonicalUnit, ConvertUnit;
  }

  lemma {:induction false} ProductsInOrder(x: real, y: real, f: real)
    requires f > 0.0
    ensures x * f < y * f <==> x < y
  {
    if x < y { assert (y - x) * f > 0.0; }
    if y <= x { assert (x - y) * f >= 0.0; }
  }

  lemma {:induction false} AffineInOrder(a: real, b: real, f: real, o: real, x: real, y: real, g: real, q: real)
    requires f > 0.0 && g > 0.0 && x * g + q == a * f + o && y * g + q == b * f + o
    ensures x < y <==> a < b
  {
    ProductsInOrder(a, b, f);
    ProductsInOrder(x, y, g);
    SameGap(x * g, y * g, a * f, b * f, q, o);
  }

  lemma SameGap(x: real, y: real, a: real, b: real, q: real, o: real)
    requires x + q == a + o && y + q == b + o
    ensures x < y <==> a < b
  {}

  /** Converting keeps the order of measurements. */
  lemma {:induction false} ConvertingIsMonotone(units: Units, a: real, b: real, source: string, target: string)
    requires UnitsOk(units) && ConvertUnit(units, a, source, target).Ok? && ConvertUnit(units, b, source, target).Ok?
    ensures ConvertUnit(units, a, source, target).value < ConvertUnit(units, b, source, target).value <==> a < b
  {
    var x, y := ConvertUnit(units, a, source, target).value, ConvertUnit(units, b, source, target).value;
    assert CanonicalUnit(units, source).Ok? && CanonicalUnit(units, target).Ok?;
    SameQuantity(units, a, source, target, x);
    SameQuantity(units, b, source, target, y);
    var s, t := CanonicalUnit(units, source).value, CanonicalUnit(units, target).value;
    hide ConvertUnit, CanonicalUnit;
    if s != t {
      AffineInOrder(a, b, units.definitions[s].factor, units.definitions[s].offset, x, y,
                    units.definitions[t].factor, units.definitions[t].offset);
    }
  }

  /** An exchanged amount is worth the same in the base currency, where one unit is `rate` base units; a code
      without a rate is refused. */
  lemma {:induction false} SameWorth(folding: Folding, table: CurrencyTable, amount: real, source: string,
                                     target: string, x: real)
    requires TableOk(table) && CurrencyCode(folding, source).Ok? && CurrencyCode(folding, target).Ok?
    ensures var s, t := CurrencyCode(folding, source).value, CurrencyCode(folding, target).value;
            ConvertCurrency(folding, table, amount, source, target) == Ok(x) <==>
              if s == t then x == amount
              else s in table.rates && t in table.rates && x * table.rates[t] == amount * table.rates[s]
  {
    var s, t := CurrencyCode(folding, source).value, CurrencyCode(folding, target).value;
    hide CurrencyCode;
    if s != t && s in table.rates && t in table.rates {
      var exchanged := Exchange(amount, table.rates[s], table.rates[t]);
      assert exchanged * table.rates[t] == amount * table.rates[s];
      if x * table.rates[t] == exchanged * table.rates[t] { SameProduct(x, exchanged, table.rates[t]); }
    }
  }

  /** Into the base currency an amount is multiplied by its rate. */
  lemma {:induction false} IntoBase(folding: Folding, table: CurrencyTable, amount: real, source: string,
                                    target: string)
    requires TableOk(table) && CurrencyCode(folding, source).Ok? && CurrencyCode(folding, target) == Ok(table.base)
    requires CurrencyCode(folding, source).value in table.rates
    ensures ConvertCurrency(folding, table, amount, source, target)
         == Ok(amount * table.rates[CurrencyCode(folding, source).value])
  {
    SameWorth(folding, table, amount, source, target, amount * table.rates[CurrencyCode(folding, source).value]);
    hide ConvertCurrency, CurrencyCode;
  }

  /** A code is three letters, in upper case and without surrounding white space. */
  lemma {:induction false} CodeMeans(folding: Folding, value: string, code: string)
    ensures CurrencyCode(folding, value) == Ok(code)
       <==> code == folding.upper(Strip(value)) && |code| == 3 && folding.isAlpha(code)
    ensures CurrencyCode(folding, value).Err? ==> CurrencyCode(folding, value) == Err(InvalidCurrency(value))
  {}

  // ----- Tables -----

  /** The last rate given for a code is in the table. */
  lemma {:induction false} RateIsLastGiven(folding: Folding, given: seq<(string, real)>, k: nat, code: string)
    requires k < |given| && CurrencyCode(folding, given[k].0) == Ok(code)
    requires forall m :: k < m < |given| ==> CurrencyCode(folding, given[m].0) != Ok(code)
    ensures code in MergedRates(folding, given) && MergedRates(folding, given)[code] == given[k].1
  {
    hide CurrencyCode;
    if k < |given| - 1 { RateIsLastGiven(folding, given[..|given| - 1], k, code); }
  }

  /** Only codes that were given are in it. */
  lemma {:induction false} RateWasGiven(folding: Folding, given: seq<(string, real)>, code: string) returns (k: nat)
    requires code in MergedRates(folding, given)
    ensures k < |given| && CurrencyCode(folding, given[k].0) == Ok(code)
  {
    hide CurrencyCode;
    var n := |given| - 1;
    if CurrencyCode(folding, given[n].0) == Ok(code) { k := n; } else { k := RateWasGiven(folding, given[..n], code); }
  }

  /** The last definition given for a symbol overrides the default one. */
  lemma {:induction false} DefinitionIsLastGiven(folding: Folding, defaults: map<string, UnitDefinition>,
                                                 given: seq<(string, UnitDefinition)>, k: nat, symbol: string)
    requires k < |given| && RawSymbol(folding, given[k].0) == Ok(symbol)
    requires forall m :: k < m < |given| ==> RawSymbol(folding, given[m].0) != Ok(symbol)
    ensures symbol in MergedDefinitions(folding, defaults, given)
    ensures MergedDefinitions(folding, defaults, given)[symbol] == given[k].1
  {
    hide RawSymbol;
    if k < |given| - 1 { DefinitionIsLastGiven(folding, defaults, given[..|given| - 1], k, symbol); }
  }

  /** A symbol that is not given keeps its default. */
  lemma {:induction false} DefinitionStays(folding: Folding, defaults: map<string, UnitDefinition>,
                                           given: seq<(string, UnitDefinition)>, symbol: string)
    requires forall m :: 0 <= m < |given| ==> RawSymbol(folding, given[m].0) != Ok(symbol)
    ensures symbol in MergedDefinitions(folding, defaults, given) <==> symbol in defaults
    ensures symbol in defaults ==> MergedDefinitions(folding, defaults, given)[symbol] == defaults[symbol]
  {
    hide RawSymbol;
    if given != [] { DefinitionStays(folding, defaults, given[..|given| - 1], symbol); }
  }

  /** The last unit given for an alias overrides the default one. */
  lemma {:induction false} AliasIsLastGiven(folding: Folding, defaults: map<string, string>,
                                            given: seq<(string, string)>, k: nat, alias: string)
    requires forall m :: 0 <= m < |given| ==> RawSymbol(folding, given[m].0).Ok? && RawSymbol(folding, given[m].1).Ok?
    requires k < |given| && RawSymbol(folding, given[k].0) == Ok(alias)
    requires forall m :: k < m < |given| ==> RawSymbol(folding, given[m].0) != Ok(alias)
    ensures alias in MergedAliases(folding, defaults, given)
    ensures Ok(MergedAliases(folding, defaults, given)[alias]) == RawSymbol(folding, given[k].1)
  {
    hide RawSymbol;
    if k < |given| - 1 { AliasIsLastGiven(folding, defaults, given[..|given| - 1], k, alias); }
  }

  /** An alias that is not given keeps its default. */
  lemma {:induction false} AliasStays(folding: Folding, defaults: map<string, string>, given: seq<(string, string)>,
                                      alias: string)
    requires forall m :: 0 <= m < |given| ==> RawSymbol(folding, given[m].0) != Ok(alias)
    ensures alias in MergedAliases(folding, defaults, given) <==> alias in defaults
    ensures alias in defaults ==> MergedAliases(folding, defaults, given)[alias] == defaults[alias]
  {
    hide RawSymbol;
    if given != [] { AliasStays(folding, defaults, given[..|given| - 1], alias); }
  }
}
