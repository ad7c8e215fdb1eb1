/** Unit and currency conversion (evaluation/normalization.py), over exact arithmetic. */
module Normalization {
  import opened Wrappers
  import opened Text

  /** `str.casefold`, `str.upper` and `str.isalpha`. */
  datatype Folding = Folding(fold: string -> string, upper: string -> string, isAlpha: string -> bool)

  datatype NormalizationError =
    | EmptyUnit | UndefinedUnit(source: string, target: string) | IncompatibleUnits(source: string, target: string)
    | InvalidCurrency(code: string) | MissingRate(code: string) | NoRateTable(source: string, target: string)
    | UnitsRequired | CurrenciesRequired | NotNumeric | NotBoolean | NotDate | NotText | NotAware
    | NoAllowedValues | InvalidOperator

  // ----- Units -----

  /** An affine conversion to the base unit of a dimension. */
  datatype UnitDefinition = UnitDefinition(dimension: string, factor: real, offset: real)

  datatype Units = Units(folding: Folding, definitions: map<string, UnitDefinition>, aliases: map<string, string>)

  /** What the constructors ensure: positive factors, and aliases of defined units. */
  ghost predicate UnitsOk(units: Units) {
    && (forall symbol :: symbol in units.definitions ==> units.definitions[symbol].factor > 0.0)
    && (forall alias :: alias in units.aliases ==> units.aliases[alias] in units.definitions)
  }

  function RawSymbol(folding: Folding, unit: string): Result<string, NormalizationError> {
    var symbol := folding.fold(Strip(unit));
    if symbol == "" then Err(EmptyUnit) else Ok(symbol)
  }

  function CanonicalUnit(units: Units, unit: string): Result<string, NormalizationError> {
    match RawSymbol(units.folding, unit)
    case Err(error) => Err(error)
    case Ok(symbol) => Ok(if symbol in units.aliases then units.aliases[symbol] else symbol)
  }

  function Affine(value: real, source: UnitDefinition, target: UnitDefinition): real
    requires target.factor > 0.0
  {
    (value * source.factor + source.offset - target.offset) / target.factor
  }

  function ConvertUnit(units: Units, value: real, source: string, target: string): Result<real, NormalizationError>
    requires UnitsOk(units)
  {
    match (CanonicalUnit(units, source), CanonicalUnit(units, target))
    case (Err(error), _) => Err(error)
    case (_, Err(error)) => Err(error)
    case (Ok(s), Ok(t)) =>
      if s == t then Ok(value)
      else if s !in units.definitions || t !in units.definitions then Err(UndefinedUnit(source, target))
      else if units.definitions[s].dimension != units.definitions[t].dimension then
        Err(IncompatibleUnits(source, target))
      else Ok(Affine(value, units.definitions[s], units.definitions[t]))
  }

  lemma {:induction false} AffineDefines(value: real, source: UnitDefinition, target: UnitDefinition)
    requires target.factor > 0.0
    ensures Affine(value, source, target) * target.factor + target.offset == value * source.factor + source.offset
  {
    var n := value * source.factor + source.offset - target.offset;
    assert n / target.factor * target.factor == n;
  }

  lemma {:induction false} SameProduct(a: real, b: real, f: real)
    requires f > 0.0 && a * f == b * f
    ensures a == b
  {
    assert (a - b) * f == 0.0;
  }

  /** Going through a third unit of the dimension makes no difference. */
  lemma {:induction false} AffineComposes(value: real, source: UnitDefinition, middle: UnitDefinition,
                                          target: UnitDefinition)
    requires source.factor > 0.0 && middle.factor > 0.0 && target.factor > 0.0
    ensures Affine(Affine(value, source, middle), middle, target) == Affine(value, source, target)
    ensures Affine(Affine(value, source, middle), middle, source) == value
  {
    AffineDefines(value, source, middle);
    AffineDefines(Affine(value, source, middle), middle, source);
    SameProduct(Affine(Affine(value, source, middle), middle, source), value, source.factor);
  }

  /** Re-expressing a value in another convertible unit and converting it gives what converting it
      directly gives; and where one conversion is refused, so is the other. */
  lemma {:induction false} ConvertUnitThrough(units: Units, value: real, source: string, middle: string, target: string)
    requires UnitsOk(units) && ConvertUnit(units, value, source, middle).Ok?
    ensures var through := ConvertUnit(units, ConvertUnit(units, value, source, middle).value, middle, target);
            var direct := ConvertUnit(units, value, source, target);
            (through.Ok? <==> direct.Ok?) && (direct.Ok? ==> through == direct)
  {
    if CanonicalUnit(units, target).Ok? {
      var s, m, t :=
        CanonicalUnit(units, source).value, CanonicalUnit(units, middle).value, CanonicalUnit(units, target).value;
      if s != m && t in units.definitions {
        AffineComposes(value, units.definitions[s], units.definitions[m], units.definitions[t]);
      }
    }
  }

  /** There and back again is the identity. */
  lemma {:induction false} ConvertUnitBack(units: Units, value: real, source: string, target: string)
    requires UnitsOk(units) && ConvertUnit(units, value, source, target).Ok?
    ensures ConvertUnit(units, ConvertUnit(units, value, source, target).value, target, source) == Ok(value)
  {
    ConvertUnitThrough(units, value, source, target, source);
  }

  method MergeDefinitions(folding: Folding, defaults: map<string, UnitDefinition>, given: seq<(string, UnitDefinition)>)
      returns (merged: Option<map<string, UnitDefinition>>)
    ensures merged.Some? <==> forall k :: 0 <= k < |given| ==> RawSymbol(folding, given[k].0).Ok?
    ensures merged.Some? ==> merged.value == MergedDefinitions(folding, defaults, given)
  {
    var definitions := defaults;
    for k := 0 to |given|
      invariant forall j :: 0 <= j < k ==> RawSymbol(folding, given[j].0).Ok?
      invariant definitions == MergedDefinitions(folding, defaults, given[..k])
    {
      assert given[..k + 1][..k] == given[..k];
      var symbol := RawSymbol(folding, given[k].0);
      if symbol.Err? { return None; }
      definitions := definitions[symbol.value := given[k].1];
    }
    assert given[..|given|] == given;
    merged := Some(definitions);
  }

  method MergeAliases(folding: Folding, defaults: map<string, string>, given: seq<(string, string)>)
      returns (merged: Option<map<string, string>>)
    ensures merged.Some? <==> forall k :: 0 <= k < |given| ==>
          RawSymbol(folding, given[k].0).Ok? && RawSymbol(folding, given[k].1).Ok?
    ensures merged.Some? ==> merged.value == MergedAliases(folding, defaults, given)
  {
    var aliases := defaults;
    for k := 0 to |given|
      invariant forall j :: 0 <= j < k ==> RawSymbol(folding, given[j].0).Ok? && RawSymbol(folding, given[j].1).Ok?
      invariant aliases == MergedAliases(folding, defaults, given[..k])
    {
      assert given[..k + 1][..k] == given[..k];
      var alias, symbol := RawSymbol(folding, given[k].0), RawSymbol(folding, given[k].1);
      if alias.Err? || symbol.Err? { return None; }
      aliases := aliases[alias.value := symbol.value];
    }
    assert given[..|given|] == given;
    merged := Some(aliases);
  }

  lemma {:induction false} MergedPositive(folding: Folding, defaults: map<string, UnitDefinition>,
                                          given: seq<(string, UnitDefinition)>)
    requires forall symbol :: symbol in defaults ==> defaults[symbol].factor > 0.0
    requires forall k :: 0 <= k < |given| ==> given[k].1.factor > 0.0
    ensures forall symbol :: symbol in MergedDefinitions(folding, defaults, given) ==>
          MergedDefinitions(folding, defaults, given)[symbol].factor > 0.0
  {
    if given != [] { MergedPositive(folding, defaults, given[..|given| - 1]); }
  }

  /** `UnitNormalizer.__init__`: the given definitions and aliases override the defaults; a blank symbol,
      or an alias of an undefined unit, is refused. */
  method MakeUnits(folding: Folding, defaults: Units, definitions: seq<(string, UnitDefinition)>,
                   aliases: seq<(string, string)>)
      returns (units: Option<Units>)
    requires UnitsOk(defaults) && forall k :: 0 <= k < |definitions| ==> definitions[k].1.factor > 0.0
    ensures units.Some? <==>
              && (forall k :: 0 <= k < |definitions| ==> RawSymbol(folding, definitions[k].0).Ok?)
              && (forall k :: 0 <= k < |aliases| ==>
                      RawSymbol(folding, aliases[k].0).Ok? && RawSymbol(folding, aliases[k].1).Ok?)
              && UnitsOk(Units(folding, MergedDefinitions(folding, defaults.definitions, definitions),
                               MergedAliases(folding, defaults.aliases, aliases)))
    ensures units.Some? ==>
              units.value == Units(folding, MergedDefinitions(folding, defaults.definitions, definitions),
                                   MergedAliases(folding, defaults.aliases, aliases))
  {
    hide RawSymbol;
    var merged := MergeDefinitions(folding, defaults.definitions, definitions);
    if merged.None? { return None; }
    var mergedAliases := MergeAliases(folding, defaults.aliases, aliases);
    if mergedAliases.None? { return None; }
    MergedPositive(folding, defaults.definitions, definitions);
    if exists alias :: alias in mergedAliases.value && mergedAliases.value[alias] !in merged.value { return None; }
    units := Some(Units(folding, merged.value, mergedAliases.value));
  }

  /** Later definitions of a symbol win. */
  function MergedDefinitions(folding: Folding, defaults: map<string, UnitDefinition>,
                             given: seq<(string, UnitDefinition)>)
    : map<string, UnitDefinition>
  {
    if given == [] then defaults
    else
      var rest := MergedDefinitions(folding, defaults, given[..|given| - 1]);
      match RawSymbol(folding, given[|given| - 1].0)
      case Ok(symbol) => rest[symbol := given[|given| - 1].1]
      case Err(_) => rest
  }

  function MergedAliases(folding: Folding, defaults: map<string, string>,
                         given: seq<(string, string)>): map<string, string> {
    if given == [] then defaults
    else
      var rest := MergedAliases(folding, defaults, given[..|given| - 1]);
      match (RawSymbol(folding, given[|given| - 1].0), RawSymbol(folding, given[|given| - 1].1))
      case (Ok(alias), Ok(symbol)) => rest[alias := symbol]
      case _ => rest
  }

  // ----- Currencies -----

  datatype CurrencyTable = CurrencyTable(base: string, rates: map<string, real>)

  ghost predicate TableOk(table: CurrencyTable) {
    table.base in table.rates && table.rates[table.base] == 1.0 && forall code :: code in table.rates ==>
          table.rates[code] > 0.0
  }

  function CurrencyCode(folding: Folding, value: string): Result<string, NormalizationError> {
    var code := folding.upper(Strip(value));
    if |code| != 3 || !folding.isAlpha(code) then Err(InvalidCurrency(value)) else Ok(code)
  }

  function Exchange(amount: real, source: real, target: real): real
    requires target > 0.0
  {
    amount * source / target
  }

  function ConvertCurrency(folding: Folding, table: CurrencyTable, amount: real, source: string,
                           target: string): Result<real, NormalizationError>
    requires TableOk(table)
  {
    match (CurrencyCode(folding, source), CurrencyCode(folding, target))
    case (Err(error), _) => Err(error)
    case (_, Err(error)) => Err(error)
    case (Ok(s), Ok(t)) =>
      if s == t then Ok(amount)
      else if s !in table.rates then Err(MissingRate(s))
      else if t !in table.rates then Err(MissingRate(t))
      else Ok(Exchange(amount, table.rates[s], table.rates[t]))
  }

  lemma {:induction false} ExchangeBack(amount: real, source: real, target: real)
    requires source > 0.0 && target > 0.0
    ensures Exchange(Exchange(amount, source, target), target, source) == amount
  {
    assert amount * source / target * target == amount * source;
    SameProduct(amount * source / source, amount, source);
  }

  lemma {:induction false} ConvertCurrencyBack(folding: Folding, table: CurrencyTable, amount: real, source: string,
                                               target: string)
    requires TableOk(table) && ConvertCurrency(folding, table, amount, source, target).Ok?
    ensures ConvertCurrency(folding, table, ConvertCurrency(folding, table, amount, source, target).value, target,
                            source)
         == Ok(amount)
  {
    var s, t := CurrencyCode(folding, source).value, CurrencyCode(folding, target).value;
    if s != t { ExchangeBack(amount, table.rates[s], table.rates[t]); }
  }

  /** The last rate given for a code wins. */
  function MergedRates(folding: Folding, given: seq<(string, real)>): map<string, real> {
    if given == [] then map[]
    else
      var rest := MergedRates(folding, given[..|given| - 1]);
      match CurrencyCode(folding, given[|given| - 1].0)
      case Ok(code) => rest[code := given[|given| - 1].1]
      case Err(_) => rest
  }

  /** `CurrencyTable.__post_init__`; None is a refused table. */
  method MakeCurrencyTable(folding: Folding, baseCurrency: string, rates: seq<(string, real)>)
      returns (table: Option<CurrencyTable>)
    ensures table.Some? ==>
              && TableOk(table.value) && CurrencyCode(folding, baseCurrency) == Ok(table.value.base)
              && table.value.rates == MergedRates(folding, rates)[table.value.base := 1.0]
    ensures table.Some? <==>
              && CurrencyCode(folding, baseCurrency).Ok?
              && (forall k :: 0 <= k < |rates| ==> CurrencyCode(folding, rates[k].0).Ok? && rates[k].1 > 0.0)
              && var base := CurrencyCode(folding, baseCurrency).value;
                 base in MergedRates(folding, rates) ==> MergedRates(folding, rates)[base] == 1.0
  {
    hide CurrencyCode;
    var base := CurrencyCode(folding, baseCurrency);
    if base.Err? { return None; }
    var normalized: map<string, real> := map[];
    for k := 0 to |rates|
      invariant forall j :: 0 <= j < k ==> CurrencyCode(folding, rates[j].0).Ok? && rates[j].1 > 0.0
      invariant normalized == MergedRates(folding, rates[..k])
      invariant forall code :: code in normalized ==> normalized[code] > 0.0
    {
      assert rates[..k + 1][..k] == rates[..k];
      var code := CurrencyCode(folding, rates[k].0);
      if code.Err? || rates[k].1 <= 0.0 { return None; }
      normalized := normalized[code.value := rates[k].1];
    }
    assert rates[..|rates|] == rates;
    if base.value in normalized && normalized[base.value] != 1.0 { return None; }
    normalized := normalized[base.value := 1.0];
    table := Some(CurrencyTable(base.value, normalized));
  }
}
