/**
 * Relay's subscription price tables (privaterelay/settings.py, lines
 * 316-721).
 *
 * Each product has an id matrix, keyed by currency and then by a language
 * (or, for a few currencies, a country) key, and a country-language
 * mapping, keyed by country and then by language, whose every entry is one
 * cell of the matrix (`MATRIX[currency][key]`). A cell of the original
 * premium matrix is one price; a cell of the periodical, phone and bundle
 * matrices holds a price per billing term.
 *
 * A Python dict lookup that may miss is a function returning an Option; the
 * dict keys are enumerations whose `Code` is the key as written.
 */
module PlanTables {
  import opened Options

  datatype Currency = Chf | Euro | Usd

  /** The second-level keys of the matrices: language codes, and the country
      codes "at", "ie" and "gb" where a currency has a country-specific price. */
  datatype MatrixKey = De | Fr | It | En | Es | Nl | Sv | Fi | At | Ie | Gb

  /** The countries the mappings know. */
  datatype Country = AT | BE | CH | DE | ES | FR | IE | IT | NL | SE | FI | US | GB | CA | NZ | MY | SG

  function CurrencyCode(c: Currency): (code: string) {
    match c
    case Chf => "chf"
    case Euro => "euro"
    case Usd => "usd"
  }

  function MatrixKeyCode(k: MatrixKey): (code: string) {
    match k
    case De => "de" case Fr => "fr" case It => "it" case En => "en" case Es => "es" case Nl => "nl"
    case Sv => "sv" case Fi => "fi" case At => "at" case Ie => "ie" case Gb => "gb"
  }

  function CountryCode(c: Country): (code: string) {
    match c
    case AT => "at" case BE => "be" case CH => "ch" case DE => "de" case ES => "es" case FR => "fr"
    case IE => "ie" case IT => "it" case NL => "nl" case SE => "se" case FI => "fi" case US => "us"
    case GB => "gb" case CA => "ca" case NZ => "nz" case MY => "my" case SG => "sg"
  }

  /** A `{"id": ..., "price": ...}` entry. */
  datatype Price = Price(id: string, price: string)

  /** A `{"monthly": ..., "yearly": ...}` cell; a term the cell lacks is None. */
  datatype TermPrices = TermPrices(monthly: Option<Price>, yearly: Option<Price>)

  /** A mapping entry names the matrix cell it is: `MATRIX[currency][key]`. */
  datatype CellRef = CellRef(currency: Currency, key: MatrixKey)

  // ---------------------------------------------------------------------
  // Original premium plan (lines 316-440)
  // ---------------------------------------------------------------------

  /** `PREMIUM_PLAN_ID_MATRIX`. */
  function PremiumPlanIdMatrix(currency: Currency, key: MatrixKey): (p: Option<Price>) {
    match (currency, key)
    case (Chf, De) => Some(Price("price_1JmRM0JNcmPzuWtRzCJ2LQHP", "CHF 1.00"))
    case (Chf, Fr) => Some(Price("price_1JmRFrJNcmPzuWtROOs10fKh", "CHF 1.00"))
    case (Chf, It) => Some(Price("price_1JmREHJNcmPzuWtRxo7MoT58", "CHF 1.00"))
    case (Euro, At) => Some(Price("price_1JmRTDJNcmPzuWtRnJavIXXX", "0,99 €"))
    case (Euro, De) => Some(Price("price_1JmRTDJNcmPzuWtRnJavIXXX", "0,99 €"))
    case (Euro, En) => Some(Price("price_1JmRCQJNcmPzuWtRprMnmtax", "0,99 €"))
    case (Euro, Es) => Some(Price("price_1JmRPSJNcmPzuWtRVvkEkVbS", "0,99 €"))
    case (Euro, Fr) => Some(Price("price_1JmRU4JNcmPzuWtRRhu1FhiQ", "0,99 €"))
    case (Euro, It) => Some(Price("price_1JmRQLJNcmPzuWtRGs76IkUY", "0,99 €"))
    case (Euro, Nl) => Some(Price("price_1JmROfJNcmPzuWtR6od8OfDW", "0,99 €"))
    case (Euro, Ie) => Some(Price("price_1JmRCQJNcmPzuWtRprMnmtax", "0,99 €"))
    case (Euro, Sv) => Some(Price("price_1KQc1PJNcmPzuWtRsEfb6inB", "0,99 €"))
    case (Euro, Fi) => Some(Price("price_1KQcA7JNcmPzuWtRPKNacfdn", "0,99 €"))
    case (Usd, En) => Some(Price("price_1JmRSRJNcmPzuWtRN9MG5cBy", "$0.99"))
    case _ => None
  }

  /** `PREMIUM_PLAN_COUNTRY_LANG_MAPPING`, as references into the matrix. */
  function PremiumPlanCountryLangMapping(country: Country, language: MatrixKey): (r: Option<CellRef>) {
    match (country, language)
    case (AT, De) => Some(CellRef(Euro, De))
    case (BE, Fr) => Some(CellRef(Euro, Fr))
    case (BE, De) => Some(CellRef(Euro, De))
    case (BE, Nl) => Some(CellRef(Euro, Nl))
    case (CH, Fr) => Some(CellRef(Chf, Fr))
    case (CH, De) => Some(CellRef(Chf, De))
    case (CH, It) => Some(CellRef(Chf, It))
    case (DE, De) => Some(CellRef(Euro, De))
    case (ES, Es) => Some(CellRef(Euro, Es))
    case (FR, Fr) => Some(CellRef(Euro, Fr))
    case (IE, En) => Some(CellRef(Euro, En))
    case (IT, It) => Some(CellRef(Euro, It))
    case (NL, Nl) => Some(CellRef(Euro, Nl))
    case (SE, Sv) => Some(CellRef(Euro, Sv))
    case (FI, Fi) => Some(CellRef(Euro, Fi))
    case (US, En) => Some(CellRef(Usd, En))
    case (GB, En) => Some(CellRef(Usd, En))
    case (CA, En) => Some(CellRef(Usd, En))
    case (NZ, En) => Some(CellRef(Usd, En))
    case (MY, En) => Some(CellRef(Usd, En))
    case (SG, En) => Some(CellRef(Usd, En))
    case _ => None
  }

  /** The premium price offered in a country for a language: the matrix cell
      its mapping entry names. Every entry names an existing cell, so building
      the mapping cannot fail and a country-language pair has a price exactly
      when the mapping lists it. */
  function PremiumPlanFor(country: Country, language: MatrixKey): (p: Option<Price>)
    ensures p.Some? <==> PremiumPlanCountryLangMapping(country, language).Some?
  {
    match PremiumPlanCountryLangMapping(country, language)
    case None => None
    case Some(cell) => PremiumPlanIdMatrix(cell.currency, cell.key)
  }

  // ---------------------------------------------------------------------
  // Periodical premium plans (lines 442-659)
  // ---------------------------------------------------------------------

  /** A cell with both a monthly and a yearly price. */
  function BothTerms(monthlyId: string, yearlyId: string, price: string): (t: TermPrices) {
    TermPrices(Some(Price(monthlyId, price)), Some(Price(yearlyId, price)))
  }

  /** `PERIODICAL_PREMIUM_PLAN_ID_MATRIX` (the Austrian and Irish cells are
      commented out in the source and absent here). */
  function PeriodicalPremiumPlanIdMatrix(currency: Currency, key: MatrixKey): (t: Option<TermPrices>) {
    match (currency, key)
    case (Chf, De) => Some(BothTerms("price_1LYCqOJNcmPzuWtRuIXpQRxi", "price_1LYCqyJNcmPzuWtR3Um5qDPu", "CHF ?.??"))
    case (Chf, Fr) => Some(BothTerms("price_1LYCvpJNcmPzuWtRq9ci2gXi", "price_1LYCwMJNcmPzuWtRm6ebmq2N", "CHF ?.??"))
    case (Chf, It) => Some(BothTerms("price_1LYCiBJNcmPzuWtRxtI8D5Uy", "price_1LYClxJNcmPzuWtRWjslDdkG", "CHF ?.??"))
    case (Euro, De) => Some(BothTerms("price_1LYC79JNcmPzuWtRU7Q238yL", "price_1LYC7xJNcmPzuWtRcdKXCVZp", "?.?? €"))
    case (Euro, Es) => Some(BothTerms("price_1LYCWmJNcmPzuWtRtopZog9E", "price_1LYCXNJNcmPzuWtRu586XOFf", "?.?? €"))
    case (Euro, Fr) => Some(BothTerms("price_1LYBuLJNcmPzuWtRn58XQcky", "price_1LYBwcJNcmPzuWtRpgoWcb03", "?.?? €"))
    case (Euro, It) => Some(BothTerms("price_1LYCMrJNcmPzuWtRTP9vD8wY", "price_1LYCN2JNcmPzuWtRtWz7yMno", "?.?? €"))
    case (Euro, Nl) => Some(BothTerms("price_1LYCdLJNcmPzuWtR0J1EHoJ0", "price_1LYCdtJNcmPzuWtRVm4jLzq2", "?.?? €"))
    case (Euro, Sv) => Some(BothTerms("price_1LYBblJNcmPzuWtRGRHIoYZ5", "price_1LYBeMJNcmPzuWtRT5A931WH", "?.?? €"))
    case (Euro, Fi) => Some(BothTerms("price_1LYBn9JNcmPzuWtRI3nvHgMi", "price_1LYBq1JNcmPzuWtRmyEa08Wv", "?.?? €"))
    case (Usd, En) => Some(BothTerms("price_1LXUcnJNcmPzuWtRpbNOajYS", "price_1LXUdlJNcmPzuWtRKTYg7mpZ", "$?.??"))
    case (Usd, Gb) => Some(BothTerms("price_1LYCHpJNcmPzuWtRhrhSYOKB", "price_1LYCIlJNcmPzuWtRQtYLA92j", "$?.??"))
    case _ => None
  }

  /** `PERIODICAL_PREMIUM_PLAN_COUNTRY_LANG_MAPPING` (no Austria, no Ireland). */
  function PeriodicalPremiumPlanCountryLangMapping(country: Country, language: MatrixKey): (r: Option<CellRef>) {
    match (country, language)
    case (BE, Fr) => Some(CellRef(Euro, Fr))
    case (BE, De) => Some(CellRef(Euro, De))
    case (BE, Nl) => Some(CellRef(Euro, Nl))
    case (CH, Fr) => Some(CellRef(Chf, Fr))
    case (CH, De) => Some(CellRef(Chf, De))
    case (CH, It) => Some(CellRef(Chf, It))
    case (DE, De) => Some(CellRef(Euro, De))
    case (ES, Es) => Some(CellRef(Euro, Es))
    case (FR, Fr) => Some(CellRef(Euro, Fr))
    case (IT, It) => Some(CellRef(Euro, It))
    case (NL, Nl) => Some(CellRef(Euro, Nl))
    case (SE, Sv) => Some(CellRef(Euro, Sv))
    case (FI, Fi) => Some(CellRef(Euro, Fi))
    case (US, En) => Some(CellRef(Usd, En))
    case (GB, En) => Some(CellRef(Usd, Gb))
    case (CA, En) => Some(CellRef(Usd, Gb))
    case (NZ, En) => Some(CellRef(Usd, Gb))
    case (MY, En) => Some(CellRef(Usd, Gb))
    case (SG, En) => Some(CellRef(Usd, Gb))
    case _ => None
  }

  /** The periodical prices of a country and language: defined exactly where
      the mapping lists the pair, and always with both billing terms. */
  function PeriodicalPremiumPlanFor(country: Country, language: MatrixKey): (t: Option<TermPrices>)
    ensures t.Some? <==> PeriodicalPremiumPlanCountryLangMapping(country, language).Some?
    ensures t.Some? ==> t.value.monthly.Some? && t.value.yearly.Some?
  {
    match PeriodicalPremiumPlanCountryLangMapping(country, language)
    case None => None
    case Some(cell) => PeriodicalPremiumPlanIdMatrix(cell.currency, cell.key)
  }

  // ---------------------------------------------------------------------
  // Phone and bundle plans (lines 661-721)
  // ---------------------------------------------------------------------

  /** `PHONE_PLAN_ID_MATRIX` (the Canadian cell is commented out in the source). */
  function PhonePlanIdMatrix(currency: Currency, key: MatrixKey): (t: Option<TermPrices>) {
    match (currency, key)
    case (Usd, En) => Some(BothTerms("price_1LXUenJNcmPzuWtRw3rhjQNP", "price_1LXUhcJNcmPzuWtRHUFHVk12", "$?.??"))
    case _ => None
  }

  /** `PHONE_PLAN_COUNTRY_LANG_MAPPING`. */
  function PhonePlanCountryLangMapping(country: Country, language: MatrixKey): (r: Option<CellRef>) {
    match (country, language)
    case (US, En) => Some(CellRef(Usd, En))
    case _ => None
  }

  /** The phone prices of a country and language: defined exactly where the
      mapping lists the pair, and always with both billing terms. */
  function PhonePlanFor(country: Country, language: MatrixKey): (t: Option<TermPrices>)
    ensures t.Some? <==> PhonePlanCountryLangMapping(country, language).Some?
    ensures t.Some? ==> t.value.monthly.Some? && t.value.yearly.Some?
  {
    match PhonePlanCountryLangMapping(country, language)
    case None => None
    case Some(cell) => PhonePlanIdMatrix(cell.currency, cell.key)
  }

  /** `BUNDLE_PLAN_ID_MATRIX`: the bundle is sold by the year only. */
  function BundlePlanIdMatrix(currency: Currency, key: MatrixKey): (t: Option<TermPrices>) {
    match (currency, key)
    case (Usd, En) => Some(TermPrices(None, Some(Price("price_1La3d7JNcmPzuWtRn0cg2EyH", "$?.??"))))
    case _ => None
  }

  /** `BUNDLE_PLAN_COUNTRY_LANG_MAPPING`. */
  function BundlePlanCountryLangMapping(country: Country, language: MatrixKey): (r: Option<CellRef>) {
    match (country, language)
    case (US, En) => Some(CellRef(Usd, En))
    case _ => None
  }

  /** The bundle prices of a country and language: defined exactly where the
      mapping lists the pair, yearly and never monthly. */
  function BundlePlanFor(country: Country, language: MatrixKey): (t: Option<TermPrices>)
    ensures t.Some? <==> BundlePlanCountryLangMapping(country, language).Some?
    ensures t.Some? ==> t.value.monthly.None? && t.value.yearly.Some?
  {
    match BundlePlanCountryLangMapping(country, language)
    case None => None
    case Some(cell) => BundlePlanIdMatrix(cell.currency, cell.key)
  }

  // ---------------------------------------------------------------------
  // Properties of the tables
  // ---------------------------------------------------------------------

  /** Every mapping entry of every product is a cell of that product's matrix. */
  lemma MappingsReferToMatrixCells(country: Country, language: MatrixKey)
    ensures var r := PremiumPlanCountryLangMapping(country, language);
      r.Some? ==> PremiumPlanIdMatrix(r.value.currency, r.value.key).Some?
    ensures var r := PeriodicalPremiumPlanCountryLangMapping(country, language);
      r.Some? ==> PeriodicalPremiumPlanIdMatrix(r.value.currency, r.value.key).Some?
    ensures var r := PhonePlanCountryLangMapping(country, language);
      r.Some? ==> PhonePlanIdMatrix(r.value.currency, r.value.key).Some?
    ensures var r := BundlePlanCountryLangMapping(country, language);
      r.Some? ==> BundlePlanIdMatrix(r.value.currency, r.value.key).Some?
  {
  }

  /** Periodical and phone cells have both terms; bundle cells only the yearly one. */
  lemma MatrixCellTerms(currency: Currency, key: MatrixKey)
    ensures var t := PeriodicalPremiumPlanIdMatrix(currency, key);
      t.Some? ==> t.value.monthly.Some? && t.value.yearly.Some?
    ensures var t := PhonePlanIdMatrix(currency, key);
      t.Some? ==> t.value.monthly.Some? && t.value.yearly.Some?
    ensures var t := BundlePlanIdMatrix(currency, key);
      t.Some? ==> t.value.monthly.None? && t.value.yearly.Some?
  {
  }

  /** Each product is offered only where the one before it is: bundle where
      phones are, phones where periodical premium is, periodical premium
      where the original premium plan is. */
  lemma AvailabilityIsNested(country: Country, language: MatrixKey)
    ensures BundlePlanFor(country, language).Some? ==> PhonePlanFor(country, language).Some?
    ensures PhonePlanFor(country, language).Some? ==> PeriodicalPremiumPlanFor(country, language).Some?
    ensures PeriodicalPremiumPlanFor(country, language).Some? ==> PremiumPlanFor(country, language).Some?
  {
  }
}
