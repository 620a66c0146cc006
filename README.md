# BCS quote pricing, modelled in Dafny

This project models how the BCS quote generator prices a home-care
quote. The generator serves Quebec home-care and senior-residence (RPA) services.

The model covers:
- The tariff of `config.py`:
  - the Quebec GST and QST rates;
  - the regular hourly tiers;
  - the group, shared-block, contract and package tables;
  - the ordered add-on catalogue.
- The rating helpers of `config.py`:
  - `calculer_prix_regulier`;
  - `calculer_prix_groupe`;
  - `calculer_prix_partage`;
  - `calculer_prix_contrat`;
  - `calculer_taxes`.
- `calculate_totals` of `pdf_generator.py`, which takes a request dict to the dict of totals printed on the quote. In order, it:
  1. picks the rating scheme from the service-type label;
  2. applies the input defaults;
  3. builds the ordered line items;
  4. walks the add-on catalogue;
  5. computes the subtotal and the taxes.

Modules:

- `Money` (money.dfy) holds the exact money arithmetic.
  - Amounts are `real`, so there is no float error.
  - `round(x, 2)` is modelled once, as `Round2`: round half up to a whole number of cents.
  - It also holds `math.ceil` and the clamp `max(lo, min(x, hi))`.
- `Config` (config.dfy) defines the tariff and the rating helpers.
  - The pricing attributes of class `Config` are immutable module constants (`GstRate`, `RegularTiers`, `GroupRate`, `Contracts`, `Addons`, …).
  - The code never reassigns them.
  - Each rating helper is a function with a named result.
    - The contracts of `RegularPrice`, `GroupPrice`, `SharedPrice`, `ContractLookup` and `Taxes` give every figure of the returned dict.
    - The lemmas in `TariffProperties` relate those figures to one another and to the tables.
- `TariffProperties` (tariff_properties.dfy) proves properties of the helpers. Examples:
  - the regular tiers are steps that round a fractional duration up;
  - the price is monotone and has no jump at four hours;
  - group hours are the least covering half-hour;
  - the rounded per-person price adds back up to the total;
  - the tables are internally consistent;
  - how the total and the rounded taxes relate.
- `Quote` (quote.dfy) models the request, the line items and `calculate_totals`.
  - `TotalsOf` is a declarative specification built from:
    - `BaseCharge`, the scheme dispatch;
    - `Selected`, the flagged catalogue entries in catalogue order.
  - The source's step-by-step computation is written as three methods:
    - `ChargeBase`, the `if/elif` chain;
    - `CollectAddons`, the `for` loop over `ADDONS`, with loop invariants on the running total, the details and the lines;
    - `CalculateTotals`.
  - Each method is proved to compute exactly the specification.
- `QuoteProperties` (quote_properties.dfy) proves properties of `TotalsOf`:
  - what each scheme charges, and what the defaults do;
  - that unknown labels are priced as regular;
  - that add-ons are selected in catalogue order;
  - that the line amounts add up to the subtotal;
  - that the total covers the subtotal outside contracts;
  - worked examples.

The request dict is modelled as follows:
- The service type is read with `data.get(key, d)` and no `or`, so it is a three-valued `Field`:
  - `Absent` takes the regular label;
  - `Null` (a present None) matches no label, falls to the final `else`, and is reported back as None;
  - `Present(s)` is the given string, the empty string included.
- The other entries are read as `data.get(key, d) or d`, and are `Option` fields: `None` is a key that is absent or holds None.
- Zero and empty-string values are replaced where the source's `or` replaces them (for example, 0 hours becomes 2).
- `flags` holds the keys whose value is truthy. An add-on is selected when `"addon_" + key` is among them.

Description lines are the `Label` datatype. It records what each f-string shows (hours, rate, headcount, names), not its exact wording.

In these places the code may surprise a reader; the model follows it:

- **Committed contract amounts.** `CONTRATS` records a committed amount for each contract (`total_min`, and `total_annuel` of 7680 for the annual one, config.py:97-101). `calculate_totals` charges the hours at the contract rate whenever `heures` is truthy (pdf_generator.py:81-84), and after the default on line 36 it always is. So no committed amount is ever charged: the annual contract with no hours given costs 80 (2 h at 40). See `AnnualContractPricedByTheHour`. The `total_min` branch (pdf_generator.py:84) is dead code. If it were reached with `annuel`, it would raise `KeyError`, because that entry has no `total_min` (config.py:99). `ChargeBase` proves the branch unreachable.
- **No errors.**
  - An unknown label, or a present None, is priced as a regular visit.
  - An unknown contract or package name falls back to `hebdomadaire` or `Essentiel`.
  - Out-of-range counts are not rejected. A neighbour count is clamped into [2, 4]. A group headcount under 5 (negatives included) takes the hourly fallback; one above 20 is priced as 20.
- **À la carte hours.** They are floored in price (at least 100) but not raised; the hours reported back are the ones given.
- **Group formula.** The per-person price is the only figure rounded to cents; the total is not rounded. The hours are rounded up to the half-hour.
- **Shared block.** The hours per neighbour are rounded to two decimals (1.33 for three neighbours).
- **Regular price, non-whole hours.** Up to four hours, a fractional duration pays the next whole tier: 1.5 h pays 120.
- **Tax total.** It is rounded from the unrounded taxes, so it can differ by a cent from the subtotal plus the two rounded taxes (0.10 gives 0.01 + 0.01 but a total of 0.11).
- **Total below subtotal.** For a contract with negative hours, the total falls below the subtotal.

## Model

| member | source | states |
|---|---|---|
| Money.Round2 | config.py:312-314 | `round(x, 2)`: the result is a whole number of cents within half a cent of x (ties go up) |
| Money.Ceil | config.py:263 | `math.ceil`: the least integer not below x |
| Money.Clamp | config.py:258 | `max(lo, min(x, hi))` lies in [lo, hi]: an in-range value is unchanged, a value below lo gives lo and a value above hi gives hi |
| Money.Round2Monotone | config.py:312-314 | rounding to cents never reverses an order |
| Money.Round2OfCents | config.py:312-314 | an amount already in whole cents is its own rounding |
| Money.RoundedShareBounds | config.py:267-272 | a total split n ways and rounded adds back up, over the n shares, to within half a cent per share |
| Config.RegularPrice | config.py:233-249 | up to 1 h (zero and negatives included) the price is 65; up to 2 h it is 120; up to 3 h, 150; up to 4 h, 180; past 4 h, 180 plus 45 per additional hour; never below 65 |
| Config.GroupPrice | config.py:252-275 | the headcount is clamped to [5, 20]; the hours are `ceil((0.4 × headcount + 2) × 2) / 2`, a whole number of half-hours in [4, 10]; the total is the hours at 50, in [200, 500]; the per-person price is the rounded share; the rate is 50 |
| Config.SharedPrice | config.py:278-294 | the charge is always the 200 block; the neighbour count is clamped to [2, 4]; the cost and the hours per neighbour are the rounded shares of 200 and 4; the rate reported is the group rate of 50 |
| Config.ContractLookup | config.py:297-303 | a known contract key gives its entry; any other key gives the weekly entry; the result is always a table entry |
| Config.Taxes | config.py:306-315 | GST and QST are each the rounded share of the subtotal; the total is the subtotal times 1.14975, rounded |
| TariffProperties.RegularAtMostOneHour | config.py:238-240 | up to one hour (zero and negatives included) the price is the 1 h tier |
| TariffProperties.RegularMatchesTierTable | config.py:62-67 | the whole-hour prices agree with `TARIF_REGULIER`, price and effective rate |
| TariffProperties.RegularTierRoundsUp | config.py:241-246 | between 1 and 4 hours a fractional duration pays the tier of the next whole hour |
| TariffProperties.RegularOverFour | config.py:247-249 | past 4 h the price is 180 plus 45 per additional hour |
| TariffProperties.RegularMonotone | config.py:233-249 | more hours never cost less |
| TariffProperties.RegularContinuousAtFour | config.py:245-249 | at the 4 h boundary the price moves by at most 45 per hour of change |
| TariffProperties.GroupHoursLeastHalfHour | config.py:261-264 | the group hours are the least half-hour multiple covering 0.4 per person plus 2 |
| TariffProperties.GroupPerPersonCoversTotal | config.py:266-272 | the per-person price times the headcount is within half a cent per person of the billed total |
| TariffProperties.PerPersonBounds | config.py:266-272 | for any group quote whose per-person price is the rounded share, that price times the headcount is within half a cent per person of the total |
| TariffProperties.GroupTenPeople | config.py:252-275 | ten people: 6 h, 300, 30.00 each |
| TariffProperties.GroupClampsHeadcount | config.py:258 | headcounts outside [5, 20] are priced as the nearest bound |
| TariffProperties.SharedSplitTable | config.py:284-294 | for 2, 3 and 4 neighbours: 100 / 2.00 h, 66.67 / 1.33 h, 50 / 1.00 h each, always 200 in all |
| TariffProperties.ContractTableConsistent | config.py:97-101 | every committed contract amount equals the minimum hours at the contract rate (times 12 for the annual one) |
| TariffProperties.ContractUnknownKeyIsWeekly | config.py:302 | an unknown contract key is rated at 45 per hour |
| TariffProperties.PackageTableConsistent | config.py:104-108 | every package's monthly price equals its monthly hours at its rate |
| TariffProperties.TaxesOn120 | config.py:306-315 | a 120 subtotal gives 6.00 GST, 11.97 QST and 137.97 in total |
| TariffProperties.TotalWithinOneCentOfParts | config.py:312-314 | on a whole-cent subtotal the total is within one cent of the subtotal plus the rounded taxes |
| TariffProperties.TotalMayDifferFromParts | config.py:312-314 | the one-cent gap happens: on 0.10 the taxes are 0.01 each and the total is 0.11 |
| TariffProperties.TotalCoversSubtotal | config.py:306-315 | the total is at least the subtotal for a non-negative subtotal that is whole cents or at least 0.05 |
| TariffProperties.TinySubtotalRoundsBelow | config.py:314 | a 0.004 subtotal has a total of 0, below the subtotal |
| Quote.Hours | pdf_generator.py:36 | missing or 0 hours become 2; other values are kept; the result is never 0 |
| Quote.Neighbours | pdf_generator.py:71 | a missing or 0 neighbour count becomes 4; other values are kept |
| Quote.ContractKey | pdf_generator.py:79 | a missing or empty contract type becomes `hebdomadaire`; others are kept |
| Quote.PackageName | pdf_generator.py:89 | a missing or empty package name becomes `Essentiel`; others are kept |
| Quote.PackageLookup | pdf_generator.py:90 | a known package name gives its entry; any other name gives `Essentiel`; the result is always a table entry |
| Quote.SchemeOf | pdf_generator.py:44-98 | a label falls to the final `else` exactly when it is None or not in `TYPES_SERVICE`; the group scheme is chosen exactly for the two group labels |
| Quote.BaseCharge | pdf_generator.py:43-98 | there are one or two base lines: two exactly for the shared block and for the group formula (five people or more), one otherwise; the first carries the base price, any second carries 0; the hours are never 0 |
| Quote.Selected | pdf_generator.py:104-105 | the selection is no longer than the catalogue, and everything in it is a flagged catalogue entry |
| Quote.SumPrices | pdf_generator.py:101-106 | the running sum of the prices is never negative when no price is, and is the price itself for a single add-on |
| Quote.AddonLines | pdf_generator.py:108 | one add-on line per selected add-on |
| Quote.Details | pdf_generator.py:107 | one detail per selected add-on |
| Quote.SelectedStep | pdf_generator.py:104-105 | one more catalogue entry extends the selection by that entry exactly when its flag is set |
| Quote.AppendStep | pdf_generator.py:106-108 | one more selected add-on adds its price to the sum and appends its line and its detail |
| Quote.ChargeBase | pdf_generator.py:35-98 | the `if/elif` chain computes exactly the base price, lines and hours of `BaseCharge`; the description is the first line's |
| Quote.CollectAddons | pdf_generator.py:100-108 | the loop over `ADDONS` yields exactly the price sum, the details and the previous lines followed by the add-on lines of the flagged entries, in catalogue order |
| Quote.TotalsOf | pdf_generator.py:25-127 | the specification of `calculate_totals`: the base line(s) followed by one line per selected add-on; the description is the first line's and that line carries the base; the subtotal is the base plus the add-ons; the service type and headcount reported are the defaulted inputs, and the hours are never 0 |
| Quote.CalculateTotals | pdf_generator.py:25-127 | the result is exactly `TotalsOf(req)`; the first line carries the base; the subtotal is the base plus the add-ons; the hours are never 0 |
| QuoteProperties.HoursNeverZero | pdf_generator.py:124-126 | the hours reported are never 0; the headcount reported is the given one, or 0 when it is missing; the service type reported is the defaulted input |
| QuoteProperties.RegularLabelPricing | pdf_generator.py:44-48 | the regular label is charged `calculer_prix_regulier` of the defaulted hours; the lines are that one regular line followed by the selected add-on lines |
| QuoteProperties.ServiceTypeDefault | pdf_generator.py:35-124 | an absent service type is reported as the regular label and priced on a regular line; a present None is reported as None and falls to the final `else`, with the same price; a given string is reported back unchanged |
| QuoteProperties.UnrecognisedLabelPricedAsRegular | pdf_generator.py:95-98 | a label that is None or outside `TYPES_SERVICE` is priced, taxed and totalled exactly as the regular label; the lines are one service line followed by the add-on lines, and only that first line's label differs |
| QuoteProperties.ALaCartePricing | pdf_generator.py:50-54 | à la carte is 50 per hour floored at 100 (exactly 100 up to 2 h); the hours are reported as given; one base line, then the add-on lines |
| QuoteProperties.GroupFormulaPath | pdf_generator.py:57-62 | at five people or more: the group formula total, then a zero-amount per-person line, then the add-on lines |
| QuoteProperties.GroupHourlyPath | pdf_generator.py:63-68 | under five people: the hours are raised to at least 4 and charged at 50 (at least 200); the raised hours are reported; one base line, then the add-on lines |
| QuoteProperties.SharedPricing | pdf_generator.py:70-76 | the shared block is always 200, followed by a zero-amount per-neighbour line and then the add-on lines; no count means four neighbours at 50.00 |
| QuoteProperties.ContractPricing | pdf_generator.py:78-86 | a contract charges the hours at the selected variant's rate; an unknown variant charges 45 an hour; one base line, then the add-on lines |
| QuoteProperties.AnnualContractPricedByTheHour | pdf_generator.py:81-84 | the annual contract with no hours given costs 80 (2 h at 40), not its 7680 commitment |
| QuoteProperties.PackagePricing | pdf_generator.py:88-93 | a package charges the chosen package's monthly price (360 for an unknown name), whatever the hours; one base line, then the add-on lines |
| QuoteProperties.SelectedMembership | pdf_generator.py:104-105 | an add-on is selected exactly when it is in the catalogue and flagged |
| QuoteProperties.SelectedPrefix | pdf_generator.py:104-108 | the selection from a prefix of the catalogue is a prefix of the whole selection, so the catalogue order is kept |
| QuoteProperties.SelectedSumBounds | pdf_generator.py:106 | with no negative prices, the selected add-ons cost between 0 and the whole catalogue |
| QuoteProperties.DetailsMatchLines | pdf_generator.py:107-108 | the i-th detail and the i-th add-on line carry the same name and price |
| QuoteProperties.CatalogueTotal | config.py:142-148 | the whole add-on catalogue adds up to 60 |
| QuoteProperties.SelectedAddonsBounded | pdf_generator.py:101-106 | any add-on selection costs between 0 and 60 |
| QuoteProperties.QuoteAddons | pdf_generator.py:100-108 | the add-on total, details and lines are the flagged entries in catalogue order, after the unchanged base lines; the total is in [0, 60] |
| QuoteProperties.AmountsAppend | pdf_generator.py:108 | the amounts of two concatenated line lists add up |
| QuoteProperties.AmountsOfAddonLines | pdf_generator.py:106-108 | the add-on lines' amounts add up to the add-on total |
| QuoteProperties.LinesAddUp | pdf_generator.py:48-108 | a base line, zero-amount note lines and add-on lines add up to the base plus the add-ons |
| QuoteProperties.QuoteTotals | pdf_generator.py:111-123 | the subtotal is the base plus the add-ons and also the sum of all line amounts; the taxes are `calculer_taxes` of the subtotal |
| QuoteProperties.BaseAtLeastRegularHour | pdf_generator.py:43-98 | every scheme except the contract charges at least 65 |
| QuoteProperties.TaxedSumCovers | pdf_generator.py:111-112 | a base of at least 65 plus non-negative add-ons, once taxed, is no less than itself |
| QuoteProperties.TotalCoversSubtotalOutsideContracts | pdf_generator.py:111-123 | outside contracts, 65 ≤ base ≤ subtotal ≤ total |
| QuoteProperties.NegativeContractHours | pdf_generator.py:81-82 | a contract at −1 h has a subtotal of −45 and a total of −51.74, below the subtotal |
| QuoteProperties.NoFlagsNoAddons | pdf_generator.py:104-105 | with no flag set, no add-on is selected |
| QuoteProperties.RegularTwoHoursExample | pdf_generator.py:44-48 | regular, 2 h: one 120 line, 6.00 GST, 11.97 QST, 137.97 total |
| QuoteProperties.GroupTenPeopleExample | pdf_generator.py:57-62 | group care, 10 people: a 300 line for 6 h and a 30.00 per-person line |
| QuoteProperties.SharedFourExample | pdf_generator.py:70-76 | shared among 4: a 200 line and a 50.00 per-neighbour line |
| QuoteProperties.OnlyFirstFlagged | pdf_generator.py:104-105 | when only the first catalogue entry is flagged, the selection is exactly that entry |
| QuoteProperties.UrgencyOnlySelection | pdf_generator.py:104-105 | with only the urgency flag set, only the urgency add-on is selected |
| QuoteProperties.ALaCarteUrgencyExample | pdf_generator.py:50-123 | à la carte 1 h with urgency: 100 + 15 = 115; 5.75 GST, 11.47 QST, 132.22 total; the hours stay 1 |

## Left out

- The web app, Notion, e-mail, AI parsing and voice modules (`app.py`, `notion_service.py`, `email_service.py`, `ai_parser.py`, `voice_processor.py`) are not part of this model. They are I/O around the pricing.
- `generate_soumission_pdf` and the colour constants are not modelled. They only lay out the PDF.
- Environment loading, keys and the tables not used in pricing (`SERVICES_CARTE`, `CATEGORIES`, contact details) are not modelled.
- Floating point is not modelled: amounts are exact reals.
  - Python's `round` rounds half to even on a binary float; the model rounds exact decimals half up. The two can differ on ties such as `round(0.125, 2)`.
- Description strings are modelled by their content (the `Label` datatype), not their wording or number formatting.
- `taux` on pdf_generator.py:46 is computed but never used, so it is not modelled.
- The `type_groupe` parameter of `calculer_prix_groupe` is never read, so it is not modelled.
- Requests whose hours or headcount are not numbers, or whose entries have the wrong type, are not modelled. The source handles them differently from branch to branch. Some branches raise: `max(1, '2')` at config.py:238, or `'2' * 50.0` at pdf_generator.py:51. Others pass the value through unchanged:
  - a string `nombre_heures` under the package label is priced at the package price and returned as `heures`;
  - a string `nombre_personnes` under the regular label is returned as is;
  - `type_service: 42` falls to the final `else` and is reported back;
  - an unknown `type_contrat` such as 5 takes the weekly entry.
- For every entry except the service type, a key present with a falsy value is treated like a missing key, as the `or` default does.
- Quote.People / Quote.Neighbours: non-integer headcounts are not modelled. The source accepts one without raising (7.5 people in a group gives 5 h, 250, and 33.33 per person), but the model's counts are integers.
- Config.RegularPrice uses the literal prices of its `if` chain, as the source does, rather than reading `TARIF_REGULIER`. `TariffProperties.RegularMatchesTierTable` proves the two agree.
- TariffProperties.TotalCoversSubtotal is stated only for subtotals that are whole cents or at least 0.05. Below that the claim is false (`TariffProperties.TinySubtotalRoundsBelow`).
