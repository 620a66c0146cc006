/** Properties of the rating helpers of config.py. */
module TariffProperties {
  import opened Money
  import opened Config

  // ---------------------------------------------------------------
  // Regular price (calculer_prix_regulier)
  // ---------------------------------------------------------------

  /** Any duration up to one hour, zero and negatives included, pays the one-hour price. */
  lemma RegularAtMostOneHour(h: real)
    requires h <= 1.0
    ensures RegularPrice(h) == RegularTiers["1h"].price
  {
  }

  /** The whole-hour tiers agree with TARIF_REGULIER, price and effective rate alike. */
  lemma RegularMatchesTierTable()
    ensures RegularPrice(1.0) == RegularTiers["1h"].price == 1.0 * RegularTiers["1h"].effectiveRate
    ensures RegularPrice(2.0) == RegularTiers["2h"].price == 2.0 * RegularTiers["2h"].effectiveRate
    ensures RegularPrice(3.0) == RegularTiers["3h"].price == 3.0 * RegularTiers["3h"].effectiveRate
    ensures RegularPrice(4.0) == RegularTiers["4h"].price == 4.0 * RegularTiers["4h"].effectiveRate
  {
  }

  /** Up to four hours the tiers are steps: a fractional duration pays the
      tier of the next whole hour (so 1.5 h pays the 2 h price). */
  lemma RegularTierRoundsUp(h: real)
    requires 1.0 < h <= 4.0
    ensures 2 <= Ceil(h) <= 4
    ensures RegularPrice(h) == RegularPrice(Ceil(h) as real)
  {
  }

  /** Past four hours: the 4 h base plus the additional-hour rate. */
  lemma RegularOverFour(h: real)
    requires h > 4.0
    ensures RegularPrice(h) == RegularBase4h + (h - 4.0) * RegularExtraHour
  {
  }

  /** More hours never cost less. */
  lemma RegularMonotone(h1: real, h2: real)
    requires h1 <= h2
    ensures RegularPrice(h1) <= RegularPrice(h2)
  {
  }

  /** No jump at four hours: near 4 h the price moves by at most 45 per hour of change. */
  lemma RegularContinuousAtFour(h: real)
    requires 3.0 < h
    ensures var dist := if h >= 4.0 then h - 4.0 else 4.0 - h;
      -45.0 * dist <= RegularPrice(h) - RegularPrice(4.0) <= 45.0 * dist
  {
  }

  // ---------------------------------------------------------------
  // Group price (calculer_prix_groupe)
  // ---------------------------------------------------------------

  /** The hours are the least whole number of half-hours covering
      0.4 per person plus 2, for the clamped headcount. */
  lemma GroupHoursLeastHalfHour(people: int)
    ensures var q := GroupPrice(people);
      q.hours >= 0.4 * q.people as real + 2.0 && q.hours - 0.5 < 0.4 * q.people as real + 2.0
  {
    var q := GroupPrice(people);
    var n := q.people;
    var c := Ceil((0.4 * n as real + 2.0) * 2.0);
    assert c >= 8;
    assert q.hours == c as real / 2.0;
  }

  /** The rounded per-person price, times the headcount, is within half a
      cent per person of the total that is billed. */
  lemma GroupPerPersonCoversTotal(people: int)
    ensures var q := GroupPrice(people);
      q.total - 0.005 * q.people as real <= q.perPerson * q.people as real <= q.total + 0.005 * q.people as real
  {
    PerPersonBounds(GroupPrice(people));
  }

  lemma PerPersonBounds(q: GroupQuote)
    requires q.people > 0 && q.perPerson == Round2(q.total / q.people as real)
    ensures q.total - 0.005 * q.people as real <= q.perPerson * q.people as real <= q.total + 0.005 * q.people as real
  {
    RoundedShareBounds(q.total, q.people as real);
  }

  /** Ten people: 6 hours, 300, 30.00 per person. */
  lemma GroupTenPeople()
    ensures GroupPrice(10) == GroupQuote(6.0, 300.0, 30.0, 10, 50.0)
  {
    assert Ceil(12.0) == 12;
    assert Round2(30.0) == 30.0 by { Round2OfCents(30.0); }
  }

  /** Headcounts outside [5, 20] are priced as the nearest bound. */
  lemma GroupClampsHeadcount(people: int)
    ensures people <= 5 ==> GroupPrice(people) == GroupPrice(5)
    ensures people >= 20 ==> GroupPrice(people) == GroupPrice(20)
  {
  }

  // ---------------------------------------------------------------
  // Shared block (calculer_prix_partage)
  // ---------------------------------------------------------------

  /** The per-neighbour figures for each allowed count; the block is always 200. */
  lemma SharedSplitTable(neighbours: int)
    ensures neighbours <= 2 ==> SharedPrice(neighbours) == SharedQuote(200.0, 2, 100.0, 2.0, 50.0)
    ensures neighbours == 3 ==> SharedPrice(neighbours) == SharedQuote(200.0, 3, 66.67, 1.33, 50.0)
    ensures neighbours >= 4 ==> SharedPrice(neighbours) == SharedQuote(200.0, 4, 50.0, 1.0, 50.0)
  {
    if neighbours <= 2 {
      assert SharedPrice(neighbours).neighbours == 2;
      assert Round2(100.0) == 100.0 by { Round2OfCents(100.0); }
      assert Round2(2.0) == 2.0 by { Round2OfCents(2.0); }
    } else if neighbours == 3 {
      assert (200.0 / 3.0 * 100.0 + 0.5).Floor == 6667;
      assert (4.0 / 3.0 * 100.0 + 0.5).Floor == 133;
    } else {
      assert SharedPrice(neighbours).neighbours == 4;
      assert Round2(50.0) == 50.0 by { Round2OfCents(50.0); }
      assert Round2(1.0) == 1.0 by { Round2OfCents(1.0); }
    }
  }

  // ---------------------------------------------------------------
  // Contracts and packages (CONTRATS, FORFAITS_RECURRENTS)
  // ---------------------------------------------------------------

  /** Every committed contract amount is the minimum hours at the contract rate
      (the annual one over twelve months). */
  lemma ContractTableConsistent()
    ensures forall k :: k in Contracts ==>
      var c := Contracts[k];
      c.commitment.amount == (if c.commitment.TotalAnnual? then 12.0 else 1.0) * c.minHours as real * c.rate
  {
  }

  /** An unknown contract key is priced at the weekly rate. */
  lemma ContractUnknownKeyIsWeekly(key: string)
    requires key != "hebdomadaire" && key != "mensuel" && key != "annuel"
    ensures ContractLookup(key).rate == 45.0
  {
  }

  /** Every package's monthly price is its monthly hours at its rate. */
  lemma PackageTableConsistent()
    ensures forall k :: k in Packages ==>
      Packages[k].hoursPerMonth as real * Packages[k].rate == Packages[k].pricePerMonth
  {
  }

  // ---------------------------------------------------------------
  // Taxes (calculer_taxes)
  // ---------------------------------------------------------------

  /** A 120 subtotal: 6.00 GST, 11.97 QST, 137.97 total. */
  lemma TaxesOn120()
    ensures Taxes(120.0) == TaxBreakdown(120.0, 6.0, 11.97, 137.97)
  {
    Round2OfCents(6.0);
    Round2OfCents(11.97);
    Round2OfCents(137.97);
  }

  /** On a whole-cent subtotal the rounded total is at most one cent away
      from the subtotal plus the two rounded taxes. */
  lemma TotalWithinOneCentOfParts(s: real)
    requires IsCents(s)
    ensures var t := Taxes(s);
      -0.01 <= t.total - (s + t.gst + t.qst) <= 0.01
  {
    var t := Taxes(s);
    var d := t.total - (s + t.gst + t.qst);
    CentsArithmetic(t.gst, t.qst);
    CentsArithmetic(s, t.gst + t.qst);
    CentsArithmetic(t.total, s + t.gst + t.qst);
    var k := (d * 100.0).Floor;
    assert -1.5 < d * 100.0 < 1.5;
    assert -1 <= k <= 1;
  }

  /** The total is not always the subtotal plus the rounded taxes: on 0.10
      both taxes round up to a cent while the total rounds down. */
  lemma TotalMayDifferFromParts()
    ensures Taxes(0.10) == TaxBreakdown(0.10, 0.01, 0.01, 0.11)
    ensures Taxes(0.10).total != 0.10 + Taxes(0.10).gst + Taxes(0.10).qst
  {
    assert (0.10 * 0.05 * 100.0 + 0.5).Floor == 1;
    assert (0.10 * 0.09975 * 100.0 + 0.5).Floor == 1;
    assert (0.10 * 1.14975 * 100.0 + 0.5).Floor == 11;
  }

  /** Taxes never lower a non-negative subtotal that is whole cents or at least five cents. */
  lemma TotalCoversSubtotal(s: real)
    requires s >= 0.0
    requires IsCents(s) || s >= 0.05
    ensures Taxes(s).total >= s
  {
    if IsCents(s) {
      Round2Monotone(s, s * 1.14975);
      Round2OfCents(s);
    }
  }

  /** Below half a cent of tax the total can round under the subtotal. */
  lemma TinySubtotalRoundsBelow()
    ensures Taxes(0.004).total == 0.0 < 0.004
  {
    assert (0.004 * 1.14975 * 100.0 + 0.5).Floor == 0;
  }
}
