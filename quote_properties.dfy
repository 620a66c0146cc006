/** Properties of calculate_totals, stated on its specification TotalsOf
    (which CalculateTotals is proved to compute). */
module QuoteProperties {
  import opened Money
  import opened Config
  import opened Quote
  import TariffProperties

  // ---------------------------------------------------------------
  // Defaults and dispatch
  // ---------------------------------------------------------------

  /** Whatever the scheme, the hours reported back are never 0. */
  lemma HoursNeverZero(req: Request)
    ensures TotalsOf(req).hours != 0.0
    ensures TotalsOf(req).people == (if req.people.Some? then req.people.value else 0)
    ensures TotalsOf(req).serviceType == ServiceType(req)
  {
  }

  /** 'Régulier (sans contrat)' uses the regular tiers on the defaulted hours. */
  lemma RegularLabelPricing(req: Request)
    requires ServiceType(req) == Some(RegularLabel)
    ensures var t := TotalsOf(req);
      t.base == RegularPrice(Hours(req)) && t.hours == Hours(req)
      && t.lines == [Line(RegularLine(Hours(req)), t.base)] + AddonLines(Selected(req.flags, Addons))
      && t.description == t.lines[0].text
  {
  }

  /** Any label outside TYPES_SERVICE is priced as a regular visit, with no
      error: it yields the same amounts as the regular label would. */
  lemma UnrecognisedLabelPricedAsRegular(req: Request)
    requires SchemeOf(ServiceType(req)) == UnrecognisedScheme
    ensures var t, r := TotalsOf(req), TotalsOf(req.(serviceType := Present(RegularLabel)));
      t.base == r.base == RegularPrice(Hours(req))
      && t.addonsTotal == r.addonsTotal && t.subtotal == r.subtotal
      && t.gst == r.gst && t.qst == r.qst && t.total == r.total && t.hours == r.hours
      && t.lines == [Line(ServiceLine(Hours(req)), t.base)] + AddonLines(Selected(req.flags, Addons))
      && |t.lines| == |r.lines| && t.lines[1..] == r.lines[1..]
  {
    var r := req.(serviceType := Present(RegularLabel));
    assert SchemeOf(ServiceType(r)) == RegularScheme;
    assert |BaseCharge(req).lines| == 1 && |BaseCharge(r).lines| == 1;
  }

  /** Only an absent service type takes the regular label; a present None
      matches no label and falls to the final branch, and None is what is
      reported back. The amounts are the same either way. */
  lemma ServiceTypeDefault(req: Request)
    ensures req.serviceType.Absent? ==>
      TotalsOf(req).serviceType == Some(RegularLabel)
      && TotalsOf(req).lines[0] == Line(RegularLine(Hours(req)), RegularPrice(Hours(req)))
    ensures req.serviceType.Null? ==>
      TotalsOf(req).serviceType == None
      && TotalsOf(req).lines[0] == Line(ServiceLine(Hours(req)), RegularPrice(Hours(req)))
    ensures req.serviceType.Present? ==> TotalsOf(req).serviceType == Some(req.serviceType.value)
  {
  }

  /** À la carte: 50 per hour floored at 100; the hours are reported as given. */
  lemma ALaCartePricing(req: Request)
    requires ServiceType(req) == Some(ALaCarteLabel)
    ensures var t := TotalsOf(req);
      t.base == MaxReal(Hours(req) * DisplayedRate, 100.0) && t.base >= 100.0
      && (Hours(req) >= 2.0 ==> t.base == Hours(req) * 50.0)
      && (Hours(req) <= 2.0 ==> t.base == 100.0)
      && t.hours == Hours(req)
      && t.lines == [Line(ALaCarteLine(Hours(req), DisplayedRate), t.base)] + AddonLines(Selected(req.flags, Addons))
  {
  }

  /** A group of at least five: the formula price, then a zero-amount
      per-person line right after the base line. */
  lemma GroupFormulaPath(req: Request)
    requires SchemeOf(ServiceType(req)) == GroupScheme && People(req) >= GroupMinPeople
    ensures var t, g := TotalsOf(req), GroupPrice(People(req));
      t.base == g.total && |t.lines| >= 2
      && t.lines[0] == Line(GroupLine(ServiceType(req).value, People(req), g.hours), g.total)
      && t.lines[1] == Line(PerPersonLine(g.perPerson), 0.0)
      && t.lines[2..] == AddonLines(Selected(req.flags, Addons))
      && t.hours == Hours(req)
  {
    assert |BaseCharge(req).lines| == 2;
  }

  /** Fewer than five (or no headcount): hourly at the group rate, the hours
      raised to at least 4, and the raised hours are reported back. */
  lemma GroupHourlyPath(req: Request)
    requires SchemeOf(ServiceType(req)) == GroupScheme && People(req) < GroupMinPeople
    ensures var t := TotalsOf(req);
      t.hours == MaxReal(Hours(req), 4.0) && t.hours >= 4.0
      && t.base == t.hours * GroupRate && t.base >= 200.0
      && t.lines == [Line(GroupHourlyLine(ServiceType(req).value, t.hours, GroupRate), t.base)]
                    + AddonLines(Selected(req.flags, Addons))
  {
  }

  /** Shared block: always 200, then a zero-amount per-neighbour line; no
      count (or 0) means four neighbours. */
  lemma SharedPricing(req: Request)
    requires ServiceType(req) == Some(SharedLabel)
    ensures var t, s := TotalsOf(req), SharedPrice(Neighbours(req));
      t.base == 200.0 && |t.lines| >= 2
      && t.lines[0] == Line(SharedLine(s.neighbours, 4), 200.0)
      && t.lines[1] == Line(PerNeighbourLine(s.costPerNeighbour), 0.0)
      && t.lines[2..] == AddonLines(Selected(req.flags, Addons))
    ensures req.people.None? || req.people.value == 0 ==>
      TotalsOf(req).lines[0].text == SharedLine(4, 4) && TotalsOf(req).lines[1] == Line(PerNeighbourLine(50.0), 0.0)
  {
    assert |BaseCharge(req).lines| == 2;
    TariffProperties.SharedSplitTable(Neighbours(req));
  }

  /** Contract: the hours at the selected variant's rate; a missing or
      unknown variant is the weekly one. */
  lemma ContractPricing(req: Request)
    requires ServiceType(req) == Some(ContractLabel)
    ensures var t := TotalsOf(req);
      t.base == Hours(req) * ContractLookup(ContractKey(req)).rate
      && t.lines == [Line(ContractLine(ContractKey(req), Hours(req), ContractLookup(ContractKey(req)).rate), t.base)]
                    + AddonLines(Selected(req.flags, Addons))
    ensures ContractKey(req) !in Contracts ==> TotalsOf(req).base == Hours(req) * 45.0
  {
  }

  /** The annual contract is priced by the hour, not by its yearly
      commitment: with no hours given it costs 2 h at 40, not 7680. */
  lemma AnnualContractPricedByTheHour()
    ensures TotalsOf(Request(Present(ContractLabel), None, None, Some("annuel"), None, {})).base == 80.0
  {
  }

  /** Package: the monthly price of the chosen package (Essentiel when the
      name is missing or unknown), whatever the hours. */
  lemma PackagePricing(req: Request, otherHours: Option<real>)
    requires ServiceType(req) == Some(PackageLabel)
    ensures var t := TotalsOf(req);
      t.base == PackageLookup(PackageName(req)).pricePerMonth
      && (PackageName(req) !in Packages ==> t.base == 360.0)
      && t.lines == [Line(PackageLine(PackageName(req), PackageLookup(PackageName(req)).hoursPerMonth,
                                      PackageLookup(PackageName(req)).frequency), t.base)]
                    + AddonLines(Selected(req.flags, Addons))
      && TotalsOf(req.(hours := otherHours)).base == t.base
  {
  }

  // ---------------------------------------------------------------
  // Add-ons
  // ---------------------------------------------------------------

  /** An entry is selected exactly when it is in the catalogue and flagged. */
  lemma {:induction false} SelectedMembership(flags: set<string>, catalogue: seq<Addon>, a: Addon)
    ensures a in Selected(flags, catalogue) <==> a in catalogue && Flagged(flags, a)
  {
    if catalogue != [] {
      var init := catalogue[..|catalogue| - 1];
      SelectedMembership(flags, init, a);
      assert catalogue == init + [catalogue[|catalogue| - 1]];
    }
  }

  /** When only the first catalogue entry is flagged, it alone is selected. */
  lemma {:induction false} OnlyFirstFlagged(flags: set<string>, catalogue: seq<Addon>)
    requires |catalogue| > 0 && Flagged(flags, catalogue[0])
    requires forall k :: 1 <= k < |catalogue| ==> !Flagged(flags, catalogue[k])
    ensures Selected(flags, catalogue) == [catalogue[0]]
  {
    var init := catalogue[..|catalogue| - 1];
    if |catalogue| == 1 {
      assert init == [];
    } else {
      assert init[0] == catalogue[0];
      assert forall k :: 1 <= k < |init| ==> init[k] == catalogue[k];
      OnlyFirstFlagged(flags, init);
    }
  }

  /** Catalogue order: the selection from any prefix of the catalogue is a
      prefix of the whole selection. */
  lemma {:induction false} SelectedPrefix(flags: set<string>, catalogue: seq<Addon>, i: nat)
    requires i <= |catalogue|
    ensures var whole := Selected(flags, catalogue);
      var part := Selected(flags, catalogue[..i]);
      |part| <= |whole| && whole[..|part|] == part
  {
    if i < |catalogue| {
      var init := catalogue[..|catalogue| - 1];
      SelectedPrefix(flags, init, i);
      assert init[..i] == catalogue[..i];
    } else {
      assert catalogue[..i] == catalogue;
    }
  }

  /** With no negative prices, the selected add-ons cost between nothing and the whole catalogue. */
  lemma {:induction false} SelectedSumBounds(flags: set<string>, catalogue: seq<Addon>)
    requires forall k :: 0 <= k < |catalogue| ==> catalogue[k].price >= 0.0
    ensures 0.0 <= SumPrices(Selected(flags, catalogue)) <= SumPrices(catalogue)
  {
    if catalogue != [] {
      var init := catalogue[..|catalogue| - 1];
      var last := catalogue[|catalogue| - 1];
      SelectedSumBounds(flags, init);
      assert init + [last] == catalogue;
      if Flagged(flags, last) {
        AppendStep(Selected(flags, init), last, []);
      } else {
        assert Selected(flags, catalogue) == Selected(flags, init);
      }
    }
  }

  /** The i-th detail and the i-th add-on line carry the same name and price. */
  lemma {:induction false} DetailsMatchLines(s: seq<Addon>, i: nat)
    requires i < |s|
    ensures Details(s)[i] == AddonDetail(s[i].name, s[i].price)
    ensures AddonLines(s)[i] == Line(AddonLine(s[i].name), s[i].price)
  {
    if i < |s| - 1 {
      DetailsMatchLines(s[..|s| - 1], i);
    }
  }

  /** The whole catalogue adds up to 60. */
  lemma CatalogueTotal()
    ensures SumPrices(Addons) == 60.0
  {
    var c := Addons;
    assert c[..1] == [] + [c[0]];
    AppendStep([], c[0], []);
    forall k | 1 <= k < 5 ensures c[..k + 1] == c[..k] + [c[k]] { }
    AppendStep(c[..1], c[1], []);
    AppendStep(c[..2], c[2], []);
    AppendStep(c[..3], c[3], []);
    AppendStep(c[..4], c[4], []);
    assert c[..5] == c;
  }

  /** The add-ons of a quote: the flagged entries in catalogue order, one
      line each after the base line(s), the details in the same order, and
      a total between 0 and 60. */
  lemma QuoteAddons(req: Request)
    ensures var t, b, sel := TotalsOf(req), BaseCharge(req), Selected(req.flags, Addons);
      t.addonsTotal == SumPrices(sel) && 0.0 <= t.addonsTotal <= 60.0
      && |t.addonDetails| == |sel| && |t.lines| == |b.lines| + |sel|
      && t.lines[..|b.lines|] == b.lines
      && (forall i :: 0 <= i < |sel| ==>
            t.addonDetails[i] == AddonDetail(sel[i].name, sel[i].price)
            && t.lines[|b.lines| + i] == Line(AddonLine(sel[i].name), sel[i].price))
      && (forall a :: a in sel <==> a in Addons && Flagged(req.flags, a))
  {
    var t, b, sel := TotalsOf(req), BaseCharge(req), Selected(req.flags, Addons);
    SelectedAddonsBounded(req.flags);
    forall i | 0 <= i < |sel|
      ensures t.addonDetails[i] == AddonDetail(sel[i].name, sel[i].price)
      ensures t.lines[|b.lines| + i] == Line(AddonLine(sel[i].name), sel[i].price)
    {
      DetailsMatchLines(sel, i);
    }
    forall a
      ensures a in sel <==> a in Addons && Flagged(req.flags, a)
    {
      SelectedMembership(req.flags, Addons, a);
    }
  }

  // ---------------------------------------------------------------
  // Totals
  // ---------------------------------------------------------------

  /** Sum of the line-item amounts. */
  function Amounts(lines: seq<Line>): real {
    if lines == [] then 0.0 else Amounts(lines[..|lines| - 1]) + lines[|lines| - 1].amount
  }

  lemma {:induction false} AmountsAppend(a: seq<Line>, b: seq<Line>)
    ensures Amounts(a + b) == Amounts(a) + Amounts(b)
  {
    if b != [] {
      var init := b[..|b| - 1];
      AmountsAppend(a, init);
      assert (a + b)[..|a + b| - 1] == a + init;
      assert (a + b)[|a + b| - 1] == b[|b| - 1];
    } else {
      assert a + b == a;
    }
  }

  lemma {:induction false} AmountsOfAddonLines(s: seq<Addon>)
    ensures Amounts(AddonLines(s)) == SumPrices(s)
  {
    if s != [] {
      var init := s[..|s| - 1];
      AmountsOfAddonLines(init);
      assert AddonLines(s)[..|s| - 1] == AddonLines(init);
    }
  }

  /** The subtotal is the sum of the line-item amounts (the informational
      lines carry 0), the first line carries the base price, and the taxes
      are calculer_taxes of the subtotal. */
  lemma QuoteTotals(req: Request)
    ensures var t := TotalsOf(req);
      t.subtotal == t.base + t.addonsTotal && t.lines[0].amount == t.base
      && Amounts(t.lines) == t.subtotal
      && Taxes(t.subtotal) == TaxBreakdown(t.subtotal, t.gst, t.qst, t.total)
  {
    LinesAddUp(BaseCharge(req), Selected(req.flags, Addons));
  }

  /** A base line followed by zero-amount lines and then add-on lines adds
      up to the base price plus the add-on prices. */
  lemma LinesAddUp(b: Base, sel: seq<Addon>)
    requires 1 <= |b.lines| <= 2 && b.lines[0].amount == b.price
    requires forall i :: 1 <= i < |b.lines| ==> b.lines[i].amount == 0.0
    ensures Amounts(b.lines + AddonLines(sel)) == b.price + SumPrices(sel)
  {
    AmountsAppend(b.lines, AddonLines(sel));
    AmountsOfAddonLines(sel);
    var first := b.lines[..1];
    assert first[..0] == [];
    assert Amounts(first) == b.price;
    if |b.lines| == 2 {
      assert b.lines[..1] == first;
      assert b.lines[1].amount == 0.0;
    } else {
      assert b.lines == first;
    }
  }

  /** Outside contracts the base is at least 65, so the total covers the
      subtotal, which covers the base. */
  lemma TotalCoversSubtotalOutsideContracts(req: Request)
    requires SchemeOf(ServiceType(req)) != ContractScheme
    ensures var t := TotalsOf(req);
      65.0 <= t.base <= t.subtotal <= t.total
  {
    BaseAtLeastRegularHour(req);
    var sel := Selected(req.flags, Addons);
    SelectedAddonsBounded(req.flags);
    TaxedSumCovers(BaseCharge(req).price, SumPrices(sel));
  }

  /** Any selection of add-ons costs between 0 and the whole catalogue's 60. */
  lemma SelectedAddonsBounded(flags: set<string>)
    ensures 0.0 <= SumPrices(Selected(flags, Addons)) <= 60.0
  {
    SelectedSumBounds(flags, Addons);
    CatalogueTotal();
  }

  /** A base of at least 65 plus non-negative add-ons, taxed, covers itself. */
  lemma TaxedSumCovers(base: real, addons: real)
    requires base >= 65.0 && addons >= 0.0
    ensures base <= base + addons <= Taxes(base + addons).total
  {
    TariffProperties.TotalCoversSubtotal(base + addons);
  }

  /** Every scheme but the contract charges at least the one-hour regular price. */
  lemma BaseAtLeastRegularHour(req: Request)
    requires SchemeOf(ServiceType(req)) != ContractScheme
    ensures BaseCharge(req).price >= 65.0
  {
    match SchemeOf(ServiceType(req))
    case GroupScheme =>
      if People(req) >= GroupMinPeople {
        assert GroupPrice(People(req)).total >= 200.0;
      }
    case PackageScheme =>
      var f := PackageLookup(PackageName(req));
      assert f.pricePerMonth >= 360.0;
    case _ =>
  }

  /** A contract with negative hours has a negative subtotal, and then the
      total falls below the subtotal. */
  lemma NegativeContractHours()
    ensures var t := TotalsOf(Request(Present(ContractLabel), Some(-1.0), None, None, None, {}));
      t.base == t.subtotal == -45.0 && t.total == -51.74 && t.total < t.subtotal
  {
    NoFlagsNoAddons(Request(Present(ContractLabel), Some(-1.0), None, None, None, {}));
    assert (-45.0 * 1.14975 * 100.0 + 0.5).Floor == -5174;
  }

  // ---------------------------------------------------------------
  // Worked examples
  // ---------------------------------------------------------------

  lemma NoFlagsNoAddons(req: Request)
    requires req.flags == {}
    ensures Selected(req.flags, Addons) == []
  {
    var sel := Selected(req.flags, Addons);
    if sel != [] {
      SelectedMembership(req.flags, Addons, sel[0]);
      assert false;
    }
  }

  /** Regular, 2 hours: 120, taxes 6.00 and 11.97, total 137.97. */
  lemma RegularTwoHoursExample()
    ensures var t := TotalsOf(Request(Present(RegularLabel), Some(2.0), None, None, None, {}));
      t.base == 120.0 && t.lines == [Line(RegularLine(2.0), 120.0)]
      && t.subtotal == 120.0 && t.gst == 6.0 && t.qst == 11.97 && t.total == 137.97
  {
    NoFlagsNoAddons(Request(Present(RegularLabel), Some(2.0), None, None, None, {}));
    TariffProperties.TaxesOn120();
  }

  /** Group care, 10 people: 6 hours, 300, and a 30.00 per-person line. */
  lemma GroupTenPeopleExample()
    ensures var t := TotalsOf(Request(Present(GroupCareLabel), None, Some(10), None, None, {}));
      t.base == 300.0
      && t.lines == [Line(GroupLine(GroupCareLabel, 10, 6.0), 300.0), Line(PerPersonLine(30.0), 0.0)]
  {
    NoFlagsNoAddons(Request(Present(GroupCareLabel), None, Some(10), None, None, {}));
    TariffProperties.GroupTenPeople();
  }

  /** Shared among 4: 200 and a 50.00 per-neighbour line. */
  lemma SharedFourExample()
    ensures var t := TotalsOf(Request(Present(SharedLabel), None, Some(4), None, None, {}));
      t.base == 200.0
      && t.lines == [Line(SharedLine(4, 4), 200.0), Line(PerNeighbourLine(50.0), 0.0)]
  {
    NoFlagsNoAddons(Request(Present(SharedLabel), None, Some(4), None, None, {}));
    TariffProperties.SharedSplitTable(4);
  }

  /** Only the urgency flag set: only the first catalogue entry is selected. */
  lemma UrgencyOnlySelection()
    ensures Selected({"addon_urgence"}, Addons) == [Addon("urgence", "Urgence même jour", 15.0)]
  {
    var flags: set<string> := {"addon_urgence"};
    assert "addon_" + Addons[0].key == "addon_urgence";
    forall k | 1 <= k < |Addons| ensures !Flagged(flags, Addons[k]) {
      assert |"addon_" + Addons[k].key| != |"addon_urgence"|;
    }
    OnlyFirstFlagged(flags, Addons);
  }

  /** À la carte, 1 hour with the same-day urgency: 100 (floored) + 15,
      subtotal 115, taxes 5.75 and 11.47, total 132.22; the hours stay 1. */
  lemma ALaCarteUrgencyExample()
    ensures var t := TotalsOf(Request(Present(ALaCarteLabel), Some(1.0), None, None, None, {"addon_urgence"}));
      t.base == 100.0 && t.hours == 1.0 && t.addonsTotal == 15.0 && t.subtotal == 115.0
      && t.lines == [Line(ALaCarteLine(1.0, 50.0), 100.0), Line(AddonLine("Urgence même jour"), 15.0)]
      && t.gst == 5.75 && t.qst == 11.47 && t.total == 132.22
  {
    UrgencyOnlySelection();
    var a := Addon("urgence", "Urgence même jour", 15.0);
    AppendStep([], a, []);
    assert [] + [a] == [a];
    assert Taxes(115.0) == TaxBreakdown(115.0, 5.75, 11.47, 132.22) by {
      assert (115.0 * 0.05 * 100.0 + 0.5).Floor == 575;
      assert (115.0 * 0.09975 * 100.0 + 0.5).Floor == 1147;
      assert (115.0 * 1.14975 * 100.0 + 0.5).Floor == 13222;
    }
  }
}
