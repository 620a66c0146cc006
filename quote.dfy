/** calculate_totals of pdf_generator.py (lines 25-127): picks the rating
    scheme from the service-type label, applies the input defaults, builds
    the ordered line items, adds the selected add-ons in catalogue order and
    computes the subtotal and the taxes.

    TotalsOf is the specification, written declaratively; CalculateTotals is
    the step-by-step computation of the source, proved equal to it. */
module Quote {
  import opened Money
  import opened Config

  datatype Option<T> = None | Some(value: T)

  /** A dict entry read without an `or` default: the key may be absent, or
      present and hold None, or hold a value. */
  datatype Field<T> = Absent | Null | Present(value: T)

  /** The request dict. The service type is read without an `or` default,
      so a present None is kept. For the other entries None stands for a
      key that is absent or holds a falsy value (None, 0, ""), which the
      source's `or` replaces; flags holds the keys whose value is truthy
      (the add-on switches are looked up as "addon_" + catalogue key). */
  datatype Request = Request(
    serviceType: Field<string>,
    hours: Option<real>,
    people: Option<int>,
    contractType: Option<string>,
    packageName: Option<string>,
    flags: set<string>)

  /** What each line-item description shows, without its exact wording. */
  datatype Label =
    | RegularLine(hours: real)                                  // "Service régulier — {h}h"
    | ALaCarteLine(hours: real, rate: real)                     // "Animation & Compagnie — {h}h × {rate}$/h"
    | GroupLine(service: string, people: int, groupHours: real) // "{type} — {n} pers. × {h}h"
    | PerPersonLine(pricePerPerson: real)                       // "  ({p}$/personne)"
    | GroupHourlyLine(service: string, hours: real, rate: real) // "{type} — {h}h × {rate}$/h"
    | SharedLine(neighbours: int, blockHours: nat)              // "Bloc partagé {n} voisins — {b}h"
    | PerNeighbourLine(costPerNeighbour: real)                  // "  ({c}$/voisin)"
    | ContractLine(contract: string, hours: real, rate: real)   // "Contrat {key} — {h}h × {rate}$/h"
    | PackageLine(package: string, hoursPerMonth: nat, frequency: string)
    | ServiceLine(hours: real)                                  // "Service — {h}h"
    | AddonLine(name: string)                                   // "+ {nom}"

  datatype Line = Line(text: Label, amount: real)

  datatype AddonDetail = AddonDetail(name: string, price: real)

  /** The dict returned by calculate_totals. */
  datatype Totals = Totals(
    base: real,
    description: Label,
    lines: seq<Line>,
    addonsTotal: real,
    addonDetails: seq<AddonDetail>,
    subtotal: real,
    gst: real,
    qst: real,
    total: real,
    serviceType: Option<string>,
    hours: real,
    people: int)

  // ---------------------------------------------------------------
  // Input defaults: data.get(key, d) or d
  // ---------------------------------------------------------------

  /** data.get('type_service', RegularLabel), with no `or`: only an absent
      key takes the default, a present None stays None. */
  function ServiceType(req: Request): Option<string>
  {
    match req.serviceType
    case Absent => Some(RegularLabel)
    case Null => None
    case Present(typ) => Some(typ)
  }

  /** Missing, None or 0 hours become 2, so the hours are never 0. */
  function Hours(req: Request): (h: real)
    ensures h != 0.0
    ensures req.hours.Some? && req.hours.value != 0.0 ==> h == req.hours.value
    ensures req.hours.None? || req.hours.value == 0.0 ==> h == 2.0
  {
    match req.hours
    case Some(h) => if h != 0.0 then h else 2.0
    case None => 2.0
  }

  /** Missing, None or 0 people become 0. */
  function People(req: Request): int
  {
    match req.people
    case Some(n) => n
    case None => 0
  }

  /** The neighbour count reads the same key, but defaults to 4. */
  function Neighbours(req: Request): (n: int)
    ensures n != 0
    ensures req.people.Some? && req.people.value != 0 ==> n == req.people.value
    ensures req.people.None? || req.people.value == 0 ==> n == 4
  {
    match req.people
    case Some(n) => if n != 0 then n else 4
    case None => 4
  }

  function ContractKey(req: Request): (key: string)
    ensures key != ""
    ensures req.contractType.Some? && req.contractType.value != "" ==> key == req.contractType.value
    ensures req.contractType.None? || req.contractType.value == "" ==> key == "hebdomadaire"
  {
    match req.contractType
    case Some(k) => if k != "" then k else "hebdomadaire"
    case None => "hebdomadaire"
  }

  function PackageName(req: Request): (name: string)
    ensures name != ""
    ensures req.packageName.Some? && req.packageName.value != "" ==> name == req.packageName.value
    ensures req.packageName.None? || req.packageName.value == "" ==> name == "Essentiel"
  {
    match req.packageName
    case Some(k) => if k != "" then k else "Essentiel"
    case None => "Essentiel"
  }

  /** FORFAITS_RECURRENTS.get(name, FORFAITS_RECURRENTS["Essentiel"]). */
  function PackageLookup(name: string): (p: Package)
    ensures p in Packages.Values
    ensures name in Packages ==> p == Packages[name]
    ensures name !in Packages ==> p == Packages["Essentiel"]
  {
    if name in Packages then Packages[name] else Packages["Essentiel"]
  }

  // ---------------------------------------------------------------
  // Scheme dispatch and base charge
  // ---------------------------------------------------------------

  datatype Scheme = RegularScheme | ALaCarteScheme | GroupScheme | SharedScheme
                  | ContractScheme | PackageScheme | UnrecognisedScheme

  /** The scheme a label selects; the two group labels share one, and a
      None matches no label. */
  function SchemeOf(typ: Option<string>): (s: Scheme)
    ensures s == UnrecognisedScheme <==> typ.None? || typ.value !in ServiceTypes
    ensures s == GroupScheme <==> typ == Some(GroupCareLabel) || typ == Some(GroupAnimationLabel)
  {
    match typ
    case None => UnrecognisedScheme
    case Some(typ) => SchemeOfLabel(typ)
  }

  function SchemeOfLabel(typ: string): Scheme {
    if typ == RegularLabel then RegularScheme
    else if typ == ALaCarteLabel then ALaCarteScheme
    else if typ == GroupCareLabel || typ == GroupAnimationLabel then GroupScheme
    else if typ == SharedLabel then SharedScheme
    else if typ == ContractLabel then ContractScheme
    else if typ == PackageLabel then PackageScheme
    else UnrecognisedScheme
  }

  /** The base price, its line(s) and the hours reported back. */
  datatype Base = Base(price: real, lines: seq<Line>, hours: real)

  function BaseCharge(req: Request): (b: Base)
    ensures 1 <= |b.lines| <= 2 && b.lines[0].amount == b.price
    ensures |b.lines| == 2 <==>
      SchemeOf(ServiceType(req)) == SharedScheme
      || (SchemeOf(ServiceType(req)) == GroupScheme && People(req) >= GroupMinPeople)
    ensures forall i :: 1 <= i < |b.lines| ==> b.lines[i].amount == 0.0
    ensures b.hours != 0.0
  {
    var typ := ServiceType(req);
    var h := Hours(req);
    var n := People(req);
    match SchemeOf(typ)
    case RegularScheme =>
      var p := RegularPrice(h);
      Base(p, [Line(RegularLine(h), p)], h)
    case ALaCarteScheme =>
      var p := MaxReal(h * DisplayedRate, 100.0);
      Base(p, [Line(ALaCarteLine(h, DisplayedRate), p)], h)
    case GroupScheme =>
      if n >= GroupMinPeople then
        var g := GroupPrice(n);
        Base(g.total, [Line(GroupLine(typ.value, n, g.hours), g.total), Line(PerPersonLine(g.perPerson), 0.0)], h)
      else
        var h4 := MaxReal(h, 4.0);
        var p := h4 * GroupRate;
        Base(p, [Line(GroupHourlyLine(typ.value, h4, GroupRate), p)], h4)
    case SharedScheme =>
      var s := SharedPrice(Neighbours(req));
      Base(s.total, [Line(SharedLine(s.neighbours, SharedBlockHours), s.total),
                     Line(PerNeighbourLine(s.costPerNeighbour), 0.0)], h)
    case ContractScheme =>
      var key := ContractKey(req);
      var c := ContractLookup(key);
      var p := h * c.rate;
      Base(p, [Line(ContractLine(key, h, c.rate), p)], h)
    case PackageScheme =>
      var name := PackageName(req);
      var f := PackageLookup(name);
      Base(f.pricePerMonth, [Line(PackageLine(name, f.hoursPerMonth, f.frequency), f.pricePerMonth)], h)
    case UnrecognisedScheme =>
      var p := RegularPrice(h);
      Base(p, [Line(ServiceLine(h), p)], h)
  }

  // ---------------------------------------------------------------
  // Add-ons
  // ---------------------------------------------------------------

  /** data.get(f'addon_{key}', False) is truthy: the switch of an entry is
      its catalogue key behind the "addon_" prefix. */
  predicate Flagged(flags: set<string>, a: Addon)
  {
    "addon_" + a.key in flags
  }

  /** The flagged catalogue entries, in catalogue order. */
  function Selected(flags: set<string>, catalogue: seq<Addon>): (r: seq<Addon>)
    ensures |r| <= |catalogue|
    ensures forall a :: a in r ==> a in catalogue && Flagged(flags, a)
  {
    if catalogue == [] then []
    else
      var last := catalogue[|catalogue| - 1];
      Selected(flags, catalogue[..|catalogue| - 1]) + (if Flagged(flags, last) then [last] else [])
  }

  /** Left-to-right running sum of the prices. */
  function SumPrices(s: seq<Addon>): (r: real)
    ensures (forall i :: 0 <= i < |s| ==> s[i].price >= 0.0) ==> r >= 0.0
    ensures |s| == 1 ==> r == s[0].price
  {
    if s == [] then 0.0 else SumPrices(s[..|s| - 1]) + s[|s| - 1].price
  }

  function AddonLines(s: seq<Addon>): (r: seq<Line>)
    ensures |r| == |s|
  {
    if s == [] then [] else AddonLines(s[..|s| - 1]) + [Line(AddonLine(s[|s| - 1].name), s[|s| - 1].price)]
  }

  function Details(s: seq<Addon>): (r: seq<AddonDetail>)
    ensures |r| == |s|
  {
    if s == [] then [] else Details(s[..|s| - 1]) + [AddonDetail(s[|s| - 1].name, s[|s| - 1].price)]
  }

  /** One more catalogue entry extends the selection by that entry exactly when it is flagged. */
  lemma SelectedStep(flags: set<string>, catalogue: seq<Addon>, i: int)
    requires 0 <= i < |catalogue|
    ensures "addon_" + catalogue[i].key in flags ==>
      Selected(flags, catalogue[..i + 1]) == Selected(flags, catalogue[..i]) + [catalogue[i]]
    ensures "addon_" + catalogue[i].key !in flags ==>
      Selected(flags, catalogue[..i + 1]) == Selected(flags, catalogue[..i])
  {
    assert catalogue[..i + 1][..i] == catalogue[..i];
  }

  /** Appending one add-on appends its price, its line (after any lines
      before the add-on lines) and its detail. */
  lemma AppendStep(s: seq<Addon>, a: Addon, before: seq<Line>)
    ensures SumPrices(s + [a]) == SumPrices(s) + a.price
    ensures before + AddonLines(s + [a]) == (before + AddonLines(s)) + [Line(AddonLine(a.name), a.price)]
    ensures Details(s + [a]) == Details(s) + [AddonDetail(a.name, a.price)]
  {
    assert (s + [a])[..|s|] == s;
  }

  // ---------------------------------------------------------------
  // The totals
  // ---------------------------------------------------------------

  /** What calculate_totals returns for a request. */
  function TotalsOf(req: Request): (t: Totals)
    ensures |t.lines| == |BaseCharge(req).lines| + |t.addonDetails|
    ensures t.description == t.lines[0].text && t.lines[0].amount == t.base
    ensures t.subtotal == t.base + t.addonsTotal
    ensures t.serviceType == ServiceType(req) && t.people == People(req) && t.hours != 0.0
  {
    var b := BaseCharge(req);
    var sel := Selected(req.flags, Addons);
    var addons := SumPrices(sel);
    var sub := b.price + addons;
    var tx := Taxes(sub);
    Totals(b.price, b.lines[0].text, b.lines + AddonLines(sel), addons, Details(sel),
           sub, tx.gst, tx.qst, tx.total, ServiceType(req), b.hours, People(req))
  }

  /** The if-chain of calculate_totals on the label (lines 35-98): the base
      price, the description, the base line(s) and the hours. */
  method ChargeBase(req: Request) returns (base: real, description: Label, lines: seq<Line>, hours: real)
    ensures Base(base, lines, hours) == BaseCharge(req)
    ensures description == lines[0].text
  {
    var serviceType := ServiceType(req);
    hours := Hours(req);
    var people := People(req);

    base := 0.0;
    lines := [];

    if serviceType == Some(RegularLabel) {
      assert SchemeOf(serviceType) == RegularScheme;
      base := RegularPrice(hours);
      description := RegularLine(hours);
      lines := lines + [Line(description, base)];
    } else if serviceType == Some(ALaCarteLabel) {
      assert SchemeOf(serviceType) == ALaCarteScheme;
      base := hours * DisplayedRate;
      base := MaxReal(base, 100.0);
      description := ALaCarteLine(hours, DisplayedRate);
      lines := lines + [Line(description, base)];
    } else if serviceType == Some(GroupCareLabel) || serviceType == Some(GroupAnimationLabel) {
      assert SchemeOf(serviceType) == GroupScheme;
      if people >= GroupMinPeople {
        var g := GroupPrice(people);
        base := g.total;
        description := GroupLine(serviceType.value, people, g.hours);
        lines := lines + [Line(description, base)];
        lines := lines + [Line(PerPersonLine(g.perPerson), 0.0)];
      } else {
        hours := MaxReal(hours, 4.0);
        base := hours * GroupRate;
        description := GroupHourlyLine(serviceType.value, hours, GroupRate);
        lines := lines + [Line(description, base)];
      }
    } else if serviceType == Some(SharedLabel) {
      assert SchemeOf(serviceType) == SharedScheme;
      var s := SharedPrice(Neighbours(req));
      base := s.total;
      description := SharedLine(s.neighbours, SharedBlockHours);
      lines := lines + [Line(description, base)];
      lines := lines + [Line(PerNeighbourLine(s.costPerNeighbour), 0.0)];
    } else if serviceType == Some(ContractLabel) {
      assert SchemeOf(serviceType) == ContractScheme;
      var key := ContractKey(req);
      var c := ContractLookup(key);
      if hours != 0.0 {
        base := hours * c.rate;
      } else {
        // the total_min path: the hours default makes it unreachable
        assert false;
      }
      description := ContractLine(key, hours, c.rate);
      lines := lines + [Line(description, base)];
    } else if serviceType == Some(PackageLabel) {
      assert SchemeOf(serviceType) == PackageScheme;
      var name := PackageName(req);
      var f := PackageLookup(name);
      base := f.pricePerMonth;
      description := PackageLine(name, f.hoursPerMonth, f.frequency);
      lines := lines + [Line(description, base)];
    } else {
      assert SchemeOf(serviceType) == UnrecognisedScheme;
      base := RegularPrice(hours);
      description := ServiceLine(hours);
      lines := lines + [Line(description, base)];
    }
  }

  /** The add-on loop of calculate_totals (lines 101-108): every flagged
      catalogue entry, in catalogue order, adds its price to the running
      total, its detail to the details and its line after the lines so far. */
  method CollectAddons(flags: set<string>, catalogue: seq<Addon>, lines0: seq<Line>)
    returns (addonsTotal: real, details: seq<AddonDetail>, lines: seq<Line>)
    ensures addonsTotal == SumPrices(Selected(flags, catalogue))
    ensures details == Details(Selected(flags, catalogue))
    ensures lines == lines0 + AddonLines(Selected(flags, catalogue))
  {
    addonsTotal := 0.0;
    details := [];
    lines := lines0;
    var i := 0;
    while i < |catalogue|
      invariant 0 <= i <= |catalogue|
      invariant addonsTotal == SumPrices(Selected(flags, catalogue[..i]))
      invariant details == Details(Selected(flags, catalogue[..i]))
      invariant lines == lines0 + AddonLines(Selected(flags, catalogue[..i]))
    {
      var a := catalogue[i];
      ghost var before := Selected(flags, catalogue[..i]);
      SelectedStep(flags, catalogue, i);
      if "addon_" + a.key in flags {
        var l := Line(AddonLine(a.name), a.price);
        AppendStep(before, a, lines0);
        addonsTotal := addonsTotal + a.price;
        details := details + [AddonDetail(a.name, a.price)];
        lines := lines + [l];
      }
      i := i + 1;
    }
    assert catalogue[..i] == catalogue;
  }

  /** calculate_totals: the base charge, the add-ons of the catalogue, then
      the subtotal and the taxes. */
  method CalculateTotals(req: Request) returns (t: Totals)
    ensures t == TotalsOf(req)
    ensures t.lines[0].amount == t.base && t.subtotal == t.base + t.addonsTotal
    ensures t.hours != 0.0
  {
    var base, description, lines, hours := ChargeBase(req);
    var addonsTotal, details;
    addonsTotal, details, lines := CollectAddons(req.flags, Addons, lines);
    var subtotal := base + addonsTotal;
    var taxes := Taxes(subtotal);
    t := Totals(base, description, lines, addonsTotal, details, subtotal,
                taxes.gst, taxes.qst, taxes.total, ServiceType(req), hours, People(req));
  }
}
