/** The tariff of config.py (the pricing attributes of class Config,
    lines 54-148) as immutable module constants, and the rating helpers calculer_prix_regulier, calculer_prix_groupe,
    calculer_prix_partage, calculer_prix_contrat and calculer_taxes. */
module Config {
  import opened Money

  /** TARIF_REGULIER entry: a whole-hour tier. */
  datatype RegularTier = RegularTier(hours: nat, price: real, effectiveRate: real)

  /** Minimum-hours period of a corporate contract (min_heures_sem or min_heures_mois). */
  datatype Period = Weekly | Monthly

  /** The committed amount of a contract: total_min, or total_annuel for the annual one. */
  datatype Commitment = TotalMin(amount: real) | TotalAnnual(amount: real)

  /** CONTRATS entry. */
  datatype Contract = Contract(minHours: nat, per: Period, rate: real, commitment: Commitment)

  /** FORFAITS_RECURRENTS entry. */
  datatype Package = Package(frequency: string, hoursPerMonth: nat, pricePerMonth: real, rate: real)

  /** ADDONS entry; the catalogue keeps the dict's insertion order. */
  datatype Addon = Addon(key: string, name: string, price: real)

  // TYPES_SERVICE labels, matched exactly by the dispatcher
  const RegularLabel := "Régulier (sans contrat)"
  const ALaCarteLabel := "À la carte (Animation)"
  const GroupCareLabel := "Groupe Soins RPA"
  const GroupAnimationLabel := "Groupe Animation RPA"
  const SharedLabel := "Partagé voisins RPA"
  const ContractLabel := "Contrat corporatif"
  const PackageLabel := "Forfait récurrent"

  // The class attributes of Config (config.py:54-148) used in pricing

  /** TPS_RATE and TVQ_RATE. */
  const GstRate := 0.05
  const QstRate := 0.09975

  /** TARIF_REGULIER, and the 4 h+ base and additional-hour rate. */
  const RegularTiers: map<string, RegularTier> := map[
    "1h" := RegularTier(1, 65.0, 65.0),
    "2h" := RegularTier(2, 120.0, 60.0),
    "3h" := RegularTier(3, 150.0, 50.0),
    "4h" := RegularTier(4, 180.0, 45.0)]
  const RegularBase4h := 180.0
  const RegularExtraHour := 45.0

  /** TARIF_AFFICHE, the displayed hourly rate. */
  const DisplayedRate := 50.0

  /** GROUPE_*. */
  const GroupRate := 50.0
  const GroupBaseHours: nat := 4
  const GroupBasePrice := 200.0
  const GroupMinPeople: int := 5
  const GroupMaxPeople: int := 20

  /** PARTAGE_*. */
  const SharedBlockHours: nat := 4
  const SharedBlockPrice := 200.0
  const SharedMaxNeighbours: int := 4
  const SharedMinNeighbours: int := 2

  /** CONTRATS. */
  const Contracts: map<string, Contract> := map[
    "hebdomadaire" := Contract(4, Weekly, 45.0, TotalMin(180.0)),
    "mensuel" := Contract(16, Monthly, 43.0, TotalMin(688.0)),
    "annuel" := Contract(16, Monthly, 40.0, TotalAnnual(7680.0))]

  /** FORFAITS_RECURRENTS. */
  const Packages: map<string, Package> := map[
    "Essentiel" := Package("1x/semaine", 8, 360.0, 45.0),
    "Confort" := Package("2x/semaine", 16, 680.0, 42.5),
    "Premium" := Package("3x/semaine", 24, 960.0, 40.0)]

  /** TYPES_SERVICE. */
  const ServiceTypes: seq<string> := [RegularLabel, ALaCarteLabel, GroupCareLabel, GroupAnimationLabel,
                                      SharedLabel, ContractLabel, PackageLabel]

  /** ADDONS, in the dict's insertion order. */
  const Addons: seq<Addon> := [
    Addon("urgence", "Urgence même jour", 15.0),
    Addon("hors_horaire", "Hors horaire (avant 7h / après 20h)", 10.0),
    Addon("fin_semaine", "Fin de semaine / jour férié", 10.0),
    Addon("deplacement_extra", "Déplacement hors zone", 15.0),
    Addon("materiel", "Matériel / fournitures spéciales", 10.0)]

  /** calculer_prix_regulier: tiered price of a regular visit. The tier
      prices are literals in the source, not read from RegularTiers. */
  function RegularPrice(hours: real): (p: real)
    ensures hours <= 1.0 ==> p == 65.0
    ensures 1.0 < hours <= 2.0 ==> p == 120.0
    ensures 2.0 < hours <= 3.0 ==> p == 150.0
    ensures 3.0 < hours <= 4.0 ==> p == 180.0
    ensures hours > 4.0 ==> p == 180.0 + (hours - 4.0) * 45.0
    ensures p >= 65.0
  {
    var h := MaxReal(1.0, hours);
    if h <= 1.0 then 65.0
    else if h <= 2.0 then 120.0
    else if h <= 3.0 then 150.0
    else if h <= 4.0 then 180.0
    else 180.0 + (h - 4.0) * 45.0
  }

  /** Result dict of calculer_prix_groupe. */
  datatype GroupQuote = GroupQuote(hours: real, total: real, perPerson: real, people: int, rate: real)

  /** True when h is a whole number of half-hours. */
  predicate IsHalfHours(h: real) {
    (h * 2.0).Floor as real == h * 2.0
  }

  /** calculer_prix_groupe: hours from the headcount, rounded up to the
      half-hour, floored at the base hours; price at the group rate. */
  function GroupPrice(people: int): (q: GroupQuote)
    ensures q.people == Clamp(people, GroupMinPeople, GroupMaxPeople)
    ensures 5 <= q.people <= 20
    ensures q.hours == Ceil((0.4 * q.people as real + 2.0) * 2.0) as real / 2.0
    ensures IsHalfHours(q.hours) && 4.0 <= q.hours <= 10.0
    ensures q.total == q.hours * GroupRate && 200.0 <= q.total <= 500.0
    ensures q.perPerson == Round2(q.total / q.people as real)
    ensures q.rate == GroupRate
  {
    var n := Clamp(people, GroupMinPeople, GroupMaxPeople);
    var raw := 0.4 * n as real + 2.0;
    var c := Ceil(raw * 2.0);
    assert c <= 20;
    var rounded := c as real / 2.0;
    assert rounded * 2.0 == c as real;
    var hours := MaxReal(rounded, GroupBaseHours as real);
    var total := hours * GroupRate;
    GroupQuote(hours, total, Round2(total / n as real), n, GroupRate)
  }

  /** Result dict of calculer_prix_partage. */
  datatype SharedQuote = SharedQuote(total: real, neighbours: int, costPerNeighbour: real,
                                     hoursPerNeighbour: real, rate: real)

  /** calculer_prix_partage: the fixed block split among the neighbours,
      for display only; the block price is what is charged. */
  function SharedPrice(neighbours: int): (q: SharedQuote)
    ensures q.total == SharedBlockPrice == 200.0
    ensures q.neighbours == Clamp(neighbours, SharedMinNeighbours, SharedMaxNeighbours)
    ensures 2 <= q.neighbours <= 4
    ensures q.costPerNeighbour == Round2(q.total / q.neighbours as real)
    ensures q.hoursPerNeighbour == Round2(SharedBlockHours as real / q.neighbours as real)
    ensures q.rate == GroupRate
  {
    var n := Clamp(neighbours, SharedMinNeighbours, SharedMaxNeighbours);
    SharedQuote(SharedBlockPrice, n,
                Round2(SharedBlockPrice / n as real),
                Round2(SharedBlockHours as real / n as real),
                GroupRate)
  }

  /** calculer_prix_contrat (and the same lookup inlined in calculate_totals):
      CONTRATS.get(key, CONTRATS["hebdomadaire"]). */
  function ContractLookup(key: string): (c: Contract)
    ensures c in Contracts.Values
    ensures key in Contracts ==> c == Contracts[key]
    ensures key !in Contracts ==> c == Contracts["hebdomadaire"]
  {
    if key in Contracts then Contracts[key] else Contracts["hebdomadaire"]
  }

  /** Result dict of calculer_taxes. */
  datatype TaxBreakdown = TaxBreakdown(subtotal: real, gst: real, qst: real, total: real)

  /** calculer_taxes: GST and QST on the same subtotal, each rounded; the
      total is rounded from the unrounded taxes. */
  function Taxes(subtotal: real): (t: TaxBreakdown)
    ensures t.subtotal == subtotal
    ensures t.gst == Round2(subtotal * GstRate)
    ensures t.qst == Round2(subtotal * QstRate)
    ensures t.total == Round2(subtotal * (1.0 + GstRate + QstRate))
  {
    var gst := subtotal * GstRate;
    var qst := subtotal * QstRate;
    assert subtotal + gst + qst == subtotal * (1.0 + GstRate + QstRate);
    TaxBreakdown(subtotal, Round2(gst), Round2(qst), Round2(subtotal + gst + qst))
  }
}
