/**
 * The dashboard (src/components/Dashboard.tsx): hardcoded parking counters,
 * a zone status list whose status strings are turned into a colour, a text
 * and a badge variant, and a recent-activity list with an icon per action.
 */
module Dashboard {
  import opened Palette

  /** The three status strings both lookups recognise. */
  predicate KnownStatus(status: string) {
    status == "available" || status == "moderate" || status == "busy"
  }

  /** getStatusColor: one colour per known status, gray for anything else. */
  function StatusColor(status: string): (c: Color)
    ensures c == Green <==> status == "available"
    ensures c == Yellow <==> status == "moderate"
    ensures c == Red <==> status == "busy"
    ensures c == Gray <==> !KnownStatus(status)
  {
    if status == "available" then Green
    else if status == "moderate" then Yellow
    else if status == "busy" then Red
    else Gray
  }

  /** getStatusText: the French label of a status, "Inconnu" for anything else. */
  function StatusText(status: string): (text: string)
    ensures text == "Disponible" <==> status == "available"
    ensures text == "Modéré" <==> status == "moderate"
    ensures text == "Saturé" <==> status == "busy"
    ensures text == "Inconnu" <==> !KnownStatus(status)
  {
    if status == "available" then "Disponible"
    else if status == "moderate" then "Modéré"
    else if status == "busy" then "Saturé"
    else "Inconnu"
  }

  /** The two lookups agree on which statuses they know, and name the same level. */
  lemma ColorAndTextAgree(status: string)
    ensures StatusColor(status) == Gray <==> StatusText(status) == "Inconnu"
    ensures StatusColor(status) == Green <==> StatusText(status) == "Disponible"
    ensures StatusColor(status) == Yellow <==> StatusText(status) == "Modéré"
    ensures StatusColor(status) == Red <==> StatusText(status) == "Saturé"
  {
  }

  datatype BadgeVariant = Default | Secondary

  /** The status badge is highlighted only for an available zone. */
  function StatusBadge(status: string): (v: BadgeVariant)
    ensures v == Default <==> StatusColor(status) == Green
  {
    if status == "available" then Default else Secondary
  }

  datatype ActivityIcon = GreenCar | RedCar | CheckCircle

  /** The icon of a recent-activity row: entries and exits get a car, anything else a check mark. */
  function ActivityIconOf(action: string): (icon: ActivityIcon)
    ensures icon == GreenCar <==> action == "Entrée"
    ensures icon == RedCar <==> action == "Sortie"
  {
    if action == "Entrée" then GreenCar
    else if action == "Sortie" then RedCar
    else CheckCircle
  }

  datatype ParkingStats = ParkingStats(totalSpaces: int, occupiedSpaces: int, availableSpaces: int, reservedSpaces: int)

  const Stats := ParkingStats(200, 142, 58, 15)

  /** occupancyRate: occupied spaces as a percentage of all spaces. */
  function OccupancyRate(stats: ParkingStats): (rate: real)
    requires stats.totalSpaces > 0
    ensures 0 <= stats.occupiedSpaces <= stats.totalSpaces ==> 0.0 <= rate <= 100.0
  {
    (stats.occupiedSpaces as real / stats.totalSpaces as real) * 100.0
  }

  /** The hardcoded counters add up, and the displayed rate is 71%. */
  lemma StatsConsistent()
    ensures Stats.occupiedSpaces + Stats.availableSpaces == Stats.totalSpaces
    ensures Stats.reservedSpaces <= Stats.availableSpaces
    ensures OccupancyRate(Stats) == 71.0
  {
  }

  datatype ZoneStatus = ZoneStatus(name: string, total: int, occupied: int, status: string)

  const Zones: seq<ZoneStatus> := [
    ZoneStatus("Zone A - Principal", 80, 65, "busy"),
    ZoneStatus("Zone B - Enseignants", 60, 42, "moderate"),
    ZoneStatus("Zone C - Visiteurs", 40, 20, "available"),
    ZoneStatus("Zone D - Personnel", 20, 15, "busy")
  ]

  /** Every hardcoded zone has a status both lookups know, so none is shown gray or "Inconnu". */
  lemma ZoneStatusesKnown()
    ensures forall i :: 0 <= i < |Zones| ==>
      StatusColor(Zones[i].status) != Gray && StatusText(Zones[i].status) != "Inconnu"
    ensures forall i :: 0 <= i < |Zones| ==> 0 <= Zones[i].occupied <= Zones[i].total
  {
  }
}
