/** The agent detail page: the lookup of the route's agent id in the agent table, with its
    "Agent Not Found" branch, the badge classes of alerts and reorder points, and the restock
    figures, which follow the formula the page displays. */
module AgentDetail {
  import opened Options

  datatype Alert = Alert(sku: string, message: string, action: string, alertType: string)

  /** A restock recommendation; `daysLeft` is fractional in the data (5.5). */
  datatype RestockRow = RestockRow(
    sku: string, stock: int, avgDaily: int, daysLeft: real,
    leadTime: int, safety: int, recommended: int)

  /** A reorder-point row; `rowType` picks the badge colour. */
  datatype ReorderPoint = ReorderPoint(sku: string, rop: int, current: int, status: string, rowType: string)

  /** The parts of an agent record that the page derives something from. */
  datatype AgentRecord = AgentRecord(
    name: string, description: string, status: string, lastRun: string, nextRun: string,
    alerts: seq<Alert>, restockRecommendations: seq<RestockRow>, reorderPoints: seq<ReorderPoint>)

  const InventoryAlerts: seq<Alert> := [
    Alert("SKU-1029", "will stockout in 3 days based on 7‑day velocity.", "Action required", "warn"),
    Alert("SKU-5512", "has 120 days of inventory and 0 sales in 14 days. Consider markdown or bundle.", "Slow mover", "warn"),
    Alert("SKU-3399", "inventory aged 90+ days. Storage risk flagged.", "Aging", "warn")
  ]

  const InventoryRestock: seq<RestockRow> := [
    RestockRow("SKU-1029", 18, 6, 3.0, 7, 10, 34),
    RestockRow("SKU-2044", 22, 4, 5.5, 10, 12, 30),
    RestockRow("SKU-7781", 15, 3, 5.0, 8, 8, 17)
  ]

  const InventoryReorderPoints: seq<ReorderPoint> := [
    ReorderPoint("SKU-1029", 42, 18, "Below ROP", "warn"),
    ReorderPoint("SKU-2044", 50, 22, "Below ROP", "warn"),
    ReorderPoint("SKU-8800", 30, 46, "Healthy", "good")
  ]

  const InventoryDescription: string :=
    "Automates repetitive work: monitor stock, predict shortages, recommend restocks, detect slow-movers, and optimize reorder points."

  /** The inventory agent, the one record of the table. */
  const Inventory: AgentRecord := AgentRecord(
    "Supply Chain Manager", InventoryDescription, "Active", "1h ago", "today 18:00",
    InventoryAlerts, InventoryRestock, InventoryReorderPoints)

  /** The agent table, keyed by agent id; its only own key is "inventory". */
  const AgentData: map<string, AgentRecord> := map["inventory" := Inventory]

  /** `agentData[agentId]`: the record of a known id, nothing for an unknown or absent one. */
  function LookupAgent(agentId: Option<string>): (r: Option<AgentRecord>)
    ensures r.Some? <==> agentId == Some("inventory")
    ensures r.Some? ==> r.value == Inventory
  {
    if agentId.Some? && agentId.value in AgentData then Some(AgentData[agentId.value]) else None
  }

  /** The page's heading: the not-found page for every id but "inventory". */
  function PageHeading(agentId: Option<string>): (r: string)
    ensures r == "Agent Not Found" <==> agentId != Some("inventory")
    ensures agentId == Some("inventory") ==> r == "Agent: Supply Chain Manager"
  {
    match LookupAgent(agentId)
    case None => "Agent Not Found"
    case Some(agent) => "Agent: " + agent.name
  }

  /** The lookup is by exact key: another spelling of the id is not found. */
  lemma LookupIsCaseSensitive()
    ensures LookupAgent(Some("Inventory")) == None
    ensures LookupAgent(None) == None
    ensures PageHeading(Some("Inventory")) == "Agent Not Found"
  {
  }

  const WarnBadge: string := "bg-yellow-50 text-yellow-700 border-yellow-200"
  const GoodBadge: string := "bg-green-50 text-green-700 border-green-200"
  const DefaultBadge: string := "bg-gray-50 text-gray-700 border-gray-200"

  /** `getStatusBadgeClass`: yellow for "warn", green for "good", grey for any other type. */
  function StatusBadgeClass(badgeType: string): (r: string)
    ensures r == DefaultBadge <==> badgeType != "warn" && badgeType != "good"
    ensures r == WarnBadge <==> badgeType == "warn"
    ensures r == GoodBadge <==> badgeType == "good"
  {
    match badgeType
    case "warn" => WarnBadge
    case "good" => GoodBadge
    case _ => DefaultBadge
  }

  /** Every alert of the inventory agent carries the yellow badge. */
  lemma InventoryAlertsWarn()
    ensures forall a :: a in InventoryAlerts ==> StatusBadgeClass(a.alertType) == WarnBadge
  {
  }

  /** The restock quantity the page explains: average daily sales times lead time, plus safety
      stock, minus current inventory. Nothing bounds it below. */
  function RestockFormula(row: RestockRow): int {
    row.avgDaily * row.leadTime + row.safety - row.stock
  }

  /** The formula is not clamped: stock above the demand over the lead time plus safety stock
      gives a negative quantity. */
  lemma RestockFormulaUnclamped(row: RestockRow)
    ensures RestockFormula(row) < 0 <==> row.stock > row.avgDaily * row.leadTime + row.safety
  {
  }

  /** Every recommended quantity of the data is the formula's value for its row, and every
      `daysLeft` is current stock over average daily sales. */
  lemma RestockRowsFollowFormula()
    ensures forall row :: row in InventoryRestock ==> row.recommended == RestockFormula(row)
    ensures forall row :: row in InventoryRestock ==>
      row.daysLeft * row.avgDaily as real == row.stock as real
  {
  }

  /** A reorder-point row is consistent when "Below ROP" rows are below their reorder point
      with a warning badge and "Healthy" rows are at or above it with a good badge. */
  predicate ReorderConsistent(p: ReorderPoint) {
    (p.status == "Below ROP" ==> p.current < p.rop && p.rowType == "warn")
    && (p.status == "Healthy" ==> p.current >= p.rop && p.rowType == "good")
  }

  lemma ReorderPointsConsistent()
    ensures forall p :: p in InventoryReorderPoints ==> ReorderConsistent(p)
    ensures forall p :: p in InventoryReorderPoints ==>
      (StatusBadgeClass(p.rowType) == WarnBadge <==> p.current < p.rop)
  {
  }
}
