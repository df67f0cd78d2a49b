/** The mission page: the route's category picks a mission heading from a fixed table, and any
    category the table does not hold gets the generic mission. */
module MissionPage {
  import opened Options

  datatype MissionInfo = MissionInfo(title: string, description: string, icon: string)

  const Sales: MissionInfo :=
    MissionInfo("Sales Mission", "Optimize your sales funnel and boost revenue", "\U{1F4B0}")
  const Products: MissionInfo :=
    MissionInfo("Product Mission", "Improve your product catalog and listings", "\U{1F4E6}")
  const Customers: MissionInfo :=
    MissionInfo("Customer Mission", "Enhance customer experience and retention", "\U{1F465}")
  const InventoryMission: MissionInfo :=
    MissionInfo("Inventory Mission", "Optimize your inventory management", "\U{1F4CA}")

  /** The heading shown for a category the table does not hold. */
  const Fallback: MissionInfo := MissionInfo("Mission", "Complete your daily mission", "\U{1F3AF}")

  /** `categoryData`, keyed by its own keys. */
  const CategoryData: map<string, MissionInfo> := map[
    "sales" := Sales,
    "products" := Products,
    "customers" := Customers,
    "inventory" := InventoryMission
  ]

  /** `categoryData[category] || fallback`: a held key gives its record, anything else the
      generic mission. Every record of the table is an object, so none is falsy. */
  function CategoryInfo(category: Option<string>): (r: MissionInfo)
    ensures r == Fallback <==> category.None? || category.value !in CategoryData
    ensures category.Some? && category.value in CategoryData ==> r == CategoryData[category.value]
  {
    if category.Some? && category.value in CategoryData then CategoryData[category.value] else Fallback
  }

  /** Each of the four categories gets its own record. */
  lemma KnownCategories()
    ensures CategoryInfo(Some("sales")) == Sales
    ensures CategoryInfo(Some("products")) == Products
    ensures CategoryInfo(Some("customers")) == Customers
    ensures CategoryInfo(Some("inventory")) == InventoryMission
  {
  }

  /** The four records are pairwise distinct, so the category decides the heading. */
  lemma CategoryInfoInjective(a: string, b: string)
    requires a in CategoryData && b in CategoryData
    requires CategoryInfo(Some(a)) == CategoryInfo(Some(b))
    ensures a == b
  {
  }

  /** A missing category and a differently cased one both fall back. */
  lemma UnknownCategoriesFallBack()
    ensures CategoryInfo(None) == Fallback
    ensures CategoryInfo(Some("Sales")) == Fallback
    ensures CategoryInfo(Some("")) == Fallback
  {
  }
}
