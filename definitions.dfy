/** The records the lookup page works on: the four-level business taxonomy, the
    Finance Act fee table, and the denormalised activity record that the page
    builds from the taxonomy. Field names follow what the page reads. */
module Definitions {

  /** Absence as a value: the page's `selectedActivity` is a record or `null`. */
  datatype Option<T> = None | Some(value: T)

  /** A leaf of the taxonomy; `trade` is the key into the Finance Act table. */
  datatype Activity = Activity(code: string, name: string, trade: string)

  datatype SubCategory = SubCategory(
    subCategoryCode: string,
    subCategoryName: string,
    activities: seq<Activity>)

  datatype Category = Category(
    businessCategoryCode: string,
    businessCategoryName: string,
    businessSubCategories: seq<SubCategory>)

  datatype Industry = Industry(
    industryCode: string,
    industryName: string,
    businesses: seq<Category>)

  /** One row of the Finance Act table: its code, the trade key `NAICS`, a
      description and five fee amounts, which the page only displays. */
  datatype FinancialAct = FinancialAct(
    code: string,
    NAICS: string,
    des: string,
    trade: int,
    fire: int,
    food: int,
    health: int,
    pest: int)

  /** One leaf activity together with the names and codes of its three ancestors. */
  datatype FlatActivity = FlatActivity(
    activity: string,
    activityCode: string,
    industry: string,
    industryCode: string,
    category: string,
    categoryCode: string,
    subCategory: string,
    subCategoryCode: string,
    trade: string)
}
