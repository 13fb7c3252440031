/** A waste category as the backend publishes it and the frontend stores it.
    Only the identity (`id`) and the display `name` carry logic; icon, colour,
    gradient, description and examples are display metadata. */
module Taxonomy {

  datatype Category = Category(id: string, name: string)

  /** No two entries of a taxonomy table share an id. */
  predicate DistinctIds(table: seq<Category>) {
    forall i, j :: 0 <= i < j < |table| ==> table[i].id != table[j].id
  }
}
