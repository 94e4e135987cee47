/** The suggestion record the search endpoint returns: only its display name is used. */
module Breeds {

  /** `interface Breed { name: string }` */
  datatype Breed = Breed(name: string)
}
