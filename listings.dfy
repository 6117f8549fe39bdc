/** The listing record shared by the landlords manager and the view controller. */
module Listings {

  datatype Option<+T> = None | Some(value: T)

  /**
   * One apartment offer. `link` is the identity used to recognise the same
   * offer across poll cycles; `isNew` marks a copy made for a later cycle;
   * `index` is the position assigned by the landlords manager.
   * Title, street, company, time and the two external links are not modelled.
   */
  datatype Apartment = Apartment(
    link: string,
    rooms: int,
    area: int,
    rent: int,
    isNew: bool,
    index: int)

  /** True iff `a` and `b` agree on every field except `index`. */
  predicate SameExceptIndex(a: Apartment, b: Apartment)
  {
    a.link == b.link && a.rooms == b.rooms && a.area == b.area &&
    a.rent == b.rent && a.isNew == b.isNew
  }
}
