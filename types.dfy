/** The language code shared by every page of the site. */
module Types {

  /** The two-valued language of the site: Amharic ('am') or English ('en'). */
  datatype Language = Am | En

}
