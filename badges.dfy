/** The variants of the badge primitive the pages choose between. */
module Badges {

  datatype Variant = Default | Secondary | Outline | Destructive
}
