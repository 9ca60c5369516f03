/** Service tiers and what they earn. */
module Tiers {

  datatype Tier = Free | Paid {
    /** Credit earned in one turn, where a dispatch costs 1. */
    function Weight(): real {
      match this
      case Free => 0.5
      case Paid => 1.0
    }
  }
}
