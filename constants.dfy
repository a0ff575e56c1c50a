/** The enumerations shared by the applications, one datatype per constant
    object; the comment on each constructor gives the string stored in the
    database. */
module Constants {

  datatype PlanTier =
    | Free        // "FREE"
    | PaidTier1   // "PAID_TIER_1"
    | PaidTier2   // "PAID_TIER_2"

  datatype BillingPeriod =
    | Monthly     // "MONTHLY"
    | Yearly      // "YEARLY"

  datatype TenantStatus =
    | TenantActive     // "ACTIVE"
    | TenantSuspended  // "SUSPENDED"
    | TenantNotActive  // "NOT_ACTIVE"

  datatype SubscriptionStatus =
    | SubscriptionActive     // "ACTIVE"
    | SubscriptionCancelled  // "CANCELLED"
    | SubscriptionPastDue    // "PAST_DUE"
    | SubscriptionUnpaid     // "UNPAID"

  /** The names of the seeded system roles. */
  const ADMIN_ROLE := "Admin"
  const MEMBER_ROLE := "Member"
  const VIEWER_ROLE := "Viewer"
}
