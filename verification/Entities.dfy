/** Identifiers and enumerations of the database schema shared by the services. */
module Entities {

  type Id = string

  datatype TransactionType = CREDIT | DEBIT

  datatype ObligationStatus = PENDING | PAID | OVERDUE | CANCELLED | PARTIAL

  datatype Period = Period(month: int, year: int)

  const DAY_MS := 24 * 60 * 60 * 1000

  /** The size of an amount in cents, or of a time in milliseconds. */
  function Abs(x: int): nat {
    if x < 0 then -x else x
  }
}
