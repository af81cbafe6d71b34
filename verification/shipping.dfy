/** Identifiers, time and the error values shared by every package of the
    shipping system. */
module Shipping {

  /** A UN/LOCODE location code. The system never checks its format, so it is
      an opaque string; `""` is the unknown location. */
  type UNLocode = string

  type VoyageNumber = string

  type TrackingId = string

  /** A `time.Time` as whole seconds since the Unix epoch. Every time the
      system builds has a zero sub-second part and UTC location. */
  type Time = int

  /** Go's zero `time.Time` (January 1, year 1, 00:00:00 UTC) in Unix seconds:
      the one instant at which `IsZero` holds. */
  const ZeroTime: Time := -62135596800

  predicate IsZero(t: Time) {
    t == ZeroTime
  }

  /** The error values the modelled code returns or compares against. */
  datatype Error =
    | ErrInvalidArgument            // "invalid argument" (booking and handling)
    | ErrUnknownCargo               // "unknown cargo"
    | ErrUnknownLocation            // "unknown location"
    | ErrUnknownVoyage              // "unknown voyage"
    | ErrCannotCreateHandlingEvent  // "Cannot create handling event"
    | ErrEmptyHistory               // "Delivery history is empty"
    | ErrMissingParameters          // "missing parameters" (HTTP decoding)
    | ErrBadBody                    // a request body that could not be read or decoded
}
