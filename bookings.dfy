/** A pickup booking as the REST API returns it, and its status vocabulary. */
module Bookings {

  /** The fields of a booking the pages decide on; prices and weights are not modelled. */
  datatype Booking = Booking(
    id: string,
    status: string,
    paymentStatus: string,
    wasteTypeName: string,
    wasteCategory: string,
    pickupAddress: string)

  const Pending := "pending"
  const Confirmed := "confirmed"
  const InTransit := "in-transit"
  const Completed := "completed"
  const Cancelled := "cancelled"

  /** The five statuses a booking moves through. */
  const KnownStatuses: seq<string> := [Pending, Confirmed, InTransit, Completed, Cancelled]

  /** The payment status of a booking that has been paid for. */
  const Paid := "paid"
}
