/**
 * The entities the API exchanges (app/types/api.d.ts) and the shape of its
 * error responses, shared by both stores.
 */
module Api {
  import opened Wrappers

  /**
   * A user record. The stores type the user as `any` and read only `is_admin`,
   * defaulting it to false when it is missing, so that field is optional here.
   */
  datatype User = User(
    id: int,
    name: string,
    email: string,
    emailVerifiedAt: string,
    isAdmin: Option<bool>,
    createdAt: string,
    updatedAt: string,
    bookings: seq<Booking>)

  /** A bookable service; `price` carries no logic and is kept as a real. */
  datatype Service = Service(
    id: int,
    name: string,
    description: string,
    price: real,
    isActive: bool,
    isFeatured: bool,
    createdAt: string,
    updatedAt: string,
    bookings: seq<Booking>)

  /** A booking, with the user and service the API may embed in it. */
  datatype Booking = Booking(
    id: int,
    userId: int,
    serviceId: int,
    bookingDate: string,
    status: string,
    createdAt: string,
    updatedAt: string,
    user: Option<User>,
    service: Option<Service>)

  /** `user.is_admin || false`: only an explicit `true` makes an administrator. */
  predicate IsAdmin(u: User) {
    u.isAdmin == Some(true)
  }

  /** The `error.value` of a failed request; `message` is its `data?.message`. */
  datatype FetchError = FetchError(message: Option<string>)

  /**
   * `error.data?.message || fallback`: the server's message when it is present
   * and non-empty (an empty string is falsy), the caller's fixed text otherwise.
   */
  function ErrorMessage(message: Option<string>, fallback: string): (m: string)
    ensures Some(m) == message || m == fallback
    ensures m == fallback <== message.None?
    ensures fallback != "" ==> m != ""
    ensures message.Some? && message.value != "" ==> m == message.value
    ensures message == Some("") ==> m == fallback
  {
    match message
    case Some(text) => if text != "" then text else fallback
    case None => fallback
  }
}
