/**
 * The resource store (app/stores/service.ts): cached lists of services and
 * bookings, a `loading` flag and an `error` message, kept by seven request
 * operations that share one protocol. Each operation sets `loading` and
 * clears `error`; on a failed request it stores the server's message or a
 * fixed fallback and rethrows; on success a fetch replaces its list wholesale
 * and a mutation fetches the list again; `loading` is always released.
 *
 * Each request is replaced by its response, given as an argument.
 */
module Resources {
  import opened Wrappers
  import opened Api

  const FetchServicesFallback: string := "Failed to fetch services"
  const CreateServiceFallback: string := "Failed to create service"
  const UpdateServiceFallback: string := "Failed to update service"
  const DeleteServiceFallback: string := "Failed to delete service"
  const FetchBookingsFallback: string := "Failed to fetch bookings"
  const CreateBookingFallback: string := "Failed to create booking"
  const FetchAllBookingsFallback: string := "Failed to fetch all bookings"

  /** What one request yields: an error, or the data. */
  datatype Response<T> = Failed(error: FetchError) | Succeeded(data: T)

  /** How an operation ends: it returns a value or throws an error with a message. */
  datatype Outcome<T> = Returned(value: T) | Threw(message: string)

  /** The message an outcome threw, if it threw. */
  function Thrown<T>(r: Outcome<T>): Option<string> {
    if r.Threw? then Some(r.message) else None
  }

  /** The store's four fields. */
  datatype Cache = Cache(services: seq<Service>, bookings: seq<Booking>, loading: bool, error: Option<string>)

  const Initial: Cache := Cache([], [], false, None)

  /** The seven operations with the responses of their requests, in request order. */
  datatype Op =
    | FetchServices(serviceList: Response<seq<Service>>)
    | CreateService(savedService: Response<Service>, serviceList: Response<seq<Service>>)
    | UpdateService(savedService: Response<Service>, serviceList: Response<seq<Service>>)
    | DeleteService(deletion: Response<()>, serviceList: Response<seq<Service>>)
    | FetchUserBookings(bookingList: Response<seq<Booking>>)
    | CreateBooking(savedBooking: Response<Booking>, bookingList: Response<seq<Booking>>)
    | FetchAllBookings(bookingList: Response<seq<Booking>>)

  predicate IsServiceOp(op: Op) {
    op.FetchServices? || op.CreateService? || op.UpdateService? || op.DeleteService?
  }

  /** The message a failed request throws. */
  function Failure<T>(resp: Response<T>, fallback: string): Option<string> {
    if resp.Failed? then Some(ErrorMessage(resp.error.message, fallback)) else None
  }

  /** The message an operation throws: its own request's first, then its re-fetch's. */
  function Raised(op: Op): (r: Option<string>)
    ensures r.Some? ==> r.value != ""
  {
    match op
    case FetchServices(list) => Failure(list, FetchServicesFallback)
    case CreateService(saved, list) =>
      if saved.Failed? then Failure(saved, CreateServiceFallback) else Failure(list, FetchServicesFallback)
    case UpdateService(saved, list) =>
      if saved.Failed? then Failure(saved, UpdateServiceFallback) else Failure(list, FetchServicesFallback)
    case DeleteService(deletion, list) =>
      if deletion.Failed? then Failure(deletion, DeleteServiceFallback) else Failure(list, FetchServicesFallback)
    case FetchUserBookings(list) => Failure(list, FetchBookingsFallback)
    case CreateBooking(saved, list) =>
      if saved.Failed? then Failure(saved, CreateBookingFallback) else Failure(list, FetchBookingsFallback)
    case FetchAllBookings(list) => Failure(list, FetchAllBookingsFallback)
  }

  /** Fields after the catch and finally of a failed request. */
  function Caught(c: Cache, message: string): Cache {
    c.(loading := false, error := Some(message))
  }

  /** Fields after fetchServices. */
  function ServicesFetched(c: Cache, resp: Response<seq<Service>>): (r: Cache)
    ensures !r.loading && r.bookings == c.bookings
    ensures resp.Succeeded? ==> r.services == resp.data && r.error.None?
    ensures resp.Failed? ==> r.services == c.services && r.error.Some? && r.error.value != ""
  {
    match resp
    case Failed(e) => Caught(c, ErrorMessage(e.message, FetchServicesFallback))
    case Succeeded(list) => c.(services := list, loading := false, error := None)
  }

  /** Fields after a fetch of bookings (the user's or everyone's). */
  function BookingsFetched(c: Cache, resp: Response<seq<Booking>>, fallback: string): (r: Cache)
    ensures !r.loading && r.services == c.services
    ensures resp.Succeeded? ==> r.bookings == resp.data && r.error.None?
    ensures resp.Failed? ==> r.bookings == c.bookings && r.error.Some?
    ensures resp.Failed? && fallback != "" ==> r.error.value != ""
  {
    match resp
    case Failed(e) => Caught(c, ErrorMessage(e.message, fallback))
    case Succeeded(list) => c.(bookings := list, loading := false, error := None)
  }

  /** Fields after a mutation: caught if it failed, otherwise those of its re-fetch. */
  function Mutated<T>(c: Cache, resp: Response<T>, fallback: string, refetched: Cache): (r: Cache)
    ensures resp.Succeeded? ==> r == refetched
    ensures resp.Failed? ==> r.services == c.services && r.bookings == c.bookings && !r.loading && r.error.Some?
  {
    match resp
    case Failed(e) => Caught(c, ErrorMessage(e.message, fallback))
    case Succeeded(_) => refetched
  }

  /** Fields after one operation. */
  function Apply(c: Cache, op: Op): (r: Cache)
    ensures !r.loading
    ensures r.error.Some? <==> Raised(op).Some?
  {
    match op
    case FetchServices(list) => ServicesFetched(c, list)
    case CreateService(saved, list) => Mutated(c, saved, CreateServiceFallback, ServicesFetched(c, list))
    case UpdateService(saved, list) => Mutated(c, saved, UpdateServiceFallback, ServicesFetched(c, list))
    case DeleteService(deletion, list) => Mutated(c, deletion, DeleteServiceFallback, ServicesFetched(c, list))
    case FetchUserBookings(list) => BookingsFetched(c, list, FetchBookingsFallback)
    case CreateBooking(saved, list) => Mutated(c, saved, CreateBookingFallback, BookingsFetched(c, list, FetchBookingsFallback))
    case FetchAllBookings(list) => BookingsFetched(c, list, FetchAllBookingsFallback)
  }

  function Run(c: Cache, ops: seq<Op>): Cache
    decreases |ops|
  {
    if ops == [] then c else Run(Apply(c, ops[0]), ops[1..])
  }

  /** The services list an operation stores, if it stores one. */
  function StoredServices(op: Op): Option<seq<Service>> {
    match op
    case FetchServices(Succeeded(list)) => Some(list)
    case CreateService(Succeeded(_), Succeeded(list)) => Some(list)
    case UpdateService(Succeeded(_), Succeeded(list)) => Some(list)
    case DeleteService(Succeeded(_), Succeeded(list)) => Some(list)
    case _ => None
  }

  /** The bookings list an operation stores, if it stores one. */
  function StoredBookings(op: Op): Option<seq<Booking>> {
    match op
    case FetchUserBookings(Succeeded(list)) => Some(list)
    case CreateBooking(Succeeded(_), Succeeded(list)) => Some(list)
    case FetchAllBookings(Succeeded(list)) => Some(list)
    case _ => None
  }

  /** The list the last storing operation stored, or `initial` if none did. */
  function LatestServices(initial: seq<Service>, ops: seq<Op>): seq<Service>
    decreases |ops|
  {
    if ops == [] then initial
    else match StoredServices(ops[|ops| - 1])
      case Some(list) => list
      case None => LatestServices(initial, ops[..|ops| - 1])
  }

  function LatestBookings(initial: seq<Booking>, ops: seq<Op>): seq<Booking>
    decreases |ops|
  {
    if ops == [] then initial
    else match StoredBookings(ops[|ops| - 1])
      case Some(list) => list
      case None => LatestBookings(initial, ops[..|ops| - 1])
  }

  /** The service operations of `ops`, in order. */
  function ServiceOps(ops: seq<Op>): (r: seq<Op>)
    ensures forall op :: op in r ==> op in ops && IsServiceOp(op)
    decreases |ops|
  {
    if ops == [] then []
    else ServiceOps(ops[..|ops| - 1]) + (if IsServiceOp(ops[|ops| - 1]) then [ops[|ops| - 1]] else [])
  }

  /** The booking operations of `ops`, in order. */
  function BookingOps(ops: seq<Op>): (r: seq<Op>)
    ensures forall op :: op in r ==> op in ops && !IsServiceOp(op)
    decreases |ops|
  {
    if ops == [] then []
    else BookingOps(ops[..|ops| - 1]) + (if IsServiceOp(ops[|ops| - 1]) then [] else [ops[|ops| - 1]])
  }

  // ---------------------------------------------------------------------
  // What one operation promises
  // ---------------------------------------------------------------------

  /**
   * Whatever happens, `loading` ends false and `error` ends holding exactly
   * the message thrown (so null after a success).
   */
  lemma ErrorIsThrownMessage(c: Cache, op: Op)
    ensures !Apply(c, op).loading
    ensures Apply(c, op).error == Raised(op)
  {
  }

  /**
   * A thrown message is the failing request's server message when non-empty,
   * otherwise that request's fallback; a failed re-fetch reports the fetch's
   * fallback, not the mutation's.
   */
  lemma ThrownMessageSource(op: Op, m: string)
    requires Raised(op) == Some(m)
    ensures m != ""
    ensures match op
      case FetchServices(list) => m == ErrorMessage(list.error.message, FetchServicesFallback)
      case CreateService(saved, list) =>
        m == if saved.Failed? then ErrorMessage(saved.error.message, CreateServiceFallback)
             else ErrorMessage(list.error.message, FetchServicesFallback)
      case UpdateService(saved, list) =>
        m == if saved.Failed? then ErrorMessage(saved.error.message, UpdateServiceFallback)
             else ErrorMessage(list.error.message, FetchServicesFallback)
      case DeleteService(deletion, list) =>
        m == if deletion.Failed? then ErrorMessage(deletion.error.message, DeleteServiceFallback)
             else ErrorMessage(list.error.message, FetchServicesFallback)
      case FetchUserBookings(list) => m == ErrorMessage(list.error.message, FetchBookingsFallback)
      case CreateBooking(saved, list) =>
        m == if saved.Failed? then ErrorMessage(saved.error.message, CreateBookingFallback)
             else ErrorMessage(list.error.message, FetchBookingsFallback)
      case FetchAllBookings(list) => m == ErrorMessage(list.error.message, FetchAllBookingsFallback)
  {
  }

  /** A failed operation (mutation or its re-fetch) leaves both lists as they were. */
  lemma FailureKeepsCaches(c: Cache, op: Op)
    requires Raised(op).Some?
    ensures Apply(c, op).services == c.services && Apply(c, op).bookings == c.bookings
  {
  }

  /**
   * A list changes only by being replaced with what a successful request
   * delivered: no merge with the old list.
   */
  lemma ApplyReplacesCaches(c: Cache, op: Op)
    ensures Apply(c, op).services == (if StoredServices(op).Some? then StoredServices(op).value else c.services)
    ensures Apply(c, op).bookings == (if StoredBookings(op).Some? then StoredBookings(op).value else c.bookings)
    ensures StoredServices(op).Some? || StoredBookings(op).Some? <==> Raised(op).None?
  {
  }

  /** Service operations never touch bookings; booking operations never touch services. */
  lemma CachesDoNotInterfere(c: Cache, op: Op)
    ensures IsServiceOp(op) ==> Apply(c, op).bookings == c.bookings
    ensures !IsServiceOp(op) ==> Apply(c, op).services == c.services
  {
  }

  /** Repeating an operation with the same responses leaves the same fields. */
  lemma ApplyIsIdempotent(c: Cache, op: Op)
    ensures Apply(Apply(c, op), op) == Apply(c, op)
  {
  }

  /**
   * A mutation the server accepted whose re-fetch failed: the error is the
   * fetch's, the list is the old one, and nothing is rolled back or re-tried.
   */
  lemma RefetchFailureAfterMutation(c: Cache, saved: Response<Service>, list: Response<seq<Service>>)
    requires saved.Succeeded? && list.Failed?
    ensures Apply(c, CreateService(saved, list))
         == Apply(c, UpdateService(saved, list))
         == Caught(c, ErrorMessage(list.error.message, FetchServicesFallback))
  {
  }

  /** User bookings and all bookings are one cache: whichever came last wins. */
  lemma BookingListsShareOneCache(c: Cache, own: seq<Booking>, all: seq<Booking>)
    ensures Run(c, [FetchUserBookings(Succeeded(own)), FetchAllBookings(Succeeded(all))]).bookings == all
    ensures Run(c, [FetchAllBookings(Succeeded(all)), FetchUserBookings(Succeeded(own))]).bookings == own
  {
    var ownThenAll := [FetchUserBookings(Succeeded(own)), FetchAllBookings(Succeeded(all))];
    var allThenOwn := [FetchAllBookings(Succeeded(all)), FetchUserBookings(Succeeded(own))];
    CachesHoldLatest(c, ownThenAll);
    CachesHoldLatest(c, allThenOwn);
  }

  // ---------------------------------------------------------------------
  // What sequences of operations promise
  // ---------------------------------------------------------------------

  lemma {:induction false} RunAppend(c: Cache, ops: seq<Op>, op: Op)
    ensures Run(c, ops + [op]) == Apply(Run(c, ops), op)
    decreases |ops|
  {
    if ops != [] {
      assert (ops + [op])[1..] == ops[1..] + [op];
      RunAppend(Apply(c, ops[0]), ops[1..], op);
    }
  }

  /**
   * After any sequence of operations, each list is the one stored by the
   * latest operation that stored one: the caches are a full-replace view of
   * the last successful response.
   */
  lemma {:induction false} CachesHoldLatest(c: Cache, ops: seq<Op>)
    ensures Run(c, ops).services == LatestServices(c.services, ops)
    ensures Run(c, ops).bookings == LatestBookings(c.bookings, ops)
    decreases |ops|
  {
    if ops != [] {
      var prefix, last := ops[..|ops| - 1], ops[|ops| - 1];
      assert ops == prefix + [last];
      RunAppend(c, prefix, last);
      CachesHoldLatest(c, prefix);
      ApplyReplacesCaches(Run(c, prefix), last);
    }
  }

  lemma {:induction false} ServiceOpsDetermineServices(initial: seq<Service>, ops: seq<Op>)
    ensures LatestServices(initial, ServiceOps(ops)) == LatestServices(initial, ops)
    decreases |ops|
  {
    if ops != [] {
      var prefix, last := ops[..|ops| - 1], ops[|ops| - 1];
      ServiceOpsDetermineServices(initial, prefix);
      if IsServiceOp(last) {
        var filtered := ServiceOps(prefix) + [last];
        assert ServiceOps(ops) == filtered;
        assert filtered[..|filtered| - 1] == ServiceOps(prefix) && filtered[|filtered| - 1] == last;
      } else {
        assert ServiceOps(ops) == ServiceOps(prefix);
        assert StoredServices(last).None?;
      }
    }
  }

  lemma {:induction false} BookingOpsDetermineBookings(initial: seq<Booking>, ops: seq<Op>)
    ensures LatestBookings(initial, BookingOps(ops)) == LatestBookings(initial, ops)
    decreases |ops|
  {
    if ops != [] {
      var prefix, last := ops[..|ops| - 1], ops[|ops| - 1];
      BookingOpsDetermineBookings(initial, prefix);
      if !IsServiceOp(last) {
        var filtered := BookingOps(prefix) + [last];
        assert BookingOps(ops) == filtered;
        assert filtered[..|filtered| - 1] == BookingOps(prefix) && filtered[|filtered| - 1] == last;
      } else {
        assert BookingOps(ops) == BookingOps(prefix);
        assert StoredBookings(last).None?;
      }
    }
  }

  /**
   * Interleaving does not matter: the services list after any sequence is the
   * one after its service operations alone, and likewise for bookings.
   */
  lemma CachesAreIndependent(c: Cache, ops: seq<Op>)
    ensures Run(c, ops).services == Run(c, ServiceOps(ops)).services
    ensures Run(c, ops).bookings == Run(c, BookingOps(ops)).bookings
  {
    CachesHoldLatest(c, ops);
    CachesHoldLatest(c, ServiceOps(ops));
    CachesHoldLatest(c, BookingOps(ops));
    ServiceOpsDetermineServices(c.services, ops);
    BookingOpsDetermineBookings(c.bookings, ops);
  }

  // ---------------------------------------------------------------------
  // The store
  // ---------------------------------------------------------------------

  class ServiceStore {
    var services: seq<Service>
    var bookings: seq<Booking>
    var loading: bool
    var error: Option<string>

    function Fields(): Cache
      reads this
    {
      Cache(services, bookings, loading, error)
    }

    constructor ()
      ensures Fields() == Initial
    {
      services := [];
      bookings := [];
      loading := false;
      error := None;
    }

    method FetchServices(serviceList: Response<seq<Service>>) returns (r: Outcome<seq<Service>>)
      modifies this
      ensures Fields() == Apply(old(Fields()), Op.FetchServices(serviceList))
      ensures Thrown(r) == Raised(Op.FetchServices(serviceList))
      ensures r.Returned? ==> serviceList == Succeeded(r.value)
    {
      loading := true;
      error := None;
      var thrown: Option<string> := None;
      if serviceList.Failed? {
        thrown := Some(ErrorMessage(serviceList.error.message, FetchServicesFallback));
      } else {
        services := serviceList.data;
      }
      if thrown.Some? {
        error := thrown;
        r := Threw(thrown.value);
      } else {
        r := Returned(serviceList.data);
      }
      loading := false;
    }

    /** Returns the created service as the server sent it, not the re-fetched list. */
    method CreateService(savedService: Response<Service>, serviceList: Response<seq<Service>>)
      returns (r: Outcome<Service>)
      modifies this
      ensures Fields() == Apply(old(Fields()), Op.CreateService(savedService, serviceList))
      ensures Thrown(r) == Raised(Op.CreateService(savedService, serviceList))
      ensures r.Returned? ==> savedService == Succeeded(r.value)
    {
      loading := true;
      error := None;
      var thrown: Option<string>;
      if savedService.Failed? {
        thrown := Some(ErrorMessage(savedService.error.message, CreateServiceFallback));
      } else {
        var refreshed := FetchServices(serviceList);
        thrown := Thrown(refreshed);
      }
      if thrown.Some? {
        error := thrown;
        r := Threw(thrown.value);
      } else {
        r := Returned(savedService.data);
      }
      loading := false;
    }

    /** Returns the updated service as the server sent it. */
    method UpdateService(savedService: Response<Service>, serviceList: Response<seq<Service>>)
      returns (r: Outcome<Service>)
      modifies this
      ensures Fields() == Apply(old(Fields()), Op.UpdateService(savedService, serviceList))
      ensures Thrown(r) == Raised(Op.UpdateService(savedService, serviceList))
      ensures r.Returned? ==> savedService == Succeeded(r.value)
    {
      loading := true;
      error := None;
      var thrown: Option<string>;
      if savedService.Failed? {
        thrown := Some(ErrorMessage(savedService.error.message, UpdateServiceFallback));
      } else {
        var refreshed := FetchServices(serviceList);
        thrown := Thrown(refreshed);
      }
      if thrown.Some? {
        error := thrown;
        r := Threw(thrown.value);
      } else {
        r := Returned(savedService.data);
      }
      loading := false;
    }

    /** Returns nothing on success. */
    method DeleteService(deletion: Response<()>, serviceList: Response<seq<Service>>) returns (r: Outcome<()>)
      modifies this
      ensures Fields() == Apply(old(Fields()), Op.DeleteService(deletion, serviceList))
      ensures Thrown(r) == Raised(Op.DeleteService(deletion, serviceList))
    {
      loading := true;
      error := None;
      var thrown: Option<string>;
      if deletion.Failed? {
        thrown := Some(ErrorMessage(deletion.error.message, DeleteServiceFallback));
      } else {
        var refreshed := FetchServices(serviceList);
        thrown := Thrown(refreshed);
      }
      if thrown.Some? {
        error := thrown;
        r := Threw(thrown.value);
      } else {
        r := Returned(());
      }
      loading := false;
    }

    method FetchUserBookings(bookingList: Response<seq<Booking>>) returns (r: Outcome<seq<Booking>>)
      modifies this
      ensures Fields() == Apply(old(Fields()), Op.FetchUserBookings(bookingList))
      ensures Thrown(r) == Raised(Op.FetchUserBookings(bookingList))
      ensures r.Returned? ==> bookingList == Succeeded(r.value)
    {
      loading := true;
      error := None;
      var thrown: Option<string> := None;
      if bookingList.Failed? {
        thrown := Some(ErrorMessage(bookingList.error.message, FetchBookingsFallback));
      } else {
        bookings := bookingList.data;
      }
      if thrown.Some? {
        error := thrown;
        r := Threw(thrown.value);
      } else {
        r := Returned(bookingList.data);
      }
      loading := false;
    }

    /** Returns the created booking as the server sent it. */
    method CreateBooking(savedBooking: Response<Booking>, bookingList: Response<seq<Booking>>)
      returns (r: Outcome<Booking>)
      modifies this
      ensures Fields() == Apply(old(Fields()), Op.CreateBooking(savedBooking, bookingList))
      ensures Thrown(r) == Raised(Op.CreateBooking(savedBooking, bookingList))
      ensures r.Returned? ==> savedBooking == Succeeded(r.value)
    {
      loading := true;
      error := None;
      var thrown: Option<string>;
      if savedBooking.Failed? {
        thrown := Some(ErrorMessage(savedBooking.error.message, CreateBookingFallback));
      } else {
        var refreshed := FetchUserBookings(bookingList);
        thrown := Thrown(refreshed);
      }
      if thrown.Some? {
        error := thrown;
        r := Threw(thrown.value);
      } else {
        r := Returned(savedBooking.data);
      }
      loading := false;
    }

    method FetchAllBookings(bookingList: Response<seq<Booking>>) returns (r: Outcome<seq<Booking>>)
      modifies this
      ensures Fields() == Apply(old(Fields()), Op.FetchAllBookings(bookingList))
      ensures Thrown(r) == Raised(Op.FetchAllBookings(bookingList))
      ensures r.Returned? ==> bookingList == Succeeded(r.value)
    {
      loading := true;
      error := None;
      var thrown: Option<string> := None;
      if bookingList.Failed? {
        thrown := Some(ErrorMessage(bookingList.error.message, FetchAllBookingsFallback));
      } else {
        bookings := bookingList.data;
      }
      if thrown.Some? {
        error := thrown;
        r := Threw(thrown.value);
      } else {
        r := Returned(bookingList.data);
      }
      loading := false;
    }
  }

  /**
   * Two fetches with the same response on one store give identical fields,
   * and the list equals the response: replace, not accumulate.
   */
  method FetchTwice(store: ServiceStore, list: seq<Service>) returns (first: Cache, second: Cache)
    modifies store
    ensures first == second && first.services == list && first.error.None? && !first.loading
  {
    var r1 := store.FetchServices(Succeeded(list));
    first := store.Fields();
    var r2 := store.FetchServices(Succeeded(list));
    second := store.Fields();
  }
}
