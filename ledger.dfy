/**
 * The booking and wallet rules of the backend API (backend/main.py): signup with its
 * bonus, the login lookup order, the available-slot query, booking a slot against the
 * wallet, cancelling with a refund, and the dosha filter of the content endpoints.
 *
 * The database is a value `Db`: users and bookings are sequences whose positions are
 * their ids (the autoincrement keys), slots a map from slot id. `Register`, `Book` and
 * `Cancel` say what each endpoint does to that value and what it answers; the class
 * `Backend` holds the same three tables as fields and changes them in place, as the
 * handlers change the ORM objects, and each of its methods is proved to agree with its
 * function. Money is a whole number of rupees.
 */
module Ledger {
  import opened Wrappers
  import EmailSchema
  import Seqs

  /** SIGNUP_BONUS, the balance every new wallet starts with. */
  const SignupBonus: int := 1000

  /** The `status` column of a booking; a new row gets "confirmed". */
  datatype BookingStatus = Confirmed | Cancelled

  datatype User = User(username: string, email: string, balance: int, dosha: string)

  datatype Slot = Slot(doctor: string, specialty: string, date: string, time: string,
                       price: int, available: bool)

  datatype Booking = Booking(userId: nat, slotId: int, status: BookingStatus)

  datatype Db = Db(users: seq<User>, slots: map<int, Slot>, bookings: seq<Booking>)

  /** The HTTP errors the handlers raise. */
  datatype ApiError =
    | InvalidEmail          // 422, the schema validator
    | AlreadyRegistered     // 400
    | UsernameTooShort      // 400
    | PasswordTooShort      // 400
    | NotAuthenticated      // 401, no current user
    | SlotUnavailable       // 404
    | InsufficientBalance   // 400
    | BookingNotFound       // 404
    | AlreadyCancelled      // 400
    | InternalError         // 500, the booked slot row has gone

  datatype SignupRequest = SignupRequest(username: string, email: string, password: string,
                                         dosha: Option<string>)

  /* ---------------------------------------------------------------- signup, login */

  /** The duplicate check: some user has the username or the e-mail, which is what finding
      either one by a lookup means. */
  predicate Taken(users: seq<User>, username: string, email: string)
    ensures Taken(users, username, email) <==>
              FindBy(users, username, false).Some? || FindBy(users, email, true).Some?
  {
    exists i :: 0 <= i < |users| && (users[i].username == username || users[i].email == email)
  }

  /** `signup`: the schema checks the e-mail, then a taken username or e-mail is refused
      before the length checks; a new user starts with the bonus. The answer carries the
      bonus granted. */
  function Register(db: Db, req: SignupRequest): (r: (Db, Result<int, ApiError>))
    ensures r.1.Err? ==> r.0 == db
    ensures r.1.Ok? <==>
              EmailSchema.IsValidEmail(req.email) && !Taken(db.users, req.username, req.email)
              && |req.username| >= 3 && |req.password| >= 6
    ensures r.1 == Err(InvalidEmail) <==> !EmailSchema.IsValidEmail(req.email)
    ensures r.1 == Err(AlreadyRegistered) <==>
              EmailSchema.IsValidEmail(req.email) && Taken(db.users, req.username, req.email)
    ensures r.1 == Err(UsernameTooShort) <==>
              EmailSchema.IsValidEmail(req.email) && !Taken(db.users, req.username, req.email)
              && |req.username| < 3
    ensures r.1 == Err(PasswordTooShort) <==>
              EmailSchema.IsValidEmail(req.email) && !Taken(db.users, req.username, req.email)
              && |req.username| >= 3 && |req.password| < 6
    ensures r.1.Ok? ==>
              && r.1.value == SignupBonus
              && r.0.slots == db.slots && r.0.bookings == db.bookings
              && |r.0.users| == |db.users| + 1 && r.0.users[..|db.users|] == db.users
              && r.0.users[|db.users|].balance == SignupBonus
              && r.0.users[|db.users|].username == req.username
              && r.0.users[|db.users|].email == req.email
              && r.0.users[|db.users|].dosha == (if req.dosha.Some? then req.dosha.value else "vata")
  {
    if !EmailSchema.IsValidEmail(req.email) then (db, Err(InvalidEmail))
    else if Taken(db.users, req.username, req.email) then (db, Err(AlreadyRegistered))
    else if |req.username| < 3 then (db, Err(UsernameTooShort))
    else if |req.password| < 6 then (db, Err(PasswordTooShort))
    else
      var user := User(req.username, req.email, SignupBonus, EmailSchema.DoshaOrDefault(req.dosha));
      (db.(users := db.users + [user]), Ok(SignupBonus))
  }

  function FindBy(users: seq<User>, key: string, byEmail: bool): (r: Option<nat>)
    ensures r.Some? ==>
              r.value < |users| && (if byEmail then users[r.value].email else users[r.value].username) == key
    ensures r.None? ==> forall i :: 0 <= i < |users| ==>
              (if byEmail then users[i].email else users[i].username) != key
  {
    if users == [] then None
    else if (if byEmail then users[0].email else users[0].username) == key then Some(0)
    else match FindBy(users[1..], key, byEmail)
      case None => None
      case Some(i) => Some(i + 1)
  }

  /** `login`: the name typed is looked up as a username first and as an e-mail only when
      no username matches. */
  function LoginLookup(users: seq<User>, login: string): (r: Option<nat>)
    ensures r.Some? ==> r.value < |users|
    ensures r.Some? ==>
              || users[r.value].username == login
              || (users[r.value].email == login && forall i :: 0 <= i < |users| ==> users[i].username != login)
    ensures r.None? <==> forall i :: 0 <= i < |users| ==> users[i].username != login && users[i].email != login
  {
    match FindBy(users, login, false)
    case Some(i) => Some(i)
    case None => FindBy(users, login, true)
  }

  /* ---------------------------------------------------------------- queries */

  /** `/slots`: the available slots. */
  function AvailableSlots(slots: map<int, Slot>): (r: map<int, Slot>)
    ensures forall id :: id in r <==> id in slots && slots[id].available
    ensures forall id :: id in r ==> r[id] == slots[id]
  {
    map id | id in slots && slots[id].available :: slots[id]
  }

  /** A row of the mantras, recipes or diet-plans table; each carries a dosha tag, which is a
      dosha name or "all". */
  datatype Content = Content(id: int, title: string, dosha: string)

  /** `/mantras`, `/recipes`, `/diet-plans`: with a dosha given (and not empty, which Python
      reads as absent) the rows tagged with that dosha or "all", in order; otherwise every row. */
  function ContentForDosha(items: seq<Content>, dosha: Option<string>): (r: seq<Content>)
    ensures dosha.None? || dosha == Some("") ==> r == items
    ensures dosha.Some? && dosha.value != "" ==>
              forall c :: c in r <==> c in items && (c.dosha == dosha.value || c.dosha == "all")
    ensures |r| <= |items|
  {
    if items == [] then []
    else
      var rest := ContentForDosha(items[1..], dosha);
      if Selected(dosha, items[0]) then [items[0]] + rest else rest
  }

  /** Whether the content filter keeps row `c`. */
  predicate Selected(dosha: Option<string>, c: Content) {
    dosha.None? || dosha.value == "" || c.dosha == dosha.value || c.dosha == "all"
  }

  /** The rows kept come in their table order, each as often as it occurs in the table. */
  lemma {:induction false} ContentForDoshaInOrder(items: seq<Content>, dosha: Option<string>, c: Content)
    ensures Seqs.IsSubsequence(ContentForDosha(items, dosha), items)
    ensures multiset(ContentForDosha(items, dosha))[c] == if Selected(dosha, c) then multiset(items)[c] else 0
  {
    if items != [] {
      ContentForDoshaInOrder(items[1..], dosha, c);
      assert items == [items[0]] + items[1..];
      var rest := ContentForDosha(items[1..], dosha);
      if Selected(dosha, items[0]) {
        assert ContentForDosha(items, dosha) == [items[0]] + rest;
        assert ([items[0]] + rest)[1..] == rest;
      }
    }
  }

  /* ---------------------------------------------------------------- bookings */

  /** `create_booking`: the slot must exist and be available (404), the wallet must cover the
      price (400); then the price is debited, the slot locked and a confirmed booking added.
      The answer carries the remaining balance. */
  function Book(db: Db, uid: nat, slotId: int): (r: (Db, Result<int, ApiError>))
    ensures r.1.Err? ==> r.0 == db
    ensures r.1 == Err(NotAuthenticated) <==> uid >= |db.users|
    ensures r.1 == Err(SlotUnavailable) <==>
              uid < |db.users| && !(slotId in db.slots && db.slots[slotId].available)
    ensures r.1 == Err(InsufficientBalance) <==>
              uid < |db.users| && slotId in db.slots && db.slots[slotId].available
              && db.users[uid].balance < db.slots[slotId].price
    ensures r.1.Ok? <==>
              uid < |db.users| && slotId in db.slots && db.slots[slotId].available
              && db.slots[slotId].price <= db.users[uid].balance
    ensures r.1.Ok? ==>
              var price := db.slots[slotId].price;
              && |r.0.users| == |db.users|
              && r.0.users[uid] == db.users[uid].(balance := db.users[uid].balance - price)
              && r.1.value == r.0.users[uid].balance >= 0
              && (forall u :: 0 <= u < |db.users| && u != uid ==> r.0.users[u] == db.users[u])
              && r.0.slots == db.slots[slotId := db.slots[slotId].(available := false)]
              && r.0.bookings == db.bookings + [Booking(uid, slotId, Confirmed)]
  {
    if uid >= |db.users| then (db, Err(NotAuthenticated))
    else if slotId !in db.slots || !db.slots[slotId].available then (db, Err(SlotUnavailable))
    else
      var slot := db.slots[slotId];
      var user := db.users[uid];
      if user.balance < slot.price then (db, Err(InsufficientBalance))
      else
        var user' := user.(balance := user.balance - slot.price);
        (Db(db.users[uid := user'],
            db.slots[slotId := slot.(available := false)],
            db.bookings + [Booking(uid, slotId, Confirmed)]),
         Ok(user'.balance))
  }

  /** `cancel_booking`: a booking that does not exist or is someone else's is 404, one already
      cancelled is 400; otherwise it is marked cancelled, its slot freed and its price refunded.
      The answer carries the refunded amount. */
  function Cancel(db: Db, uid: nat, bookingId: int): (r: (Db, Result<int, ApiError>))
    ensures r.1.Err? ==> r.0 == db
    ensures r.1 == Err(NotAuthenticated) <==> uid >= |db.users|
    ensures r.1 == Err(BookingNotFound) <==>
              uid < |db.users| && !(0 <= bookingId < |db.bookings| && db.bookings[bookingId].userId == uid)
    ensures r.1 == Err(AlreadyCancelled) <==>
              uid < |db.users| && 0 <= bookingId < |db.bookings| && db.bookings[bookingId].userId == uid
              && db.bookings[bookingId].status == Cancelled
    ensures r.1 == Err(InternalError) <==>
              uid < |db.users| && 0 <= bookingId < |db.bookings| && db.bookings[bookingId].userId == uid
              && db.bookings[bookingId].status != Cancelled && db.bookings[bookingId].slotId !in db.slots
    ensures r.1.Ok? <==>
              uid < |db.users| && 0 <= bookingId < |db.bookings| && db.bookings[bookingId].userId == uid
              && db.bookings[bookingId].status == Confirmed && db.bookings[bookingId].slotId in db.slots
    ensures r.1.Ok? ==>
              var b := db.bookings[bookingId];
              var price := db.slots[b.slotId].price;
              && b.userId == uid && b.status == Confirmed
              && r.1.value == price
              && |r.0.users| == |db.users|
              && r.0.users[uid] == db.users[uid].(balance := db.users[uid].balance + price)
              && (forall u :: 0 <= u < |db.users| && u != uid ==> r.0.users[u] == db.users[u])
              && r.0.slots == db.slots[b.slotId := db.slots[b.slotId].(available := true)]
              && r.0.bookings == db.bookings[bookingId := b.(status := Cancelled)]
  {
    if uid >= |db.users| then (db, Err(NotAuthenticated))
    else if !(0 <= bookingId < |db.bookings|) || db.bookings[bookingId].userId != uid then
      (db, Err(BookingNotFound))
    else
      var b := db.bookings[bookingId];
      if b.status == Cancelled then (db, Err(AlreadyCancelled))
      else if b.slotId !in db.slots then (db, Err(InternalError))
      else
        assert b.status == Confirmed;
        var slot := db.slots[b.slotId];
        var user := db.users[uid];
        (Db(db.users[uid := user.(balance := user.balance + slot.price)],
            db.slots[b.slotId := slot.(available := true)],
            db.bookings[bookingId := b.(status := Cancelled)]),
         Ok(slot.price))
  }

  /* ---------------------------------------------------------------- the ledger invariant */

  /** What user `uid` has paid for the bookings of theirs that are still confirmed. */
  function Committed(bookings: seq<Booking>, slots: map<int, Slot>, uid: nat): int {
    if bookings == [] then 0
    else
      var b := bookings[|bookings| - 1];
      Committed(bookings[..|bookings| - 1], slots, uid) +
        (if b.userId == uid && b.status == Confirmed && b.slotId in slots then slots[b.slotId].price else 0)
  }

  predicate ConfirmedAt(bookings: seq<Booking>, i: int) {
    0 <= i < |bookings| && bookings[i].status == Confirmed
  }

  /** The state every sequence of signups, bookings and cancellations keeps, starting from
      seeded slots with non-negative prices and no users:
      balances never go negative, each balance plus what its owner has committed to confirmed
      bookings is the signup bonus, a confirmed booking's slot is locked, and no slot has two
      confirmed bookings. */
  ghost predicate Inv(db: Db) {
    && (forall id :: id in db.slots ==> db.slots[id].price >= 0)
    && (forall i :: 0 <= i < |db.bookings| ==>
          db.bookings[i].userId < |db.users| && db.bookings[i].slotId in db.slots)
    && (forall i :: ConfirmedAt(db.bookings, i) ==> !db.slots[db.bookings[i].slotId].available)
    && (forall i, j :: ConfirmedAt(db.bookings, i) && ConfirmedAt(db.bookings, j) && i != j ==>
          db.bookings[i].slotId != db.bookings[j].slotId)
    && (forall u :: 0 <= u < |db.users| ==> db.users[u].balance >= 0)
    && (forall u :: 0 <= u < |db.users| ==>
          db.users[u].balance + Committed(db.bookings, db.slots, u) == SignupBonus)
  }

  predicate SamePrices(s1: map<int, Slot>, s2: map<int, Slot>) {
    s1.Keys == s2.Keys && forall id :: id in s1 ==> s1[id].price == s2[id].price
  }

  lemma {:induction false} CommittedSamePrices(bookings: seq<Booking>, s1: map<int, Slot>, s2: map<int, Slot>, uid: nat)
    requires SamePrices(s1, s2)
    ensures Committed(bookings, s1, uid) == Committed(bookings, s2, uid)
  {
    if bookings != [] {
      CommittedSamePrices(bookings[..|bookings| - 1], s1, s2, uid);
    }
  }

  lemma {:induction false} CommittedOfNewUser(bookings: seq<Booking>, slots: map<int, Slot>, uid: nat)
    requires forall i :: 0 <= i < |bookings| ==> bookings[i].userId < uid
    ensures Committed(bookings, slots, uid) == 0
  {
    if bookings != [] {
      CommittedOfNewUser(bookings[..|bookings| - 1], slots, uid);
    }
  }

  lemma {:induction false} CommittedAfterCancel(bookings: seq<Booking>, slots: map<int, Slot>, uid: nat, k: nat)
    requires ConfirmedAt(bookings, k)
    ensures var b := bookings[k];
            Committed(bookings[k := b.(status := Cancelled)], slots, uid) ==
            Committed(bookings, slots, uid) -
              (if b.userId == uid && b.slotId in slots then slots[b.slotId].price else 0)
  {
    var n := |bookings|;
    var after := bookings[k := bookings[k].(status := Cancelled)];
    assert after[..n - 1] == if k == n - 1 then bookings[..n - 1] else bookings[..n - 1][k := bookings[k].(status := Cancelled)];
    if k < n - 1 {
      CommittedAfterCancel(bookings[..n - 1], slots, uid, k);
    }
  }

  lemma BookPreservesInv(db: Db, uid: nat, slotId: int)
    requires Inv(db)
    ensures Inv(Book(db, uid, slotId).0)
  {
    var r := Book(db, uid, slotId);
    if r.1.Ok? {
      var db' := r.0;
      var price := db.slots[slotId].price;
      assert SamePrices(db.slots, db'.slots);
      forall u | 0 <= u < |db'.users|
        ensures db'.users[u].balance + Committed(db'.bookings, db'.slots, u) == SignupBonus
      {
        assert db'.bookings[..|db'.bookings| - 1] == db.bookings;
        CommittedSamePrices(db.bookings, db.slots, db'.slots, u);
      }
      forall i | ConfirmedAt(db'.bookings, i) ensures !db'.slots[db'.bookings[i].slotId].available {
        if i < |db.bookings| { assert ConfirmedAt(db.bookings, i); }
      }
      forall i, j | ConfirmedAt(db'.bookings, i) && ConfirmedAt(db'.bookings, j) && i != j
        ensures db'.bookings[i].slotId != db'.bookings[j].slotId
      {
        if i < |db.bookings| { assert ConfirmedAt(db.bookings, i); }
        if j < |db.bookings| { assert ConfirmedAt(db.bookings, j); }
      }
    }
  }

  lemma CancelPreservesInv(db: Db, uid: nat, bookingId: int)
    requires Inv(db)
    ensures Inv(Cancel(db, uid, bookingId).0)
  {
    var r := Cancel(db, uid, bookingId);
    if r.1.Ok? {
      var db' := r.0;
      var b := db.bookings[bookingId];
      assert ConfirmedAt(db.bookings, bookingId);
      var cancelled := db.bookings[bookingId := b.(status := Cancelled)];
      assert SamePrices(db.slots, db'.slots);
      forall u | 0 <= u < |db'.users|
        ensures db'.users[u].balance + Committed(db'.bookings, db'.slots, u) == SignupBonus
      {
        CommittedAfterCancel(db.bookings, db.slots, u, bookingId);
        CommittedSamePrices(cancelled, db.slots, db'.slots, u);
      }
      forall i | ConfirmedAt(db'.bookings, i) ensures !db'.slots[db'.bookings[i].slotId].available {
        assert i != bookingId && ConfirmedAt(db.bookings, i);
      }
      forall i, j | ConfirmedAt(db'.bookings, i) && ConfirmedAt(db'.bookings, j) && i != j
        ensures db'.bookings[i].slotId != db'.bookings[j].slotId
      {
        assert ConfirmedAt(db.bookings, i) && ConfirmedAt(db.bookings, j);
      }
    }
  }

  lemma RegisterPreservesInv(db: Db, req: SignupRequest)
    requires Inv(db)
    ensures Inv(Register(db, req).0)
  {
    var r := Register(db, req);
    if r.1.Ok? {
      var after := r.0;
      assert after.slots == db.slots && after.bookings == db.bookings;
      CommittedOfNewUser(db.bookings, db.slots, |db.users|);
      forall u | 0 <= u < |after.users|
        ensures after.users[u].balance >= 0
        ensures after.users[u].balance + Committed(after.bookings, after.slots, u) == SignupBonus
      {
        if u < |db.users| {
          assert after.users[u] == after.users[..|db.users|][u];
        }
      }
    }
  }

  /** Booking a slot and then cancelling that booking gives the wallet and the slot back
      exactly; only the cancelled booking row remains. */
  lemma BookThenCancel(db: Db, uid: nat, slotId: int)
    requires Book(db, uid, slotId).1.Ok?
    ensures var booked := Book(db, uid, slotId).0;
            var r := Cancel(booked, uid, |db.bookings|);
            && r.1 == Ok(db.slots[slotId].price)
            && r.0.users == db.users
            && r.0.slots == db.slots
            && r.0.bookings == db.bookings + [Booking(uid, slotId, Cancelled)]
  {
    var booked := Book(db, uid, slotId).0;
    var r := Cancel(booked, uid, |db.bookings|);
    assert r.0.users == db.users;
    assert r.0.slots == db.slots;
  }

  /** A balance equal to the price is enough, and leaves exactly nothing. */
  lemma ExactBalanceBooks(db: Db, uid: nat, slotId: int)
    requires uid < |db.users| && slotId in db.slots && db.slots[slotId].available
    requires db.users[uid].balance == db.slots[slotId].price
    ensures Book(db, uid, slotId).1 == Ok(0)
  {
  }

  /** A second cancel of the same booking is refused and changes nothing. */
  lemma CancelTwice(db: Db, uid: nat, bookingId: int)
    requires Cancel(db, uid, bookingId).1.Ok?
    ensures var once := Cancel(db, uid, bookingId).0;
            Cancel(once, uid, bookingId) == (once, Err(AlreadyCancelled))
  {
  }

  /** Another user cannot cancel a booking: the answer is the same 404 as for a missing one. */
  lemma ForeignBookingNotFound(db: Db, uid: nat, bookingId: int)
    requires uid < |db.users| && 0 <= bookingId < |db.bookings| && db.bookings[bookingId].userId != uid
    ensures Cancel(db, uid, bookingId) == (db, Err(BookingNotFound))
  {
  }

  /* ---------------------------------------------------------------- the handlers, in place */

  /** The database session: the handlers change the loaded rows in place and commit. */
  class Backend {
    var users: seq<User>
    var slots: map<int, Slot>
    var bookings: seq<Booking>

    function State(): Db
      reads this
    {
      Db(users, slots, bookings)
    }

    ghost predicate Valid()
      reads this
    {
      Inv(State())
    }

    /** The seeded database: slots only. */
    constructor (seeded: map<int, Slot>)
      requires forall id :: id in seeded ==> seeded[id].price >= 0
      ensures Valid()
      ensures users == [] && slots == seeded && bookings == []
    {
      users, slots, bookings := [], seeded, [];
    }

    method Signup(req: SignupRequest) returns (r: Result<int, ApiError>)
      requires Valid()
      modifies this
      ensures Valid()
      ensures (State(), r) == Register(old(State()), req)
    {
      RegisterPreservesInv(State(), req);
      if !EmailSchema.IsValidEmail(req.email) {
        return Err(InvalidEmail);
      }
      if Taken(users, req.username, req.email) {
        return Err(AlreadyRegistered);
      }
      if |req.username| < 3 {
        return Err(UsernameTooShort);
      }
      if |req.password| < 6 {
        return Err(PasswordTooShort);
      }
      users := users + [User(req.username, req.email, SignupBonus, EmailSchema.DoshaOrDefault(req.dosha))];
      r := Ok(SignupBonus);
    }

    method CreateBooking(uid: nat, slotId: int) returns (r: Result<int, ApiError>)
      requires Valid()
      modifies this
      ensures Valid()
      ensures (State(), r) == Book(old(State()), uid, slotId)
    {
      BookPreservesInv(State(), uid, slotId);
      if uid >= |users| {
        return Err(NotAuthenticated);
      }
      if slotId !in slots || !slots[slotId].available {
        return Err(SlotUnavailable);
      }
      var slot := slots[slotId];
      if users[uid].balance < slot.price {
        return Err(InsufficientBalance);
      }
      bookings := bookings + [Booking(uid, slotId, Confirmed)];
      users := users[uid := users[uid].(balance := users[uid].balance - slot.price)];
      slots := slots[slotId := slot.(available := false)];
      r := Ok(users[uid].balance);
    }

    method CancelBooking(uid: nat, bookingId: int) returns (r: Result<int, ApiError>)
      requires Valid()
      modifies this
      ensures Valid()
      ensures (State(), r) == Cancel(old(State()), uid, bookingId)
    {
      CancelPreservesInv(State(), uid, bookingId);
      if uid >= |users| {
        return Err(NotAuthenticated);
      }
      if !(0 <= bookingId < |bookings|) || bookings[bookingId].userId != uid {
        return Err(BookingNotFound);
      }
      var booking := bookings[bookingId];
      if booking.status == Cancelled {
        return Err(AlreadyCancelled);
      }
      if booking.slotId !in slots {
        return Err(InternalError);
      }
      bookings := bookings[bookingId := booking.(status := Cancelled)];
      var slot := slots[booking.slotId];
      slots := slots[booking.slotId := slot.(available := true)];
      users := users[uid := users[uid].(balance := users[uid].balance + slot.price)];
      r := Ok(slot.price);
    }
  }
}
