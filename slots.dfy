/**
 * The slot booking page of frontend/app/slots.bak/page.tsx: the filter bar over the slots the
 * server returned, the wallet check `bookSlot` makes before it sends a request, and the rule
 * that greys out a Book button. The user is `None` before login; the date of "today" is a
 * parameter instead of the clock.
 */
module Slots {
  import opened Wrappers
  import opened Seqs
  import Ledger

  /** One card on the page (the fields the rules look at). */
  datatype SlotCard = SlotCard(id: int, doctor: string, date: string, time: string, price: int, available: bool)

  /** Whether the filter keyed `filter` keeps `slot`; an unknown key acts like "all". */
  predicate Shows(filter: string, balance: Option<int>, today: string, slot: SlotCard) {
    if filter == "all" then slot.available
    else if filter == "affordable" then slot.available && balance.Some? && slot.price <= balance.value
    else if filter == "today" then slot.available && slot.date == today
    else slot.available
  }

  /** `filteredSlots`. */
  function FilteredSlots(slots: seq<SlotCard>, filter: string, balance: Option<int>, today: string): (r: seq<SlotCard>)
    ensures |r| <= |slots|
    ensures forall i :: 0 <= i < |r| ==> r[i].available
  {
    Filter(slots, s => Shows(filter, balance, today, s))
  }

  /** Each filter key keeps exactly the slots its rule names. */
  lemma FilteredSlotsMembers(slots: seq<SlotCard>, filter: string, balance: Option<int>, today: string, s: SlotCard)
    ensures filter == "affordable" ==>
              (s in FilteredSlots(slots, filter, balance, today) <==>
               s in slots && s.available && balance.Some? && s.price <= balance.value)
    ensures filter == "today" ==>
              (s in FilteredSlots(slots, filter, balance, today) <==> s in slots && s.available && s.date == today)
    ensures filter != "affordable" && filter != "today" ==>
              (s in FilteredSlots(slots, filter, balance, today) <==> s in slots && s.available)
    ensures multiset(FilteredSlots(slots, filter, balance, today))[s]
            == if Shows(filter, balance, today, s) then multiset(slots)[s] else 0
  {
    FilterMembers(slots, s => Shows(filter, balance, today, s), s);
    FilterMultiset(slots, s => Shows(filter, balance, today, s), s);
  }

  /** Every filter shows the slots in the order the server sent them. */
  lemma FilteredSlotsInOrder(slots: seq<SlotCard>, filter: string, balance: Option<int>, today: string)
    ensures IsSubsequence(FilteredSlots(slots, filter, balance, today), slots)
  {
    FilterIsSubsequence(slots, s => Shows(filter, balance, today, s));
  }

  /** "all" and any key the page does not know give the same list. */
  lemma UnknownFilterShowsAll(slots: seq<SlotCard>, filter: string, balance: Option<int>, today: string)
    requires filter != "affordable" && filter != "today"
    ensures FilteredSlots(slots, filter, balance, today) == FilteredSlots(slots, "all", balance, today)
  {
    FilterSameTest(slots, s => Shows(filter, balance, today, s), s => Shows("all", balance, today, s));
  }

  /** What pressing Book leads to. */
  datatype BookAttempt = NotLoggedIn | InsufficientBalanceWarning | Requested(slotId: int)

  /** The part of `bookSlot` before the request: nothing without a user, a warning toast when
      the wallet is short, and otherwise a POST for the slot. */
  function BookSlot(balance: Option<int>, slotId: int, price: int): (r: BookAttempt)
    ensures r == NotLoggedIn <==> balance.None?
    ensures r == InsufficientBalanceWarning <==> balance.Some? && balance.value < price
    ensures r.Requested? <==> balance.Some? && price <= balance.value
    ensures r.Requested? ==> r.slotId == slotId
  {
    if balance.None? then NotLoggedIn
    else if balance.value < price then InsufficientBalanceWarning
    else Requested(slotId)
  }

  /** The page sends a request for an open slot exactly when the server would accept it: both
      sides refuse on `balance < price`. */
  lemma ClientGuardMatchesServer(db: Ledger.Db, uid: nat, slotId: int)
    requires uid < |db.users| && slotId in db.slots && db.slots[slotId].available
    ensures BookSlot(Some(db.users[uid].balance), slotId, db.slots[slotId].price).Requested?
            <==> Ledger.Book(db, uid, slotId).1.Ok?
  {
  }

  /** The Book button is greyed out while this slot is being booked or when the wallet is short. */
  predicate ButtonDisabled(bookingSlot: Option<int>, balance: int, slot: SlotCard) {
    bookingSlot == Some(slot.id) || balance < slot.price
  }

  /** An enabled button always leads to a request; a button greyed out for the balance would
      only have shown the warning. */
  lemma EnabledButtonRequests(bookingSlot: Option<int>, balance: int, slot: SlotCard)
    ensures !ButtonDisabled(bookingSlot, balance, slot) ==> BookSlot(Some(balance), slot.id, slot.price) == Requested(slot.id)
    ensures balance < slot.price ==>
              ButtonDisabled(bookingSlot, balance, slot)
              && BookSlot(Some(balance), slot.id, slot.price) == InsufficientBalanceWarning
  {
  }
}
