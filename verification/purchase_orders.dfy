/** Purchase-order records and the three events that fill in their dates.
    Dates are calendar days counted from 1970-01-01 (day 0), the epoch of
    pandas timestamps; a date that has not been recorded yet is
    `None`. */
module PurchaseOrders {
  import opened Wrappers

  /** A calendar date as a day number. */
  type Day = int

  /** 9999-12-31, the last date Python's `datetime.date` and
      `datetime.datetime` hold; adding a lead time that goes past it raises
      `OverflowError`. */
  const LastCalendarDay := 2932896

  /** 1677-09-22 and 2262-04-11, the first and last midnights the
      nanosecond timestamps of pandas 2.x can hold; `pd.to_datetime` parses
      date text into that resolution. */
  const FirstTimestampDay := -106751
  const LastTimestampDay := 106751

  /** One row of the purchase-order table. */
  datatype PurchaseOrder = PurchaseOrder(
    number: int,                  // the PO number shown to users
    buyer: string,                // name of the user who registered the order
    sent: Day,                    // date the order was sent to the supplier
    dispatchLead: int,            // promised days until dispatch
    transportLead: int,           // promised days in transport
    expectedDispatch: Option<Day>,
    dispatched: Option<Day>,
    expectedReceipt: Option<Day>,
    received: Option<Day>
  )

  /** Why an entry form refuses what was typed in. */
  datatype EntryError =
    | NumberTooSmall      // the PO number widget starts at 1
    | LeadTooSmall        // both lead-time widgets start at 1
    | DateOutOfRange      // a date picker's min_value/max_value excludes the date
    | AlreadyDispatched   // the dispatch picker is only offered before dispatch
    | NotDispatched       // the receipt picker is only offered after dispatch
    | AlreadyReceived     // no update is offered once both dates are set
    | CalendarOverflow    // date plus lead time lies past the last calendar day
    | BeyondTimestampRange // a date the status table could not convert

  /** The shape the status engine relies on: the expected dispatch date is
      always present, the expected receipt date is present exactly when the
      order was dispatched, and nothing is received before it is dispatched. */
  predicate StatusInvariant(o: PurchaseOrder) {
    && o.expectedDispatch.Some?
    && (o.expectedReceipt.Some? <==> o.dispatched.Some?)
    && (o.received.Some? ==> o.dispatched.Some?)
  }

  /** Every derived date agrees with the dates and lead times it is computed
      from, and the recorded dates respect the pickers' bounds. */
  predicate Consistent(o: PurchaseOrder) {
    && StatusInvariant(o)
    && o.number >= 1
    && o.dispatchLead >= 1
    && o.transportLead >= 1
    && o.expectedDispatch == Some(o.sent + o.dispatchLead)
    && (o.dispatched.Some? ==>
          o.sent <= o.dispatched.value
          && o.expectedReceipt == Some(o.dispatched.value + o.transportLead))
    && (o.received.Some? ==> o.dispatched.value <= o.received.value)
  }

  /** A date `pd.to_datetime` can convert to a nanosecond timestamp. */
  predicate DayReadable(d: Day) {
    FirstTimestampDay <= d <= LastTimestampDay
  }

  /** Every date the order holds can be converted to a timestamp, so the
      status engine can read the order. */
  predicate Readable(o: PurchaseOrder) {
    && DayReadable(o.sent)
    && (o.expectedDispatch.Some? ==> DayReadable(o.expectedDispatch.value))
    && (o.dispatched.Some? ==> DayReadable(o.dispatched.value))
    && (o.expectedReceipt.Some? ==> DayReadable(o.expectedReceipt.value))
    && (o.received.Some? ==> DayReadable(o.received.value))
  }

  /** `o'` is `o` with possibly more dates recorded: fixed fields are equal and
      no date that was set has been cleared or changed. */
  predicate Extends(o: PurchaseOrder, o': PurchaseOrder) {
    && o'.number == o.number
    && o'.buyer == o.buyer
    && o'.sent == o.sent
    && o'.dispatchLead == o.dispatchLead
    && o'.transportLead == o.transportLead
    && (o.expectedDispatch.Some? ==> o'.expectedDispatch == o.expectedDispatch)
    && (o.dispatched.Some? ==> o'.dispatched == o.dispatched)
    && (o.expectedReceipt.Some? ==> o'.expectedReceipt == o.expectedReceipt)
    && (o.received.Some? ==> o'.received == o.received)
  }

  /** Registers a new order as the entry form and `add_purchase_order` do:
      the send date comes from a picker offering `earliest` (the picker's
      default lower bound, ten calendar years before today) up to today, and
      the expected dispatch date is the send date plus the dispatch lead time,
      which overflows past the last calendar day. Every later date is unset. */
  function NewOrderAsWritten(number: int, buyer: string, sent: Day, dispatchLead: int,
                             transportLead: int, earliest: Day, today: Day): (r: Result<PurchaseOrder, EntryError>)
    ensures r.Success? <==>
      && number >= 1 && earliest <= sent <= today && dispatchLead >= 1 && transportLead >= 1
      && sent + dispatchLead <= LastCalendarDay
    ensures r.Failure? && number >= 1 && earliest <= sent <= today && dispatchLead >= 1 && transportLead >= 1 ==>
      r.error == CalendarOverflow
    ensures r.Success? ==>
      && Consistent(r.value)
      && r.value.number == number && r.value.buyer == buyer && r.value.sent == sent
      && r.value.transportLead == transportLead
      && r.value.expectedDispatch.Some? && r.value.expectedDispatch.value - r.value.sent == dispatchLead
      && r.value.dispatched.None? && r.value.received.None?
  {
    if number < 1 then Failure(NumberTooSmall)
    else if sent < earliest || sent > today then Failure(DateOutOfRange)
    else if dispatchLead < 1 || transportLead < 1 then Failure(LeadTooSmall)
    else if sent + dispatchLead > LastCalendarDay then Failure(CalendarOverflow)
    else
      var expectedDispatch := sent + dispatchLead;
      Success(PurchaseOrder(number, buyer, sent, dispatchLead, transportLead,
                            Some(expectedDispatch), None, None, None))
  }

  /** Registration as it should be: the entry of `NewOrderAsWritten`, refused
      when one of its dates could not be read back by the status table, or
      when even a dispatch on the send date would put the expected receipt
      date out of the table's reach. */
  function NewOrder(number: int, buyer: string, sent: Day, dispatchLead: int,
                    transportLead: int, earliest: Day, today: Day): (r: Result<PurchaseOrder, EntryError>)
    ensures r.Success? <==>
      && number >= 1 && earliest <= sent <= today && dispatchLead >= 1 && transportLead >= 1
      && FirstTimestampDay <= sent && sent + dispatchLead <= LastTimestampDay
      && sent + transportLead <= LastTimestampDay
    ensures r.Success? ==>
      r == NewOrderAsWritten(number, buyer, sent, dispatchLead, transportLead, earliest, today)
      && Readable(r.value)
    ensures r.Failure? && NewOrderAsWritten(number, buyer, sent, dispatchLead, transportLead, earliest, today).Success? ==>
      r.error == BeyondTimestampRange
  {
    var r := NewOrderAsWritten(number, buyer, sent, dispatchLead, transportLead, earliest, today);
    if r.Success? && (!Readable(r.value) || sent + transportLead > LastTimestampDay)
    then Failure(BeyondTimestampRange)
    else r
  }

  /** Every order the corrected registration accepts can be dispatched with
      the corrected update, at the latest on its send date. */
  lemma RegisteredOrderIsDispatchable(number: int, buyer: string, sent: Day, dispatchLead: int,
                                      transportLead: int, earliest: Day, today: Day)
    requires NewOrder(number, buyer, sent, dispatchLead, transportLead, earliest, today).Success?
    ensures var o := NewOrder(number, buyer, sent, dispatchLead, transportLead, earliest, today).value;
      RecordDispatch(o, sent, today).Success?
  {
    var o := NewOrder(number, buyer, sent, dispatchLead, transportLead, earliest, today).value;
    assert Readable(o) && o.transportLead >= 1 && o.dispatched.None?;
  }

  /** Records the dispatch date as the update form does: offered only while
      the order is undispatched, with a date between the send date and today;
      the expected receipt date becomes the dispatch date plus the transport
      lead time, which overflows past the last calendar day. */
  function RecordDispatchAsWritten(o: PurchaseOrder, date: Day, today: Day): (r: Result<PurchaseOrder, EntryError>)
    ensures r.Success? <==>
      o.dispatched.None? && o.sent <= date <= today && date + o.transportLead <= LastCalendarDay
    ensures r.Success? ==>
      && r.value.dispatched == Some(date)
      && r.value.expectedReceipt.Some?
      && r.value.expectedReceipt.value - date == o.transportLead
      && r.value == o.(dispatched := r.value.dispatched, expectedReceipt := r.value.expectedReceipt)
    ensures r.Success? && StatusInvariant(o) ==> Extends(o, r.value) && StatusInvariant(r.value)
    ensures r.Success? && Consistent(o) ==> Consistent(r.value)
  {
    if o.dispatched.Some? then Failure(AlreadyDispatched)
    else if date < o.sent || date > today then Failure(DateOutOfRange)
    else if date + o.transportLead > LastCalendarDay then Failure(CalendarOverflow)
    else
      var expectedReceipt := date + o.transportLead;
      Success(o.(dispatched := Some(date), expectedReceipt := Some(expectedReceipt)))
  }

  /** Dispatch as it should be: the update of `RecordDispatchAsWritten`,
      refused when the order it produces could not be read back by the status
      table. */
  function RecordDispatch(o: PurchaseOrder, date: Day, today: Day): (r: Result<PurchaseOrder, EntryError>)
    ensures Readable(o) && o.transportLead >= 1 ==>
      (r.Success? <==>
        o.dispatched.None? && o.sent <= date <= today && date + o.transportLead <= LastTimestampDay)
    ensures r.Success? ==> r == RecordDispatchAsWritten(o, date, today) && Readable(r.value)
    ensures r.Failure? && RecordDispatchAsWritten(o, date, today).Success? ==> r.error == BeyondTimestampRange
  {
    var r := RecordDispatchAsWritten(o, date, today);
    if r.Success? && !Readable(r.value) then Failure(BeyondTimestampRange) else r
  }

  /** Records the receipt date: offered only for a dispatched, not yet
      received order, with a date between the dispatch date and today. */
  function RecordReceipt(o: PurchaseOrder, date: Day, today: Day): (r: Result<PurchaseOrder, EntryError>)
    ensures r.Success? <==>
      o.dispatched.Some? && o.received.None? && o.dispatched.value <= date <= today
    ensures r.Success? ==>
      && Extends(o, r.value)
      && r.value.received == Some(date)
      && r.value == o.(received := r.value.received)
    ensures r.Success? && StatusInvariant(o) ==> StatusInvariant(r.value)
    ensures r.Success? && Consistent(o) ==> Consistent(r.value)
    ensures r.Success? && Readable(o) && today <= LastTimestampDay ==> Readable(r.value)
  {
    if o.dispatched.None? then Failure(NotDispatched)
    else if o.received.Some? then Failure(AlreadyReceived)
    else if date < o.dispatched.value || date > today then Failure(DateOutOfRange)
    else Success(o.(received := Some(date)))
  }
}
