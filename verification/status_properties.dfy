/** What the rule sequence of the status engine amounts to: a closed-form
    classification, the exclusivity of each rule group, the precedence of the
    overwrites and the confinement of the near-deadline rule. */
module StatusProperties {
  import opened Wrappers
  import opened PurchaseOrders
  import opened StatusEngine

  /** Number of `true` entries. */
  function CountTrue(bs: seq<bool>): nat {
    if bs == [] then 0 else (if bs[0] then 1 else 0) + CountTrue(bs[1..])
  }

  /** Counting four guards one by one. */
  lemma CountTrueFour(a: bool, b: bool, c: bool, d: bool)
    ensures CountTrue([a, b, c, d]) ==
      (if a then 1 else 0) + (if b then 1 else 0) + (if c then 1 else 0) + (if d then 1 else 0)
  {
    assert [d][1..] == [];
    assert CountTrue([d]) == (if d then 1 else 0);
    assert [c, d][1..] == [d];
    assert CountTrue([c, d]) == (if c then 1 else 0) + CountTrue([d]);
    assert [b, c, d][1..] == [c, d];
    assert CountTrue([b, c, d]) == (if b then 1 else 0) + CountTrue([c, d]);
    assert [a, b, c, d][1..] == [b, c, d];
  }

  /** The guards of the four dispatch rules, in the order the engine applies them. */
  function DispatchGuards(o: PurchaseOrder, today: Day): seq<bool> {
    [DispatchedInTime(o), DispatchedAfterDeadline(o),
     AwaitingDispatchInTime(o, today), AwaitingDispatchPastDeadline(o, today)]
  }

  /** The guards of the four receipt rules, in the order the engine applies them. */
  function ReceiptGuards(o: PurchaseOrder, today: Day): seq<bool> {
    [ReceivedInTime(o), ReceivedAfterDeadline(o),
     AwaitingReceiptInTime(o, today), AwaitingReceiptPastDeadline(o, today)]
  }

  /** The reference classification of a well-shaped order, decided by one
      nested case analysis instead of a sequence of overwrites. */
  function Classify(o: PurchaseOrder, today: Day): StatusColumns
    requires StatusInvariant(o)
  {
    var due := o.expectedDispatch.value;
    match o.dispatched
    case None =>
      if due >= today
      then StatusColumns(Some(AwaitingDispatchOnTime), None, Some(NotDispatchedOnTime), None)
      else StatusColumns(Some(AwaitingDispatchLate), None, Some(NotDispatchedLate), None)
    case Some(d) =>
      var arrival := o.expectedReceipt.value;
      var days := arrival - today;
      var dispatch := if d <= due then DispatchedOnTime else DispatchedLate;
      match o.received
      case Some(r) =>
        StatusColumns(Some(dispatch), Some(if r <= arrival then ReceivedOnTime else ReceivedLate),
                      Some(Completed), Some(days))
      case None =>
        if days < 0 then
          StatusColumns(Some(dispatch), Some(AwaitingReceiptLate), Some(InTransitLate), Some(days))
        else
          StatusColumns(Some(dispatch), Some(AwaitingReceiptOnTime),
                        Some(if days <= NearDeadlineDays then NearDeadline else InTransitOnTime),
                        Some(days))
  }

  /** The sequence of overwrites computes the closed-form classification. */
  lemma CheckStatusIsClassify(o: PurchaseOrder, today: Day)
    requires StatusInvariant(o)
    ensures CheckStatus(o, today) == Classify(o, today)
  {
  }

  /** Exactly one dispatch rule fires when the expected dispatch date is
      present (always, for an order registered by `NewOrder`), none when it is
      missing; and the dispatch status is written exactly in the first case. */
  lemma DispatchRulesPartition(o: PurchaseOrder, today: Day)
    ensures CountTrue(DispatchGuards(o, today)) == (if o.expectedDispatch.Some? then 1 else 0)
    ensures CheckStatus(o, today).dispatchStatus.Some? <==> o.expectedDispatch.Some?
  {
    CountTrueFour(DispatchedInTime(o), DispatchedAfterDeadline(o),
                  AwaitingDispatchInTime(o, today), AwaitingDispatchPastDeadline(o, today));
  }

  /** Exactly one receipt rule fires when the expected receipt date is
      present, none when it is missing. */
  lemma ReceiptRulesPartition(o: PurchaseOrder, today: Day)
    ensures CountTrue(ReceiptGuards(o, today)) == (if o.expectedReceipt.Some? then 1 else 0)
    ensures CheckStatus(o, today).receiptStatus.Some? <==> o.expectedReceipt.Some?
  {
    CountTrueFour(ReceivedInTime(o), ReceivedAfterDeadline(o),
                  AwaitingReceiptInTime(o, today), AwaitingReceiptPastDeadline(o, today));
  }

  /** Each dispatch status value, characterised by the dates it is decided by. */
  lemma DispatchStatusMeaning(o: PurchaseOrder, today: Day)
    ensures var s := CheckStatus(o, today).dispatchStatus;
      && (s == Some(DispatchedOnTime) <==>
            o.dispatched.Some? && o.expectedDispatch.Some? && o.dispatched.value <= o.expectedDispatch.value)
      && (s == Some(DispatchedLate) <==>
            o.dispatched.Some? && o.expectedDispatch.Some? && o.dispatched.value > o.expectedDispatch.value)
      && (s == Some(AwaitingDispatchOnTime) <==>
            o.dispatched.None? && o.expectedDispatch.Some? && o.expectedDispatch.value >= today)
      && (s == Some(AwaitingDispatchLate) <==>
            o.dispatched.None? && o.expectedDispatch.Some? && o.expectedDispatch.value < today)
  {
  }

  /** Each receipt status value, characterised by the dates it is decided by. */
  lemma ReceiptStatusMeaning(o: PurchaseOrder, today: Day)
    ensures var s := CheckStatus(o, today).receiptStatus;
      && (s == Some(ReceivedOnTime) <==>
            o.received.Some? && o.expectedReceipt.Some? && o.received.value <= o.expectedReceipt.value)
      && (s == Some(ReceivedLate) <==>
            o.received.Some? && o.expectedReceipt.Some? && o.received.value > o.expectedReceipt.value)
      && (s == Some(AwaitingReceiptOnTime) <==>
            o.received.None? && o.expectedReceipt.Some? && o.expectedReceipt.value >= today)
      && (s == Some(AwaitingReceiptLate) <==>
            o.received.None? && o.expectedReceipt.Some? && o.expectedReceipt.value < today)
  {
  }

  /** Deadlines are inclusive: meeting a deadline on its last day, or having
      it fall on today, counts as on time. */
  lemma DeadlinesAreInclusive(o: PurchaseOrder, today: Day)
    ensures o.dispatched.Some? && o.dispatched == o.expectedDispatch ==>
      CheckStatus(o, today).dispatchStatus == Some(DispatchedOnTime)
    ensures o.dispatched.None? && o.expectedDispatch == Some(today) ==>
      CheckStatus(o, today).dispatchStatus == Some(AwaitingDispatchOnTime)
    ensures o.received.Some? && o.received == o.expectedReceipt ==>
      CheckStatus(o, today).receiptStatus == Some(ReceivedOnTime)
    ensures o.received.None? && o.expectedReceipt == Some(today) ==>
      CheckStatus(o, today).receiptStatus == Some(AwaitingReceiptOnTime)
  {
  }

  /** Once dispatched, the dispatch date's timing does not influence the
      overall status, the receipt status or the day count: a late dispatch
      alone never makes the order late. */
  lemma DispatchTimingIrrelevant(o: PurchaseOrder, today: Day, d: Day)
    requires o.dispatched.Some?
    ensures var s, s' := CheckStatus(o, today), CheckStatus(o.(dispatched := Some(d)), today);
      s'.overall == s.overall && s'.receiptStatus == s.receiptStatus && s'.daysToArrival == s.daysToArrival
  {
  }

  /** Both dispatch outcomes put the order "in transit, on time" before the
      receipt rules run. */
  lemma DispatchedOrderStartsInTransit(o: PurchaseOrder, today: Day)
    requires o.dispatched.Some? && o.expectedDispatch.Some?
    ensures DispatchRules(o, today, Unwritten).overall == Some(InTransitOnTime)
  {
  }

  /** The overall status is 'Finalizada' exactly when a receipt date and an
      expected receipt date are both present, whatever the dispatch timing. */
  lemma CompletedIffReceived(o: PurchaseOrder, today: Day)
    ensures CheckStatus(o, today).overall == Some(Completed) <==>
      o.received.Some? && o.expectedReceipt.Some?
  {
  }

  /** An undispatched order gets no receipt status and no day count; its
      overall status says "not sent", on time exactly when the dispatch
      deadline has not passed; the near-deadline rule never touches it. */
  lemma UndispatchedOrder(o: PurchaseOrder, today: Day)
    requires StatusInvariant(o) && o.dispatched.None?
    ensures var s := CheckStatus(o, today);
      && s.receiptStatus.None?
      && s.daysToArrival.None?
      && (s.overall == Some(NotDispatchedOnTime) <==> o.expectedDispatch.value >= today)
      && (s.overall == Some(NotDispatchedLate) <==> o.expectedDispatch.value < today)
      && s.overall == BeforeOverride(o, today).overall
  {
  }

  /** The day count is the signed distance from today to the expected
      receipt date, and is present exactly when that date is. */
  lemma DaysToArrivalMeaning(o: PurchaseOrder, today: Day)
    ensures var s := CheckStatus(o, today);
      && (s.daysToArrival.Some? <==> o.expectedReceipt.Some?)
      && (s.daysToArrival.Some? ==> today + s.daysToArrival.value == o.expectedReceipt.value)
  {
  }

  /** The near-deadline rule only relabels 'no prazo - em trânsito' with at
      most three days left, and changes nothing else about the row. */
  lemma NearDeadlineOnlyFromOnTime(o: PurchaseOrder, today: Day)
    ensures var before, after := BeforeOverride(o, today), CheckStatus(o, today);
      && (after.overall == Some(NearDeadline) <==>
            before.overall == Some(InTransitOnTime) && before.daysToArrival.Some?
            && before.daysToArrival.value <= NearDeadlineDays)
      && (before.overall != Some(InTransitOnTime) ==> after.overall == before.overall)
      && after.(overall := before.overall) == before
  {
  }

  /** With every rule reading the same today, a near-deadline order is
      undelivered with its expected receipt between today and three days
      from now, and under the record invariant it has
      been dispatched; conversely every such dispatched order is near its
      deadline. */
  lemma NearDeadlineMeaning(o: PurchaseOrder, today: Day)
    ensures CheckStatus(o, today).overall == Some(NearDeadline) ==>
      && o.received.None?
      && o.expectedReceipt.Some?
      && 0 <= o.expectedReceipt.value - today <= NearDeadlineDays
    ensures StatusInvariant(o) ==>
      (CheckStatus(o, today).overall == Some(NearDeadline) <==>
        && o.dispatched.Some?
        && o.received.None?
        && 0 <= o.expectedReceipt.value - today <= NearDeadlineDays)
  {
  }

  /** The overall status is written for every order whose expected dispatch
      date is present. */
  lemma OverallAlwaysWritten(o: PurchaseOrder, today: Day)
    requires o.expectedDispatch.Some?
    ensures CheckStatus(o, today).overall.Some?
  {
  }

  /** Lateness and completion are stable as time passes: an order late (or
      finished) on one day is still so, with the same label, on any later day. */
  lemma LatenessPersists(o: PurchaseOrder, today: Day, later: Day)
    requires today <= later
    ensures var s := CheckStatus(o, today).overall;
      s in {Some(NotDispatchedLate), Some(InTransitLate), Some(Completed)} ==>
        CheckStatus(o, later).overall == s
  {
  }

  /** Classifying rows is classifying their parts: no row depends on another. */
  lemma {:induction false} StatusRowsAppend(a: seq<PurchaseOrder>, b: seq<PurchaseOrder>, today: Day)
    ensures StatusRows(a + b, today) == StatusRows(a, today) + StatusRows(b, today)
  {
    var lhs, rhs := StatusRows(a + b, today), StatusRows(a, today) + StatusRows(b, today);
    assert |lhs| == |rhs|;
    forall i | 0 <= i < |lhs| ensures lhs[i] == rhs[i] {
      if i < |a| {
        assert (a + b)[i] == a[i];
      } else {
        assert (a + b)[i] == b[i - |a|];
      }
    }
  }

  /** The corrected whole-table engine succeeds on two tables put together
      exactly when it succeeds on each, and then yields the two results put together: one
      unreadable order anywhere fails the whole table. */
  lemma CheckStatusesAppend(a: seq<PurchaseOrder>, b: seq<PurchaseOrder>, today: Day)
    ensures CheckStatuses(a + b, today).Success? <==>
      CheckStatuses(a, today).Success? && CheckStatuses(b, today).Success?
    ensures CheckStatuses(a + b, today).Success? ==>
      CheckStatuses(a + b, today).value == CheckStatuses(a, today).value + CheckStatuses(b, today).value
  {
    assert forall i :: 0 <= i < |a| ==> (a + b)[i] == a[i];
    assert forall i :: 0 <= i < |b| ==> (a + b)[|a| + i] == b[i];
    StatusRowsAppend(a, b, today);
  }

  /** The engine as written splits the same way, as long as neither part is
      empty: an empty part fails on its own while the whole may succeed. */
  lemma CheckStatusesAsWrittenAppend(a: seq<PurchaseOrder>, b: seq<PurchaseOrder>, today: Day)
    requires a != [] && b != []
    ensures CheckStatusesAsWritten(a + b, today).Success? <==>
      CheckStatusesAsWritten(a, today).Success? && CheckStatusesAsWritten(b, today).Success?
    ensures CheckStatusesAsWritten(a + b, today).Success? ==>
      CheckStatusesAsWritten(a + b, today).value ==
        CheckStatusesAsWritten(a, today).value + CheckStatusesAsWritten(b, today).value
  {
    assert a + b != [];
    CheckStatusesAppend(a, b, today);
  }

  /** Registering an order with the corrected entry keeps a readable table
      readable, so the engine still classifies every row. */
  lemma NewOrderKeepsTableReadable(orders: seq<PurchaseOrder>, number: int, buyer: string, sent: Day,
                                   dispatchLead: int, transportLead: int, earliest: Day, today: Day)
    requires CheckStatuses(orders, today).Success?
    requires NewOrder(number, buyer, sent, dispatchLead, transportLead, earliest, today).Success?
    ensures CheckStatuses(orders + [NewOrder(number, buyer, sent, dispatchLead, transportLead, earliest, today).value],
                          today).Success?
  {
    var o := NewOrder(number, buyer, sent, dispatchLead, transportLead, earliest, today).value;
    CheckStatusesAppend(orders, [o], today);
  }

  /** Recording a dispatch with the corrected update keeps a readable table
      readable. */
  lemma DispatchKeepsTableReadable(orders: seq<PurchaseOrder>, k: nat, date: Day, entered: Day, today: Day)
    requires k < |orders|
    requires CheckStatuses(orders, today).Success?
    requires RecordDispatch(orders[k], date, entered).Success?
    ensures CheckStatuses(orders[k := RecordDispatch(orders[k], date, entered).value], today).Success?
  {
    var updated := orders[k := RecordDispatch(orders[k], date, entered).value];
    forall i | 0 <= i < |updated| ensures Readable(updated[i]) {
      if i != k {
        assert updated[i] == orders[i];
      }
    }
  }

  /** A freshly registered order is "not sent": on time exactly while today
      has not passed the send date plus the dispatch lead time. */
  lemma NewOrderNotDispatched(number: int, buyer: string, sent: Day, dispatchLead: int,
                              transportLead: int, earliest: Day, entered: Day, today: Day)
    requires NewOrder(number, buyer, sent, dispatchLead, transportLead, earliest, entered).Success?
    ensures var s := CheckStatus(NewOrder(number, buyer, sent, dispatchLead, transportLead, earliest, entered).value, today);
      && (s.overall == Some(NotDispatchedOnTime) <==> today <= sent + dispatchLead)
      && (s.overall == Some(NotDispatchedLate) <==> today > sent + dispatchLead)
      && s.receiptStatus.None? && s.daysToArrival.None?
  {
  }

  /** After the dispatch event an undelivered order is in transit, and the
      day count runs from today to the dispatch date plus the transport lead. */
  lemma DispatchPutsOrderInTransit(o: PurchaseOrder, date: Day, entered: Day, today: Day)
    requires StatusInvariant(o) && o.received.None?
    requires RecordDispatch(o, date, entered).Success?
    ensures var s := CheckStatus(RecordDispatch(o, date, entered).value, today);
      && s.daysToArrival == Some(date + o.transportLead - today)
      && s.overall in {Some(InTransitOnTime), Some(NearDeadline), Some(InTransitLate)}
      && (s.overall == Some(InTransitLate) <==> date + o.transportLead < today)
  {
  }

  /** After the receipt event the order is 'Finalizada' on every day. */
  lemma ReceiptCompletesOrder(o: PurchaseOrder, date: Day, entered: Day, today: Day)
    requires StatusInvariant(o)
    requires RecordReceipt(o, date, entered).Success?
    ensures CheckStatus(RecordReceipt(o, date, entered).value, today).overall == Some(Completed)
  {
  }
}
