/** Worked examples on concrete dates. Day numbers count from 1970-01-01, so
    2024-06-01 is day 19875; the send-date picker opened on that day offers
    dates from 2014-06-01, 3653 days earlier. */
module Scenarios {
  import opened Wrappers
  import opened PurchaseOrders
  import opened StatusEngine

  /** 2024-06-01. */
  const June1 := 19875

  /** Ten calendar years before 2024-06-01. */
  const TenYears := 3653

  /** Sent on June 1 with five days to dispatch and ten in transport,
      dispatched on June 5: on June 10 it is in transit with five days left. */
  lemma InTransitWithRoom()
    ensures var o := PurchaseOrder(1, "buyer", June1, 5, 10, Some(June1 + 5), Some(June1 + 4), Some(June1 + 14), None);
      && RecordDispatch(NewOrder(1, "buyer", June1, 5, 10, June1 - TenYears, June1).value, June1 + 4, June1 + 9) == Success(o)
      && CheckStatus(o, June1 + 9) ==
         StatusColumns(Some(DispatchedOnTime), Some(AwaitingReceiptOnTime), Some(InTransitOnTime), Some(5))
  {
  }

  /** The same order seen on June 13: two days left, so near its deadline. */
  lemma InTransitNearDeadline()
    ensures var o := PurchaseOrder(1, "buyer", June1, 5, 10, Some(June1 + 5), Some(June1 + 4), Some(June1 + 14), None);
      CheckStatus(o, June1 + 12) ==
        StatusColumns(Some(DispatchedOnTime), Some(AwaitingReceiptOnTime), Some(NearDeadline), Some(2))
  {
  }

  /** Sent on May 1 with three days to dispatch and never dispatched: on
      June 10 dispatch is overdue. */
  lemma NeverDispatched()
    ensures var o := PurchaseOrder(2, "buyer", June1 - 31, 3, 5, Some(June1 - 28), None, None, None);
      && NewOrder(2, "buyer", June1 - 31, 3, 5, June1 - 31 - TenYears, June1 - 31) == Success(o)
      && CheckStatus(o, June1 + 9) == StatusColumns(Some(AwaitingDispatchLate), None, Some(NotDispatchedLate), None)
  {
  }

  /** Dispatched on June 1 with five days of transport, received on June 8:
      received late, yet the order is finished. */
  lemma ReceivedLateIsFinished()
    ensures var o := PurchaseOrder(3, "buyer", June1 - 5, 5, 5, Some(June1), Some(June1), Some(June1 + 5), Some(June1 + 7));
      CheckStatus(o, June1 + 9) == StatusColumns(Some(DispatchedOnTime), Some(ReceivedLate), Some(Completed), Some(-4))
  {
  }

  /** Dispatched on June 5 with expected receipt on June 20: ten days left on
      June 10, in transit and on time. */
  lemma TenDaysLeft()
    ensures var o := PurchaseOrder(4, "buyer", June1, 5, 15, Some(June1 + 5), Some(June1 + 4), Some(June1 + 19), None);
      CheckStatus(o, June1 + 9).daysToArrival == Some(10) && CheckStatus(o, June1 + 9).overall == Some(InTransitOnTime)
  {
  }

  /** The rules read the clock separately. If the receipt rules run on the
      expected receipt day and the day count is taken just after midnight,
      the order is relabelled near its deadline with minus one day left. */
  lemma ReadingTodayAcrossMidnight()
    ensures var o := PurchaseOrder(1, "buyer", June1, 5, 10, Some(June1 + 5), Some(June1 + 4), Some(June1 + 14), None);
      var t := ReceiptRules(o, June1 + 14, DispatchRules(o, June1 + 14, Unwritten));
      var s := NearDeadlineRule(t.(daysToArrival := DaysToArrival(o, June1 + 15)));
      s.overall == Some(NearDeadline) && s.daysToArrival == Some(-1)
  {
  }

  /** A dispatch lead of 100000 days typed on June 1 is accepted as written:
      the expected dispatch date lies in the year 2298, before the last
      calendar day but past the last timestamp, so any table holding the
      order fails as a whole. The corrected entry refuses it. */
  lemma HugeDispatchLeadBreaksTable(orders: seq<PurchaseOrder>, today: Day)
    ensures var r := NewOrderAsWritten(1, "buyer", June1, 100000, 1, June1 - TenYears, June1);
      && r.Success?
      && CheckStatuses(orders + [r.value], today).Failure?
      && NewOrder(1, "buyer", June1, 100000, 1, June1 - TenYears, June1) == Failure(BeyondTimestampRange)
  {
    var r := NewOrderAsWritten(1, "buyer", June1, 100000, 1, June1 - TenYears, June1);
    assert (orders + [r.value])[|orders|] == r.value;
  }

  /** A transport lead of 100000 days is accepted at registration and at
      dispatch as written, and breaks every table holding the order. The
      corrected registration refuses the lead, and the corrected update
      refuses the dispatch. */
  lemma HugeTransportLeadBreaksTable(orders: seq<PurchaseOrder>, today: Day)
    ensures NewOrder(1, "buyer", June1, 5, 100000, June1 - TenYears, June1) == Failure(BeyondTimestampRange)
    ensures var o := NewOrderAsWritten(1, "buyer", June1, 5, 100000, June1 - TenYears, June1);
      && o.Success?
      && var r := RecordDispatchAsWritten(o.value, June1, June1);
      && r.Success?
      && CheckStatuses(orders + [r.value], today).Failure?
      && RecordDispatch(o.value, June1, June1) == Failure(BeyondTimestampRange)
  {
    var o := NewOrderAsWritten(1, "buyer", June1, 5, 100000, June1 - TenYears, June1);
    var r := RecordDispatchAsWritten(o.value, June1, June1);
    assert (orders + [r.value])[|orders|] == r.value;
  }

  /** With no orders at all, the engine as written fails, so the page never
      reaches its "no purchase orders found" message; the corrected engine
      gives an empty table. */
  lemma EmptyTableFailsAsWritten(today: Day)
    ensures CheckStatusesAsWritten([], today) == Failure(NoRowsToAssign)
    ensures CheckStatuses([], today) == Success([])
  {
  }
}
