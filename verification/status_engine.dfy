/** The status-derivation engine: for one purchase order and a reference
    "today" it fills in the dispatch status, receipt status, overall status
    and days-to-arrival columns by a fixed sequence of guarded overwrites. */
module StatusEngine {
  import opened Wrappers
  import opened PurchaseOrders

  /** Dispatch-status column values. */
  datatype DispatchStatus =
    | DispatchedOnTime        // 'Despachado no prazo'
    | DispatchedLate          // 'Despachado com atraso'
    | AwaitingDispatchOnTime  // 'No prazo'
    | AwaitingDispatchLate    // 'Atrasada'

  /** Receipt-status column values. */
  datatype ReceiptStatus =
    | ReceivedOnTime          // 'Recebido no prazo'
    | ReceivedLate            // 'Recebido com atraso'
    | AwaitingReceiptOnTime   // 'No prazo'
    | AwaitingReceiptLate     // 'Atrasada'

  /** Overall-status column values. */
  datatype OverallStatus =
    | InTransitOnTime         // 'no prazo - em trânsito'
    | NotDispatchedOnTime     // 'no prazo - remessa não enviada'
    | NotDispatchedLate       // 'atrasada - remessa não enviada'
    | Completed               // 'Finalizada'
    | InTransitLate           // 'atrasada - em trânsito'
    | NearDeadline            // 'prazo próximo do encerramento'

  /** The text the engine writes for each overall status. */
  function OverallLabel(s: OverallStatus): string {
    match s
    case InTransitOnTime => "no prazo - em trânsito"
    case NotDispatchedOnTime => "no prazo - remessa não enviada"
    case NotDispatchedLate => "atrasada - remessa não enviada"
    case Completed => "Finalizada"
    case InTransitLate => "atrasada - em trânsito"
    case NearDeadline => "prazo próximo do encerramento"
  }

  /** The four columns the engine adds to a row. A cell no rule writes stays
      missing (NaN in the table), modelled as `None`. */
  datatype StatusColumns = StatusColumns(
    dispatchStatus: Option<DispatchStatus>,
    receiptStatus: Option<ReceiptStatus>,
    overall: Option<OverallStatus>,
    daysToArrival: Option<int>
  )

  const Unwritten := StatusColumns(None, None, None, None)

  /** An order counts as near its deadline when at most this many days remain. */
  const NearDeadlineDays := 3

  // Date comparisons as pandas performs them: with the four ordering
  // operators `<=`, `>`, `>=` and `<` that the rules use, a comparison with a
  // missing date (NaT) is false.

  predicate DateLe(a: Option<Day>, b: Option<Day>) { a.Some? && b.Some? && a.value <= b.value }

  predicate DateGt(a: Option<Day>, b: Option<Day>) { a.Some? && b.Some? && a.value > b.value }

  predicate OnOrAfter(a: Option<Day>, today: Day) { a.Some? && a.value >= today }

  predicate Before(a: Option<Day>, today: Day) { a.Some? && a.value < today }

  // The guards of the eight rules, in the order the engine applies them.

  predicate DispatchedInTime(o: PurchaseOrder) { DateLe(o.dispatched, o.expectedDispatch) }
  predicate DispatchedAfterDeadline(o: PurchaseOrder) { DateGt(o.dispatched, o.expectedDispatch) }
  predicate AwaitingDispatchInTime(o: PurchaseOrder, today: Day) { o.dispatched.None? && OnOrAfter(o.expectedDispatch, today) }
  predicate AwaitingDispatchPastDeadline(o: PurchaseOrder, today: Day) { o.dispatched.None? && Before(o.expectedDispatch, today) }

  predicate ReceivedInTime(o: PurchaseOrder) { DateLe(o.received, o.expectedReceipt) }
  predicate ReceivedAfterDeadline(o: PurchaseOrder) { DateGt(o.received, o.expectedReceipt) }
  predicate AwaitingReceiptInTime(o: PurchaseOrder, today: Day) { o.received.None? && OnOrAfter(o.expectedReceipt, today) }
  predicate AwaitingReceiptPastDeadline(o: PurchaseOrder, today: Day) { o.received.None? && Before(o.expectedReceipt, today) }

  /** Dispatch rules: each matching rule overwrites the dispatch status and
      the overall status; later rules win. When the expected dispatch date is
      known, the overall status ends up 'no prazo - em trânsito' for a
      dispatched order and one of the two "not sent" labels, chosen by the
      deadline, otherwise. */
  function DispatchRules(o: PurchaseOrder, today: Day, t: StatusColumns): (t': StatusColumns)
    ensures t'.receiptStatus == t.receiptStatus && t'.daysToArrival == t.daysToArrival
    ensures o.expectedDispatch.None? ==> t' == t
    ensures o.expectedDispatch.Some? ==>
      && t'.dispatchStatus.Some?
      && t'.overall == Some(
           if o.dispatched.Some? then InTransitOnTime
           else if o.expectedDispatch.value >= today then NotDispatchedOnTime
           else NotDispatchedLate)
  {
    var t := if DispatchedInTime(o)
      then t.(dispatchStatus := Some(DispatchedOnTime), overall := Some(InTransitOnTime)) else t;
    var t := if DispatchedAfterDeadline(o)
      then t.(dispatchStatus := Some(DispatchedLate), overall := Some(InTransitOnTime)) else t;
    var t := if AwaitingDispatchInTime(o, today)
      then t.(dispatchStatus := Some(AwaitingDispatchOnTime), overall := Some(NotDispatchedOnTime)) else t;
    var t := if AwaitingDispatchPastDeadline(o, today)
      then t.(dispatchStatus := Some(AwaitingDispatchLate), overall := Some(NotDispatchedLate)) else t;
    t
  }

  /** Receipt rules, applied after the dispatch rules. When the expected
      receipt date is known they decide the overall status: 'Finalizada' once
      received, otherwise in transit, on time or late by the deadline. */
  function ReceiptRules(o: PurchaseOrder, today: Day, t: StatusColumns): (t': StatusColumns)
    ensures t'.dispatchStatus == t.dispatchStatus && t'.daysToArrival == t.daysToArrival
    ensures o.expectedReceipt.None? ==> t' == t
    ensures o.expectedReceipt.Some? ==>
      && t'.receiptStatus.Some?
      && t'.overall == Some(
           if o.received.Some? then Completed
           else if o.expectedReceipt.value >= today then InTransitOnTime
           else InTransitLate)
  {
    var t := if ReceivedInTime(o)
      then t.(receiptStatus := Some(ReceivedOnTime), overall := Some(Completed)) else t;
    var t := if ReceivedAfterDeadline(o)
      then t.(receiptStatus := Some(ReceivedLate), overall := Some(Completed)) else t;
    var t := if AwaitingReceiptInTime(o, today)
      then t.(receiptStatus := Some(AwaitingReceiptOnTime), overall := Some(InTransitOnTime)) else t;
    var t := if AwaitingReceiptPastDeadline(o, today)
      then t.(receiptStatus := Some(AwaitingReceiptLate), overall := Some(InTransitLate)) else t;
    t
  }

  /** Days from today to the expected receipt date; missing when that date is.
      Counting that many days on from today lands on the expected date. */
  function DaysToArrival(o: PurchaseOrder, today: Day): (d: Option<int>)
    ensures d.Some? <==> o.expectedReceipt.Some?
    ensures d.Some? ==> today + d.value == o.expectedReceipt.value
  {
    match o.expectedReceipt
    case Some(e) => Some(e - today)
    case None => None
  }

  /** The last rule: an on-time order in transit whose remaining days are at
      most the threshold is relabelled as near its deadline. A missing count
      never satisfies the comparison. Nothing but the overall status changes,
      and only 'no prazo - em trânsito' is ever relabelled. */
  function NearDeadlineRule(t: StatusColumns): (t': StatusColumns)
    ensures t'.dispatchStatus == t.dispatchStatus && t'.receiptStatus == t.receiptStatus
    ensures t'.daysToArrival == t.daysToArrival
    ensures t'.overall != t.overall ==> t.overall == Some(InTransitOnTime) && t'.overall == Some(NearDeadline)
    ensures t.overall == Some(InTransitOnTime) ==>
      (t'.overall == Some(NearDeadline) <==> t.daysToArrival.Some? && t.daysToArrival.value <= NearDeadlineDays)
  {
    if t.overall == Some(InTransitOnTime) && t.daysToArrival.Some? && t.daysToArrival.value <= NearDeadlineDays
    then t.(overall := Some(NearDeadline))
    else t
  }

  /** The columns as they stand before the near-deadline rule runs. */
  function BeforeOverride(o: PurchaseOrder, today: Day): StatusColumns {
    var t := DispatchRules(o, today, Unwritten);
    var t := ReceiptRules(o, today, t);
    t.(daysToArrival := DaysToArrival(o, today))
  }

  /** The status columns of one order, all computed against one reading of
      today. A known expected dispatch date always yields an overall status;
      the order is 'Finalizada' exactly when it has a receipt date and an
      expected one; and a near-deadline order is unreceived with its expected
      receipt between today and three days on. */
  function CheckStatus(o: PurchaseOrder, today: Day): (s: StatusColumns)
    ensures o.expectedDispatch.Some? ==> s.dispatchStatus.Some? && s.overall.Some?
    ensures s.receiptStatus.Some? <==> o.expectedReceipt.Some?
    ensures s.overall == Some(Completed) <==> o.received.Some? && o.expectedReceipt.Some?
    ensures s.overall == Some(NearDeadline) ==>
      o.received.None? && o.expectedReceipt.Some?
      && today <= o.expectedReceipt.value <= today + NearDeadlineDays
  {
    NearDeadlineRule(BeforeOverride(o, today))
  }

  /** One row of the table after the engine ran. */
  datatype Row = Row(order: PurchaseOrder, status: StatusColumns)

  /** The engine applied row by row: every order is classified on its own, in
      table order. */
  function StatusRows(orders: seq<PurchaseOrder>, today: Day): (rows: seq<Row>)
    ensures |rows| == |orders|
    ensures forall i :: 0 <= i < |orders| ==>
      rows[i].order == orders[i] && rows[i].status == CheckStatus(orders[i], today)
  {
    if orders == [] then []
    else [Row(orders[0], CheckStatus(orders[0], today))] + StatusRows(orders[1..], today)
  }

  /** Why the engine produced no table at all. */
  datatype EngineError =
    | DateNotConvertible  // some stored date lies outside the timestamp range
    | NoRowsToAssign      // a scalar cannot fill a new column of a frame with no rows

  /** Every order of the table can be read by the engine. */
  predicate AllReadable(orders: seq<PurchaseOrder>) {
    forall i :: 0 <= i < |orders| ==> Readable(orders[i])
  }

  /** The whole-table engine as it should be. The date columns are converted
      to timestamps before any rule runs, and one date outside the timestamp
      range makes the conversion, and so the whole table, fail. Otherwise
      every order is classified on its own, in table order, and an empty table
      gives an empty result. */
  function CheckStatuses(orders: seq<PurchaseOrder>, today: Day): (r: Result<seq<Row>, EngineError>)
    ensures r.Failure? <==> exists i :: 0 <= i < |orders| && !Readable(orders[i])
    ensures r.Success? ==>
      && |r.value| == |orders|
      && forall i :: 0 <= i < |orders| ==>
           r.value[i].order == orders[i] && r.value[i].status == CheckStatus(orders[i], today)
    ensures orders == [] ==> r == Success([])
  {
    if AllReadable(orders) then Success(StatusRows(orders, today))
    else Failure(DateNotConvertible)
  }

  /** The whole-table engine as written. The first rule writes its label
      into a new column by a `.loc` assignment of a scalar, which pandas
      refuses on a frame with no rows: the empty table fails. Any other table
      is handled as `CheckStatuses` handles it. */
  function CheckStatusesAsWritten(orders: seq<PurchaseOrder>, today: Day): (r: Result<seq<Row>, EngineError>)
    ensures r.Success? <==> orders != [] && forall i :: 0 <= i < |orders| ==> Readable(orders[i])
    ensures orders == [] ==> r == Failure(NoRowsToAssign)
    ensures orders != [] ==> r == CheckStatuses(orders, today)
  {
    if orders == [] then Failure(NoRowsToAssign)
    else CheckStatuses(orders, today)
  }
}
