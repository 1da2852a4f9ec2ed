/** How the order list groups and colours orders by their overall status:
    substring filters for delayed and near-deadline orders, and the colour
    chosen for the selected order's status. */
module Display {
  import opened Wrappers
  import opened Text
  import opened PurchaseOrders
  import opened StatusEngine

  const DelayedPattern := "atrasada"
  const NearDeadlinePattern := "próximo"

  /** The overall-status cell rendered as text; a missing cell reads "nan",
      which no status label reads. */
  function StatusText(ov: Option<OverallStatus>): (t: string)
    ensures t == "nan" <==> ov.None?
  {
    match ov
    case Some(s) => OverallLabel(s)
    case None => "nan"
  }

  /** The status text matches a filter pattern, ignoring case. */
  predicate Matches(ov: Option<OverallStatus>, pattern: string) {
    ContainsIgnoreCase(StatusText(ov), pattern)
  }

  /** Both filter patterns are already in lower case. */
  lemma PatternsAreLowerCase()
    ensures Lower(DelayedPattern) == DelayedPattern
    ensures Lower(NearDeadlinePattern) == NearDeadlinePattern
  {
  }

  /** A text that lacks 'atrasada' ignoring case lacks it with case too. */
  lemma NotDelayedText(t: string)
    requires !ContainsIgnoreCase(t, DelayedPattern)
    ensures !Contains(t, "atrasada")
  {
    if Contains(t, "atrasada") {
      ContainsIgnoringCase(t, DelayedPattern);
    }
  }

  // What each status label contains, one label at a time. A pattern a label
  // contains is located by its index; a pattern it lacks is refuted by one of
  // the pattern's characters that no character of the label lowers to.

  lemma InTransitOnTimeLacks()
    ensures forall d | d in "no prazo - em trânsito" :: LowerChar(d) != 'd' && LowerChar(d) != 'ó'
  {
  }

  lemma InTransitOnTimeText()
    ensures var t := OverallLabel(InTransitOnTime);
      && !ContainsIgnoreCase(t, DelayedPattern) && !ContainsIgnoreCase(t, NearDeadlinePattern)
      && !Contains(t, "atrasada") && Contains(t, "no prazo")
  {
    var t := "no prazo - em trânsito";
    PatternsAreLowerCase();
    InTransitOnTimeLacks();
    IgnoreCaseRefutes(t, DelayedPattern, 'd');
    IgnoreCaseRefutes(t, NearDeadlinePattern, 'ó');
    NotDelayedText(t);
    assert OccursAt(t, "no prazo", 0);
  }

  lemma NotDispatchedOnTimeLacks()
    ensures forall d | d in "no prazo - remessa não enviada" :: LowerChar(d) != 't' && LowerChar(d) != 'ó'
  {
  }

  lemma NotDispatchedOnTimeText()
    ensures var t := OverallLabel(NotDispatchedOnTime);
      && !ContainsIgnoreCase(t, DelayedPattern) && !ContainsIgnoreCase(t, NearDeadlinePattern)
      && !Contains(t, "atrasada") && Contains(t, "no prazo")
  {
    var t := "no prazo - remessa não enviada";
    PatternsAreLowerCase();
    NotDispatchedOnTimeLacks();
    IgnoreCaseRefutes(t, DelayedPattern, 't');
    IgnoreCaseRefutes(t, NearDeadlinePattern, 'ó');
    NotDelayedText(t);
    assert OccursAt(t, "no prazo", 0);
  }

  lemma NotDispatchedLateLacks()
    ensures forall d | d in "atrasada - remessa não enviada" :: LowerChar(d) != 'ó'
  {
  }

  lemma NotDispatchedLateText()
    ensures var t := OverallLabel(NotDispatchedLate);
      && ContainsIgnoreCase(t, DelayedPattern) && !ContainsIgnoreCase(t, NearDeadlinePattern)
      && Contains(t, "atrasada")
  {
    var t := "atrasada - remessa não enviada";
    PatternsAreLowerCase();
    NotDispatchedLateLacks();
    assert OccursAt(t, "atrasada", 0);
    ContainsIgnoringCase(t, DelayedPattern);
    IgnoreCaseRefutes(t, NearDeadlinePattern, 'ó');
  }

  lemma CompletedLacks()
    ensures forall d | d in "Finalizada" :: LowerChar(d) != 't' && LowerChar(d) != 'ó'
  {
  }

  lemma CompletedText()
    ensures var t := OverallLabel(Completed);
      && !ContainsIgnoreCase(t, DelayedPattern) && !ContainsIgnoreCase(t, NearDeadlinePattern)
      && !Contains(t, "atrasada")
  {
    var t := "Finalizada";
    PatternsAreLowerCase();
    CompletedLacks();
    IgnoreCaseRefutes(t, DelayedPattern, 't');
    IgnoreCaseRefutes(t, NearDeadlinePattern, 'ó');
    NotDelayedText(t);
  }

  lemma InTransitLateLacks()
    ensures forall d | d in "atrasada - em trânsito" :: LowerChar(d) != 'ó'
  {
  }

  lemma InTransitLateText()
    ensures var t := OverallLabel(InTransitLate);
      && ContainsIgnoreCase(t, DelayedPattern) && !ContainsIgnoreCase(t, NearDeadlinePattern)
      && Contains(t, "atrasada")
  {
    var t := "atrasada - em trânsito";
    PatternsAreLowerCase();
    InTransitLateLacks();
    assert OccursAt(t, "atrasada", 0);
    ContainsIgnoringCase(t, DelayedPattern);
    IgnoreCaseRefutes(t, NearDeadlinePattern, 'ó');
  }

  lemma NearDeadlineLacks()
    ensures forall d | d in "prazo próximo do encerramento" :: LowerChar(d) != 's'
  {
  }

  lemma NearDeadlineText()
    ensures var t := OverallLabel(NearDeadline);
      && !ContainsIgnoreCase(t, DelayedPattern) && ContainsIgnoreCase(t, NearDeadlinePattern)
      && !Contains(t, "atrasada")
  {
    var t := "prazo próximo do encerramento";
    PatternsAreLowerCase();
    NearDeadlineLacks();
    IgnoreCaseRefutes(t, DelayedPattern, 's');
    NotDelayedText(t);
    assert t[6..][..7] == NearDeadlinePattern;
    assert OccursAt(t, NearDeadlinePattern, 6);
    ContainsIgnoringCase(t, NearDeadlinePattern);
  }

  /** The text of a missing status, "nan", matches neither filter. */
  lemma MissingStatusText()
    ensures !ContainsIgnoreCase("nan", DelayedPattern) && !ContainsIgnoreCase("nan", NearDeadlinePattern)
  {
    PatternsAreLowerCase();
    IgnoreCaseRefutes("nan", DelayedPattern, 't');
    IgnoreCaseRefutes("nan", NearDeadlinePattern, 'ó');
  }

  /** What every label contains. */
  lemma LabelText(s: OverallStatus)
    ensures ContainsIgnoreCase(OverallLabel(s), DelayedPattern) <==>
      s == NotDispatchedLate || s == InTransitLate
    ensures ContainsIgnoreCase(OverallLabel(s), NearDeadlinePattern) <==> s == NearDeadline
    ensures Contains(OverallLabel(s), "atrasada") <==> s == NotDispatchedLate || s == InTransitLate
    ensures s == InTransitOnTime || s == NotDispatchedOnTime ==> Contains(OverallLabel(s), "no prazo")
  {
    match s {
      case InTransitOnTime => InTransitOnTimeText();
      case NotDispatchedOnTime => NotDispatchedOnTimeText();
      case NotDispatchedLate => NotDispatchedLateText();
      case Completed => CompletedText();
      case InTransitLate => InTransitLateText();
      case NearDeadline => NearDeadlineText();
    }
  }

  /** An order is listed as delayed exactly when its overall status is one of
      the two late statuses; a missing status ("nan") is never listed. */
  lemma DelayedClassification(ov: Option<OverallStatus>)
    ensures Matches(ov, DelayedPattern) <==> ov == Some(NotDispatchedLate) || ov == Some(InTransitLate)
  {
    match ov {
      case None => MissingStatusText();
      case Some(s) => LabelText(s);
    }
  }

  /** An order is listed as near its deadline exactly when its overall status
      is 'prazo próximo do encerramento'. */
  lemma NearDeadlineClassification(ov: Option<OverallStatus>)
    ensures Matches(ov, NearDeadlinePattern) <==> ov == Some(NearDeadline)
  {
    match ov {
      case None => MissingStatusText();
      case Some(s) => LabelText(s);
    }
  }

  /** The delayed filter: the status text contains 'atrasada', ignoring
      case. It holds exactly for the two late statuses. */
  function IsDelayed(ov: Option<OverallStatus>): (b: bool)
    ensures b <==> ov == Some(NotDispatchedLate) || ov == Some(InTransitLate)
  {
    DelayedClassification(ov);
    Matches(ov, DelayedPattern)
  }

  /** The near-deadline filter: the status text contains 'próximo', ignoring
      case. It holds exactly for 'prazo próximo do encerramento'. */
  function IsNearDeadline(ov: Option<OverallStatus>): (b: bool)
    ensures b <==> ov == Some(NearDeadline)
  {
    NearDeadlineClassification(ov);
    Matches(ov, NearDeadlinePattern)
  }

  /** The row passes the filter: its status matches the pattern and, when a
      buyer is chosen ("show only mine"), the row belongs to that buyer. */
  predicate Flagged(r: Row, pattern: string, buyer: Option<string>) {
    && Matches(r.status.overall, pattern)
    && (buyer.Some? ==> r.order.buyer == buyer.value)
  }

  /** The PO numbers of the flagged rows, in table order. */
  function FlaggedOrders(rows: seq<Row>, pattern: string, buyer: Option<string>): (ns: seq<int>)
    ensures |ns| <= |rows|
    ensures forall n :: n in ns <==>
      exists i :: 0 <= i < |rows| && rows[i].order.number == n && Flagged(rows[i], pattern, buyer)
  {
    if rows == [] then []
    else
      var rest := FlaggedOrders(rows[1..], pattern, buyer);
      assert forall i :: 0 < i < |rows| ==> rows[i] == rows[1..][i - 1];
      if Flagged(rows[0], pattern, buyer) then [rows[0].order.number] + rest else rest
  }

  /** The delayed list names exactly the orders (of the chosen buyer) whose
      overall status is late. */
  function DelayedOrders(rows: seq<Row>, buyer: Option<string>): (ns: seq<int>)
    ensures forall n :: n in ns <==>
      exists i :: 0 <= i < |rows| && rows[i].order.number == n
        && rows[i].status.overall in {Some(NotDispatchedLate), Some(InTransitLate)}
        && (buyer.Some? ==> rows[i].order.buyer == buyer.value)
  {
    forall ov: Option<OverallStatus>
      ensures Matches(ov, DelayedPattern) <==> ov == Some(NotDispatchedLate) || ov == Some(InTransitLate)
    {
      DelayedClassification(ov);
    }
    FlaggedOrders(rows, DelayedPattern, buyer)
  }

  /** The near-deadline list names exactly the orders (of the chosen buyer)
      whose overall status is 'prazo próximo do encerramento'. */
  function NearDeadlineOrders(rows: seq<Row>, buyer: Option<string>): (ns: seq<int>)
    ensures forall n :: n in ns <==>
      exists i :: 0 <= i < |rows| && rows[i].order.number == n
        && rows[i].status.overall == Some(NearDeadline)
        && (buyer.Some? ==> rows[i].order.buyer == buyer.value)
  {
    forall ov: Option<OverallStatus> ensures Matches(ov, NearDeadlinePattern) <==> ov == Some(NearDeadline) {
      NearDeadlineClassification(ov);
    }
    FlaggedOrders(rows, NearDeadlinePattern, buyer)
  }

  /** Colour families of the status line. */
  datatype Colour = DangerColour | WarningColour | SuccessColour | NeutralColour

  /** A status cell that is not text cannot be searched for a substring. */
  datatype DisplayError = StatusNotText

  /** The colour of the selected order's status line: late statuses in the
      danger colour, the near-deadline status in the warning colour, on-time
      and finished statuses in the success colour, anything else neutral. A
      missing status cannot be searched and is an error; every status label
      gets a colour other than the neutral one. */
  function StatusColour(ov: Option<OverallStatus>): (c: Result<Colour, DisplayError>)
    ensures c.Failure? <==> ov.None?
    ensures c.Success? ==>
      && (c.value == DangerColour <==> ov.value == NotDispatchedLate || ov.value == InTransitLate)
      && (c.value == WarningColour <==> ov.value == NearDeadline)
      && c.value != NeutralColour
  {
    match ov
    case None => Failure(StatusNotText)
    case Some(s) =>
      LabelText(s);
      var text := OverallLabel(s);
      if Contains(text, "atrasada") then Success(DangerColour)
      else if text == "prazo próximo do encerramento" then Success(WarningColour)
      else if Contains(text, "no prazo") || text == "Finalizada" then Success(SuccessColour)
      else Success(NeutralColour)
  }

  /** The colour agrees with the two filters: danger exactly for the delayed
      list, warning exactly for the near-deadline list, success for the other
      statuses, and never the neutral colour; a missing status is an error. */
  lemma ColourAgreesWithFilters(ov: Option<OverallStatus>)
    ensures StatusColour(ov).Failure? <==> ov.None?
    ensures ov.Some? ==>
      && (StatusColour(ov).value == DangerColour <==> IsDelayed(ov))
      && (StatusColour(ov).value == WarningColour <==> IsNearDeadline(ov))
      && (StatusColour(ov).value == SuccessColour <==>
            ov.value in {InTransitOnTime, NotDispatchedOnTime, Completed})
      && StatusColour(ov).value != NeutralColour
  {
    if ov.Some? {
      LabelText(ov.value);
    }
  }
}
