/** The MIS report section: a date range, a customer and a report type, sent as
    the report request. */
module MisReport {
  import opened Wrappers
  import opened Calendar

  /** The form's values; a date the form has not set is `None`. */
  datatype Values = Values(startDate: Option<DateTime>, endDate: Option<DateTime>,
                           customerName: string, reportType: string)

  /** The schema: both dates and a report type present, the end not before the
      start. */
  predicate SchemaAccepts(v: Values) {
    v.startDate.Some? && v.endDate.Some? && !Earlier(v.endDate.value, v.startDate.value) &&
    v.reportType != ""
  }

  /** The report request: dates as "yyyy-MM-dd"; the customer field carries the
      selected customer's id. */
  datatype ReportParams = ReportParams(reportType: string, fromDate: string, toDate: string,
                                       customerId: string)

  /** A day the end-date picker offers: not before the start. */
  predicate EndPickable(start: DateTime, date: DateTime) {
    !Earlier(date, start)
  }

  class ReportForm {
    /** The dates the pickers show. */
    var startDate: DateTime
    var endDate: DateTime
    var values: Values

    /** Both dates start at today. */
    constructor(today: DateTime)
      ensures startDate == today && endDate == today
      ensures values == Values(Some(today), Some(today), "", "")
    {
      startDate := today;
      endDate := today;
      values := Values(Some(today), Some(today), "", "");
    }

    /** The form's dates are the ones the pickers show. */
    predicate Mirrored()
      reads this
    {
      values.startDate == Some(startDate) && values.endDate == Some(endDate)
    }

    /** The range the pickers show is ordered. */
    predicate Ordered()
      reads this
    {
      !Earlier(endDate, startDate)
    }

    /** Formik's `enableReinitialize`: the initial values are built from the
        pickers' dates with an empty customer and report type, and once they
        differ from the previous ones the form is reset to them. */
    method Reinitialize()
      modifies this
      ensures values == Values(Some(startDate), Some(endDate), "", "")
      ensures startDate == old(startDate) && endDate == old(endDate)
    {
      values := Values(Some(startDate), Some(endDate), "", "");
    }

    /** A new start date; an end date before it is moved up to it. A cleared
        picker changes nothing. When the pickers' range changes the form is
        reinitialised, which empties the customer and the report type. */
    method StartDateChange(date: Option<DateTime>)
      modifies this
      ensures date.None? ==> startDate == old(startDate) && endDate == old(endDate) && values == old(values)
      ensures date.Some? ==> startDate == date.value
      ensures date.Some? ==> endDate == (if Earlier(old(endDate), date.value) then date.value else old(endDate))
      ensures date.Some? && (startDate != old(startDate) || endDate != old(endDate)) ==>
                values == Values(Some(startDate), Some(endDate), "", "") && Submit().None?
      ensures date.Some? && startDate == old(startDate) && endDate == old(endDate) ==>
                values == old(values).(startDate := date)
      ensures date.Some? ==> Ordered()
      ensures old(Mirrored()) ==> Mirrored()
    {
      if date.Some? {
        var oldStart, oldEnd := startDate, endDate;
        startDate := date.value;
        values := values.(startDate := date);
        if Earlier(endDate, date.value) {
          endDate := date.value;
          values := values.(endDate := date);
        }
        EarlierOrder(endDate, startDate, startDate);
        if startDate != oldStart || endDate != oldEnd {
          Reinitialize();
        }
      }
    }

    /** A new end date, taken as given; only the picker keeps it after the
        start. A different date reinitialises the form. */
    method EndDateChange(date: Option<DateTime>)
      modifies this
      ensures date.None? ==> endDate == old(endDate) && values == old(values)
      ensures date.Some? ==> endDate == date.value
      ensures date.Some? && date.value != old(endDate) ==>
                values == Values(Some(startDate), Some(endDate), "", "") && Submit().None?
      ensures date.Some? && date.value == old(endDate) ==> values == old(values).(endDate := date)
      ensures startDate == old(startDate)
      ensures date.Some? && EndPickable(startDate, date.value) ==> Ordered()
      ensures old(Mirrored()) ==> Mirrored()
    {
      if date.Some? {
        var oldEnd := endDate;
        endDate := date.value;
        values := values.(endDate := date);
        if endDate != oldEnd {
          Reinitialize();
        }
      }
    }

    method SetCustomer(id: string)
      modifies this
      ensures values == old(values).(customerName := id)
      ensures startDate == old(startDate) && endDate == old(endDate)
    {
      values := values.(customerName := id);
    }

    method SetReportType(t: string)
      modifies this
      ensures values == old(values).(reportType := t)
      ensures startDate == old(startDate) && endDate == old(endDate)
    {
      values := values.(reportType := t);
    }

    /** `handleGenerateReport`: form dates, else the pickers' dates. */
    function Generate(): (r: ReportParams)
      reads this
      ensures r.reportType == values.reportType && r.customerId == values.customerName
      ensures r.fromDate == IsoDate(values.startDate.GetOr(startDate))
      ensures r.toDate == IsoDate(values.endDate.GetOr(endDate))
    {
      ReportParams(values.reportType, IsoDate(values.startDate.GetOr(startDate)),
                   IsoDate(values.endDate.GetOr(endDate)), values.customerName)
    }

    /** The request the form sends, if it lets the submission through. */
    function Submit(): (r: Option<ReportParams>)
      reads this
      ensures r.Some? <==> SchemaAccepts(values)
    {
      if SchemaAccepts(values) then Some(Generate()) else None
    }
  }

  /** A form whose dates follow the pickers and whose pickers are ordered
      sends the pickers' range once a report type is chosen. */
  lemma OrderedFormSubmits(f: ReportForm)
    requires f.Mirrored() && f.Ordered() && f.values.reportType != ""
    ensures f.Submit().Some?
    ensures f.Submit().value.fromDate == IsoDate(f.startDate)
    ensures f.Submit().value.toDate == IsoDate(f.endDate)
  {
  }
}
