/**
 * The constraint list `getOrders` in src/services/orderService.js builds
 * before it queries the "Orders" collection. Firestore's `where`, `orderBy`
 * and `Timestamp.fromDate(new Date(...))` are kept as uninterpreted
 * constructors; only the order, the fields, the operators and the composed
 * date-time texts are modelled.
 */
module OrderService {
  import opened Wrappers

  /** The comparison operators `getOrders` uses: "==", ">=", "<=". */
  datatype Op = Equal | AtLeast | AtMost

  /** A compared value: a plain string, or the timestamp of a composed date-time text. */
  datatype Value = Text(text: string) | TimestampOf(dateTime: string)

  /** `where(field, op, value)` or `orderBy(field, direction)`; the direction is passed on untouched. */
  datatype Constraint =
    | Where(field: string, op: Op, value: Value)
    | OrderBy(field: string, direction: Option<string>)

  /** The destructured argument of `getOrders`; `None` is a property that was not passed. */
  datatype Filters = Filters(
    startDate: Option<string>,
    endDate: Option<string>,
    startTime: Option<string>,
    endTime: Option<string>,
    sortBy: Option<string>,
    sortOrder: Option<string>,
    clientName: Option<string>)

  /** The default argument `{}`. */
  const NoFilters := Filters(None, None, None, None, None, None, None)

  /** JavaScript truthiness of a string that may be undefined: present and non-empty. */
  predicate Given(s: Option<string>) {
    s.Some? && s.value != ""
  }

  /** `s || fallback` */
  function OrElse(s: Option<string>, fallback: string): string {
    if Given(s) then s.value else fallback
  }

  /** `${startDate}T${startTime || '00:00'}:00` */
  function StartDateTime(f: Filters): string
    requires Given(f.startDate)
  {
    f.startDate.value + "T" + OrElse(f.startTime, "00:00") + ":00"
  }

  /** `${endDate}T${endTime || '23:59'}:59` */
  function EndDateTime(f: Filters): string
    requires Given(f.endDate)
  {
    f.endDate.value + "T" + OrElse(f.endTime, "23:59") + ":59"
  }

  /** `sortBy === 'total' ? 'total' : 'timestamp'` */
  function SortField(sortBy: Option<string>): (field: string)
    ensures field == "total" <==> sortBy == Some("total")
    ensures field != "total" ==> field == "timestamp"
  {
    if sortBy == Some("total") then "total" else "timestamp"
  }

  /** The four kinds of constraint, in the order `getOrders` pushes them. */
  function Rank(c: Constraint): nat {
    match c
    case Where(_, Equal, _) => 0
    case Where(_, AtLeast, _) => 1
    case Where(_, AtMost, _) => 2
    case OrderBy(_, _) => 3
  }

  /** The client filter, when a client name is given. */
  function ClientConstraints(f: Filters): seq<Constraint> {
    if Given(f.clientName) then [Where("client", Equal, Text(f.clientName.value))] else []
  }

  /** The lower timestamp bound, when a start date is given. */
  function StartConstraints(f: Filters): seq<Constraint> {
    if Given(f.startDate) then [Where("timestamp", AtLeast, TimestampOf(StartDateTime(f)))] else []
  }

  /** The upper timestamp bound, when an end date is given. */
  function EndConstraints(f: Filters): seq<Constraint> {
    if Given(f.endDate) then [Where("timestamp", AtMost, TimestampOf(EndDateTime(f)))] else []
  }

  /** The list of constraints for `f`: the optional filters, then the ordering. */
  function Constraints(f: Filters): (cs: seq<Constraint>)
    ensures 1 <= |cs| <= 4
    ensures |cs| == 1 <==> !Given(f.clientName) && !Given(f.startDate) && !Given(f.endDate)
  {
    ClientConstraints(f) + StartConstraints(f) + EndConstraints(f) + [OrderBy(SortField(f.sortBy), f.sortOrder)]
  }

  /** The push sequence of `getOrders`. */
  method BuildConstraints(f: Filters) returns (constraints: seq<Constraint>)
    ensures constraints == Constraints(f)
    ensures |constraints| >= 1 && constraints[|constraints| - 1] == OrderBy(SortField(f.sortBy), f.sortOrder)
  {
    constraints := [];
    if Given(f.clientName) {
      constraints := constraints + [Where("client", Equal, Text(f.clientName.value))];
    }
    if Given(f.startDate) {
      var startDateTime := f.startDate.value + "T" + OrElse(f.startTime, "00:00") + ":00";
      constraints := constraints + [Where("timestamp", AtLeast, TimestampOf(startDateTime))];
    }
    if Given(f.endDate) {
      var endDateTime := f.endDate.value + "T" + OrElse(f.endTime, "23:59") + ":59";
      constraints := constraints + [Where("timestamp", AtMost, TimestampOf(endDateTime))];
    }
    constraints := constraints + [OrderBy(if f.sortBy == Some("total") then "total" else "timestamp", f.sortOrder)];
  }

  /** Exactly one ordering constraint, and it comes last. */
  lemma OrderingIsLastAndUnique(f: Filters)
    ensures |Constraints(f)| >= 1
    ensures Constraints(f)[|Constraints(f)| - 1] == OrderBy(SortField(f.sortBy), f.sortOrder)
    ensures forall i :: 0 <= i < |Constraints(f)| - 1 ==> Constraints(f)[i].Where?
  {
  }

  /** Client, start, end, ordering: each kind at most once and always in this order. */
  lemma ConstraintOrder(f: Filters)
    ensures forall i, j :: 0 <= i < j < |Constraints(f)| ==> Rank(Constraints(f)[i]) < Rank(Constraints(f)[j])
  {
    var cs := Constraints(f);
    var prefix := ClientConstraints(f) + StartConstraints(f) + EndConstraints(f);
    assert cs == prefix + [OrderBy(SortField(f.sortBy), f.sortOrder)];
    forall i, j | 0 <= i < j < |cs| ensures Rank(cs[i]) < Rank(cs[j]) {
      var c, s := |ClientConstraints(f)|, |StartConstraints(f)|;
      assert i < c ==> Rank(cs[i]) == 0;
      assert c <= i < c + s ==> Rank(cs[i]) == 1;
      assert c + s <= i < |prefix| ==> Rank(cs[i]) == 2;
      assert c <= j < c + s ==> Rank(cs[j]) == 1;
      assert c + s <= j < |prefix| ==> Rank(cs[j]) == 2;
    }
  }

  /** A `client == clientName` filter is present exactly when a client name is given. */
  lemma ClientFilterIff(f: Filters)
    ensures (exists i :: 0 <= i < |Constraints(f)| && Constraints(f)[i].Where? && Constraints(f)[i].field == "client")
        <==> Given(f.clientName)
    ensures Given(f.clientName) ==> Constraints(f)[0] == Where("client", Equal, Text(f.clientName.value))
  {
    var cs := Constraints(f);
    if Given(f.clientName) {
      assert cs[0].field == "client";
    } else {
      forall i | 0 <= i < |cs| && cs[i].Where? ensures cs[i].field != "client" {
        assert cs == StartConstraints(f) + EndConstraints(f) + [OrderBy(SortField(f.sortBy), f.sortOrder)];
      }
    }
  }

  /**
   * A lower timestamp bound is present exactly when a start date is given,
   * and it compares with `startDate + "T" + (startTime or "00:00") + ":00"`.
   */
  lemma StartBoundIff(f: Filters)
    ensures (exists i :: 0 <= i < |Constraints(f)| && Constraints(f)[i].Where? && Constraints(f)[i].op == AtLeast)
        <==> Given(f.startDate)
    ensures Given(f.startDate) && Given(f.startTime) ==>
      Where("timestamp", AtLeast, TimestampOf(f.startDate.value + "T" + f.startTime.value + ":00")) in Constraints(f)
    ensures Given(f.startDate) && !Given(f.startTime) ==>
      Where("timestamp", AtLeast, TimestampOf(f.startDate.value + "T00:00:00")) in Constraints(f)
  {
    var cs := Constraints(f);
    var c := |ClientConstraints(f)|;
    if Given(f.startDate) {
      assert cs[c] == Where("timestamp", AtLeast, TimestampOf(StartDateTime(f)));
      if !Given(f.startTime) {
        assert StartDateTime(f) == f.startDate.value + "T00:00:00";
      }
    } else {
      forall i | 0 <= i < |cs| && cs[i].Where? ensures cs[i].op != AtLeast {
        assert cs == ClientConstraints(f) + EndConstraints(f) + [OrderBy(SortField(f.sortBy), f.sortOrder)];
      }
    }
  }

  /**
   * An upper timestamp bound is present exactly when an end date is given,
   * and it compares with `endDate + "T" + (endTime or "23:59") + ":59"`.
   */
  lemma EndBoundIff(f: Filters)
    ensures (exists i :: 0 <= i < |Constraints(f)| && Constraints(f)[i].Where? && Constraints(f)[i].op == AtMost)
        <==> Given(f.endDate)
    ensures Given(f.endDate) && Given(f.endTime) ==>
      Where("timestamp", AtMost, TimestampOf(f.endDate.value + "T" + f.endTime.value + ":59")) in Constraints(f)
    ensures Given(f.endDate) && !Given(f.endTime) ==>
      Where("timestamp", AtMost, TimestampOf(f.endDate.value + "T23:59:59")) in Constraints(f)
  {
    var cs := Constraints(f);
    var c := |ClientConstraints(f) + StartConstraints(f)|;
    if Given(f.endDate) {
      assert cs[c] == Where("timestamp", AtMost, TimestampOf(EndDateTime(f)));
      if !Given(f.endTime) {
        assert EndDateTime(f) == f.endDate.value + "T23:59:59";
      }
    } else {
      forall i | 0 <= i < |cs| && cs[i].Where? ensures cs[i].op != AtMost {
        assert cs == ClientConstraints(f) + StartConstraints(f) + [OrderBy(SortField(f.sortBy), f.sortOrder)];
      }
    }
  }

  /** A start time without a start date is ignored, whatever the end date. */
  lemma StartTimeWithoutStartDateIgnored(f: Filters, startTime: Option<string>)
    requires !Given(f.startDate)
    ensures Constraints(f.(startTime := startTime)) == Constraints(f)
  {
  }

  /** An end time without an end date is ignored, whatever the start date. */
  lemma EndTimeWithoutEndDateIgnored(f: Filters, endTime: Option<string>)
    requires !Given(f.endDate)
    ensures Constraints(f.(endTime := endTime)) == Constraints(f)
  {
  }

  /** With no filters the list is the ordering on `timestamp` alone. */
  lemma NoFiltersOrderByTimestamp()
    ensures Constraints(NoFilters) == [OrderBy("timestamp", None)]
  {
  }
}
