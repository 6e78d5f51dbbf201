/**
 * The routes of the tracker as methods on the database session: the two
 * tables are fields the methods update, and each method promises to leave
 * the tables as the matching AppSpec function says.
 */
module App {
  import opened Models
  import opened Ordering
  import opened AppSpec

  /** One dashboard entry: a household and its payment for the shown period. */
  datatype DashboardRow = DashboardRow(householdId: Id, paymentId: Id)

  function HouseholdColumn(rows: seq<DashboardRow>): seq<Id> {
    seq(|rows|, i requires 0 <= i < |rows| => rows[i].householdId)
  }

  function PaymentColumn(rows: seq<DashboardRow>): seq<Id> {
    seq(|rows|, i requires 0 <= i < |rows| => rows[i].paymentId)
  }

  lemma ColumnsAppend(rows: seq<DashboardRow>, row: DashboardRow)
    ensures HouseholdColumn(rows + [row]) == HouseholdColumn(rows) + [row.householdId]
    ensures PaymentColumn(rows + [row]) == PaymentColumn(rows) + [row.paymentId]
  {
  }

  class Store {
    var households: map<Id, Household>
    var payments: map<Id, Payment>
    var nextHouseholdId: Id
    var nextPaymentId: Id

    /** The committed contents of both tables. */
    ghost function Tables(): Db
      reads this
    {
      Db(households, payments, nextHouseholdId, nextPaymentId)
    }

    ghost predicate Valid()
      reads this
    {
      Models.Valid(Tables())
    }

    /** Freshly created tables: both empty, both key sequences starting at 1. */
    constructor ()
      ensures Valid()
      ensures households == map[] && payments == map[]
      ensures nextHouseholdId == 1 && nextPaymentId == 1
    {
      households, payments := map[], map[];
      nextHouseholdId, nextPaymentId := 1, 1;
    }

    /** All households, sorted by wing and then flat number. */
    method OrderedHouseholdIds() returns (ids: seq<Id>)
      ensures Listing(households, ids)
    {
      ids := [];
      var rest := households.Keys;
      while rest != {}
        invariant rest <= households.Keys
        invariant forall i :: 0 <= i < |ids| ==> ids[i] in households && ids[i] !in rest
        invariant forall id :: id in households ==> id in rest || id in ids
        invariant forall i, j :: 0 <= i < j < |ids| ==> ids[i] != ids[j]
        invariant forall i, j :: 0 <= i < j < |ids| ==> HouseholdLe(households[ids[i]], households[ids[j]])
        invariant forall i, k :: 0 <= i < |ids| && k in rest ==> HouseholdLe(households[ids[i]], households[k])
        decreases rest
      {
        MinimumExists(households, rest);
        var m :| m in rest && forall k :: k in rest ==> HouseholdLe(households[m], households[k]);
        ids := ids + [m];
        rest := rest - {m};
      }
    }

    /**
     * get_or_create_payment_record: find the row for (householdId, month,
     * year), or add a Pending one to the session. Nothing is committed here.
     */
    method GetOrCreatePaymentRecord(householdId: Id, month: int, year: int) returns (pid: Id)
      requires Valid() && householdId in households
      modifies this
      ensures (Tables(), pid) == GetOrCreate(old(Tables()), householdId, month, year)
    {
      if exists q :: q in payments && IsFor(payments[q], householdId, month, year) {
        pid :| pid in payments && IsFor(payments[pid], householdId, month, year);
        FindPaymentUnique(payments, pid, householdId, month, year);
      } else {
        pid := nextPaymentId;
        payments := payments[pid := PendingPayment(householdId, month, year)];
        nextPaymentId := nextPaymentId + 1;
      }
    }

    /**
     * index: the period defaults to today's month and year; every household,
     * in dashboard order, gets its payment row for that period, and the new
     * rows are committed together.
     */
    method Index(today: Date, monthArg: Option<int>, yearArg: Option<int>)
      returns (month: int, year: int, rows: seq<DashboardRow>)
      requires Valid()
      modifies this
      ensures Valid()
      ensures month == (if monthArg.Some? then monthArg.value else today.month)
      ensures year == (if yearArg.Some? then yearArg.value else today.year)
      ensures Listing(old(households), HouseholdColumn(rows))
      ensures var r := EnsurePayments(old(Tables()), HouseholdColumn(rows), month, year);
        Tables() == r.0 && PaymentColumn(rows) == r.1
    {
      month := if monthArg.Some? then monthArg.value else today.month;
      year := if yearArg.Some? then yearArg.value else today.year;
      var order := OrderedHouseholdIds();
      rows := EnsurePaymentRows(order, month, year);
    }

    /** The loop of index: one get-or-create per household of `order`, collecting the dashboard rows. */
    method EnsurePaymentRows(order: seq<Id>, month: int, year: int) returns (rows: seq<DashboardRow>)
      requires Valid()
      requires forall k :: 0 <= k < |order| ==> order[k] in households
      modifies this
      ensures HouseholdColumn(rows) == order
      ensures var r := EnsurePayments(old(Tables()), order, month, year);
        Tables() == r.0 && PaymentColumn(rows) == r.1
    {
      ghost var start := Tables();
      ghost var pids: seq<Id> := [];
      rows := [];
      var i := 0;
      while i < |order|
        invariant 0 <= i <= |order|
        invariant households == old(households) && Valid()
        invariant (Tables(), pids) == EnsurePayments(start, order[..i], month, year)
        invariant HouseholdColumn(rows) == order[..i] && PaymentColumn(rows) == pids
      {
        EnsurePaymentsStep(start, order, i, month, year);
        var pid := GetOrCreatePaymentRecord(order[i], month, year);
        ColumnsAppend(rows, DashboardRow(order[i], pid));
        assert order[..i + 1] == order[..i] + [order[i]];
        rows := rows + [DashboardRow(order[i], pid)];
        pids := pids + [pid];
        i := i + 1;
      }
      assert order[..i] == order;
    }

    /**
     * add_household: required fields, the (flat_number, wing) check, then
     * the insert, whose commit fails on the flat_number constraint.
     */
    method AddHousehold(flatNumber: Option<string>, wing: Option<string>, owner: Option<string>)
      returns (result: Result<Id>)
      requires Valid()
      modifies this
      ensures (Tables(), result) == AppSpec.AddHousehold(old(Tables()), flatNumber, wing, owner)
    {
      if !Filled(flatNumber) || !Filled(owner) {
        return Err(MissingRequiredField);
      }
      if exists id :: id in households && households[id].flatNumber == flatNumber.value && households[id].wing == wing {
        return Err(DuplicateHousehold);
      }
      if exists id :: id in households && households[id].flatNumber == flatNumber.value {
        // The commit hits the unique index on flat_number and is rolled back.
        StagedHouseholdConstraints(Tables(), nextHouseholdId, Household(flatNumber.value, wing, owner.value));
        return Err(IntegrityError);
      }
      StagedHouseholdConstraints(Tables(), nextHouseholdId, Household(flatNumber.value, wing, owner.value));
      result := Ok(nextHouseholdId);
      households := households[nextHouseholdId := Household(flatNumber.value, wing, owner.value)];
      nextHouseholdId := nextHouseholdId + 1;
    }

    /**
     * edit_household: the household must exist; required fields; the pair
     * check against the other households; then the commit, which fails on
     * the flat_number constraint. A failed check only changes the form shown.
     */
    method EditHousehold(id: Id, flatNumber: Option<string>, wing: Option<string>, owner: Option<string>)
      returns (result: Result<()>)
      requires Valid()
      modifies this
      ensures (Tables(), result) == AppSpec.EditHousehold(old(Tables()), id, flatNumber, wing, owner)
    {
      if id !in households {
        return Err(NotFound);
      }
      if !Filled(flatNumber) || !Filled(owner) {
        return Err(MissingRequiredField);
      }
      if exists other :: other in households && other != id
           && households[other].flatNumber == flatNumber.value && households[other].wing == wing {
        return Err(DuplicateHousehold);
      }
      StagedHouseholdConstraints(Tables(), id, Household(flatNumber.value, wing, owner.value));
      if exists other :: other in households && other != id && households[other].flatNumber == flatNumber.value {
        return Err(IntegrityError);
      }
      households := households[id := Household(flatNumber.value, wing, owner.value)];
      result := Ok(());
    }

    /** delete_household: the household goes, and its payments with it. */
    method DeleteHousehold(id: Id) returns (result: Result<()>)
      requires Valid()
      modifies this
      ensures (Tables(), result) == AppSpec.DeleteHousehold(old(Tables()), id)
    {
      if id !in households {
        return Err(NotFound);
      }
      payments := map pid | pid in payments && payments[pid].householdId != id :: payments[pid];
      households := households - {id};
      result := Ok(());
    }

    /**
     * The first half of record_payment: the household must exist; its row
     * for the period is fetched or created, and a created row is committed.
     */
    method OpenPaymentForm(householdId: Id, year: int, month: int) returns (result: Result<Id>)
      requires Valid()
      modifies this
      ensures (Tables(), result) == PreparePayment(old(Tables()), householdId, year, month)
    {
      if householdId !in households {
        return Err(NotFound);
      }
      var pid := GetOrCreatePaymentRecord(householdId, month, year);
      result := Ok(pid);
    }

    /**
     * record_payment on submit: the form's values are assigned to the row in
     * turn; a date that does not parse raises before the commit and the
     * rollback discards every assignment.
     */
    method RecordPayment(householdId: Id, year: int, month: int, form: PaymentForm,
                         parseDate: string -> Option<Date>) returns (result: Result<Id>)
      requires Valid()
      modifies this
      ensures (Tables(), result) == AppSpec.RecordPayment(old(Tables()), householdId, year, month, form, parseDate)
    {
      result := OpenPaymentForm(householdId, year, month);
      if result.Err? {
        return;
      }
      var pid := result.value;
      var p := payments[pid];
      p := p.(amountPaid := form.amountPaid);
      var date := DateField(form.paymentDate, parseDate);
      if date.Err? {
        return Err(date.error);
      }
      p := p.(paymentDate := date.value);
      p := p.(status := if form.status.Some? then form.status.value else PENDING);
      p := p.(receiptId := form.receiptId, notes := form.notes);
      payments := payments[pid := p];
    }
  }
}
