/**
 * The two tables of the maintenance tracker: households and their monthly
 * payment records, with the constraints the schema declares on them.
 */
module Models {

  datatype Option<+T> = None | Some(value: T)

  /** Integer primary keys of both tables. */
  type Id = nat

  /** A calendar date, as held in a payment's date column. */
  datatype Date = Date(year: int, month: int, day: int)

  /** The amount columns are SQL floats; the model never computes with them. */
  type Amount = real

  /**
   * A household row. Its id is its key in the households map. Columns the
   * schema declares NOT NULL are plain values; the nullable wing is an Option.
   */
  datatype Household = Household(flatNumber: string, wing: Option<string>, ownerRenterName: string)

  /** A payment row: one household's record for one (month, year). */
  datatype Payment = Payment(
    householdId: Id,
    month: int,
    year: int,
    amountPaid: Option<Amount>,
    expectedAmount: Option<Amount>,
    paymentDate: Option<Date>,
    status: string,
    receiptId: Option<string>,
    notes: Option<string>)

  /** The status a payment row starts with. */
  const PENDING: string := "Pending"

  /**
   * Both tables, each keyed by primary key, and the next value each table's
   * key sequence hands out.
   */
  datatype Db = Db(
    households: map<Id, Household>,
    payments: map<Id, Payment>,
    nextHouseholdId: Id,
    nextPaymentId: Id)

  /** The payment row belongs to this household and this period. */
  predicate IsFor(p: Payment, householdId: Id, month: int, year: int) {
    p.householdId == householdId && p.month == month && p.year == year
  }

  /** A fresh row for a period: status Pending, every nullable column empty. */
  function PendingPayment(householdId: Id, month: int, year: int): Payment {
    Payment(householdId, month, year, None, None, None, PENDING, None, None)
  }

  /** The unique constraint on households.flat_number. */
  ghost predicate FlatNumbersUnique(hs: map<Id, Household>) {
    forall a, b :: a in hs && b in hs && hs[a].flatNumber == hs[b].flatNumber ==> a == b
  }

  /** The unique constraint on (household_id, payment_month, payment_year). */
  ghost predicate PeriodsUnique(ps: map<Id, Payment>) {
    forall a, b :: a in ps && b in ps && IsFor(ps[a], ps[b].householdId, ps[b].month, ps[b].year) ==> a == b
  }

  /** The constraints the database itself checks when a transaction commits. */
  ghost predicate SchemaConstraints(db: Db) {
    FlatNumbersUnique(db.households) && PeriodsUnique(db.payments)
  }

  /** Every payment's household_id names an existing household: no orphans. */
  ghost predicate PaymentsHaveHousehold(db: Db) {
    forall pid :: pid in db.payments ==> db.payments[pid].householdId in db.households
  }

  /** Every key in use lies below the next value of its sequence. */
  ghost predicate KeysBelowSequences(db: Db) {
    && (forall id :: id in db.households ==> id < db.nextHouseholdId)
    && (forall pid :: pid in db.payments ==> pid < db.nextPaymentId)
  }

  /** The store invariant every operation keeps. */
  ghost predicate Valid(db: Db) {
    SchemaConstraints(db) && PaymentsHaveHousehold(db) && KeysBelowSequences(db)
  }

  /**
   * Committing a transaction whose pending changes give `staged`: the
   * database applies them when both unique constraints hold afterwards and
   * otherwise raises an integrity error, after which the caller rolls back.
   */
  ghost function Commit(before: Db, staged: Db): (r: Db)
    ensures SchemaConstraints(before) ==> SchemaConstraints(r)
    ensures SchemaConstraints(staged) ==> r == staged
    ensures !SchemaConstraints(staged) ==> r == before
  {
    if SchemaConstraints(staged) then staged else before
  }

  /**
   * Deleting a household row. The relationship's "all, delete-orphan"
   * cascade deletes every payment of that household in the same flush.
   */
  function WithoutHousehold(db: Db, householdId: Id): (r: Db)
    ensures r.households.Keys == db.households.Keys - {householdId}
    ensures forall id :: id in r.households ==> r.households[id] == db.households[id]
    ensures forall pid :: pid in r.payments <==> pid in db.payments && db.payments[pid].householdId != householdId
    ensures forall pid :: pid in r.payments ==> r.payments[pid] == db.payments[pid]
    ensures Valid(db) ==> Valid(r)
  {
    db.(households := db.households - {householdId},
        payments := map pid | pid in db.payments && db.payments[pid].householdId != householdId :: db.payments[pid])
  }

  /** Under the flat_number constraint a flat number names at most one household. */
  lemma FlatNumberNamesOneHousehold(hs: map<Id, Household>, flatNumber: string)
    requires FlatNumbersUnique(hs)
    ensures |set id | id in hs && hs[id].flatNumber == flatNumber| <= 1
  {
    var named := set id | id in hs && hs[id].flatNumber == flatNumber;
    if named != {} {
      var id :| id in named;
      assert named == {id};
    }
  }

  /** Under the period constraint a household has at most one payment row per period. */
  lemma AtMostOnePaymentPerPeriod(ps: map<Id, Payment>, householdId: Id, month: int, year: int)
    requires PeriodsUnique(ps)
    ensures |set pid | pid in ps && IsFor(ps[pid], householdId, month, year)| <= 1
  {
    var rows := set pid | pid in ps && IsFor(ps[pid], householdId, month, year);
    if rows != {} {
      var pid :| pid in rows;
      assert rows == {pid};
    }
  }
}
