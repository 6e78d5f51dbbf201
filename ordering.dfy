/**
 * The order in which the dashboard lists households: ORDER BY wing,
 * flat_number, ascending, as SQLite evaluates it (NULL before any text,
 * text compared by the default BINARY collation).
 */
module Ordering {
  import opened Models

  /**
   * Lexicographic order on text. BINARY collation compares UTF-8 bytes, and
   * UTF-8 byte order agrees with code-point order, so characters compare
   * directly.
   */
  predicate TextLe(a: string, b: string)
    decreases |a|
  {
    a == [] || (b != [] && (a[0] < b[0] || (a[0] == b[0] && TextLe(a[1..], b[1..]))))
  }

  predicate TextLt(a: string, b: string) {
    TextLe(a, b) && a != b
  }

  /** Ascending order on the nullable wing column: NULL sorts first. */
  predicate WingBefore(a: Option<string>, b: Option<string>) {
    (a.None? && b.Some?) || (a.Some? && b.Some? && TextLt(a.value, b.value))
  }

  /** x may be listed before y under ORDER BY wing, flat_number. */
  predicate HouseholdLe(x: Household, y: Household) {
    WingBefore(x.wing, y.wing) || (x.wing == y.wing && TextLe(x.flatNumber, y.flatNumber))
  }

  /**
   * `ids` lists every household of `hs` exactly once, in dashboard order.
   */
  ghost predicate Listing(hs: map<Id, Household>, ids: seq<Id>) {
    && (forall i :: 0 <= i < |ids| ==> ids[i] in hs)
    && (forall id :: id in hs ==> id in ids)
    && (forall i, j :: 0 <= i < j < |ids| ==> ids[i] != ids[j])
    && (forall i, j :: 0 <= i < j < |ids| ==> HouseholdLe(hs[ids[i]], hs[ids[j]]))
  }

  lemma {:induction false} TextLeReflexive(a: string)
    ensures TextLe(a, a)
  {
    if a != [] {
      TextLeReflexive(a[1..]);
    }
  }

  lemma {:induction false} TextLeTotal(a: string, b: string)
    ensures TextLe(a, b) || TextLe(b, a)
  {
    if a != [] && b != [] && a[0] == b[0] {
      TextLeTotal(a[1..], b[1..]);
    }
  }

  lemma {:induction false} TextLeTransitive(a: string, b: string, c: string)
    requires TextLe(a, b) && TextLe(b, c)
    ensures TextLe(a, c)
  {
    if a != [] && a[0] == b[0] && b[0] == c[0] {
      TextLeTransitive(a[1..], b[1..], c[1..]);
    }
  }

  lemma {:induction false} TextLeAntisymmetric(a: string, b: string)
    requires TextLe(a, b) && TextLe(b, a)
    ensures a == b
  {
    if a != [] {
      TextLeAntisymmetric(a[1..], b[1..]);
      assert a == [a[0]] + a[1..] && b == [b[0]] + b[1..];
    }
  }

  lemma TextLtTransitive(a: string, b: string, c: string)
    requires TextLt(a, b) && TextLt(b, c)
    ensures TextLt(a, c)
  {
    TextLeTransitive(a, b, c);
    if a == c {
      TextLeAntisymmetric(a, b);
    }
  }

  /** Any two households can be placed in dashboard order. */
  lemma HouseholdLeTotal(x: Household, y: Household)
    ensures HouseholdLe(x, y) || HouseholdLe(y, x)
  {
    TextLeTotal(x.flatNumber, y.flatNumber);
    if x.wing.Some? && y.wing.Some? {
      TextLeTotal(x.wing.value, y.wing.value);
    }
  }

  /** Dashboard order is transitive. */
  lemma HouseholdLeTransitive(x: Household, y: Household, z: Household)
    requires HouseholdLe(x, y) && HouseholdLe(y, z)
    ensures HouseholdLe(x, z)
  {
    if x.wing == y.wing && y.wing == z.wing {
      TextLeTransitive(x.flatNumber, y.flatNumber, z.flatNumber);
    } else if x.wing.Some? && y.wing.Some? && z.wing.Some? {
      if WingBefore(x.wing, y.wing) && WingBefore(y.wing, z.wing) {
        TextLtTransitive(x.wing.value, y.wing.value, z.wing.value);
      }
    }
  }

  /** Every non-empty set of households has one that may come first. */
  lemma {:induction false} MinimumExists(hs: map<Id, Household>, s: set<Id>)
    requires s != {} && s <= hs.Keys
    ensures exists m :: m in s && forall k :: k in s ==> HouseholdLe(hs[m], hs[k])
    decreases |s|
  {
    var x :| x in s;
    TextLeReflexive(hs[x].flatNumber);
    if s == {x} {
      assert forall k :: k in s ==> HouseholdLe(hs[x], hs[k]);
    } else {
      MinimumExists(hs, s - {x});
      var m :| m in s - {x} && forall k :: k in s - {x} ==> HouseholdLe(hs[m], hs[k]);
      HouseholdLeTotal(hs[x], hs[m]);
      if HouseholdLe(hs[x], hs[m]) {
        forall k | k in s
          ensures HouseholdLe(hs[x], hs[k])
        {
          if k != x {
            HouseholdLeTransitive(hs[x], hs[m], hs[k]);
          }
        }
      } else {
        assert forall k :: k in s ==> HouseholdLe(hs[m], hs[k]);
      }
    }
  }

  /** A sequence without repeats has as many elements as its set of elements. */
  lemma {:induction false} DistinctCardinality(ids: seq<Id>)
    requires forall i, j :: 0 <= i < j < |ids| ==> ids[i] != ids[j]
    ensures |set id: Id | id in ids| == |ids|
  {
    if ids != [] {
      var init, last := ids[..|ids| - 1], ids[|ids| - 1];
      DistinctCardinality(init);
      var before := set id: Id | id in init;
      assert (set id: Id | id in ids) == before + {last};
      assert last !in before;
      assert |before + {last}| == |before| + 1;
    } else {
      assert (set id: Id | id in ids) == {};
    }
  }

  /** A listing has one entry per household. */
  lemma ListingLength(hs: map<Id, Household>, ids: seq<Id>)
    requires Listing(hs, ids)
    ensures |ids| == |hs|
  {
    DistinctCardinality(ids);
    assert (set id: Id | id in ids) == hs.Keys;
  }
}
