/**
 * The vehicle list screen: the Active/Inactive status derived from three
 * expiry dates, and the search filter on the vehicle number.
 *
 * A parsed date is an instant on an integer time line (milliseconds) or
 * `Invalid`, the value an unparsable string yields. The clock read that
 * gives "now" is a parameter.
 */
module Vehicles {
  import Text

  datatype Date = Invalid | At(time: int)

  datatype Vehicle = Vehicle(
    slNo: int,
    vehicleNumber: string,
    fitness: Date,
    rc: Date,
    pollution: Date,
    insurance: Date)

  const Active: string := "Active"
  const Inactive: string := "Inactive"

  /** The badge classes, keyed by status label. */
  const StatusStyles: map<string, string> :=
    map[Active := "bg-green-100 text-green-700", Inactive := "bg-red-100 text-red-700"]

  /**
   * `date >= now` on JavaScript dates: both sides are compared by their time
   * value, and an invalid date has time value NaN, which makes `>=` false.
   */
  function NotBefore(date: Date, now: int): (b: bool)
    ensures date == Invalid ==> !b
    ensures date.At? ==> (b <==> now <= date.time)
  {
    match date
    case Invalid => false
    case At(t) => t >= now
  }

  /** All three documents that decide the status are still in force. */
  predicate DocumentsInForce(v: Vehicle, now: int)
  {
    NotBefore(v.insurance, now) && NotBefore(v.pollution, now) && NotBefore(v.rc, now)
  }

  /** `getStatus`: "Active" exactly when insurance, pollution and RC are not before now. */
  function GetStatus(v: Vehicle, now: int): (status: string)
    ensures status in StatusStyles
    ensures status == Active <==> DocumentsInForce(v, now)
    ensures status == Inactive <==> !DocumentsInForce(v, now)
  {
    if NotBefore(v.insurance, now) && NotBefore(v.pollution, now) && NotBefore(v.rc, now)
    then Active
    else Inactive
  }

  /** One expired document is enough to make a vehicle inactive. */
  lemma InactiveWhenAnyExpired(v: Vehicle, now: int)
    requires (v.insurance.At? && v.insurance.time < now)
          || (v.pollution.At? && v.pollution.time < now)
          || (v.rc.At? && v.rc.time < now)
    ensures GetStatus(v, now) == Inactive
  {
  }

  /** An unparsable insurance, pollution or RC date makes a vehicle inactive. */
  lemma InactiveWhenAnyInvalid(v: Vehicle, now: int)
    requires v.insurance == Invalid || v.pollution == Invalid || v.rc == Invalid
    ensures GetStatus(v, now) == Inactive
  {
  }

  /** The fitness date, the serial number and the vehicle number play no part. */
  lemma StatusIgnoresOtherFields(v: Vehicle, w: Vehicle, now: int)
    requires v.insurance == w.insurance && v.pollution == w.pollution && v.rc == w.rc
    ensures GetStatus(v, now) == GetStatus(w, now)
  {
  }

  /** A vehicle active at a later instant was active at every earlier one. */
  lemma StatusMonotone(v: Vehicle, earlier: int, later: int)
    requires earlier <= later
    requires GetStatus(v, later) == Active
    ensures GetStatus(v, earlier) == Active
  {
  }

  /**
   * The filter test: the lower-cased search term occurs at some position of
   * the lower-cased vehicle number. The empty term matches every vehicle; a
   * term longer than the vehicle number matches none.
   */
  function Matches(v: Vehicle, searchTerm: string): (b: bool)
    ensures b ==> exists i: nat :: Text.OccursAt(Text.Lower(v.vehicleNumber), Text.Lower(searchTerm), i)
    ensures (exists i: nat :: Text.OccursAt(Text.Lower(v.vehicleNumber), Text.Lower(searchTerm), i)) ==> b
    ensures searchTerm == "" ==> b
    ensures b ==> |searchTerm| <= |v.vehicleNumber|
  {
    var number := Text.Lower(v.vehicleNumber);
    var term := Text.Lower(searchTerm);
    Text.Contains(number, term)
  }

  /**
   * `filteredData`: the vehicles that match, in their original order. A
   * vehicle occurs in the result as often as in the input when it matches,
   * and not at all otherwise.
   */
  function FilteredData(vehicles: seq<Vehicle>, searchTerm: string): (kept: seq<Vehicle>)
    ensures |kept| <= |vehicles|
    ensures forall v :: v in kept <==> v in vehicles && Matches(v, searchTerm)
    ensures forall v :: multiset(kept)[v] == if Matches(v, searchTerm) then multiset(vehicles)[v] else 0
  {
    if vehicles == [] then []
    else
      assert vehicles == [vehicles[0]] + vehicles[1..];
      (if Matches(vehicles[0], searchTerm) then [vehicles[0]] else [])
      + FilteredData(vehicles[1..], searchTerm)
  }

  /** `sub` is `full` with some elements dropped and the rest in order. */
  predicate IsSubsequence<T(==)>(sub: seq<T>, full: seq<T>)
    decreases |full|
  {
    if sub == [] then true
    else if full == [] then false
    else if sub[0] == full[0] then IsSubsequence(sub[1..], full[1..])
    else IsSubsequence(sub, full[1..])
  }

  /** The filter keeps the order of the vehicles it keeps. */
  lemma {:induction false} FilterIsSubsequence(vehicles: seq<Vehicle>, searchTerm: string)
    ensures IsSubsequence(FilteredData(vehicles, searchTerm), vehicles)
    decreases |vehicles|
  {
    if vehicles != [] {
      var rest := FilteredData(vehicles[1..], searchTerm);
      FilterIsSubsequence(vehicles[1..], searchTerm);
      if Matches(vehicles[0], searchTerm) {
        assert FilteredData(vehicles, searchTerm) == [vehicles[0]] + rest;
        assert ([vehicles[0]] + rest)[1..] == rest;
      } else {
        assert FilteredData(vehicles, searchTerm) == rest;
        SubsequenceOfTail(rest, vehicles);
      }
    }
  }

  lemma {:induction false} SubsequenceOfTail<T>(sub: seq<T>, full: seq<T>)
    requires full != []
    requires IsSubsequence(sub, full[1..])
    ensures IsSubsequence(sub, full)
    decreases |full|, 1
  {
    if sub != [] && sub[0] == full[0] {
      SubsequenceDropFirst(sub, full[1..]);
    }
  }

  lemma {:induction false} SubsequenceDropFirst<T>(sub: seq<T>, full: seq<T>)
    requires sub != []
    requires IsSubsequence(sub, full)
    ensures IsSubsequence(sub[1..], full)
    decreases |full| + 1, 0
  {
    if sub[0] == full[0] {
      SubsequenceOfTail(sub[1..], full);
    } else {
      SubsequenceDropFirst(sub, full[1..]);
      SubsequenceOfTail(sub[1..], full);
    }
  }

  /** An empty search term keeps every vehicle. */
  lemma {:induction false} EmptySearchKeepsAll(vehicles: seq<Vehicle>)
    ensures FilteredData(vehicles, "") == vehicles
    decreases |vehicles|
  {
    if vehicles != [] {
      Text.ContainsEmpty(Text.Lower(vehicles[0].vehicleNumber));
      EmptySearchKeepsAll(vehicles[1..]);
    }
  }

  /** Search terms that lower-case alike select the same vehicles, in the same order. */
  lemma {:induction false} FilterIgnoresCase(vehicles: seq<Vehicle>, term1: string, term2: string)
    requires Text.Lower(term1) == Text.Lower(term2)
    ensures FilteredData(vehicles, term1) == FilteredData(vehicles, term2)
    decreases |vehicles|
  {
    if vehicles != [] {
      FilterIgnoresCase(vehicles[1..], term1, term2);
    }
  }

  /** In particular, lower-casing the search term first changes nothing. */
  lemma FilterSameForLoweredTerm(vehicles: seq<Vehicle>, searchTerm: string)
    ensures FilteredData(vehicles, Text.Lower(searchTerm)) == FilteredData(vehicles, searchTerm)
  {
    Text.LowerIdempotent(searchTerm);
    FilterIgnoresCase(vehicles, Text.Lower(searchTerm), searchTerm);
  }

  /** Concrete case: an insurance that lapsed before the as-of instant makes the vehicle inactive. */
  lemma LapsedInsuranceExample()
    ensures GetStatus(Vehicle(1, "TN39AB1234", At(2000), At(2000), At(2000), At(0)), 1000) == Inactive
    ensures GetStatus(Vehicle(1, "TN39AB1234", Invalid, At(2000), At(2000), At(1000)), 1000) == Active
  {
  }
}
