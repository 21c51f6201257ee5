/**
 * Regional field-executive assignment (backend/utils/autoAssignment.js): the first operational
 * city named in a borrower's address selects the executive stationed there, whose id is then
 * written into the borrower document.
 *
 * The `FieldExecutive.findOne({ location })` query is the parameter `findByLocation`; a query
 * that fails is caught by the source and answered with null, which `findByLocation` expresses
 * by returning `None` like a query that finds nothing.
 */
module AutoAssignment {
  import opened Wrappers
  import Text
  import opened Schema

  /** A field executive as far as the assignment needs one. */
  datatype Executive = Executive(id: nat, name: string, location: string)

  /** The operational cities, in the order in which they are tried. */
  const OperationalCities: seq<string> :=
    ["Bengaluru", "Mysuru", "Udupi", "Shivamogga", "Belagavi", "Mangaluru", "Hubballi"]

  /** The index of the first city whose lower-case form occurs in `address`. */
  function FirstCityIn(address: string, cities: seq<string>): (r: Option<nat>)
    ensures r.Some? ==> r.value < |cities| && Text.Contains(address, Text.Lower(cities[r.value]))
    ensures r.Some? ==> forall j | 0 <= j < r.value :: !Text.Contains(address, Text.Lower(cities[j]))
    ensures r.None? <==> forall j | 0 <= j < |cities| :: !Text.Contains(address, Text.Lower(cities[j]))
    decreases |cities|
  {
    if cities == [] then None
    else if Text.Contains(address, Text.Lower(cities[0])) then Some(0)
    else
      match FirstCityIn(address, cities[1..])
      case None => None
      case Some(k) => Some(k + 1)
  }

  /** The operational city an address names, matched case-insensitively; the first one listed wins. */
  function MatchCity(address: string): (r: Option<string>)
    ensures r.Some? ==> r.value in OperationalCities && Text.Contains(Text.Lower(address), Text.Lower(r.value))
    ensures r.None? <==> forall c | c in OperationalCities :: !Text.Contains(Text.Lower(address), Text.Lower(c))
  {
    var k := FirstCityIn(Text.Lower(address), OperationalCities);
    if k.None? then None else Some(OperationalCities[k.value])
  }

  /** Only the lower-cased address matters. */
  lemma MatchCityIgnoresCase(address: string)
    ensures MatchCity(Text.Lower(address)) == MatchCity(address)
  {
    Text.LowerIdempotent(address);
  }

  /** `borrower.address` is truthy: present and non-empty. */
  predicate HasAddress(b: BorrowerRecord) {
    b.address.Some? && b.address.value != ""
  }

  /** The executive the assignment finds for a borrower, if any. */
  function AssignmentFor(b: BorrowerRecord, findByLocation: string -> Option<Executive>): (r: Option<Executive>)
    ensures !HasAddress(b) ==> r == None
    ensures HasAddress(b) && MatchCity(b.address.value).None? ==> r == None
    ensures HasAddress(b) && MatchCity(b.address.value).Some? ==> r == findByLocation(MatchCity(b.address.value).value)
    ensures r.Some? ==> HasAddress(b) && MatchCity(b.address.value).Some?
  {
    if !HasAddress(b) then None
    else
      match MatchCity(b.address.value)
      case None => None
      case Some(city) => findByLocation(city)
  }

  /** The assignment reads nothing of the borrower but the address. */
  lemma AssignmentReadsOnlyAddress(b1: BorrowerRecord, b2: BorrowerRecord, findByLocation: string -> Option<Executive>)
    requires b1.address == b2.address
    ensures AssignmentFor(b1, findByLocation) == AssignmentFor(b2, findByLocation)
  {
  }

  /**
   * `assignRegionalExecutive(borrower)`: returns the executive for the matched city and links the
   * borrower to it; without an address, a matching city or an executive there, returns null and
   * leaves the borrower as it was.
   */
  method AssignRegionalExecutive(borrower: BorrowerDoc, findByLocation: string -> Option<Executive>)
    returns (executive: Option<Executive>)
    modifies borrower
    ensures executive == AssignmentFor(old(borrower.rec), findByLocation)
    ensures executive.Some? ==> borrower.rec == old(borrower.rec).(assignedFieldExecutive := Some(executive.value.id))
    ensures executive.None? ==> borrower.rec == old(borrower.rec)
  {
    if borrower.rec.address.None? || borrower.rec.address.value == "" {
      return None;
    }
    var matchedCity := MatchCity(borrower.rec.address.value);
    if matchedCity.None? {
      return None;
    }
    executive := findByLocation(matchedCity.value);
    if executive.Some? {
      borrower.rec := borrower.rec.(assignedFieldExecutive := Some(executive.value.id));
    }
  }
}
