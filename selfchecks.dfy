/** The dashboard's developer self-checks, recomputed from the current state
    on every render: four named pass/fail results. */
module SelfChecks {
  import opened Credits
  import opened Fleet

  datatype CheckResult = CheckResult(name: string, passed: bool)

  /** The vehicles' ids, in order. */
  function Ids(vs: seq<Vehicle>): (ids: seq<int>)
    ensures |ids| == |vs|
    ensures forall i :: 0 <= i < |vs| ==> ids[i] == vs[i].id
  {
    if vs == [] then [] else [vs[0].id] + Ids(vs[1..])
  }

  function Elements(s: seq<int>): set<int> {
    set x | x in s
  }

  predicate Distinct(s: seq<int>) {
    forall i, j | 0 <= i < j < |s| :: s[i] != s[j]
  }

  /** The id check as the page computes it: the set of ids is as large as the
      list of ids. It passes exactly when no two vehicles share an id. */
  predicate IdsUnique(vs: seq<Vehicle>): (unique: bool)
    ensures unique <==> forall i, j | 0 <= i < j < |vs| :: vs[i].id != vs[j].id
  {
    ElementsCount(Ids(vs));
    |Elements(Ids(vs))| == |Ids(vs)|
  }

  /** A list has as many distinct elements as entries exactly when no value
      repeats; it never has more. */
  lemma {:induction false} ElementsCount(s: seq<int>)
    ensures |Elements(s)| <= |s|
    ensures |Elements(s)| == |s| <==> Distinct(s)
    decreases |s|
  {
    if s != [] {
      var t := s[1..];
      ElementsCount(t);
      assert Elements(s) == {s[0]} + Elements(t) by {
        assert forall x :: x in s <==> x == s[0] || x in t;
      }
      if s[0] in t {
        var k :| 0 <= k < |t| && t[k] == s[0];
        assert s[0] == s[k + 1];
        assert !Distinct(s);
      } else {
        assert |Elements(s)| == |Elements(t)| + 1;
        if Distinct(t) {
          forall i, j | 0 <= i < j < |s|
            ensures s[i] != s[j]
          {
            assert s[j] == t[j - 1];
            if i > 0 {
              assert s[i] == t[i - 1];
            }
          }
        }
        if Distinct(s) {
          forall i, j | 0 <= i < j < |t|
            ensures t[i] != t[j]
          {
            assert t[i] == s[i + 1] && t[j] == s[j + 1];
          }
        }
      }
    }
  }

  /** Every vehicle's status is one of the two the map knows; latitude and
      longitude are numbers by their type. With a two-valued status type the
      check passes for every list. */
  predicate FieldsValid(vs: seq<Vehicle>): (valid: bool)
    ensures valid
  {
    forall v | v in vs :: v.status == Active || v.status == Idle
  }

  /** The four checks, in the page's order. The projection check asks for
      finite numbers, which every real is; the field check is a type check
      that the datatype already guarantees. */
  function RunDevTests(vs: seq<Vehicle>, impact: Impact): (results: seq<CheckResult>)
    ensures |results| == 4
    ensures results[0].passed && results[2].passed
    ensures results[1].passed <==> forall i, j | 0 <= i < j < |vs| :: vs[i].id != vs[j].id
    ensures results[3].passed <==>
      impact.foodBiogasKg >= 0 && impact.plasticRoadKg >= 0 && impact.flyAshBricks >= 0
  {
    [ CheckResult("project() returns finite numbers", true),
      CheckResult("vehicles have unique ids", IdsUnique(vs)),
      CheckResult("vehicle fields valid", FieldsValid(vs)),
      CheckResult("impact counters non-negative", CountersNonNegative(impact)) ]
  }

  /** Whatever the user does from the initial state, every self-check on the
      page passes. */
  lemma DevTestsAlwaysPass(es: seq<Event>)
    ensures forall r | r in RunDevTests(Vehicles, Run(InitialState, es).impact) :: r.passed
  {
    RunKeepsSound(InitialState, es);
    var results := RunDevTests(Vehicles, Run(InitialState, es).impact);
    assert forall k | 0 <= k < 4 :: results[k].passed;
  }

  /** The fleet on the page has distinct ids, so its id check passes. */
  lemma FleetIdsUnique()
    ensures IdsUnique(Vehicles)
  {
  }

  /** A ledger object in a valid state passes all four self-checks. */
  lemma ValidLedgerPassesChecks(ledger: Ledger)
    requires ledger.Valid()
    ensures forall r | r in RunDevTests(Vehicles, ledger.impact) :: r.passed
  {
  }
}
