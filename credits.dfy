/** The Green-Credits ledger of the citizen dashboard: three community impact
    counters and the signed-in user's record, changed by contributions of waste
    (which earn credits), by redemptions of credits and by signing in.

    A contributed amount is a JavaScript Number taken over the reals: finite
    numbers are exact reals and NaN is its own case. Infinity and IEEE-754
    rounding of products such as kg * 0.6 are not modelled. */
module Credits {
  import opened Rounding

  /** Shares of a contribution attributed to each impact counter, and the
      credits earned per kilogram. */
  const BiogasShare: real := 0.6
  const PlasticRoadShare: real := 0.2
  const FlyAshShare: real := 0.1
  const CreditsPerKg: real := 5.0

  /** Community-wide totals: kilograms turned into biogas, kilograms of plastic
      laid into roads, and fly-ash bricks made. */
  datatype Impact = Impact(foodBiogasKg: int, plasticRoadKg: int, flyAshBricks: int)

  /** The signed-in citizen: display name, credit balance and the total mass
      contributed so far (unrounded). */
  datatype User = User(name: string, credits: int, contributedKg: real)

  /** The value of Number(field) for the contribution form's field: a finite
      number, or NaN when the text does not parse. */
  datatype NumberValue = NaN | Finite(value: real)

  datatype ContributeOutcome = Earned(credits: int) | InvalidAmount

  datatype RedeemOutcome = Redeemed(amount: int) | InsufficientCredits

  /** The counters the page starts with. */
  const InitialImpact: Impact := Impact(12500, 3200, 8600)

  /** The user record used when nothing was stored before. */
  const DefaultUser: User := User("Guest", 120, 18.0)

  /** The whole ledger state as a value. */
  datatype State = State(impact: Impact, user: User)

  const InitialState: State := State(InitialImpact, DefaultUser)

  /** The ledger's events: a submitted contribution form, a redemption button,
      a sign-in whose dialog answered `entered` ("" for an empty or cancelled
      dialog). */
  datatype Event = Contribution(field: NumberValue) | Redemption(amount: int) | SignIn(entered: string)

  /** `Number(field) || 0`: NaN and zero are falsy and become 0; every other
      number is kept. */
  function OrZero(n: NumberValue): (kg: real)
    ensures kg == 0.0 <==> n.NaN? || n.value == 0.0
    ensures kg != 0.0 ==> n == Finite(kg)
  {
    match n
    case NaN => 0.0
    case Finite(v) => if v == 0.0 then 0.0 else v
  }

  /** `prompt(...) || "Guest"`: an empty or cancelled answer falls back to the
      guest name. */
  function NameOrGuest(entered: string): (name: string)
    ensures name != ""
    ensures entered != "" ==> name == entered
    ensures entered == "" ==> name == "Guest"
  {
    if entered == "" then "Guest" else entered
  }

  /** The impact counters after a contribution of kg kilograms: each share is
      rounded on its own. */
  function Accrue(i: Impact, kg: real): (r: Impact)
    ensures kg >= 0.0 ==> AtMost(i, r)
  {
    Impact(i.foodBiogasKg + Round(kg * BiogasShare),
           i.plasticRoadKg + Round(kg * PlasticRoadShare),
           i.flyAshBricks + Round(kg * FlyAshShare))
  }

  /** The credits a contribution of kg kilograms earns: within half a credit
      of five per kilogram, and never negative for a non-negative mass. */
  function EarnedFor(kg: real): (r: int)
    ensures Abs(r as real - kg * CreditsPerKg) <= 0.5
    ensures kg >= 0.0 ==> r >= 0
  {
    Round(kg * CreditsPerKg)
  }

  /** The user record after a contribution of kg kilograms. */
  function Credit(u: User, kg: real): User {
    u.(credits := u.credits + EarnedFor(kg), contributedKg := u.contributedKg + kg)
  }

  /** The ledger's transition function. No event lowers an impact counter,
      every event keeps the ledger invariant, and credits only fall through
      an accepted redemption, by exactly its amount. */
  function Step(s: State, e: Event): (r: State)
    ensures AtMost(s.impact, r.impact)
    ensures Sound(s) ==> Sound(r)
    ensures r.user.credits < s.user.credits ==>
      e.Redemption? && r.user.credits == s.user.credits - e.amount
  {
    match e
    case Contribution(field) =>
      var kg := OrZero(field);
      if kg <= 0.0 then s else State(Accrue(s.impact, kg), Credit(s.user, kg))
    case Redemption(amount) =>
      if s.user.credits < amount then s
      else s.(user := s.user.(credits := s.user.credits - amount))
    case SignIn(entered) =>
      s.(user := s.user.(name := NameOrGuest(entered)))
  }

  /** The state after a sequence of events, applied in order. */
  function Run(s: State, es: seq<Event>): State
    decreases |es|
  {
    if es == [] then s else Run(Step(s, es[0]), es[1..])
  }

  /** What the dashboard's self-check asserts of the counters. */
  predicate CountersNonNegative(i: Impact) {
    i.foodBiogasKg >= 0 && i.plasticRoadKg >= 0 && i.flyAshBricks >= 0
  }

  /** The ledger invariant: counters, credits and contributed mass are never
      negative. */
  predicate Sound(s: State) {
    CountersNonNegative(s.impact) && s.user.credits >= 0 && s.user.contributedKg >= 0.0
  }

  /** Counters are compared field by field. */
  predicate AtMost(a: Impact, b: Impact) {
    a.foodBiogasKg <= b.foodBiogasKg && a.plasticRoadKg <= b.plasticRoadKg && a.flyAshBricks <= b.flyAshBricks
  }

  /** A contribution whose amount is not a positive number (NaN, zero or
      negative) is rejected and changes nothing. */
  lemma NonPositiveContributionIgnored(s: State, field: NumberValue)
    requires field.NaN? || field.value <= 0.0
    ensures Step(s, Contribution(field)) == s
  {
  }

  /** An accepted contribution raises credits by round(5 kg), the contributed
      mass by exactly kg, and each counter by its own rounded share; the name
      is kept. */
  lemma PositiveContributionAccepted(s: State, kg: real)
    requires kg > 0.0
    ensures var t := Step(s, Contribution(Finite(kg)));
      t.user == User(s.user.name, s.user.credits + Round(kg * 5.0), s.user.contributedKg + kg)
      && t.impact == Impact(s.impact.foodBiogasKg + Round(kg * 0.6),
                            s.impact.plasticRoadKg + Round(kg * 0.2),
                            s.impact.flyAshBricks + Round(kg * 0.1))
  {
  }

  /** A redemption is accepted exactly when the balance covers it; it then
      lowers the balance by the amount and touches nothing else. */
  lemma RedemptionExact(s: State, amount: int)
    ensures var t := Step(s, Redemption(amount));
      t.impact == s.impact && t.user.name == s.user.name && t.user.contributedKg == s.user.contributedKg
      && t.user.credits == if s.user.credits < amount then s.user.credits else s.user.credits - amount
  {
  }

  /** Any sequence of events from a sound state ends in a sound state; in
      particular the self-check on the counters keeps passing. */
  lemma {:induction false} RunKeepsSound(s: State, es: seq<Event>)
    requires Sound(s)
    ensures Sound(Run(s, es))
    decreases |es|
  {
    if es != [] {
      RunKeepsSound(Step(s, es[0]), es[1..]);
    }
  }

  /** No event lowers an impact counter, so over any sequence of events the
      counters only grow. */
  lemma {:induction false} RunCountersGrow(s: State, es: seq<Event>)
    ensures AtMost(s.impact, Run(s, es).impact)
    decreases |es|
  {
    if es != [] {
      RunCountersGrow(Step(s, es[0]), es[1..]);
    }
  }

  /** An example session from the default user: contributing 10 kg earns
      50 credits (170 in all, 28 kg contributed, counters +6/+2/+1); redeeming
      100 leaves 70; a second redemption of 100 is refused and 70 remain. */
  lemma DefaultSessionTrace()
    ensures var afterContribution := Step(InitialState, Contribution(Finite(10.0)));
      afterContribution.user == User("Guest", 170, 28.0)
      && afterContribution.impact == Impact(12506, 3202, 8601)
    ensures Run(InitialState, [Contribution(Finite(10.0)), Redemption(100)]).user.credits == 70
    ensures Run(InitialState, [Contribution(Finite(10.0)), Redemption(100), Redemption(100)]).user.credits == 70
  {
  }

  /** The dashboard's ledger as the page holds it: the `impact` and `user`
      state objects, each replaced wholesale on every update. */
  class Ledger {
    var impact: Impact
    var user: User

    function Snapshot(): State
      reads this
    {
      State(impact, user)
    }

    predicate Valid()
      reads this
    {
      Sound(Snapshot())
    }

    /** The initial counters and the default user record. */
    constructor ()
      ensures impact == InitialImpact && user == DefaultUser
      ensures Valid()
    {
      impact := InitialImpact;
      user := DefaultUser;
    }

    /** The contribution form's submit handler. */
    method Contribute(field: NumberValue) returns (outcome: ContributeOutcome)
      modifies this
      ensures Snapshot() == Step(old(Snapshot()), Contribution(field))
      ensures old(Valid()) ==> Valid()
      ensures var kg := OrZero(field);
        if kg <= 0.0 then
          outcome == InvalidAmount && impact == old(impact) && user == old(user)
        else
          outcome == Earned(Round(kg * 5.0))
          && impact == Impact(old(impact.foodBiogasKg) + Round(kg * 0.6),
                              old(impact.plasticRoadKg) + Round(kg * 0.2),
                              old(impact.flyAshBricks) + Round(kg * 0.1))
          && user == User(old(user.name), old(user.credits) + Round(kg * 5.0), old(user.contributedKg) + kg)
    {
      var kg := OrZero(field);
      if kg <= 0.0 {
        outcome := InvalidAmount;
        return;
      }
      impact := Accrue(impact, kg);
      var earned := EarnedFor(kg);
      user := user.(credits := user.credits + earned, contributedKg := user.contributedKg + kg);
      outcome := Earned(earned);
    }

    /** A redemption button: refused when the balance is short, otherwise the
        amount is debited. */
    method Redeem(amount: int) returns (outcome: RedeemOutcome)
      modifies this
      ensures Snapshot() == Step(old(Snapshot()), Redemption(amount))
      ensures old(Valid()) ==> Valid()
      ensures impact == old(impact)
      ensures old(user.credits) < amount ==> outcome == InsufficientCredits && user == old(user)
      ensures amount <= old(user.credits) ==>
        outcome == Redeemed(amount) && user == old(user).(credits := old(user.credits) - amount)
    {
      if user.credits < amount {
        outcome := InsufficientCredits;
        return;
      }
      user := user.(credits := user.credits - amount);
      outcome := Redeemed(amount);
    }

    /** The sign-in button: replaces the name only. */
    method SignIn(entered: string)
      modifies this
      ensures Snapshot() == Step(old(Snapshot()), Event.SignIn(entered))
      ensures old(Valid()) ==> Valid()
      ensures impact == old(impact)
      ensures user == old(user).(name := if entered == "" then "Guest" else entered)
    {
      user := user.(name := NameOrGuest(entered));
    }
  }

  /** The same example session from the default user, run against the ledger
      object itself. */
  method DefaultSession() returns (first: ContributeOutcome, second: RedeemOutcome, third: RedeemOutcome, credits: int)
    ensures first == Earned(50)
    ensures second == Redeemed(100)
    ensures third == InsufficientCredits
    ensures credits == 70
  {
    var ledger := new Ledger();
    first := ledger.Contribute(Finite(10.0));
    RoundOfInteger(50);
    second := ledger.Redeem(100);
    third := ledger.Redeem(100);
    credits := ledger.user.credits;
  }
}
