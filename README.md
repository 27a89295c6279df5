# Green-Credits ledger of the Waste-to-Resource dashboard

This project models the logic of the Waste-to-Resource prototype. That logic is the citizen dashboard's Green-Credits ledger, the map projection of the collection fleet, and the page's developer self-checks.

- `rounding.dfy` (module `Rounding`): `Math.round` over the reals, as `Floor(x + 1/2)`. This is the nearest integer, with halves rounded toward positive infinity.
- `credits.dfy` (module `Credits`): the ledger state. It holds the three impact counters (`foodBiogasKg`, `plasticRoadKg`, `flyAshBricks`) and the user record (`name`, `credits`, `contributedKg`).
  - The class `Ledger` keeps them in two fields, `impact` and `user`. Its methods replace these fields whole, as the page's state setters do.
  - The contribution handler parses its field with `Number(x) || 0` and rejects any amount that is not positive.
  - An accepted contribution adds each rounded share (0.6, 0.2, 0.1 of the mass) to its counter. It adds `round(5·kg)` to credits and the unrounded `kg` to `contributedKg`.
  - A redemption is refused when `credits < amount`. Otherwise it subtracts the amount.
  - Signing in replaces only the name, and falls back to `"Guest"`.
  - The pure transition function `Step` and its fold `Run` are the specification. Each method is proved against them.
  - The lemmas prove the invariant that all counters, credits and contributed mass stay non-negative. They also prove that counters only grow, and they check an example session from the default user.
- `fleet.dfy` (module `Fleet`): the three tracked vehicles and the affine projection `x = (lng − 78.47)·5000`, `y = (17.38 − lat)·5000`. It includes the projection's inverse.
- `selfchecks.dfy` (module `SelfChecks`): the four self-check results, recomputed from the current state. The id check compares the size of the set of ids with the length of the id list. It passes exactly when no two vehicles share an id.

A contributed amount is modelled as `NumberValue = NaN | Finite(real)`, the value of `Number(field)`. Amounts are exact reals.

In the example session, the default user starts with 120 credits (src/App.js:22). Contributing 10 kg earns round(50) = 50 (src/App.js:61), giving 170. A 100-credit redemption (src/App.js:71) leaves 70, and a second one is refused (`DefaultSessionTrace`, `DefaultSession`).

The constants come from the source as follows:
- `Credits.InitialImpact`, `Credits.DefaultUser` and `Credits.InitialState` are the page's starting state (src/App.js:13-23). Their values are stated in the contract of `Credits.Ledger.constructor`.
- `Fleet.Vehicles` is the fixed fleet (src/App.js:76-80). `Fleet.VehicleOffsets` and `SelfChecks.FleetIdsUnique` state its positions and its distinct ids.
- The share constants (0.6, 0.2, 0.1) and the rate of 5 credits per kilogram come from src/App.js:56-61.

## Model

| member | source | states |
|---|---|---|
| `Rounding.Round` | src/App.js:56-61 | `Math.round(x)` is the integer r with r − 1/2 ≤ x < r + 1/2 |
| `Rounding.RoundUnique` | src/App.js:56-61 | that integer is the only one with this property (both directions) |
| `Rounding.RoundIsNearest` | src/App.js:56-61 | the result is a nearest integer to x; of two equally near integers it is the larger (halves go up) |
| `Credits.OrZero` | src/App.js:47 | `Number(x) \|\| 0` is 0 exactly for NaN and zero; otherwise it is the number itself |
| `Credits.NameOrGuest` | src/App.js:136 | a non-empty answer is kept as given; an empty or cancelled answer becomes "Guest" |
| `Credits.Accrue` | src/App.js:54-59 | adding the independently rounded shares of a non-negative mass lowers no counter |
| `Credits.EarnedFor` | src/App.js:61 | the credits earned are within half a credit of 5 per kilogram, and never negative for a non-negative mass |
| `Credits.Step` | src/App.js:45-73 | the transition for contribution, redemption and sign-in: it lowers no counter, keeps the invariant, and credits fall only through an accepted redemption, by exactly its amount |
| `Credits.NonPositiveContributionIgnored` | src/App.js:47-51 | a NaN, zero or negative amount is rejected and leaves counters and user record unchanged |
| `Credits.PositiveContributionAccepted` | src/App.js:54-62 | for kg > 0: credits + round(5kg), contributedKg + kg, counters + round(0.6kg), round(0.2kg), round(0.1kg), name kept |
| `Credits.RedemptionExact` | src/App.js:66-73 | a redemption lowers credits by the amount when `amount ≤ credits`, else changes nothing; counters, name and mass are untouched |
| `Credits.RunKeepsSound` | src/App.js:45-73 | any sequence of events from a sound state ends in a sound state |
| `Credits.RunCountersGrow` | src/App.js:54-59 | over any sequence of events no impact counter decreases |
| `Credits.DefaultSessionTrace` | src/App.js:13-73 | from the initial state, contributing 10 kg gives credits 170, mass 28, counters +6/+2/+1; redeeming 100 gives 70; a second 100 is refused, leaving 70 |
| `Credits.Ledger.constructor` | src/App.js:13-23 | starts with counters 12500/3200/8600 and the default user ("Guest", 120, 18) |
| `Credits.Ledger.Contribute` | src/App.js:45-64 | new state is `Step` of the old one; a non-positive amount gives `InvalidAmount` and no change; otherwise `Earned(round(5kg))` with the exact deltas on every field; the invariant is kept |
| `Credits.Ledger.Redeem` | src/App.js:66-73 | `InsufficientCredits` with no change when `credits < amount`; otherwise `Redeemed(amount)` with credits lowered by exactly `amount`; counters unchanged; the invariant is kept |
| `Credits.Ledger.SignIn` | src/App.js:136 | replaces only the name, with an empty answer becoming "Guest" |
| `Credits.DefaultSession` | src/App.js:45-73 | the example session run on a fresh `Ledger` object returns `Earned(50)`, `Redeemed(100)`, `InsufficientCredits` and ends with 70 credits |
| `Fleet.Project` | src/App.js:83-91 | the affine projection loses no information: `Unproject` recovers the coordinate |
| `Fleet.ProjectRoundTrip` | src/App.js:83-91 | the projection is a bijection: `Unproject` undoes it and it undoes `Unproject` |
| `Fleet.ProjectOrigin` | src/App.js:83-91 | a coordinate maps to (0, 0) exactly when it is the reference point (17.38, 78.47) |
| `Fleet.ProjectOrientation` | src/App.js:83-91 | x increases with longitude and y decreases with latitude (both directions) |
| `Fleet.VehicleOffsets` | src/App.js:76-91 | the three trucks project to (80, −25), (50, −100) and (150, −75) |
| `SelfChecks.Ids` | src/App.js:102 | the id list has one entry per vehicle, in order |
| `SelfChecks.ElementsCount` | src/App.js:102-104 | a list never has more distinct values than entries; it has as many exactly when no value repeats |
| `SelfChecks.IdsUnique` | src/App.js:102-104 | the set-size check passes exactly when no two vehicles share an id |
| `SelfChecks.FieldsValid` | src/App.js:107 | the status check passes for every list, since a status is either Active or Idle |
| `SelfChecks.FleetIdsUnique` | src/App.js:76-80 | the page's three vehicles have distinct ids, so their id check passes |
| `SelfChecks.RunDevTests` | src/App.js:94-115 | four results; the id check passes iff ids are distinct, the counter check iff all three counters are ≥ 0; the other two always pass |
| `SelfChecks.DevTestsAlwaysPass` | src/App.js:94-117 | after any sequence of user actions from the initial state, all four self-checks pass |
| `SelfChecks.ValidLedgerPassesChecks` | src/App.js:110-112 | a ledger object in a valid state passes all four self-checks |

## Left out

- Loading the stored user record and saving it on every change (src/App.js:21-22, 41-43) are browser storage I/O. The ledger starts from the default record.
- Turning the form's text into a number is not modelled. The model starts from the result of `Number(...)`: a finite number or NaN. `Infinity` and IEEE-754 rounding of products such as `kg * 0.6` are not modelled. Amounts are exact reals.
- Status messages, `toFixed` and `toLocaleString` formatting, and the self-checks' `details` strings are display text. The operations return outcome datatypes instead.
- `RunDevTests`: the finiteness check (src/App.js:98-99) always passes over the reals. The `typeof` checks (src/App.js:107) always pass on typed data.
- The model is sequential. In the source, `redeemCredits` tests the balance captured at render time but debits through the setter's `prev` value. This only differs when updates are batched.
- The browser `prompt` dialog is a parameter of `SignIn`. A cancelled dialog and an empty answer are both the empty string.
- The JSX markup, CSS, the SVG marker offset (`200 + pos.x`), and the static products, leaderboard and learning-hub content are presentation only.
