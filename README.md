# Household finance rule engine in Dafny

A verified model of a small household-finance domain with four cooperating
entities:

- **Money** (`Money.dfy`, module `MoneyModel`) is an integer amount
  tagged with one of the currency codes USD, GBP, EUR and CAN. Conversion goes
  through US dollars using two fixed rate tables, `ToUSD` and `FromUSD`. The
  result is rounded to the nearest integer, with ties going away from zero.
  `Add` gives its result in the argument's currency. `Subtract` gives its
  result in the receiver's currency. An unknown currency code yields
  `Err(InvalidCurrency)`. The lookup failure `MissingConversionRate` is kept as
  a branch, and `Convert`'s contract proves that it never happens for any
  Money the initializer can produce.
- **Job** (`Job.dfy`, module `JobModel`) is a class with a constant title and a
  compensation scheme `JobType`, which is `Hourly(rate)` or `Salary(salary)`.
  Income of an hourly job is rate times hours, truncated toward zero. A
  salary's income ignores the hours. The two raise methods replace the scheme
  in place.
- **Person** (`Person.dfy`, module `PersonModel`) is a class whose `job` and
  `spouse` setters are age-gated. A job assigned at age 16 or younger is
  stored as `null`, and so is a spouse assigned at age 18 or younger.
- **Family** (`Family.dfy`, module `FamilyModel`) is a class holding a
  sequence of members. Founding it links two unmarried people to each other;
  `Create` refuses anyone who already has a spouse. `HaveChild` appends the
  child only when some member is 21 or older. `HouseholdIncome` sums the
  members' incomes, assuming 2000 hours when none is given.

`Numerics.dfy` holds the two real-to-integer conversions: truncation toward
zero (a Swift `Int(...)` or `UInt(...)` of a `Double`) and `rounded()`. Each is
characterised by an independent predicate.

Rates and hourly wages are exact `real`s. With them, `ToUSD[c] * FromUSD[c]`
is exactly 1 for every currency.

Three consequences of following the code exactly:

- EUR's rate to USD is `2.0 / 3.0` in the code, so it is exactly 2/3 here.
- Hourly income uses `Int(...)` of a `Double`, which truncates toward zero.
  For a negative product this differs from rounding down.
- A salary raise goes through `UInt(...)`, which traps when its argument is
  -1 or less. Each raise method therefore has a precondition that excludes
  the trapping inputs.

## Model

| member | source | states |
|---|---|---|
| Numerics.Truncate | Sources/DomainModel/DomainModel.swift:87 | the result is the real with its fraction dropped (toward zero), non-negative for non-negative input |
| Numerics.Round | Sources/DomainModel/DomainModel.swift:47 | the result is a nearest integer to the real, and on a tie the one farther from zero |
| MoneyModel.NewMoney | Sources/DomainModel/DomainModel.swift:29-35 | construction succeeds exactly when the code is one of USD, GBP, EUR, CAN, keeping amount and code; otherwise it fails with InvalidCurrency |
| MoneyModel.Convert | Sources/DomainModel/DomainModel.swift:37-51 | succeeds exactly for a valid target code (so the missing-rate failure never occurs for a Money the initializer can produce), yields the target currency, and its amount is the exact converted amount rounded to nearest with ties away from zero |
| MoneyModel.Add | Sources/DomainModel/DomainModel.swift:53-57 | the result is in the argument's currency, its amount is the receiver converted into that currency plus the argument's amount, and lies within one half of the exact sum |
| MoneyModel.Subtract | Sources/DomainModel/DomainModel.swift:59-63 | the result is in the receiver's currency, its amount is the receiver's amount minus the argument converted into that currency, and lies within one half of the exact difference |
| MoneyModel.RatesCoverEveryCurrency | Sources/DomainModel/DomainModel.swift:15-27 | every valid currency has a positive entry in both rate tables |
| MoneyModel.RateToSelfIsOne | Sources/DomainModel/DomainModel.swift:15-27 | for every currency, the rate to USD times the rate from USD is exactly 1 |
| MoneyModel.RatesAreReciprocal | Sources/DomainModel/DomainModel.swift:15-27 | the rate from a to b times the rate from b to a is exactly 1 |
| MoneyModel.ConvertToOwnCurrency | Sources/DomainModel/DomainModel.swift:37-51 | converting a Money into its own currency returns the same Money |
| MoneyModel.ConvertExact | Sources/DomainModel/DomainModel.swift:42-47 | when the exact converted amount is a whole number k, conversion yields exactly k in the target currency |
| MoneyModel.ExactConversionRoundTrips | Sources/DomainModel/DomainModel.swift:37-51 | a conversion that lands on a whole number converts back to the original Money |
| MoneyModel.SameCurrencyArithmetic | Sources/DomainModel/DomainModel.swift:53-63 | for two Money of one currency, add and subtract are plain integer sum and difference in that currency |
| MoneyModel.SubtractSelfIsZero | Sources/DomainModel/DomainModel.swift:59-63 | subtracting a Money from itself gives zero in its currency |
| MoneyModel.DollarsAndPounds | Sources/DomainModel/DomainModel.swift:37-57 | 100 USD converts to 50 GBP, 50 GBP to 100 USD, and 10 USD plus 5 USD is 15 USD |
| MoneyModel.HalvesRoundAwayFromZero | Sources/DomainModel/DomainModel.swift:45-47 | 1 USD and -1 USD convert to 1 GBP and -1 GBP (halves round away from zero), and 1 GBP converts to 2 USD, so round trips can drift |
| JobModel.JobType.Income | Sources/DomainModel/DomainModel.swift:84-91 | a salary earns the salary whatever the hours; an hourly wage earns rate times hours truncated toward zero |
| JobModel.Job.constructor | Sources/DomainModel/DomainModel.swift:79-82 | the new job has the given title and scheme |
| JobModel.Job.RaiseByAmount | Sources/DomainModel/DomainModel.swift:93-100 | the scheme becomes the raised scheme: an hourly rate plus the amount, a salary plus the amount's whole part |
| JobModel.Job.RaiseByPercent | Sources/DomainModel/DomainModel.swift:102-112 | the scheme becomes the raised scheme: an hourly rate times one plus the fraction, a salary times one plus the fraction truncated |
| JobModel.ZeroRaiseChangesNothing | Sources/DomainModel/DomainModel.swift:93-112 | a raise of zero, by amount or by percent, leaves the scheme unchanged |
| JobModel.SalaryIgnoresHours | Sources/DomainModel/DomainModel.swift:88-89 | a salaried job's income is the same for any two hour counts |
| JobModel.RaiseByAmountNeverLowersIncome | Sources/DomainModel/DomainModel.swift:93-100 | a non-negative raise by amount never lowers the income for non-negative hours |
| JobModel.SalaryRaiseAddsWholePart | Sources/DomainModel/DomainModel.swift:97-98 | a salary raised by an amount earns exactly the whole part of that amount more, so a raise below 1 is lost |
| JobModel.RaiseByPercentNeverLowersIncome | Sources/DomainModel/DomainModel.swift:102-112 | a non-negative percentage raise never lowers the income for non-negative wage and hours |
| JobModel.WorkedExamples | Sources/DomainModel/DomainModel.swift:84-112 | 15.00 an hour for 10 hours earns 150, a 1000 salary earns 1000 for any hours, and 20.00 raised by ten percent is 22.00 |
| PersonModel.Person.constructor | Sources/DomainModel/DomainModel.swift:150-156 | names and age are as given, and job and spouse start absent |
| PersonModel.Person.SetJob | Sources/DomainModel/DomainModel.swift:125-135 | the job becomes the assigned one when the age is over 16 and absent otherwise; spouse, names and age are unchanged |
| PersonModel.Person.SetSpouse | Sources/DomainModel/DomainModel.swift:137-148 | the spouse becomes the assigned one when the age is over 18 and absent otherwise; job, names and age are unchanged |
| FamilyModel.Family.constructor | Sources/DomainModel/DomainModel.swift:177-179 | for two unmarried people, each one's spouse becomes the other when that one is over 18 (absent otherwise), and the members are exactly the two in order; jobs, names and ages are unchanged |
| FamilyModel.Family.Create | Sources/DomainModel/DomainModel.swift:172-180 | fails, changing nothing, exactly when either person already has a spouse; otherwise yields a new family whose members are the two in order, each linked to the other when over 18; jobs, names and ages are unchanged in both cases |
| FamilyModel.Family.HaveChild | Sources/DomainModel/DomainModel.swift:182-197 | returns true exactly when some current member is 21 or older; then the members are the old ones plus the child (no uniqueness check), else they are unchanged |
| FamilyModel.Family.HouseholdIncome | Sources/DomainModel/DomainModel.swift:198-209 | the result is the combined income of the employed members for the given hours, or for 2000 hours when none is given |
| FamilyModel.NobodyEmployedEarnsNothing | Sources/DomainModel/DomainModel.swift:198-209 | a household in which nobody holds a job earns 0 |
| FamilyModel.EarningsOfConcatenation | Sources/DomainModel/DomainModel.swift:200-206 | the income of two groups of people together is the sum of their separate incomes |
| FamilyModel.UnemployedNewcomerAddsNothing | Sources/DomainModel/DomainModel.swift:202-205 | adding a person without a job leaves the household income unchanged |
| FamilyModel.SalariedHouseholdIgnoresHours | Sources/DomainModel/DomainModel.swift:198-209 | when every employed member is salaried, household income is the same for any two hour counts |
| FamilyModel.AdultRemainsAfterChild | Sources/DomainModel/DomainModel.swift:182-197 | once the members include someone 21 or older, they still do after a child is appended, so later children are admitted too |

## Left out

- The `DomainModel` struct with its `text` field (Sources/DomainModel/DomainModel.swift:1-6) is not modelled. It only exists for the test harness.
- `Person.toString` is not modelled. Its output depends on how the Swift runtime prints a class instance.
- IEEE-754 `Double` arithmetic is not modelled. Rates, wages and percentages are exact reals, so the model's properties hold for exact arithmetic, and no rounding-error facts are claimed.
- Integer width is not modelled. `Int` overflow in `add`, `subtract` and `householdIncome`, `UInt` overflow in the raises, and the trap of `Int(...)` on an out-of-range `Double` are left out: all integers here are unbounded.
- JobModel.Job.RaiseByAmount: a salaried job requires `amount > -1`. In the source, `UInt(byAmount)` traps for such amounts, so this precondition stands for the trap.
- JobModel.Job.RaiseByPercent: a salaried job requires `salary * (1 + percent) > -1`. In the source, `UInt(...)` traps below that.
- FamilyModel.Family.constructor: the already-married check is a precondition here. The fatal path itself is modelled by `Create`, which returns `null` and changes nothing.
- The `validCurrency` list is a constant here. In the source it is a `static var` that nothing ever assigns.
- The getters of `job` and `spouse` are modelled by reading the fields directly.
- Money's fields are fixed at construction here. In the source, `amount` and `currency` are `var`s that code in the module could reassign, for example to an unknown code. Such a value would reach the missing-rate `fatalError` in `convert` (Sources/DomainModel/DomainModel.swift:48-50), and `add` and `subtract` would fail through it. The model cannot express such a value, because `Money.currency` has the type `Currency`, so that path is unreachable here.
- Person's private storage is not hidden. In the source, `_job` and `_spouse` are `private`, so the gated setters are the only way to write them. Dafny cannot hide the `job` and `spouse` fields here, so the age gates hold only when assignments go through `SetJob` and `SetSpouse`, as every operation in this model does.
