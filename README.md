# Calculator pages in Dafny

This project is a Dafny model of the arithmetic and state handling in a set of independent calculator pages from a React/TypeScript web app. It covers the auto-loan, mortgage, time, date, age, GPA, general, BMI, compound-interest, percentage and tip calculators.

Each page is a class. Its fields are the page's React state, and its methods are the page's event handlers, as the page has them. The formulas inside the handlers are pure functions, and the properties the pages promise are lemmas about those functions.

The GPA page has two bugs (see "## Findings"). Its handlers `CalculateGpa` and `CalculatePercentile` model the page as written. The corrected behaviour is in separate members: `CountCourse`, `ReadGpa`, `GpaPage.CalculateGpaIntended` and `GpaPage.CalculatePercentileIntended`.

JavaScript numbers are modelled as follows:
- Money, BMI, GPA and percentages are exact `real`s.
- Time, date and age values are `int`s, because there the JavaScript values are exact integers.
- A number that can be NaN is an `Option<real>`, with `None` standing for NaN.

JavaScript's own operations are written out explicitly:
- `Math.floor`, `Math.round` and the truncating `%`, in module `JsMath`;
- `parseInt`, `parseFloat`, `split` and `trim`, in module `Parsing`;
- `toFixed`, in module `FixedPoint`, including the proof that `parseFloat` reads a `toFixed` text back as the rounded number.

The shared modules are:
- `Options`, `JsMath`, `Parsing` and `FixedPoint`: the JavaScript semantics above;
- `History`: the capped, newest-first lists the pages keep;
- `Amortization`: the annuity schedule.

The page modules are:
- `AutoLoan`, `Mortgage`, `TimeCalc`, `DateCalc`, `AgeCalc`;
- `Gpa`, `Calculator`, `Bmi`, `CompoundInterest`, `Percentage`, `Tip`.

Some inputs come from outside the page. The model takes them as parameters:
- the millisecond timestamps of the date page;
- the age page's millisecond difference from now;
- what the general calculator's expression evaluator returned.

## Model

| member | source | states |
|---|---|---|
| History.PrependCapped | app/mortgage-calculator/page.tsx:78-81 | `[entry, ...prev].slice(0, cap)`: the entry is first, the length is min(old+1, cap), and the rest are the previous entries in order |
| History.PrependCappedDropsOldest | app/mortgage-calculator/page.tsx:78-81 | once the list is full, a new entry pushes out exactly the oldest one |
| History.RemoveAt | app/gpa-calculator/page.tsx:242-246 | `splice(i, 1)` removes entry i, keeps the others in order, and leaves the list alone for an index past the end |
| History.RemoveAtMultiset | app/gpa-calculator/page.tsx:242-246 | deleting an entry removes exactly one occurrence of it and nothing else |
| JsMath.FloorDiv | app/age-calculator/page.tsx:35-39 | `Math.floor(a / b)` for a positive divisor is the q with b·q ≤ a < b·q + b |
| JsMath.Rem | app/time-calculator/page.tsx:84-86 | JavaScript's `%` keeps the dividend's sign: in [0, b) for a ≥ 0, in (−b, 0] for a < 0, and a − r is a multiple of b, which fixes r |
| JsMath.Round | app/bmi-calculator/page.tsx:67-71 | `Math.round(x)` is within half a unit of x, ties going up |
| Parsing.BlankIffTrimsToEmpty | app/calculator/page.tsx:61 | a display counts as blank exactly when trimming leaves nothing |
| Parsing.JoinSplit | app/time-calculator/page.tsx:19-21 | `split` loses nothing: joining the parts with the separator gives the text back |
| Parsing.SplitJoin | app/time-calculator/page.tsx:19-21 | parts without the separator, joined and then split, come back as the same parts |
| Parsing.ParseIntOfIntToString | app/time-calculator/page.tsx:19-21 | `parseInt` reads a rendered whole number back, whatever non-digit text follows it |
| FixedPoint.ToFixed | app/gpa-calculator/page.tsx:89 | a `toFixed` text is never empty and never holds a space |
| FixedPoint.NumberToFixed | app/gpa-calculator/page.tsx:227 | `toFixed` writes NaN as "NaN" and any number as its fixed-point text |
| FixedPoint.FixedValueIsNear | app/bmi-calculator/page.tsx:45 | the number a `toFixed(f)` text denotes is within half a unit of the f-th decimal of the original |
| FixedPoint.ParseFloatOfToFixed | app/bmi-calculator/page.tsx:45 | `parseFloat` reads a `toFixed(f)` text back as exactly the rounded number it denotes |
| Amortization.MonthlyRate | app/auto-loan-calculator/page.tsx:21 | the monthly rate is the annual percentage / 1200, and it is positive for a positive rate |
| Amortization.TermMonths | app/auto-loan-calculator/page.tsx:18 | the term in months is a multiple of 12 whose twelfth is the term in years |
| Amortization.AnnuityPayment | app/auto-loan-calculator/page.tsx:24-26 | `L·r/(1−(1+r)^−n)` exceeds the first month's interest for L > 0, and is 0 for L = 0 |
| Amortization.ScheduleRow | app/auto-loan-calculator/page.tsx:34-45 | row i has month i+1 and the fixed payment; interest = balance·r; principal + interest = payment; the new balance = old balance − principal |
| Amortization.Schedule | app/auto-loan-calculator/page.tsx:32-46 | exactly n rows, row i being `ScheduleRow` i |
| Amortization.BuildSchedule | app/auto-loan-calculator/page.tsx:32-46 | the worker's loop carrying `balance` builds exactly `Schedule`: n rows numbered 1..n, each with the same total payment |
| Amortization.PrincipalTelescopes | app/auto-loan-calculator/page.tsx:32-46 | for any payment, the principal column plus the final balance equals the amount financed |
| Amortization.BalanceClosedForm | app/auto-loan-calculator/page.tsx:33-37 | the balance after k rows satisfies balance·r = L·r·q − payment·(q−1) with q = (1+r)^k |
| Amortization.AnnuityOverCommonDenominator | app/auto-loan-calculator/page.tsx:24-26 | the annuity payment times ((1+r)^n − 1) is L·r·(1+r)^n |
| Amortization.FinalBalanceIsZero | app/auto-loan-calculator/page.tsx:24-46 | with the annuity payment, the balance after the n-th row is exactly 0 |
| Amortization.AnnuityRepaysAmount | app/auto-loan-calculator/page.tsx:24-46 | with the annuity payment, the principal column sums to the amount financed |
| Amortization.PrincipalGrows | app/auto-loan-calculator/page.tsx:35-37 | each row's principal is the previous row's times (1 + r) |
| Amortization.PrincipalPositive | app/auto-loan-calculator/page.tsx:35-37 | when the payment exceeds the first interest, every row's principal is positive |
| Amortization.BalanceDecreases | app/auto-loan-calculator/page.tsx:35-37 | for a positive amount and the annuity payment, the balance strictly falls from row to row |
| AutoLoan.FinancedAmount | app/auto-loan-calculator/page.tsx:16-17 | L = (loan − down − trade-in)·(1 + tax/100); it equals the net amount with no tax; and for tax > −100% it is positive or zero exactly when the net amount is (nothing requires L > 0) |
| AutoLoan.QuoteSettlesLoan | app/auto-loan-calculator/page.tsx:24-46 | the worker's numbers settle the loan: one row per month, the principal column repays the financed amount, the last balance is 0, and total paid = amount + interest |
| AutoLoan.Message | app/auto-loan-calculator/page.tsx:38-52 | the posted schedule has one row per computed row, each being that row with its amounts written by `toFixed(2)` |
| AutoLoan.Cents | app/auto-loan-calculator/page.tsx:40-51 | a `toFixed(2)` text reads back through `parseFloat` as its number to within half a cent |
| AutoLoan.PostedAmountsReadBack | app/auto-loan-calculator/page.tsx:38-52 | every posted amount (the payment, both totals, and each row's four cells) reads back as the exact amount to within half a cent, and keeps its month number |
| AutoLoan.LoanWorker | app/auto-loan-calculator/page.tsx:13-53 | the worker body, including its schedule loop, posts exactly `Message(Quote(...))`: the annuity payment, payment·n, payment·n − L and the schedule, each rendered to two decimals |
| AutoLoan.AutoLoanPage.constructor | app/auto-loan-calculator/page.tsx:60-71 | all inputs start at 0; the results start at the numeric 0 (`None`) with an empty schedule, no error and no loading |
| AutoLoan.AutoLoanPage.CalculateLoan | app/auto-loan-calculator/page.tsx:74-113 | invalid inputs (amount, rate or term ≤ 0) set the error and leave results and the loading flag unchanged; valid inputs clear the error and store the worker's posted texts, as `Message(Quote(...))` says |
| AutoLoan.AutoLoanPage.OnMessage | app/auto-loan-calculator/page.tsx:94-107 | the reply handler stores the four posted results and stops loading |
| AutoLoan.AutoLoanPage.ClearFields | app/auto-loan-calculator/page.tsx:115-127 | every input and result is back to zero or empty, the error is cleared, and the loading flag is untouched |
| Mortgage.FirstWithCode | app/mortgage-calculator/page.tsx:105 | the index of the first currency with the code, or the list length when there is none |
| Mortgage.FindCurrency | app/mortgage-calculator/page.tsx:105 | a known code selects that currency; an unknown code falls back to currencies[0] (USD) |
| Mortgage.MortgagePayment | app/mortgage-calculator/page.tsx:71-73 | `P·r·(1+r)^n/((1+r)^n−1)` equals the auto-loan annuity payment and exceeds P·r for P > 0; rate > 0 and term ≥ 1 are required |
| Mortgage.PaymentFormsAgree | app/mortgage-calculator/page.tsx:71-73 | the mortgage form of the payment and the auto-loan form agree for r > 0 and n ≥ 1 |
| Mortgage.TotalMonthlyPayment | app/mortgage-calculator/page.tsx:66-75 | the total payment exceeds the base payment by exactly (propertyTax + insurance)/12 |
| Mortgage.MortgagePage.constructor | app/mortgage-calculator/page.tsx:44-53 | the initial loan is 200000 at 3.5% over 30 years in USD, with an empty history |
| Mortgage.MortgagePage.CalculateMortgage | app/mortgage-calculator/page.tsx:66-82 | the displayed payment is the total payment; the new entry goes first and records the inputs, the currency and the payment; the history is capped at 10 and the rest is the previous prefix |
| Mortgage.MortgagePage.SelectCurrency | app/mortgage-calculator/page.tsx:105 | the currency becomes the lookup result, which is always one of the offered currencies |
| TimeCalc.PartAt | app/time-calculator/page.tsx:19-21 | a missing part reads as NaN |
| TimeCalc.ParseFormatClock | app/time-calculator/page.tsx:72-88 | an `H:M:S` text the page shows reads back, through split and parseInt, as the same three numbers |
| TimeCalc.EmptyIsNotATime | app/time-calculator/page.tsx:19-35 | an empty field does not read as a time |
| TimeCalc.DurationParts | app/time-calculator/page.tsx:46-48 | hours·3600 + minutes·60 + seconds equals the difference, with 0 ≤ minutes, seconds < 60 |
| TimeCalc.ClockSumWraps | app/time-calculator/page.tsx:80-86 | for non-negative fields, the sum is on the clock (h < 24, m, s < 60), and its seconds are (start + added) mod 86400 |
| TimeCalc.ClockDifferenceWraps | app/time-calculator/page.tsx:118-132 | for clock readings, the single borrows give a clock reading equal to (start − subtracted) mod 86400 |
| TimeCalc.SubtractBorrowsOnce | app/time-calculator/page.tsx:118-132 | with out-of-range input, one borrow per field can leave negative seconds (0:0:0 minus 0:0:90 gives 23:59:-30) |
| TimeCalc.SubtractUndoesAdd | app/time-calculator/page.tsx:80-132 | on clock readings, subtracting what was just added restores the start time |
| TimeCalc.TimePage.constructor | app/time-calculator/page.tsx:10-15 | all fields are empty, with no result and no error |
| TimeCalc.TimePage.CalculateTimeDifference | app/time-calculator/page.tsx:17-56 | a format error, or else an end-before-start error, or else the difference text; exactly one of result and error is set |
| TimeCalc.TimePage.ReportDifference | app/time-calculator/page.tsx:37-55 | the same outcome, for two times already read |
| TimeCalc.TimePage.AddTime | app/time-calculator/page.tsx:58-94 | the added time is validated before the start time, with distinct messages; then the carried and wrapped sum is shown and the error is cleared |
| TimeCalc.TimePage.ReportSum | app/time-calculator/page.tsx:80-93 | the loop-free carry arithmetic on `newSeconds`/`newMinutes`/`newHours` shows `ClockSum` |
| TimeCalc.TimePage.SubtractTime | app/time-calculator/page.tsx:96-140 | the same validation order as adding; then the borrowed difference is shown |
| TimeCalc.TimePage.ReportSubtraction | app/time-calculator/page.tsx:118-139 | the step-by-step borrows show `ClockDifference` |
| DateCalc.TimeDiff | app/date-calculator/page.tsx:30 | timeDiff is \|end − start\|, and it is 0 exactly for equal dates |
| DateCalc.DateDifference | app/date-calculator/page.tsx:32-37 | months < 12, days ≤ 30, hours < 24, minutes and seconds < 60 |
| DateCalc.MonthRemainder | app/date-calculator/page.tsx:32-34 | the year unit is exactly 12 month units, so the remainder by a year and then by a month is the remainder by a month |
| DateCalc.DateDifferenceAddsUp | app/date-calculator/page.tsx:32-34 | the years, months and days shown, each times its unit, never exceed timeDiff and fall short of it by less than one day; the hours, minutes and seconds shown come from `timeDiff % day`, not from that shortfall, because the month unit is 30.4375 days |
| DateCalc.TimeOfDayAddsUp | app/date-calculator/page.tsx:34-37 | the hours, minutes and seconds shown, each times its unit, never exceed `timeDiff % day` and fall short of it by less than one second |
| DateCalc.WholeDaysShowNoTime | app/date-calculator/page.tsx:35-37 | a whole number of days shows 0 hours, 0 minutes and 0 seconds |
| DateCalc.SwappedDatesAgree | app/date-calculator/page.tsx:30-41 | swapping the two dates gives the same result text |
| DateCalc.DatePage.constructor | app/date-calculator/page.tsx:10-12 | both dates and the result start empty |
| DateCalc.DatePage.HandleDateChange | app/date-calculator/page.tsx:14-20 | only the named date field changes |
| DateCalc.DatePage.CalculateDateDifference | app/date-calculator/page.tsx:22-42 | a missing date leaves the result unchanged (the alert); otherwise the breakdown of \|end − start\| is shown |
| DateCalc.DatePage.ClearFields | app/date-calculator/page.tsx:44-48 | both dates and the result are reset to "" |
| AgeCalc.AgeBreakdown | app/age-calculator/page.tsx:35-41 | months is exactly 12·years |
| AgeCalc.FloorDivTwice | app/age-calculator/page.tsx:35-38 | two chained floor divisions are one floor division by the product |
| AgeCalc.ChainedFloors | app/age-calculator/page.tsx:35-38 | minutes, hours and days are single floors of diffMs by 60000, 3600000 and 86400000 |
| AgeCalc.YearsFromDays | app/age-calculator/page.tsx:40 | ⌊days/365.25⌋ equals (4·days) div 1461 |
| AgeCalc.PastBirthOrdered | app/age-calculator/page.tsx:35-40 | for diffMs ≥ 0, every field is ≥ 0 and seconds ≥ minutes ≥ hours ≥ days ≥ weeks ≥ years |
| AgeCalc.FutureBirthNonPositive | app/age-calculator/page.tsx:33-41 | a future birth date (diffMs < 0) makes every field negative |
| AgeCalc.AgePage.constructor | app/age-calculator/page.tsx:8-25 | no date of birth, and all fields 0 |
| AgeCalc.AgePage.OnDobChange | app/age-calculator/page.tsx:27-64 | a new non-empty date of birth recomputes the breakdown; an unchanged or empty one leaves it alone |
| Gpa.GradePoints | app/gpa-calculator/page.tsx:12-44 | only the eight offered grades have points; points are within [0, scale]; only F is worth 0; A+ is worth the whole scale |
| Gpa.Readings | app/gpa-calculator/page.tsx:73-75 | one reading per course |
| Gpa.ReadingAt | app/gpa-calculator/page.tsx:73-75 | reading k is course k's grade points and parsed credits |
| Gpa.TallyStep | app/gpa-calculator/page.tsx:73-80 | the totals after i+1 courses are one loop step on from the totals after i |
| Gpa.CountCourseAsWritten | app/gpa-calculator/page.tsx:74-79 | the loop body as written: a course with falsy grade points (an unknown grade or an F) or NaN credits is skipped; any other adds its credits and weighted points, exactly as `Step` under `SkipFalsy` |
| Gpa.CountCourse | app/gpa-calculator/page.tsx:74-79 | the corrected loop body: only an unknown grade or NaN credits are skipped, so an F adds its credits, exactly as `Step` under `SkipUnknown` |
| Gpa.ThreeCreditF | app/gpa-calculator/page.tsx:74-75 | example: an F of "3" credits reads as 0 points and 3 credits, and an A+ as 4 points on the 4-point scale |
| Gpa.FailingGradeCounts | app/gpa-calculator/page.tsx:76-79 | with the corrected rule, an F adds its credits and no points |
| Gpa.FailingGradeIgnored | app/gpa-calculator/page.tsx:76 | the page's rule drops an F entirely: A+ and F at 3 credits each total 3 credits and 12 points, instead of 6 credits |
| Gpa.TallyWithinScale | app/gpa-calculator/page.tsx:73-80 | with positive credits, the totals keep 0 ≤ points ≤ scale·credits |
| Gpa.ReadingsWithinScale | app/gpa-calculator/page.tsx:12-44 | every reading's points are within [0, scale] |
| Gpa.GpaWithinScale | app/gpa-calculator/page.tsx:69-87 | with positive credits, the GPA lies in [0, scale] |
| Gpa.AverageBelow | app/gpa-calculator/page.tsx:87 | points ≤ scale·credits with positive credits gives 0 ≤ points/credits ≤ scale |
| Gpa.PercentileValue | app/gpa-calculator/page.tsx:102-109 | the percentile is gpa/scale·100 on scales 4 and 10, and none on scale 8 |
| Gpa.PercentileToGpa | app/gpa-calculator/page.tsx:112-119 | the GPA is percentile/100·scale on scales 4 and 10, 0 on scale 8, and NaN stays NaN |
| Gpa.PercentileRoundTrip | app/gpa-calculator/page.tsx:102-119 | on scales 4 and 10, the two conversions invert each other, before toFixed |
| Gpa.GpaToPercentile | app/gpa-calculator/page.tsx:102-109 | the text is the "Not supported" message on scale 8, "NaN%" for NaN, and otherwise the percentile to two decimals plus "%" |
| Gpa.GpaTextWords | app/gpa-calculator/page.tsx:89 | "Your GPA is: x" splits on spaces into four words, the number being the fourth |
| Gpa.PercentileReadsLabel | app/gpa-calculator/page.tsx:124 | `split(" ")[2]` is "is:", so the percentile button always reads NaN and shows "NaN%" |
| Gpa.PercentileOfGpaLine | app/gpa-calculator/page.tsx:122-126 | after any "Your GPA is: x" line the page writes, the percentile line is "Your Percentile is: NaN%" on scales 4 and 10 |
| Gpa.PercentileReadsGpa | app/gpa-calculator/page.tsx:124 | reading the fourth word gives back the GPA shown, rounded to two decimals |
| Gpa.OrZero | app/gpa-calculator/page.tsx:224 | `percentage \|\| "0"` is never empty |
| Gpa.GpaPage.constructor | app/gpa-calculator/page.tsx:47-53 | no courses, no GPA, empty history, scale 4 |
| Gpa.GpaPage.AddCourse | app/gpa-calculator/page.tsx:55-57 | appends {"", "A", "3"} and leaves the existing courses unchanged |
| Gpa.GpaPage.HandleCourseChange | app/gpa-calculator/page.tsx:59-67 | only the named field of the course at index changes |
| Gpa.GpaPage.SetScale | app/gpa-calculator/page.tsx:145 | the scale becomes the chosen one |
| Gpa.GpaPage.SetPercentage | app/gpa-calculator/page.tsx:220 | the conversion input becomes the typed text |
| Gpa.GpaPage.CalculateGpa | app/gpa-calculator/page.tsx:69-91 | as written: the totals are `Tally` under the page's rule, which skips every F; zero credits (the alert) leaves the GPA and history unchanged; otherwise the GPA is points/credits to two decimals, and exactly one entry is prepended |
| Gpa.GpaPage.CalculateGpaIntended | app/gpa-calculator/page.tsx:69-91 | the same handler with the corrected rule that counts an F's credits |
| Gpa.GpaPage.CalculateGpaUnder | app/gpa-calculator/page.tsx:69-91 | the handler under either skip rule: the alert when no credits are counted, otherwise the GPA line and one prepended entry |
| Gpa.GpaPage.SumCourses | app/gpa-calculator/page.tsx:70-80 | the loop over the courses, under either skip rule, builds exactly `Tally` of the readings and changes nothing |
| Gpa.GpaPage.CalculatePercentile | app/gpa-calculator/page.tsx:122-128 | as written: with a GPA shown, the percentile line for the third word of the GPA line; after any "Your GPA is: x" line that is "NaN%" on scales 4 and 10; with no GPA nothing changes |
| Gpa.GpaPage.CalculatePercentileIntended | app/gpa-calculator/page.tsx:122-128 | the corrected button: the percentile line for the fourth word, the number in the GPA line |
| Gpa.GpaPage.ConvertGpaToPercentile | app/gpa-calculator/page.tsx:224 | the percentile becomes `gpaToPercentile(parseFloat(percentage \|\| "0"))` |
| Gpa.GpaPage.ConvertPercentileToGpa | app/gpa-calculator/page.tsx:227 | the GPA line becomes the converted GPA to two decimals |
| Gpa.GpaPage.DeleteHistoryEntry | app/gpa-calculator/page.tsx:242-246 | removes exactly the entry at index and keeps the others in order |
| Gpa.GpaPage.ClearHistory | app/gpa-calculator/page.tsx:97-99 | the history is emptied |
| Calculator.FormatNumber | app/calculator/page.tsx:37-42 | a rendering longer than 12 characters uses the exponential text; otherwise it is toFixed text that parseFloat reads back within half a unit of the last decimal |
| Calculator.KeyDisplay | app/calculator/page.tsx:75-87 | "C" clears; backspace drops the last character (an empty display stays empty); any other key is appended only while the display holds fewer than 12 characters, counted as Unicode characters rather than the page's UTF-16 code units |
| Calculator.ButtonIsOneCharacter | app/calculator/page.tsx:96-102 | every keypad button is a single character, and none is the backspace token |
| Calculator.ButtonsKeepDisplayShort | app/calculator/page.tsx:83-86 | button presses never take a display of at most 12 characters past 12 |
| Calculator.BackspaceUndoesAppend | app/calculator/page.tsx:80-86 | backspace takes back an appended one-character key |
| Calculator.AfterEquals | app/calculator/page.tsx:60-73 | a blank display becomes "" and a failure becomes "Error", both with the history unchanged; a success shows the formatted result and prepends {expression, result} with a cap of 10 |
| Calculator.HistoryStaysCapped | app/calculator/page.tsx:68 | any number of evaluations keeps the history at ≤ 10 entries |
| Calculator.CalculatorPage.constructor | app/calculator/page.tsx:20-23 | an empty display and history, 2 decimals, the history shown |
| Calculator.CalculatorPage.SetDisplay | app/calculator/page.tsx:113 | typing replaces the display, with no length limit |
| Calculator.CalculatorPage.SetDecimalPoints | app/calculator/page.tsx:122 | the decimals become the chosen 0 to 5 |
| Calculator.CalculatorPage.ToggleHistory | app/calculator/page.tsx:155 | flips whether the history is shown |
| Calculator.CalculatorPage.CalculateResult | app/calculator/page.tsx:60-73 | the new display and history are `AfterEquals`; the history stays within 10 |
| Calculator.CalculatorPage.HandleInput | app/calculator/page.tsx:75-89 | "=" runs `calculateResult`; any other key changes only the display, as `KeyDisplay` says, with lengths in Unicode characters |
| Bmi.RawBmi | app/bmi-calculator/page.tsx:39-44 | metric BMI·(h/100)² = weight; imperial BMI·h² = weight·703 |
| Bmi.BmiGrowsWithWeight | app/bmi-calculator/page.tsx:40-44 | at a fixed height, a heavier weight gives a larger BMI, in either unit |
| Bmi.BmiOf | app/bmi-calculator/page.tsx:38-44 | the BMI is NaN exactly when height or weight is NaN, and otherwise it is `RawBmi` |
| Bmi.MaleBelowFemale | app/bmi-calculator/page.tsx:48 | for equal BMI and age, the male body fat is exactly 10.8 below the female |
| Bmi.BodyFatSlopes | app/bmi-calculator/page.tsx:48 | body fat rises 1.2 per BMI point and 0.23 per year |
| Bmi.RoundedToTenth | app/bmi-calculator/page.tsx:45-49 | `toFixed(1)` read back by `parseFloat` is the number rounded to the nearest tenth, within 0.05 |
| Bmi.OneDecimal | app/bmi-calculator/page.tsx:45 | `parseFloat(x.toFixed(1))` is x rounded to one decimal (within 0.05), and NaN stays NaN |
| Bmi.CategoryIndex | app/bmi-calculator/page.tsx:56-61 | Underweight iff < 18.5, Normal iff [18.5, 25), Overweight iff [25, 30), Obese iff ≥ 30 or NaN |
| Bmi.GetBmiCategory | app/bmi-calculator/page.tsx:56-61 | every BMI gets one of the four categories |
| Bmi.CategoryMonotone | app/bmi-calculator/page.tsx:56-61 | a larger BMI never gets an earlier category |
| Bmi.EveryCategoryReached | app/bmi-calculator/page.tsx:22-27 | example: each of the four categories is reached by some BMI |
| Bmi.ConvertHeight | app/bmi-calculator/page.tsx:66-72 | the height is converted by ×2.54 or ÷2.54 and rounded to a whole number within half a unit; NaN stays NaN |
| Bmi.ConvertWeight | app/bmi-calculator/page.tsx:66-72 | the weight is converted by ÷2.205 or ×2.205 and rounded to a whole number within half a unit; NaN stays NaN |
| Bmi.HeightRoundTrip | app/bmi-calculator/page.tsx:67-70 | switching to imperial and back moves a height by at most 1.77 cm |
| Bmi.WeightRoundTrip | app/bmi-calculator/page.tsx:68-71 | switching to imperial and back moves a weight by less than 1 kg |
| Bmi.BmiPage.constructor | app/bmi-calculator/page.tsx:30-36 | metric, male, age 30, 170 cm, 70 kg, BMI and body fat 0 |
| Bmi.BmiPage.SetHeight | app/bmi-calculator/page.tsx:128 | the height is the typed text through parseFloat |
| Bmi.BmiPage.SetWeight | app/bmi-calculator/page.tsx:140 | the weight is the typed text through parseFloat |
| Bmi.BmiPage.SetAge | app/bmi-calculator/page.tsx:112 | the age is the slider value, between 2 and 120 |
| Bmi.BmiPage.SetGender | app/bmi-calculator/page.tsx:96 | the gender is the chosen one |
| Bmi.BmiPage.CalculateBmi | app/bmi-calculator/page.tsx:38-50 | the BMI is shown to one decimal; body fat is computed from the unrounded BMI, to one decimal; both are NaN when an input is |
| Bmi.BmiPage.Category | app/bmi-calculator/page.tsx:153 | the shown category is taken from the rounded BMI |
| Bmi.BmiPage.HandleUnitChange | app/bmi-calculator/page.tsx:63-74 | choosing the current unit changes nothing; the other unit converts height and weight |
| CompoundInterest.ReadInputs | app/compound-interest-calculator/page.tsx:20-28 | the inputs are NaN-free exactly when all four fields parse, with the rate divided by 100 |
| CompoundInterest.Periods | app/compound-interest-calculator/page.tsx:32 | the exponent is the whole number n·t |
| CompoundInterest.Interest | app/compound-interest-calculator/page.tsx:32-33 | P + CI = A |
| CompoundInterest.NoPeriodsNoInterest | app/compound-interest-calculator/page.tsx:32-33 | n·t = 0 (no time, or no compounds) gives A = P and CI = 0 |
| CompoundInterest.NoCompoundsNoInterest | app/compound-interest-calculator/page.tsx:22-33 | zero compounds pass the NaN guard and, since `Math.pow(x, 0)` is 1, show A = P and CI = 0 |
| CompoundInterest.AmountAfterSplits | app/compound-interest-calculator/page.tsx:32 | growing for k1 periods and then k2 more is growing for k1 + k2 |
| CompoundInterest.PositiveRateEarns | app/compound-interest-calculator/page.tsx:32-33 | positive principal, rate, compounds and time give positive interest |
| CompoundInterest.CompoundInterestPage.constructor | app/compound-interest-calculator/page.tsx:12-17 | empty fields with compounds "1", no result, no history |
| CompoundInterest.CompoundInterestPage.SetFields | app/compound-interest-calculator/page.tsx:69-108 | the four fields hold the typed texts |
| CompoundInterest.CompoundInterestPage.CalculateCompoundInterest | app/compound-interest-calculator/page.tsx:19-39 | a NaN field (the alert) changes nothing; otherwise the result line shows CI and A to two decimals, and exactly one entry is prepended; zero compounds are accepted and show A = P |
| CompoundInterest.CompoundInterestPage.ShowCalculation | app/compound-interest-calculator/page.tsx:32-38 | the result line shows CI and A to two decimals, and the entry with the inputs goes first in the history |
| CompoundInterest.CompoundInterestPage.AddToHistory | app/compound-interest-calculator/page.tsx:41-43 | the entry is prepended with no cap |
| CompoundInterest.CompoundInterestPage.ClearHistory | app/compound-interest-calculator/page.tsx:45-47 | the history is emptied |
| Percentage.PercentOf | app/percentage-calculator/page.tsx:30 | value·100 = num·perc |
| Percentage.PercentOfTotal | app/percentage-calculator/page.tsx:45 | value·total = num·100, for a non-zero total |
| Percentage.PercentOfTotalInvertsPercentOf | app/percentage-calculator/page.tsx:30-45 | asking what percent p% of a total is gives back p |
| Percentage.PercentOfInvertsPercentOfTotal | app/percentage-calculator/page.tsx:30-45 | taking the computed percentage of the total gives back the number |
| Percentage.ReadFields | app/percentage-calculator/page.tsx:22-23 | both fields through parseFloat; NaN when either is |
| Percentage.CalculatePercentageOf | app/percentage-calculator/page.tsx:21-34 | NaN input is refused; otherwise the line holds perc, num and num·perc/100 |
| Percentage.CalculatePercentageOfTotal | app/percentage-calculator/page.tsx:36-49 | NaN input or perc = 0 is refused; otherwise the line holds num, num/perc·100 and perc |
| Percentage.ZeroPercentageOnlyRefusedByTotal | app/percentage-calculator/page.tsx:25-40 | a percentage of "0" is accepted by percentage-of (giving 0) and refused by percentage-of-total |
| Percentage.PercentagePage.constructor | app/percentage-calculator/page.tsx:12-15 | empty fields, no result, no history |
| Percentage.PercentagePage.SetFields | app/percentage-calculator/page.tsx:72-85 | the fields hold the typed texts |
| Percentage.PercentagePage.Record | app/percentage-calculator/page.tsx:32-33 | a refused line changes nothing; an accepted one is the result and is prepended to the history |
| Percentage.PercentagePage.CalculatePercentage | app/percentage-calculator/page.tsx:21-34 | the result and history after the percentage-of button |
| Percentage.PercentagePage.CalculatePercentageOfTotalButton | app/percentage-calculator/page.tsx:36-49 | the result and history after the percentage-of-total button |
| Percentage.PercentagePage.AddToHistory | app/percentage-calculator/page.tsx:17-19 | the line is prepended with no cap |
| Percentage.PercentagePage.ClearHistory | app/percentage-calculator/page.tsx:51-53 | the history is emptied |
| Tip.TipOf | app/tip-calculator/page.tsx:24 | 100 times the tip is the bill times the percentage; a percentage from 0 to 100 of a non-negative bill gives a tip between 0 and the bill |
| Tip.TotalOf | app/tip-calculator/page.tsx:25 | the total is bill·(1 + p/100), and it exceeds the bill by exactly the tip |
| Tip.ZeroPercentNoTip | app/tip-calculator/page.tsx:24-25 | a tip percentage of 0 gives tip 0 and total = bill |
| Tip.TipGivesBackPercent | app/tip-calculator/page.tsx:24 | for a non-zero bill, the tip is exactly tipPercent percent of the bill |
| Tip.TipPage.constructor | app/tip-calculator/page.tsx:10-13 | empty fields; tip and total unset together |
| Tip.TipPage.SetFields | app/tip-calculator/page.tsx:46-59 | the fields hold the typed texts |
| Tip.TipPage.CalculateTip | app/tip-calculator/page.tsx:15-29 | NaN input (the alert) leaves tip and total unchanged; otherwise both are set together; tip and total are never one set and one unset |

## Left out

- The Web Worker, Blob and `postMessage` plumbing of the auto-loan and age pages is left out, because it is messaging. The worker bodies are modelled, and the worker's reply is taken as arriving before the next handler.
- `safeEval`'s dynamic evaluation of the display is left out, because it is foreign dynamic code. It, and the `toString`/`toExponential` texts `formatNumber` relies on, arrive as an `Evaluation` value.
- IEEE-754 binary floating point is left out: rounding drift, Infinity, and `toFixed`'s exponential form at 10^21. Numbers are exact reals.
- `parseFloat`'s `Infinity` literal is left out. A field that spells it reads as NaN here.
- Currency formatting (`toLocaleString`) is left out.
- The rendering of a number with `Number.prototype.toString` is left out. This affects the compound-interest and percentage history lines and the GPA history line. Those entries keep the numbers and the `toFixed` texts instead of the final strings.
- `Date` parsing and the current clock are left out. The date page takes two millisecond timestamps, and the age page takes the difference from now.
- localStorage persistence, `JSON.parse`/`stringify` and clipboard writes are left out, because they are I/O.
- `alert()` is left out. It is modelled as an outcome that leaves the state unchanged.
- JSX rendering, the theme and settings menu, the navigation bar and the route table are left out, because they hold no logic to verify.
- Mortgage.MortgagePayment: requires rate > 0 and a whole term of at least one year, so it leaves out cases the page computes. A zero rate or a zero term makes the page divide 0 by 0 and show NaN. A negative rate, which the rate field accepts through `Number(...)`, is left out because the shared annuity proofs assume a positive rate. A fractional term, such as 15.5 years or 186 payments, and a negative term are left out because the model counts the term in whole years.
- Mortgage.TotalMonthlyPayment: requires rate > 0 and a whole term of at least one year, leaving out the same cases.
- Mortgage.MortgagePage.CalculateMortgage: requires rate > 0 and a whole term of at least one year, leaving out the same cases.
- AutoLoan.LoanWorker: takes the term as a whole number of years. A fractional `loanTerm` would need `Math.pow` with a fractional exponent.
- AutoLoan.AutoLoanPage.CalculateLoan: takes the term as a whole number of years, for the same reason.
- CompoundInterest.CompoundInterestPage.CalculateCompoundInterest: requires a whole, non-negative n·t. A fractional exponent is outside exact arithmetic.
- CompoundInterest.CompoundInterestPage.CalculateCompoundInterest: also leaves out a negative whole n·t, such as a negative time, even though `Math.pow(1 + r/n, n·t)` is then an exact reciprocal power. The amount is modelled only as growth over a whole number of periods.
- Calculator.KeyDisplay: counts the display's length and removes on backspace in Unicode characters, while the page's `prev.length` and `prev.slice(0, -1)` work in UTF-16 code units. A character outside the Basic Multilingual Plane, such as an emoji typed into the display, counts once here and twice on the page. Backspace removes it whole here, but only half of its surrogate pair on the page. Strings are sequences of characters in this model, so the code-unit view is not modelled.
- Calculator.CalculatorPage.HandleInput: takes its display lengths from `KeyDisplay`, so it inherits the same difference between Unicode characters and UTF-16 code units.
- Bmi.RawBmi: requires a non-zero height, because a zero height gives an infinite BMI.
- Bmi.BmiPage.CalculateBmi: requires a non-zero height, for the same reason.
- Gpa.GpaPage.HandleCourseChange: requires the index to be within the course list. The page only calls it from a rendered course row.
- Calculator.CalculatorPage.SetDecimalPoints: takes the chosen decimals as a number from 0 to 5, not as the picker's text.
- The GPA grade picker's restriction to the eight grades is not assumed. Any grade text is accepted, and an unknown one has no points.

## Findings

| source | as written | input that shows it | evidently intended | confidence | as-written member | corrected member |
|---|---|---|---|---|---|---|
| app/gpa-calculator/page.tsx:76 | `if (!gradePoints \|\| isNaN(credits)) continue` skips any course whose grade points are falsy, and the F grade's 0.0 is falsy | A+ and F, 3 credits each, on the 4-point scale: the page shows 4.00 | an F counts with 0 points and its credits, giving 2.00 | not executed | Gpa.FailingGradeIgnored | Gpa.CountCourse |
| app/gpa-calculator/page.tsx:124 | `parseFloat(gpa.split(" ")[2])` reads the third word of "Your GPA is: x", which is "is:" | any calculated GPA, then Calculate Percentile on scale 4: the page shows "Your Percentile is: NaN%" | read the fourth word, the number | not executed | Gpa.PercentileReadsLabel | Gpa.PercentileReadsGpa |
