# Thai tax engine and amount-in-words, modelled in Dafny

This project models two pure cores of a Thai freelancer and small-business
accounting application.

**The tax engine** (`services/taxService.ts`):
- the eight-step progressive personal income tax (`calculateTaxFromNet`);
- the personal-tax pipeline (`calculatePersonalTax`): expense method, capped deductions, capped donation, net income, withholding credit, average rate and the per-step breakdown;
- the corporate tax for SMEs and other companies (`calculateCorporateTax`);
- progress towards the VAT registration threshold (`calculateVatInfo`);
- the flat-versus-actual expense comparison (`compareExpenseMethods`);
- where an income sits among the brackets (`analyzeTaxBracket`);
- the marginal tax on extra work (`simulateJobImpact`).

**The amount-in-words converter** (`utils/currency.ts`): `toThaiBaht` writes an amount the way a Thai receipt does, using its helper `thaiNum`.

The files are:
- `options.dfy`: the `Option` type.
- `tax_schedule.dfy` (module `TaxSchedule`): a generic progressive table.
  - A table is a list of steps. Each step has an upper limit, or none for the top step, and a rate.
  - `ScheduleTax` is the tax such a table levies: each step's rate times the income inside the step.
  - The properties every ascending table has are proved once, here: no tax below the start, never negative, non-decreasing, and growing by at most the top rate per unit of extra income.
- `tax_service.dfy` (module `TaxService`): the functions of `taxService.ts`.
  - The loops of `calculateTaxFromNet`, the breakdown of `calculatePersonalTax`, `calculateCorporateTax` and `calculateVatInfo` are methods. Each is proved to compute the table's tax, or the record the contract describes.
  - `compareExpenseMethods`, `analyzeTaxBracket` and `simulateJobImpact` are functions, as the source writes them.
  - The personal table is also compared with an independent reference: the cumulative table (the tax at each row's start plus the row's rate on the excess).
- `currency.dfy` (module `Currency`): `thaiNum` and `toThaiBaht` as methods that append to a string. `thaiNum` appends digit by digit. `toThaiBaht` appends whole pieces: the millions, ล้าน, the rest, บาท, then the satang or ถ้วน.
  - The text they write is proved equal to the rendering of a sequence of Thai number words.
  - The partners it is proved against are a tokenizer (`Lex`) and a Thai reader (`Hear`, `ReadNumber`, `ReadAmount`). The tokenizer splits the text back into words. The reader turns words such as ยี่สิบเอ็ด back into 21, the way a Thai speaker does.
  - The round trip is proved: reading the text `toThaiBaht` writes gives back the amount.

**How the model represents the source's values:**
- Tax amounts are exact `real`s.
- The unbounded top step of each table is the `Unbounded` limit, not arithmetic on infinity.
- An amount for `toThaiBaht` is a natural number of satang.
- Digit strings are sequences of digits 0..9, most significant first.

## Model

| member | source | states |
|---|---|---|
| TaxSchedule.PortionsPartitionIncome | services/taxService.ts:55-65 | the steps of an ascending table share out exactly the income above its start; nothing is lost or counted twice |
| TaxSchedule.NoTaxBelowStart | services/taxService.ts:55-65 | income at or below the start of a table bears no tax |
| TaxSchedule.TaxGrowthBounded | services/taxService.ts:55-65 | raising the income raises the tax by at least nothing and at most the top rate times the growth of the income placed in the steps |
| TaxSchedule.MonotoneAndMarginallyBounded | services/taxService.ts:55-65 | the tax of an ascending table with rates in [0, top] never decreases, and grows by at most top per unit of extra income |
| TaxSchedule.TaxNonNegative | services/taxService.ts:55-65 | the tax of such a table is never negative |
| TaxSchedule.ScheduleTaxBounds | services/taxService.ts:55-65 | non-negative, non-decreasing and growing by at most top per unit, together |
| TaxService.PersonalStepsShape | services/taxService.ts:40-49 | the personal table has eight steps with strictly rising limits, only the last unbounded, and rates from 0 to 35% |
| TaxService.CalculateTaxFromNet | services/taxService.ts:39-67 | the result is the table's tax: the sum over the steps of rate times the income inside the step |
| TaxService.WalkSteps | services/taxService.ts:51-66 | the loop, with its early stop once no income remains, computes the tax of any ascending table that starts at zero |
| TaxService.BracketTaxFreeUpTo150k | services/taxService.ts:39-67 | no tax on a net income of 150,000 or less, including zero and negative amounts |
| TaxService.BracketTaxMonotone | services/taxService.ts:39-67 | the personal tax is non-negative and non-decreasing, and grows by at most 35% of any extra income, so it never jumps at a boundary |
| TaxService.BracketTaxAtMostTopRate | services/taxService.ts:39-67 | the tax on a non-negative income is between 0 and 35% of it |
| TaxService.BracketTaxStepByStep | services/taxService.ts:40-65 | the table's tax equals the seven taxed steps written out, each rate on the income inside its step |
| TaxService.StepByStepIsCumulative | services/taxService.ts:40-49 | the steps written out agree, row by row, with the cumulative table: the tax at the row's start plus the row's rate on the excess |
| TaxService.BracketTaxMatchesCumulative | services/taxService.ts:39-67 | the personal tax equals the cumulative-table reference for every income |
| TaxService.BracketTaxExamples | services/taxService.ts:39-67 | 300,000 owes 7,500 and 1,000,000 owes 115,000 |
| TaxService.FlatExpense | services/taxService.ts:76 | the flat expense is 60% of income up to an income of 1,000,000, then 600,000, and never more than 600,000 |
| TaxService.CapDeductions | services/taxService.ts:82-91 | the personal allowance is always 60,000; social security is at most 9,000 and life insurance at most 100,000, and each is unchanged when under its cap; provident fund and other pass through |
| TaxService.AllowedDonation | services/taxService.ts:96-97 | the allowed donation is at most the donation and at most 10% of the net income before donation, equals one of them, and is non-negative when both are |
| TaxService.TotalDeductions | services/taxService.ts:86-99 | with no negative entries, the deductions are at least the personal allowance of 60,000 |
| TaxService.NetIncome | services/taxService.ts:100 | the net income is never negative, is either 0 or income less expense and deductions, and is at most the gross income when expense and entries are non-negative |
| TaxService.BreakdownSumsToTax | services/taxService.ts:106-131 | the breakdown has one line per step, in table order with each step's limit and rate, and its amounts add up to the tax |
| TaxService.StepBreakdown | services/taxService.ts:116-131 | the push loop builds exactly that breakdown, zero lines included |
| TaxService.CalculatePersonalTax | services/taxService.ts:69-147 | every result field: the expense, the deductions and the net income as above, the bracket tax, the payable tax net of withholding with no clamping, the average rate (0 for zero or negative income), and the breakdown: eight lines in table order, each carrying its step's limit and rate and, as amount, the rate times the income inside the step, summing to the tax |
| TaxService.FullRefundUnderThreshold | services/taxService.ts:133 | while the net income stays within the tax-free step, the payable tax is minus the withholding, a full refund |
| TaxService.RefundExample | services/taxService.ts:69-147 | 200,000 of income on the flat method with 10,000 withheld: net income 20,000, no tax, payable -10,000 |
| TaxService.AverageRateBounded | services/taxService.ts:134 | with no negative entries, the average rate lies between 0 and 35% |
| TaxService.SmeStepsShape | services/taxService.ts:155-172 | the SME tiers form an ascending table with rates from 0 to 20% |
| TaxService.SmeTaxTiers | services/taxService.ts:156-170 | the SME tax is 15% of the profit between 300,000 and 3,000,000 plus 20% of the rest |
| TaxService.CalculateCorporateTax | services/taxService.ts:149-185 | profit is revenue less expenses, never below zero; an SME pays by the tiers and others a flat 20%; the bracket lines are the ones the source pushes (the 0% line; the 15% line with 15% of the profit between 300,000 and 3,000,000 when the profit exceeds 300,000; the 20% line with 20% of the profit above 3,000,000 when it exceeds 3,000,000; or the single flat line) and add up to the tax |
| TaxService.SmeTaxFreeUpTo300k | services/taxService.ts:156-170 | an SME pays nothing on a profit of 300,000 or less |
| TaxService.SmeNeverAboveStandard | services/taxService.ts:155-176 | an SME never pays a negative amount nor more than the flat 20% |
| TaxService.CalculateVatInfo | services/taxService.ts:189-199 | remaining is max(0, 1,800,000 - income) and is 0 exactly from the threshold on; percent is at most 100 and reaches 100 exactly at the threshold; the status is normal below 1,500,000, warning up to 1,700,000 and danger from there on |
| TaxService.CompareExpenseMethods | services/taxService.ts:201-222 | flat is better exactly when its tax is no higher, so ties go to flat; savings is the non-negative gap; the break-even point is the flat expense; actual expenses at or above it never make the actual method worse |
| TaxService.FindBand | services/taxService.ts:236 | the first band whose closed interval holds the income, or none when none does |
| TaxService.AnalysisAt | services/taxService.ts:237-246 | the next band is the one after the current one, absent for the last; the gap is its lower bound minus the income; close means a gap strictly between 0 and 50,000 |
| TaxService.AnalyzeTaxBracket | services/taxService.ts:224-248 | the close flag implies a gap strictly between 0 and 50,000; no next band means no gap and no flag |
| TaxService.AnalyzeTopBand | services/taxService.ts:233-246 | from 5,000,001 on, the band is the 35% one, with no next band, no gap and no flag |
| TaxService.AnalyzeFirstBand | services/taxService.ts:226-240 | from 0 to 150,000 the band is the 0% one and the next is the 5% band, 150,001 - income away |
| TaxService.AnalyzeNegativeFallsBack | services/taxService.ts:236 | a negative income matches no band and falls back to the 35% band, with no next band |
| TaxService.AnalyzeWholeBahtMatchesTable | services/taxService.ts:225-236 | for a whole number of baht the band's rate in percent is the table's marginal rate |
| TaxService.AnalyzeFractionMisplaced | services/taxService.ts:225-236 | 150,000.50 is reported in the 35% band with no next band, although the table taxes it at 5% |
| TaxService.FindBandAtMost | services/taxService.ts:236 | the first band whose upper bound is not below the income |
| TaxService.AnalyzeTaxBracketIntended | services/taxService.ts:224-248 | the corrected analyser: every income lands in the band whose rate is the table's marginal rate, and the close flag keeps its meaning |
| TaxService.IntendedAgreesOnWholeBaht | services/taxService.ts:224-248 | on whole baht from zero up, the corrected analyser answers exactly as the source does |
| TaxService.FlatNetGrowth | services/taxService.ts:256-264 | extra gross income never lowers the flat-method net income, and raises it by at most the extra |
| TaxService.SimulateJobImpact | services/taxService.ts:250-279 | net gain is the extra income less the extra tax; the percentage is net gain over the extra income, 0 when there is none; accept exactly when the percentage exceeds 50; no extra income means no extra tax and no gain |
| TaxService.AdditionalTaxBounded | services/taxService.ts:256-267 | extra income costs between nothing and 35% of itself in extra tax |
| TaxService.ExtraIncomeAlwaysAccepted | services/taxService.ts:267-277 | any positive extra income keeps at least 65% of itself, so the simulator always recommends accepting it |
| Currency.DecimalDigits | utils/currency.ts:9-10 | the digits of the baht part: at least one, each 0..9, denoting the number, with no leading zero, and no more than the number's width |
| Currency.ValConcat | utils/currency.ts:75-77 | splitting a digit string at the millions: the leading part is worth its value times 10 to the length of the rest |
| Currency.RenderDigitWords | utils/currency.ts:56-63 | the words for one digit render as the text thaiNum appends for it, and that text is empty exactly for a zero |
| Currency.TextToRendersWords | utils/currency.ts:52-64 | after any number of digits, the text thaiNum has built is the rendering of those digits' words |
| Currency.EmptyTextIffZero | utils/currency.ts:52-64 | thaiNum's text is empty exactly when every digit so far is zero |
| Currency.HearDigit | utils/currency.ts:57-62 | hearing one digit's words adds the digit times its place value; the units digit waits to be added |
| Currency.HearPrefix | utils/currency.ts:52-64 | after the words of the first digits, the reader holds their value shifted to their places |
| Currency.ReadNumWords | utils/currency.ts:46-66 | reading thaiNum's words after a value already heard adds the digit string's value |
| Currency.LexRender | utils/currency.ts:47-48 | the text of valid words splits back into exactly those words |
| Currency.NumberTextReadsBack | utils/currency.ts:46-66 | the text of a digit string's words reads back as its value |
| Currency.ThaiNum | utils/currency.ts:46-66 | the appending loop writes the rendering of the digit words; that text reads back as the digits' value; it is empty exactly for all zeros |
| Currency.ReadBahtWords | utils/currency.ts:69-83 | the baht words end in บาท and the words before it read back as the baht |
| Currency.ReadSatangWords | utils/currency.ts:86-97 | non-zero satang words end in สตางค์ and the words before it read back as the satang |
| Currency.ReadAmountWords | utils/currency.ts:69-99 | the words of an amount read back as the amount |
| Currency.ThaiBahtRoundTrip | utils/currency.ts:2-100 | the text of an amount, split into words and read, gives the amount back |
| Currency.BahtText | utils/currency.ts:72-83 | the baht text is thaiNum of the leading digits, ล้าน, thaiNum of the last six digits, then บาท, when there are more than six digits; otherwise thaiNum of all digits then บาท |
| Currency.SatangText | utils/currency.ts:86-97 | no satang gives ถ้วน; one satang digit after a leading zero is read alone; otherwise both digits are read; then สตางค์ |
| Currency.ToThaiBaht | utils/currency.ts:2-100 | the text is the rendering of the amount's words, and it reads back as the amount |
| Currency.ThaiBahtEnding | utils/currency.ts:69-99 | the text ends in ถ้วน exactly when there are no satang and otherwise in สตางค์; below one baht it starts with ศูนย์บาท |
| Currency.ZeroAmountExample | utils/currency.ts:72-88 | 0 is ศูนย์บาทถ้วน |
| Currency.TwentyOneFiftyExample | utils/currency.ts:57-62 | 21.50 is ยี่ สิบ เอ็ด บาท ห้า สิบ สตางค์ |
| Currency.ElevenAndHundredOneExample | utils/currency.ts:57-62 | 11 is สิบ เอ็ด and 101 is หนึ่ง ร้อย เอ็ด |
| Currency.SingleDigitSatangExample | utils/currency.ts:90-92 | 0.05 gives ห้า สตางค์ and 0.01 gives หนึ่ง สตางค์ (not เอ็ด) |
| Currency.MillionAndOneExample | utils/currency.ts:75-79 | 1,000,001 baht is หนึ่ง ล้าน เอ็ด บาท ถ้วน |

## Left out

- Floating point: amounts are exact reals in the tax engine and whole satang in the converter. JavaScript's double rounding, `toFixed(2)` rounding (utils/currency.ts:9) and `toLocaleString` are not modelled.
- NaN handling in `toThaiBaht` (utils/currency.ts:3): the model's amounts are always numbers.
- Currency.ToThaiBaht: negative amounts and amounts of 10^13 baht or more are excluded by its precondition.
  - A negative amount whose two-decimal text has baht part "-0", such as "-0.50", parses as minus zero (utils/currency.ts:69). Minus zero compares equal to 0, so the source writes ศูนย์บาท followed by ถ้วน or the satang words, and silently drops the sign (utils/currency.ts:72-73).
  - A negative amount whose two-decimal text is "-1.00" or below reaches `thaiNum` with the minus sign as its first character. `thaiNum` parses that sign as a digit that is not a number and writes `undefined` into the text (utils/currency.ts:53, 60).
  - A baht part of fourteen or more digits gives `thaiNum` an eight-digit millions part, which indexes past the place names.
  - Thirteen digits still work, because a seven-digit millions part uses ล้าน itself.
- Currency.ThaiNum: takes digit strings of at most seven digits, the only ones `toThaiBaht` passes it.
- The first loop of `toThaiBaht` (utils/currency.ts:13-41) builds a string that is never read, so it is not modelled.
- `breakEvenPercentage` of `compareExpenseMethods` (services/taxService.ts:220) is a formatted string and is not modelled.
- The rest of the application is not part of this model: the React pages and components, the document, customer, transaction, settings, notification and report services, authentication and storage.

## Findings

| source | as written | input that shows it | evidently intended | confidence | as-written member | corrected member |
|---|---|---|---|---|---|---|
| services/taxService.ts:225-236 | the bands are closed intervals of whole baht (0..150000, 150001..300000, …), and an income that matches none falls back to the last, 35%, band | a net income of 150,000.50, which the 60% flat expense can produce, is reported in the 35% band with no next band, although the tax table taxes it at 5% | the current band is the first whose upper bound is not below the income, which agrees with the tax table for every income | not executed | TaxService.AnalyzeFractionMisplaced | TaxService.AnalyzeTaxBracketIntended |
