# FinanceIQ core, modelled in Dafny

FinanceIQ ("Budget Douala") is a local-first personal budget application for salaried
people in Douala, with amounts in XAF. This project models and proves the parts of it
that decide something:

- the session lock manager (`SecurityManager`). It covers PIN set-up and unlock against
  a stored test envelope, the five-minute inactivity lock re-armed by user activity,
  lock callbacks, and the `localStorage` entries it uses;
- the legacy PIN hash utilities: the hex codec, the four-digit PIN format, the
  `salt:hash` storage format and the PIN generator;
- the extra-income rules: the 60/30/10 split with remainder redistribution, the amount
  validator, the advice, the generated transactions and the statistics;
- the budget arithmetic: the envelope formulas, per-category sums over a date window,
  the monthly grouping, budget usage and status, and the overall statistics;
- the scientific budget-rules table and its three-level validator;
- the XAF formatter and parser on the standard, non-compact path;
- the decision rules for extra income: the balance check, the smart recommendations and
  the optimisation strategies;
- the identifier generators and the identifier validator.

Modules, one per source file:

| module | file | source |
|---|---|---|
| `JsBuiltins` | js_builtins.dfy | JavaScript built-ins that the core relies on. It gives `Math.round` as `floor(x + 1/2)`, `parseInt` in base 10 and 16, `Number#toString()` of a non-negative integer, `padStart`, `\s`, lexicographic string comparison, and numbers with NaN and the infinities for division. |
| `PinEnvelope` | pin_envelope.dfy | `src/data/crypto.ts`: the PIN-sealed test envelope, with an ideal authenticated cipher |
| `Lock` | lock.dfy | `src/data/lock.ts` |
| `LegacyCrypto` | legacy_crypto.dfy | `src/utils/crypto.ts` |
| `ExtraIncome` | extra_income.dfy | `src/domain/extraIncome.ts` |
| `Calculations` | calculations.dfy | `src/utils/calculations.ts` |
| `BudgetRules` | budget_rules.dfy | `src/types/budgetRules.ts` |
| `Format` | format.dfy | `src/utils/format.ts` |
| `BudgetInteraction` | budget_interaction.dfy | `src/domain/budgetInteraction.ts` |
| `Id` | id.dfy | `src/utils/id.ts` |

How the environment is represented:

- The clock, the random sources and the key-derivation function are parameters.
  - The clock is `now` in the lock manager; the date and time texts feed the identifier generators.
  - The random byte, salt, IV and `Math.random()` text are explicit inputs.
  - The key-derivation function is PBKDF2 with SHA-256: 200 000 iterations in the lock's envelope, and 100 000 iterations with 32 output bytes in the legacy hash. It is a function-typed argument, so every result holds for every deterministic derivation.
- The browser's pending timeouts are a map from handle to due time. A timeout runs when the environment calls `SecurityManager.Fire`.
- `localStorage` is a map from key to stored text.
- Lock callbacks are numbers, and each invocation is appended to a `notified` log.

Money is `int` and ratios are exact `real`s. JavaScript's division by zero gives NaN or
an infinity through `JsBuiltins.Number`, and comparisons with NaN are false.

## Model

| member | source | states |
|---|---|---|
| Lock.CountPositive | src/data/lock.ts:218-224 | an event type reaches `updateActivity` iff a listener was attached for it |
| Lock.SecurityManager.constructor | src/data/lock.ts:49-55 | a new manager is locked, has no timer, no callbacks and no listeners, and `lastActivity` is the current time |
| Lock.SecurityManager.IsUnlocked | src/data/lock.ts:160-162 | returns the session's unlocked flag |
| Lock.SecurityManager.HasStoredPin | src/data/lock.ts:167-170 | true iff the `pinTest` key is stored |
| Lock.SecurityManager.OnLock | src/data/lock.ts:175-177 | the callback is appended to the callback list |
| Lock.SecurityManager.ClearLockCallbacks | src/data/lock.ts:182-184 | empties the callback list and nothing else |
| Lock.SecurityManager.ClearAutoLockTimer | src/data/lock.ts:251-256 | the recorded timeout is cancelled and forgotten |
| Lock.SecurityManager.ResetAutoLockTimer | src/data/lock.ts:238-246 | clears first. When unlocked it arms one timeout due at `now + 300000` under a fresh handle and records it; when locked nothing is recorded. The invariant keeps at most one recorded timer, and a recorded timer implies unlocked |
| Lock.SecurityManager.Lock | src/data/lock.ts:147-155 | locked, timer cancelled, and every registered callback invoked exactly once in registration order, even when already locked |
| Lock.SecurityManager.Fire | src/data/lock.ts:242-244 | a pending, due timeout locks exactly as `lock()`. Under the freshness invariant, a firing timeout means the session was unlocked and idle for five minutes |
| Lock.SecurityManager.UpdateActivity | src/data/lock.ts:210-215 | when locked nothing changes; when unlocked `lastActivity = now` and the timer is re-armed |
| Lock.SecurityManager.Activity | src/data/lock.ts:218-224 | a DOM event runs `updateActivity` once per listener attached for its type. Nothing changes when locked or when no such listener exists |
| Lock.SecurityManager.StartActivityMonitoring | src/data/lock.ts:209-225 | one listener per activity event type is appended |
| Lock.SecurityManager.StopActivityMonitoring | src/data/lock.ts:230-233 | all listeners are removed |
| Lock.SecurityManager.CheckAutoLock | src/data/lock.ts:261-273 | locks iff a stored `lastActivity` is more than 300000 ms old; otherwise nothing changes |
| Lock.SecurityManager.Initialize | src/data/lock.ts:60-77 | unlocked iff no `pinTest` entry is stored, then locked if the stored last activity is stale; the listeners are attached |
| Lock.SecurityManager.SetupPin | src/data/lock.ts:82-109 | succeeds iff the PIN has 4 to 6 digits. Success stores a fresh test envelope under `pinTest`, unlocks, sets `lastActivity = now`, arms the timer, and the PIN then opens the stored envelope. Failure changes nothing |
| Lock.SecurityManager.Unlock | src/data/lock.ts:114-142 | true iff a stored `pinTest` envelope opens under the PIN; then it unlocks, sets `lastActivity = now` and re-arms the timer. Otherwise, including when no PIN is stored or the entry is not an envelope, it returns false and changes nothing |
| Lock.SecurityManager.ResetComplete | src/data/lock.ts:189-204 | as written: the three keys are removed and the session is unlocked with no recorded timer, but the pending timeouts are left exactly as they were |
| Lock.SecurityManager.ResetCompleteCorrected | src/data/lock.ts:189-204 | same as `ResetComplete`, but cancels the recorded timeout before the session is replaced, so the freshness invariant is kept |
| Lock.SecurityManager.Destroy | src/data/lock.ts:278-282 | listeners and callbacks emptied, timer cancelled |
| Lock.LockUnlockScenario | src/data/lock.ts:82-142 | after set-up the session is open; a wrong PIN is refused and the right one accepted after a lock |
| Lock.AutoLockScenario | src/data/lock.ts:238-246 | five idle minutes after unlock the timeout fires, locks and runs both callbacks in order |
| Lock.StaleTimerAfterReset | src/data/lock.ts:196-201 | the timer armed before a reset fires and locks the new session although it was active less than five minutes ago, with no PIN stored |
| Lock.StaleTimerAfterResetCorrected | src/data/lock.ts:189-204 | with the corrected reset, no old timeout fires and the session stays open |
| PinEnvelope.EncryptWithPin | src/data/crypto.ts:160-169 | sealing succeeds iff the PIN is 4 to 6 digits, and the envelope carries the salt, the IV and schema version 1 |
| PinEnvelope.DecryptWithPin | src/data/crypto.ts:174-179 | a PIN outside 4 to 6 digits never decrypts (key derivation throws); a decryption that succeeds returns the sealed payload and used the key sealed with |
| PinEnvelope.GeneratePinTestData | src/data/crypto.ts:196-203 | test data exists iff the PIN has 4 to 6 digits, and it decrypts under that PIN to the marker payload with the timestamp |
| PinEnvelope.VerifyPin | src/data/crypto.ts:184-191 | a PIN verifies only if it has 4 to 6 digits and derives the key the test data was sealed with |
| PinEnvelope.DecryptEncrypt | src/data/crypto.ts:174-179 | decrypting with the same PIN gives the payload back |
| PinEnvelope.VerifyGenerated | src/data/crypto.ts:184-203 | `verifyPin(p, generatePinTestData(p))` holds for every valid PIN |
| PinEnvelope.WrongPinRejected | src/data/crypto.ts:184-191 | a PIN whose derived key differs does not verify |
| LegacyCrypto.HexChar | src/utils/crypto.ts:24-28 | a hex digit is a lowercase base-16 digit with the given value |
| LegacyCrypto.ByteToHex | src/utils/crypto.ts:24-28 | a byte is written as its two hex digits, high nibble first |
| LegacyCrypto.ArrayToHex | src/utils/crypto.ts:24-28 | output has exactly two lowercase hex characters per byte and no `:` |
| LegacyCrypto.HexDecode | src/utils/crypto.ts:33-39 | one byte per pair of characters, so `length / 2` bytes |
| LegacyCrypto.HexToArray | src/utils/crypto.ts:33-39 | the loop fills a fresh array with the pairwise `parseInt(…, 16)` bytes |
| LegacyCrypto.ArrayToHexPair | src/utils/crypto.ts:24-28 | characters `2k` and `2k+1` of the hex text are byte `k`'s digits |
| LegacyCrypto.ParseByteToHex | src/utils/crypto.ts:33-39 | `parseInt` in base 16 reads a byte's two digits back |
| LegacyCrypto.HexRoundTrip | src/utils/crypto.ts:24-39 | `hexToArray(arrayToHex(b)) == b` |
| LegacyCrypto.ArrayToHexInjective | src/utils/crypto.ts:24-28 | distinct byte strings have distinct hex texts |
| LegacyCrypto.HashPin | src/utils/crypto.ts:46-90 | succeeds iff the PIN is exactly four digits; otherwise it fails with the format message. The result is `hex(salt) ":" hex(derived)`, 32 and 64 characters |
| LegacyCrypto.IsValidPinFormat | src/utils/crypto.ts:170-172 | exactly four ASCII digits; its verdicts on the test PINs are `LegacyCrypto.PinFormatExamples` |
| LegacyCrypto.PinFormatExamples | src/utils/crypto.test.ts:124-141 | `0000`, `1234`, `9999`, `0123` are accepted; the empty text, `123`, `12345`, `abcd`, `12a4`, `12.4` and texts with a space are refused |
| LegacyCrypto.VerifyPin | src/utils/crypto.ts:99-147 | true only for a valid PIN and a stored text with a non-empty salt field, whose second field is the hex of the key derived from the decoded salt |
| LegacyCrypto.FirstField | src/utils/crypto.ts:110 | the first field of `split(':')`: the longest prefix without `:` |
| LegacyCrypto.VerifyRejectsMalformed | src/utils/crypto.ts:100-114 | false for a malformed PIN, a stored text without `:`, an empty salt field or an empty second field, wherever it sits |
| LegacyCrypto.SplitHashed | src/utils/crypto.ts:110 | splitting `salt:hash` gives both parts back |
| LegacyCrypto.VerifyHashed | src/utils/crypto.ts:98-153 | `verifyPin(pin, hashPin(pin))` is true for every valid PIN and salt |
| LegacyCrypto.VerifyOtherRejected | src/utils/crypto.ts:98-153 | another PIN whose derivation differs is refused |
| LegacyCrypto.FourDigitPin | src/utils/crypto.ts:161 | `toString().padStart(4, '0')` of a number below 10000 is a valid PIN of that value |
| LegacyCrypto.GenerateRandomPin | src/utils/crypto.ts:159-163 | as written: a valid PIN whose value is the random byte |
| LegacyCrypto.RandomPinAtMost255 | src/utils/crypto.ts:159-163 | the generated PIN is at most 0255 and starts with 0 |
| LegacyCrypto.RandomPinMisses1234 | src/utils/crypto.ts:159-163 | `1234` can never be generated |
| LegacyCrypto.GenerateRandomPinCorrected | src/utils/crypto.ts:159-163 | from a uniform integer: a valid PIN of value `random % 10000` |
| LegacyCrypto.CorrectedCoversAllPins | src/utils/crypto.ts:170-172 | every valid four-digit PIN is produced by the corrected generator |
| ExtraIncome.Remainder | src/domain/extraIncome.ts:55-61 | the remainder after the three floored parts is 0, 1 or 2 |
| ExtraIncome.RemainderBounds | src/domain/extraIncome.ts:55-61 | for a positive amount, the floored 60/30/10 parts fall short of it by 0 to 2 |
| ExtraIncome.ExtraIncomeSplit | src/domain/extraIncome.ts:45-83 | no amount gives all zeros. A positive amount is the total, and the parts add up to it exactly. The parts are the floored shares, with a remainder of 1 going to savings and 2 split between savings and leisure |
| ExtraIncome.CalculateExtraIncomeSplit | src/domain/extraIncome.ts:45-83 | the step-by-step computation yields `ExtraIncomeSplit` |
| ExtraIncome.Band | src/domain/extraIncome.ts:88-106 | the advice bands at 100000, 50000 and 10000, both directions |
| ExtraIncome.BandTips | src/domain/extraIncome.ts:88-106 | each band has two tips |
| ExtraIncome.GenerateExtraIncomeAdvice | src/domain/extraIncome.ts:88-106 | exactly two tips, those of the amount's band |
| ExtraIncome.InputNumber | src/domain/extraIncome.ts:116 | a text input goes through `parseInt` after whitespace removal, giving NaN or a finite number |
| ExtraIncome.ValidateExtraIncomeAmount | src/domain/extraIncome.ts:111-131 | valid iff the number is finite, positive and at most 10 000 000. The errors are checked in order: invalid iff NaN, not positive iff a number at most 0, too high iff above the maximum |
| ExtraIncome.ValidateTypedAmount | src/domain/extraIncome.ts:111-131 | a digit text of a positive value within the maximum is accepted with that value |
| ExtraIncome.ValidateTextRejectsSign | src/domain/extraIncome.ts:111-131 | a text starting with `-` is never valid |
| ExtraIncome.EntryTotalAppend | src/domain/extraIncome.ts:136-185 | the amounts of concatenated entry lists add up |
| ExtraIncome.AllocationBalances | src/domain/extraIncome.ts:136-185 | the expense entries of a split add up to the income entry's amount |
| ExtraIncome.CreateExtraIncomeTransactions | src/domain/extraIncome.ts:136-185 | first an `income` of the total in `extra_income`, then the positive shares as expenses in the order savings, projects, leisure: 1 to 4 entries |
| ExtraIncome.TypesInOrder | src/domain/extraIncome.ts:235-238 | the keys of the count record are distinct |
| ExtraIncome.TypesInOrderAreThePresentTypes | src/domain/extraIncome.ts:235-238 | a type is a key iff it occurs |
| ExtraIncome.TopSourceUnique | src/domain/extraIncome.ts:240-242 | at most one type satisfies the top-source property |
| ExtraIncome.TopSourceIsMostFrequent | src/domain/extraIncome.ts:240-242 | the top source occurs, and no type occurs more often |
| ExtraIncome.SplitTotalsExact | src/domain/extraIncome.ts:223-232 | with positive amounts the three envelope totals add up to the total amount |
| ExtraIncome.CountSources | src/domain/extraIncome.ts:235-238 | the count record has one key per present type, in first-appearance order, holding its number of occurrences |
| ExtraIncome.ReduceTopSource | src/domain/extraIncome.ts:240-242 | the `reduce` returns the most frequent type, and a tie goes to the later-listed type |
| ExtraIncome.CalculateExtraIncomeStats | src/domain/extraIncome.ts:203-253 | empty input gives zeros and no top source. Otherwise: the sum, the count, `round(total / count)`, the sums of the recomputed splits, and the top source |
| ExtraIncome.OccurrencesOfMember | src/domain/extraIncome.ts:235-238 | a listed income's type occurs |
| Calculations.Max0 | src/utils/calculations.ts:14 | `Math.max(0, x)`: the result is non-negative and at least `x`, equals `x` when `x` is non-negative and zero when it is negative |
| Calculations.CalculateRentFund | src/utils/calculations.ts:12-17 | 0 for a non-positive rent; otherwise `rent·(1 + m/100)` rounded half up, a negative margin counting as 0 |
| Calculations.RentFundCoversRent | src/utils/calculations.ts:12-17 | the fund is at least the rounded rent and grows with the margin |
| Calculations.DailyBudget | src/utils/calculations.ts:25-43 | 0 if either factor is non-positive; otherwise the rounded product |
| Calculations.CalculateTransportBudget | src/utils/calculations.ts:25-30 | the daily formula with working days |
| Calculations.CalculateFoodBudget | src/utils/calculations.ts:38-43 | the daily formula with days per month |
| Calculations.CalculateDataBudget | src/utils/calculations.ts:51-56 | negative inputs clamped to 0; the rounded sum, never negative |
| Calculations.FormulaExamples | src/utils/calculations.test.ts:58-108 | the tests' values, such as 110000, 36666, 32550 and 150000 |
| Calculations.SumByCategory | src/utils/calculations.ts:66-84 | 0 for an empty list or a category that never occurs |
| Calculations.SumByCategoryAppend | src/utils/calculations.ts:66-84 | the sum splits over concatenation |
| Calculations.SumByCategoryUnbounded | src/utils/calculations.ts:66-84 | without bounds it is the category's total |
| Calculations.SumByCategoryWindowBounded | src/utils/calculations.ts:78-79 | for non-negative amounts, the inclusive lexicographic date window only drops amounts |
| Calculations.CategoriesInOrder | src/utils/calculations.ts:107-112 | the record's keys are distinct |
| Calculations.AbsentCategorySum | src/utils/calculations.ts:107-112 | a category without a key has total 0 |
| Calculations.GroupByCategory | src/utils/calculations.ts:105-114 | one key per present category, in first-appearance order, holding that category's sum |
| Calculations.InMonth | src/utils/calculations.ts:100-102 | a transaction is kept iff its date starts with the month |
| Calculations.InMonthAppend | src/utils/calculations.ts:100-102 | the filter keeps the order: filtering a concatenation concatenates the filtered parts |
| Calculations.GetMonthlySpendingByCategory | src/utils/calculations.ts:92-115 | the grouping of the month's transactions; with no month given, the current month's |
| Calculations.SumOfCategoriesAppendKey | src/utils/calculations.ts:105-114 | category totals sum over appended keys |
| Calculations.SumOfCategoriesAppendTransaction | src/utils/calculations.ts:107-112 | one more transaction adds its amount to exactly one key's total |
| Calculations.CategoryTotalsAddUp | src/utils/calculations.ts:105-114 | the totals of the present categories add up to the grand total |
| Calculations.SumValuesOfTotals | src/utils/calculations.ts:105-114 | a record holding the category totals sums to their sum |
| Calculations.MonthlySpendingAddsUp | src/utils/calculations.ts:92-115 | the monthly record's values add up to the month's total spending |
| Calculations.CalculateBudgetUsage | src/utils/calculations.ts:123-129 | always within [0, 100]. It is 100 iff the budget is positive and fully spent, and 0 iff the budget or the spending is non-positive. Otherwise it is the exact percentage |
| Calculations.GetBudgetStatus | src/utils/calculations.ts:139-150 | danger iff usage ≥ the danger threshold; warning iff warning ≤ usage < danger; ok otherwise |
| Calculations.DefaultStatus | src/utils/calculations.ts:139-150 | with 80/100: danger iff the budget is positive and fully spent, warning iff from 0.8 of it up to (not including) all of it |
| Calculations.WarningShare | src/utils/calculations.ts:148 | usage ≥ 80 iff at least 0.8 of the budget is spent |
| Calculations.TopCategoryAtUnique | src/utils/calculations.ts:225-229 | two different positions cannot both be the top category |
| Calculations.TopCategoryUnique | src/utils/calculations.ts:225-229 | so the top category is unique |
| Calculations.ReduceTopCategory | src/utils/calculations.ts:225-229 | the `reduce`, by its loop invariant, yields the first category with the strictly largest positive total, or `('', 0)` |
| Calculations.GroupedNonEmpty | src/utils/calculations.ts:225 | the grouping has a key iff there is a transaction |
| Calculations.CalculateFinancialStatsAsWritten | src/utils/calculations.ts:203-241 | as written: totals, count, averages over the optionally filtered list, while the top category is taken over its current-month part only |
| Calculations.CalculateFinancialStats | src/utils/calculations.ts:203-241 | the same totals, with the top category over the filtered list: null iff the list is empty, otherwise the first category with the largest total |
| Calculations.NoneInOctober | src/utils/calculations.test.ts:210-222 | none of the test's September transactions is dated October 2025 |
| Calculations.SeptemberGrouping | src/utils/calculations.test.ts:210-222 | the test's grouping: transport 3000, food 5000, data 2500, total 10500 |
| Calculations.TopCategoryLostOutsideSeptember | src/utils/calculations.ts:224 | run in October, the statistics as written count 10500 over 4 transactions but report no top category |
| Calculations.TopCategoryFound | src/utils/calculations.test.ts:210-222 | the corrected statistics give 10500, 4, 2625, 350 and top category `cat_alimentation` with 5000 |
| BudgetRules.RulesWellFormed | src/types/budgetRules.ts:24-225 | 13 rows with distinct ids. In every row 0 < recommended ≤ maximum, and every subcategory names its row as parent |
| BudgetRules.RulesPriorities | src/types/budgetRules.ts:24-225 | priorities 1 to 12 in table order, and savings 0 |
| BudgetRules.SubcategoriesFit | src/types/budgetRules.ts:24-225 | each row's subcategory maxima fit within its maximum except savings, where they allow 34 % against 25 % |
| BudgetRules.SubcategoryTotalSmall | src/types/budgetRules.ts:24-225 | the subcategory total of a row of up to five entries |
| BudgetRules.CalculateBudgetAmount | src/types/budgetRules.ts:228-230 | `salary·percentage/100` rounded half up |
| BudgetRules.SumRecommendedAtMostMaximum | src/types/budgetRules.ts:232-238 | a table whose rows recommend at most their maximum recommends at most its maximum in total |
| BudgetRules.TotalRecommendedAtMostMaximum | src/types/budgetRules.ts:232-238 | for the table itself, whose rows are well formed, the total recommended is at most the total maximum |
| BudgetRules.CalculateTotalRecommended | src/types/budgetRules.ts:232-234 | the recommended shares add up to 89 % |
| BudgetRules.CalculateTotalMaximum | src/types/budgetRules.ts:236-238 | the maxima add up to 110 % |
| BudgetRules.TableTotals | src/types/budgetRules.ts:232-238 | the two sums over the whole table are 89 and 110 |
| BudgetRules.Find | src/types/budgetRules.ts:246 | `find` returns the first row with the id, and none iff no row has it |
| BudgetRules.FindRow | src/types/budgetRules.ts:246 | each row is what a lookup of its own id finds |
| BudgetRules.Times100 | src/types/budgetRules.ts:251 | multiplying by 100 leaves NaN and the infinities unchanged and scales a finite value by 100 |
| BudgetRules.GetBudgetValidation | src/types/budgetRules.ts:240-277 | an unknown category gives `(false, error, 0)`. Otherwise the percentage is `amount/salary·100`: success iff ≤ recommended, warning iff above it and ≤ maximum, error iff above the maximum. Valid iff not error |
| BudgetRules.ValidationLevels | src/types/budgetRules.ts:251-276 | for a positive salary the three levels, stated as shares of the salary |
| BudgetRules.ShareAtMost | src/types/budgetRules.ts:251-255 | `amount/salary·100 ≤ c` iff `amount·100 ≤ c·salary` |
| BudgetRules.ValidationShare | src/types/budgetRules.ts:251-276 | for a positive salary the percentage is finite and the levels follow it |
| BudgetRules.ZeroSalary | src/types/budgetRules.ts:251-276 | with a zero salary a negative amount is optimal and any other amount an error |
| Format.GroupDigits | src/utils/format.ts:43-49 | digits in groups of three from the right joined by U+00A0. The digits read back as the number, with no leading zero, and 0 is written `0` |
| Format.SmallGroup | src/utils/format.ts:43-49 | below 1000 the numeral is a single group |
| Format.LowGroup | src/utils/format.ts:43-49 | the last three digits, zero-padded, read back as the remainder |
| Format.GroupedAppend | src/utils/format.ts:43-49 | appending a separator and a three-digit group keeps the grouping shape |
| Format.GroupedValue | src/utils/format.ts:43-49 | the value of the grouped digits is that of the head times 1000 plus the group |
| Format.FormatCurrencyXaf | src/utils/format.ts:11-61 | a non-finite amount is shown as `0`. The text starts with `-` iff the rounded amount is negative, and with `+` iff `sign` is set and it is positive. Zero has no sign. The text ends in ` XAF` iff `showCurrency` |
| Format.SuffixShape | src/utils/format.ts:60 | the suffix appears iff asked for |
| Format.FormatCurrencyWithType | src/utils/format.ts:69-80 | red class for expenses, green for incomes, and always the currency |
| Format.WithTypeSign | src/utils/format.ts:73-77 | incomes carry `+` and never `-`; expenses carry `-` and never `+`; each only when the rounded amount is non-zero |
| Format.WithTypeIgnoresSign | src/utils/format.ts:74 | the sign of the input never changes the result |
| Format.RemoveXaf | src/utils/format.ts:94 | removing `XAF` in any case never lengthens the text |
| Format.RemoveXafAppend | src/utils/format.ts:94 | a prefix without `X` is kept as it is |
| Format.KeepNumeric | src/utils/format.ts:96 | keeps exactly the digits, `,` and `-` |
| Format.KeepNumericAppend | src/utils/format.ts:96 | the filter distributes over concatenation |
| Format.ReplaceFirstComma | src/utils/format.ts:97 | same length; a comma may become a point and nothing else changes |
| Format.Clean | src/utils/format.ts:93-97 | the cleaned text holds only digits, `,`, `-` and `.` |
| Format.ParseCleaned | src/utils/format.ts:99 | `parseFloat` finds a number only when there is a digit |
| Format.Magnitude | src/utils/format.ts:99 | the integer part bounds the value from below, and without fraction digits the value is an integer |
| Format.ParseCleanedNumeral | src/utils/format.ts:99 | a bare numeral, signed or not, parses to its value |
| Format.ParseCurrencyXaf | src/utils/format.ts:87-101 | empty input gives null; otherwise the cleaned text's `parseFloat`, rounded half up, or null when no number is found |
| Format.FormatInteger | src/utils/format.ts:27-60 | an integer amount is written as its sign, its digit groups and the suffix |
| Format.StripParts | src/utils/format.ts:93-97 | cleaning a formatted amount removes the suffix and the separators |
| Format.SuffixCleaned | src/utils/format.ts:93-97 | the suffix cleans to nothing |
| Format.CleanFormatted | src/utils/format.ts:93-97 | a formatted integer cleans to its minus sign, if any, and its digits |
| Format.CleanDigits | src/utils/format.ts:96-97 | a `+` is dropped and there is no comma to replace |
| Format.ParseFormatted | src/utils/format.ts:87-101 | `parseCurrencyXAF(formatCurrencyXAF(n, options)) == n` for every integer and every option |
| Format.ParseOfCleaned | src/utils/format.ts:87-101 | a text that cleans to a numeral parses to its value |
| Format.NonEmptyDigits | src/utils/format.ts:43-49 | digit groups keep at least one digit |
| Format.Numeral500 | src/utils/format.test.ts:11-12 | decimal numerals used by the examples |
| Format.FormatThousands | src/utils/format.test.ts:12 | `1500` is `1 500 XAF` |
| Format.FormatRounds | src/utils/format.test.ts:29 | `1500.6` is `1 501 XAF` |
| Format.FormatZero | src/utils/format.test.ts:43 | zero with `sign` has no sign, and NaN is shown as `0 XAF` |
| Format.ParseDecimalComma | src/utils/format.test.ts:122-125 | `digits,digits` is read as a decimal fraction and rounded half up |
| Format.CleanDecimalComma | src/utils/format.ts:93-97 | cleaning turns the decimal comma into a point |
| Format.ParseCleanedDecimal | src/utils/format.ts:99 | `parseFloat` reads integer digits, a point and fraction digits |
| Format.ReplaceFirstCommaAfter | src/utils/format.ts:97 | a prefix without a comma is kept by the replacement |
| Format.DigitPrefixStops | src/utils/format.ts:99 | the numeral read by `parseFloat` stops at the first non-digit |
| Format.ParseRejects | src/utils/format.test.ts:127-130 | `abc` and `XAF` give null |
| BudgetInteraction.IntToString | src/domain/budgetInteraction.ts:125 | the decimal text of an integer: the digits of a non-negative value, and `-` followed by the digits of its magnitude for a negative one |
| BudgetInteraction.RoundedText | src/domain/budgetInteraction.ts:125 | `${Math.round(x)}` is digits for a value above -0.5 |
| BudgetInteraction.EmergencyTip | src/domain/budgetInteraction.ts:123-127 | the emergency-fund tip starts with its emoji |
| BudgetInteraction.ProjectsTip | src/domain/budgetInteraction.ts:130-134 | the projects tip starts with its emoji |
| BudgetInteraction.FreedomTip | src/domain/budgetInteraction.ts:137-141 | the financial-freedom tip starts with its emoji |
| BudgetInteraction.FrequencyTip | src/domain/budgetInteraction.ts:144-160 | one tip per frequency, each with its own emoji |
| BudgetInteraction.FrequencyTipInjective | src/domain/budgetInteraction.ts:144-160 | different frequencies give different tips |
| BudgetInteraction.GenerateSmartRecommendations | src/domain/budgetInteraction.ts:116-163 | the pushes build exactly `SmartRecommendations`: the goal tips whose thresholds hold, in order, then the frequency tip |
| BudgetInteraction.SmartRecommendationsShape | src/domain/budgetInteraction.ts:116-163 | 1 to 4 tips; the frequency tip is last and appears nowhere else; each goal tip is present iff its threshold holds (months > 3, factor > 20, years > 1) |
| BudgetInteraction.TipList | src/domain/budgetInteraction.ts:116-163 | in such a list the conditional tips appear iff included and the last tip is the frequency tip alone |
| BudgetInteraction.CheckBudgetBalance | src/domain/budgetInteraction.ts:168-208 | balanced iff no warnings. At most 2 warnings, each paired with its suggestion. The dependency warning appears iff `extra/salary > 0.3`, the lifestyle warning iff `expenses/salary > 0.75` |
| BudgetInteraction.BalanceThresholds | src/domain/budgetInteraction.ts:176-201 | for a positive salary the ratios read as `extra > 0.3·salary` and `expenses > 0.75·salary` |
| BudgetInteraction.RatioAbove | src/domain/budgetInteraction.ts:176-201 | `a/b > c` iff `a > c·b` for positive `b` |
| BudgetInteraction.ZeroSalaryBalance | src/domain/budgetInteraction.ts:176-201 | with a zero salary any positive income or expense gives an infinite ratio and a warning |
| BudgetInteraction.GetOptimizationStrategies | src/domain/budgetInteraction.ts:213-258 | three distinct actions. Low iff frequency ≥ 2 and stable; medium iff seasonal; high otherwise |
| BudgetInteraction.MoreFrequentNotRiskier | src/domain/budgetInteraction.ts:213-258 | raising the frequency never raises the risk level |
| Id.MatchesLength | src/utils/id.ts:43-49 | a text matching a fixed pattern has the pattern's length |
| Id.MatchesOne | src/utils/id.ts:43-49 | a one-segment pattern matches exactly the texts of its length in its class |
| Id.MatchesCons | src/utils/id.ts:43-49 | a pattern matches segment by segment |
| Id.TimestampMatches | src/utils/id.ts:43 | `^\d{13}_[a-z0-9]{6}$` matches exactly 13 digits, `_` and 6 lowercase alphanumerics |
| Id.TransactionMatches | src/utils/id.ts:46 | `^\d{8}_\d{6}_[a-z0-9]{3}$`, position by position |
| Id.ExtraMatches | src/utils/id.ts:49 | `^EXTRA_\d{8}_[a-z0-9]{3}$`, position by position |
| Id.FormatsDisjoint | src/utils/id.ts:43-49 | no text matches two of the patterns |
| Id.IsValidId | src/utils/id.ts:39-54 | a non-empty text matching one of the three anchored patterns; what it accepts is stated positionally by `Id.ValidIdShapes` |
| Id.ValidIdShapes | src/utils/id.ts:39-54 | valid iff one of the three shapes, and the empty text is invalid |
| Id.Substring | src/utils/id.ts:10 | `substring` clamps to the text |
| Id.GenerateId | src/utils/id.ts:8-12 | as written: the decimal timestamp, `_`, then at most six characters |
| Id.NatToStringDigits | src/utils/id.ts:11 | a number from `10^(k-1)` to below `10^k` has k digits |
| Id.Pow10Monotone | src/utils/id.ts:11 | powers of ten grow |
| Id.GenerateIdValid | src/utils/id.ts:8-12 | a 13-digit timestamp and a random text of at least 8 characters give a valid id |
| Id.GenerateIdShortRandom | src/utils/id.ts:10 | with the base-36 text `0.i` of `Math.random() = 0.5` the id is invalid |
| Id.Pow10Values | src/utils/id.ts:43 | the 13-digit range |
| Id.PadEnd | src/utils/id.ts:10 | padding keeps the text and fills up to the width |
| Id.GenerateIdCorrected | src/utils/id.ts:8-12 | corrected: the random part is always six characters |
| Id.GenerateIdCorrectedValid | src/utils/id.ts:8-12 | every random text gives a valid id for a 13-digit timestamp |
| Id.CompactDate | src/utils/id.ts:31 | the date part has no dash and at most 10 characters |
| Id.RemoveDashes | src/utils/id.ts:31 | `replace(/-/g, '')` removes every dash and nothing else |
| Id.CompactIsoDate | src/utils/id.ts:31 | an ISO date `YYYY-MM-DD…` becomes `YYYYMMDD` |
| Id.NoDashInDigits | src/utils/id.ts:31 | digits have no dash to remove |
| Id.RemoveDashesAppend | src/utils/id.ts:31 | the removal distributes over concatenation |
| Id.GenerateExtraIncomeId | src/utils/id.ts:30-34 | as written: `EXTRA_`, the date, `_` and at most three characters |
| Id.GenerateExtraIncomeIdValid | src/utils/id.ts:30-34 | an ISO date and a random text of at least 5 characters give a valid id |
| Id.GenerateExtraIncomeIdShortRandom | src/utils/id.ts:32 | with `0.i` the id is invalid |
| Id.GenerateExtraIncomeIdCorrected | src/utils/id.ts:30-34 | corrected: three random characters always |
| Id.GenerateExtraIncomeIdCorrectedValid | src/utils/id.ts:30-34 | every random text gives a valid id |
| Id.GenerateTransactionId | src/utils/id.ts:18-24 | at most 23 characters |
| Id.RemoveColons | src/utils/id.ts:21 | no colon is left |
| Id.CompactTime | src/utils/id.ts:21 | `HH:MM:SS…` becomes `HHMMSS` |
| Id.NoColonInDigits | src/utils/id.ts:21 | digits have no colon to remove |
| Id.RemoveColonsAppend | src/utils/id.ts:21 | the removal distributes over concatenation |
| Id.GenerateTransactionIdValid | src/utils/id.ts:18-24 | an ISO date, a time of day and a random text of at least 5 characters give a valid id |

## Left out

- `PinEnvelope`: PBKDF2, AES-GCM, base64 and `secureWipe` are not computed.
  - The cipher is ideal: decryption succeeds exactly under the same derived key.
  - Derivation and the random sources are parameters.
  - The WebCrypto failure paths and their exceptions are not modelled.
- `LegacyCrypto.HashPin`: `crypto.getRandomValues` and the PBKDF2 call are parameters. The exceptions of `crypto.subtle` and the log lines are not modelled.
- `simpleHash` (SHA-256 for tests) is not modelled; it is a direct call into WebCrypto.
- `Lock`:
  - DOM listeners are event-type names, and `window.setTimeout` is the `timers` map.
  - The console log lines are not modelled.
  - A callback that re-enters the manager is not modelled: callbacks are numbers appended to a log.
  - `initialize` is taken to be called once on a fresh manager, as the application does.
  - `SetupPin` and `Unlock` are atomic steps. In the source they await the key derivation (`generatePinTestData`, `verifyPin`), and a timeout, an activity event or `resetComplete` can run during that await; this interleaving is not modelled. Their `now` is the clock reading taken after the await.
- `Lock.SecurityManager.ResetAutoLockTimer`: its new due time is `now + 300000`, with the clock reading passed in rather than read from `Date.now()`.
- `calculateRecommendedBudgets` is not modelled. It reads the clock and calls `setMonth`, and the month arithmetic of `Date` is outside this model.
- `calculateBudgetImpact` is not modelled. It is floating-point projection arithmetic over the savings rate. Its result only feeds the three acceleration fields that `BudgetInteraction.GenerateSmartRecommendations` reads; the other fields are carried but unused.
- `formatDateDouala`, `formatDateFR`, `getCurrentDateDouala` and `getCurrentMonthDouala` are not modelled; they are time-zone formatting over `Date`.
- `Format.FormatCurrencyXaf`: the compact path (`1,5M`, `2k`, using `toFixed`) is not modelled, and `Intl.NumberFormat` is specified by the grouping it produces.
- `Format.ParseCurrencyXaf`: the `typeof` guard is subsumed by the string type. `parseFloat` is modelled on the cleaned text only, which can hold nothing but digits, `,`, `-` and `.`.
- Floating point: amounts and ratios are exact rationals.
  - `Math.round` is `floor(x + 1/2)`, which can differ from the double result at a few .5 boundaries.
  - `21.7·1500` and `1 + m/100` are exact here.
  - `toFixed(1)` in the budget validator's messages is not modelled: each message carries the values it shows.
- `ExtraIncome.ExtraIncomeSplit`: amounts are integers. For non-integer amounts the source's `Math.floor` parts and remainder would be fractional; this model does not capture that.
- `ExtraIncome.CreateExtraIncomeTransactions`: the date is a parameter. `new Date().toISOString()` is not read.
- `Calculations.GetMonthlySpendingByCategory`: the current month is a parameter. The source derives it from `toISOString()`, i.e. in UTC.
- JavaScript objects with integer-like keys enumerate those keys first. Category ids and income types are not integer-like, so insertion order is used.
- String comparison is by character code point. JavaScript compares UTF-16 code units, which agrees on the ASCII dates compared here.
- `Id.IsValidId`: the `typeof` check is subsumed by the string type; `!id` is the empty-text check.
- `Id.GenerateTransactionId`: the source mixes a UTC date from `toISOString()` with a local time from `toTimeString()`. Both are parameters here, so the mismatch between them is not modelled.
- `Id.GenerateTransactionIdValid`: like the other generators, this requires a random text of at least 5 characters. The same short-random defect as in Findings applies.
- React pages, hooks and contexts, IndexedDB persistence and the diagnostics and migration scripts are not modelled: they are UI and I/O.

## Findings

| source | as written | input that shows it | evidently intended | confidence | as-written member | corrected member |
|---|---|---|---|---|---|---|
| src/data/lock.ts:196-201 | `resetComplete` replaces `session` with a fresh object before calling `clearAutoLockTimer`. The new session has no timer, so the pending timeout is never cancelled | set up a PIN at t=0 (timeout due at 300000), reset at t=1000, click at t=299000: the old timeout fires at t=300000 and locks a session active one second earlier, with no PIN left to unlock it | cancel the pending timeout before the session is replaced | high (not executed) | Lock.SecurityManager.ResetComplete, Lock.StaleTimerAfterReset | Lock.SecurityManager.ResetCompleteCorrected, Lock.StaleTimerAfterResetCorrected |
| src/utils/calculations.ts:224 | `getMonthlySpendingByCategory(filteredTransactions)` is called without a month, so it keeps only the transactions of the current month | the test's four September 2025 transactions, computed in October 2025: total 10500 but `topCategory` null | group the filtered transactions themselves, as the comment and the test expect (`cat_alimentation`, 5000) | high (not executed) | Calculations.CalculateFinancialStatsAsWritten, Calculations.TopCategoryLostOutsideSeptember | Calculations.CalculateFinancialStats, Calculations.TopCategoryFound |
| src/utils/crypto.ts:160-161 | `generateRandomPin()` draws a single byte, so `% 10000` never applies | every byte: the PIN is at most `0255`, and `1234` is never produced | a uniform draw over 0000–9999 | medium (not executed) | LegacyCrypto.GenerateRandomPin, LegacyCrypto.RandomPinMisses1234 | LegacyCrypto.GenerateRandomPinCorrected, LegacyCrypto.CorrectedCoversAllPins |
| src/utils/id.ts:10 | `Math.random().toString(36).substring(2, 8)` is shorter than six characters when the base-36 expansion is short | `Math.random()` = 0.5 gives `0.i`, so the random part is `i` and `isValidId` rejects the generated id | six random characters always | medium (not executed) | Id.GenerateId, Id.GenerateIdShortRandom | Id.GenerateIdCorrected, Id.GenerateIdCorrectedValid |
| src/utils/id.ts:32 | `substring(2, 5)` of a short base-36 expansion gives fewer than three characters | `Math.random()` = 0.5 gives `EXTRA_YYYYMMDD_i`, rejected by `isValidId` | three random characters | medium (not executed) | Id.GenerateExtraIncomeId, Id.GenerateExtraIncomeIdShortRandom | Id.GenerateExtraIncomeIdCorrected, Id.GenerateExtraIncomeIdCorrectedValid |
