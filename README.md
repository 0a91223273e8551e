# Expense tracker: one-time passwords, password reset, expense lists, group splits, password strength

This project models the decision logic of a small expense-tracking application,
made of an ASP.NET API and a React client, and proves properties of it.

- **One-time-password store** (`Otp`, `otp_service.dfy`). A table from a
  lower-cased e-mail to a pending code and its expiry, ten minutes after the
  code was stored. The operations are generate, store, verify and remove.
  `OtpService` is a class whose `store` map field its methods update in place.
- **Password reset** (`PasswordReset`, `password_reset.dfy`). The "forgot" and
  "reset" handlers of the API as a class over an `OtpService`, a user table
  (e-mail to password hash), an uninterpreted hash function and an outbox of
  OTP e-mails.
- **Expense list** (`ExpenseList`, `expense_list.dfy`). The category and search
  filter, the date or amount sort, grouping by category with totals, the list
  of categories, the overall total and the percentage, and the delete and
  append updates of the list state.
- **Group expense form** (`GroupExpense`, `add_group_expense.dfy`). The
  selected users and the custom splits, the handlers that change them, and the
  submit handler. Submit validates the form and builds one expense per
  participant plus the split notification.
- **Password strength** (`PasswordStrength`, `register.dfy`). The 0–5 score of
  the registration form, the strength bar and the hint shown under it.
- `Text` (`text.dfy`) holds the ASCII lower-casing and the substring search
  shared by the others.

Modelling choices:

- Time is an integer count of 100-nanosecond ticks, passed in as `now`.
- The random draw of a code is a nondeterministic choice within its bounds.
- Amounts are integers (paise).
- The rounded equal share, `parseFloat((a / n).toFixed(2))`, is the
  uninterpreted function `roundShare` of the form.
- Whether the request model is valid, whether the OTP e-mail was sent and
  whether saving succeeded are boolean parameters.

## Model

| member | source | states |
|---|---|---|
| `Text.Lower` | ExpenseTrackerAPI/Services/OtpService.cs:21 | Lower-casing keeps the length and lower-cases each character. No upper-case letter remains. |
| `Text.LowerIdempotent` | ExpenseTrackerAPI/Services/OtpService.cs:21-40 | Lower-casing an already lower-cased key changes nothing. |
| `Text.Contains` | expense-tracker/src/components/Expenses/ExpenseList.jsx:67-69 | `includes`: true exactly when the needle occurs at some position of the haystack. |
| `Text.EmptyOccurs` | expense-tracker/src/components/Expenses/ExpenseList.jsx:66-69 | The empty string is contained in every string. |
| `Otp.NatToDecimal` | ExpenseTrackerAPI/Services/OtpService.cs:14 | `ToString()` of a number yields at least one digit, all decimal, with no leading zero. |
| `Otp.DecimalRoundTrip` | ExpenseTrackerAPI/Services/OtpService.cs:14 | Parsing the decimal rendering gives the number back, so distinct draws give distinct codes. |
| `Otp.DecimalLength` | ExpenseTrackerAPI/Services/OtpService.cs:14 | A number between 10^(k-1) and 10^k renders as exactly k characters. |
| `Otp.GeneratedCodeShape` | ExpenseTrackerAPI/Services/OtpService.cs:12-14 | Every number in [100000, 999999) renders as six digits, and never as "999999". |
| `Otp.OtpService.GenerateOtp` | ExpenseTrackerAPI/Services/OtpService.cs:10-15 | The code is the decimal rendering of some n with 100000 ≤ n < 999999. It is six digits and never "999999". |
| `Otp.OtpService.constructor` | ExpenseTrackerAPI/Services/OtpService.cs:7 | The store starts empty. |
| `Otp.OtpService.StoreOtp` | ExpenseTrackerAPI/Services/OtpService.cs:17-25 | The new store is the old one with the lower-cased e-mail mapped to the code and `now` plus ten minutes. The result is always true. |
| `Otp.OtpService.VerifyOtp` | ExpenseTrackerAPI/Services/OtpService.cs:27-37 | True iff an entry exists under the lower-cased e-mail, its code equals the submitted one and its expiry is strictly after `now`. The store is not modified. |
| `Otp.OtpService.RemoveOtp` | ExpenseTrackerAPI/Services/OtpService.cs:38-42 | The new store is the old one without the lower-cased e-mail. |
| `Otp.Put` | ExpenseTrackerAPI/Services/OtpService.cs:17-24 | The store after `StoreOtpAsync`: the lower-cased e-mail mapped to the code and an expiry ten minutes after `now`. |
| `Otp.Without` | ExpenseTrackerAPI/Services/OtpService.cs:38-41 | The store after `RemoveOtp`: the lower-cased e-mail's entry removed. |
| `Otp.Accepts` | ExpenseTrackerAPI/Services/OtpService.cs:27-36 | `VerifyOtp`'s answer: an entry under the lower-cased e-mail with the same code and an expiry after `now`. |
| `Otp.PutFrame` | ExpenseTrackerAPI/Services/OtpService.cs:17-24 | Storing adds or overwrites only the lower-cased key, with the fresh entry. Every other key keeps its entry. |
| `Otp.StoreThenVerify` | ExpenseTrackerAPI/Services/OtpService.cs:19-31 | After storing a code at t, verifying it under any e-mail with the same lower-case form at t' succeeds iff t' < t + 10 minutes. |
| `Otp.FreshCodeAccepted` | ExpenseTrackerAPI/Services/OtpService.cs:19-31 | A stored code verifies at the moment it is stored. |
| `Otp.OnlyStoredCodeAccepted` | ExpenseTrackerAPI/Services/OtpService.cs:29-31 | After storing a code, any other code is refused. |
| `Otp.LastWriteWins` | ExpenseTrackerAPI/Services/OtpService.cs:20-23 | After storing c1 and then c2 ≠ c1, c1 never verifies. c2 verifies exactly within its own window. |
| `Otp.PutIsolated` | ExpenseTrackerAPI/Services/OtpService.cs:20-23 | Storing for one e-mail does not change verification for an e-mail with a different lower-case form. |
| `Otp.RemoveRejects` | ExpenseTrackerAPI/Services/OtpService.cs:38-41 | Removal deletes only the lower-cased key and is a no-op when it is absent. Afterwards no code verifies for that e-mail. |
| `PasswordReset.PasswordResetController.constructor` | ExpenseTrackerAPI/Controllers/PasswordResetController.cs:17-25 | The controller starts over the given OTP service, user table and hash, with nothing sent. |
| `PasswordReset.PasswordResetController.ForgotPassword` | ExpenseTrackerAPI/Controllers/PasswordResetController.cs:27-52 | An invalid model is refused with nothing changed. An unknown lower-cased e-mail gets the generic Ok with no code stored and no mail sent. A known user gets a fresh code, the decimal rendering of a draw in [100000, 999999), so six digits and never "999999", stored under the e-mail and mailed to it. A failed send answers 500 and the code stays. Every Ok carries the same generic message. |
| `PasswordReset.PasswordResetController.ResetPassword` | ExpenseTrackerAPI/Controllers/PasswordResetController.cs:53-83 | Each failure leaves users and codes unchanged: an invalid model, a code that fails verification, no user under the e-mail as given, or a failed save. Success sets that user's hash to `hash(newPassword)`, leaves other users unchanged and removes the code. |
| `PasswordReset.ReuseScenario` | ExpenseTrackerAPI/Controllers/PasswordResetController.cs:60-77 | A wrong code is refused and the right one resets. Reusing the right code is then refused. |
| `PasswordReset.MixedCaseScenario` | ExpenseTrackerAPI/Controllers/PasswordResetController.cs:36-65 | For user "bob@x.com", "forgot" with "Bob@x.com" sends a code. "Reset" with "Bob@x.com" and that code is NotFound. "Reset" with "bob@x.com" succeeds. |
| `ExpenseList.Keep` | expense-tracker/src/components/Expenses/ExpenseList.jsx:61-71 | `filter` never lengthens the list. |
| `ExpenseList.KeepMembers` | expense-tracker/src/components/Expenses/ExpenseList.jsx:61-71 | An element survives `filter` iff it was in the list and satisfies the predicate. |
| `ExpenseList.KeepConcat` | expense-tracker/src/components/Expenses/ExpenseList.jsx:61-71 | `filter` distributes over concatenation, so relative order is kept. |
| `ExpenseList.KeepAll` | expense-tracker/src/components/Expenses/ExpenseList.jsx:61-71 | A predicate true on every element keeps the whole list. |
| `ExpenseList.Matches` | expense-tracker/src/components/Expenses/ExpenseList.jsx:61-71 | The filter's test: the category filter is empty or equal to the category, and the search term is empty or occurs in the lower-cased description. |
| `ExpenseList.FilterExpenses` | expense-tracker/src/components/Expenses/ExpenseList.jsx:61-71 | `filteredExpenses`: the list filtered by `Matches`. |
| `ExpenseList.FilterSpec` | expense-tracker/src/components/Expenses/ExpenseList.jsx:61-71 | An expense is kept iff its category matches the filter (or the filter is empty) and its lower-cased description contains the lower-cased search term (or the term is empty). Order is kept. Both controls empty keep everything. |
| `ExpenseList.Compare` | expense-tracker/src/components/Expenses/ExpenseList.jsx:73-82 | The comparator: the date or amount difference, negated unless the order is "asc", and 0 for any other field. |
| `ExpenseList.Insert` | expense-tracker/src/components/Expenses/ExpenseList.jsx:73-82 | Inserting lengthens the list by one. |
| `ExpenseList.SortExpenses` | expense-tracker/src/components/Expenses/ExpenseList.jsx:73-82 | Sorting keeps the length. |
| `ExpenseList.InsertPermutes` | expense-tracker/src/components/Expenses/ExpenseList.jsx:73-82 | Inserting adds exactly the one element to the multiset of the list. |
| `ExpenseList.SortPermutes` | expense-tracker/src/components/Expenses/ExpenseList.jsx:73-82 | The sorted list is a permutation of its input. |
| `ExpenseList.InsertMembers` | expense-tracker/src/components/Expenses/ExpenseList.jsx:73-82 | Every element after inserting is the inserted one or was already there. |
| `ExpenseList.InsertSorted` | expense-tracker/src/components/Expenses/ExpenseList.jsx:73-82 | Insertion keeps a list ordered by the comparator. |
| `ExpenseList.SortSorted` | expense-tracker/src/components/Expenses/ExpenseList.jsx:73-82 | The sorted list is ordered by the comparator. |
| `ExpenseList.SortSpec` | expense-tracker/src/components/Expenses/ExpenseList.jsx:73-82 | The sorted list is a permutation of its input, ordered by date or amount, ascending for "asc" and descending otherwise. |
| `ExpenseList.TiesShift` | expense-tracker/src/components/Expenses/ExpenseList.jsx:73-82 | Moving an element past one it compares greater than keeps, for any `a`, the order of the elements that tie with `a`. |
| `ExpenseList.InsertStable` | expense-tracker/src/components/Expenses/ExpenseList.jsx:73-82 | Inserting an element puts it ahead of the elements it ties with, which keep their order. |
| `ExpenseList.SortStable` | expense-tracker/src/components/Expenses/ExpenseList.jsx:73-82 | The sort is stable: the elements that tie with any `a` appear in the same order before and after sorting. |
| `ExpenseList.SortOtherFieldKeepsOrder` | expense-tracker/src/components/Expenses/ExpenseList.jsx:81 | For any other sort field the comparator answers 0 and the order is unchanged. |
| `ExpenseList.Total` | expense-tracker/src/components/Expenses/ExpenseList.jsx:101-104 | `overallTotal`: the sum of the amounts. |
| `ExpenseList.TotalConcat` | expense-tracker/src/components/Expenses/ExpenseList.jsx:101-104 | The total of a concatenation is the sum of the totals. |
| `ExpenseList.InsertTotal` | expense-tracker/src/components/Expenses/ExpenseList.jsx:101-104 | Inserting an expense adds its amount to the total. |
| `ExpenseList.SortTotal` | expense-tracker/src/components/Expenses/ExpenseList.jsx:73-104 | Sorting does not change the total. |
| `ExpenseList.Categories` | expense-tracker/src/components/Expenses/ExpenseList.jsx:96-98 | `[...new Set(categories)]`: the distinct categories in order of first appearance. |
| `ExpenseList.CategoriesDistinct` | expense-tracker/src/components/Expenses/ExpenseList.jsx:96-98 | The category list has no duplicates. |
| `ExpenseList.CategoriesMembers` | expense-tracker/src/components/Expenses/ExpenseList.jsx:96-98 | A category is listed iff some expense has it. |
| `ExpenseList.CategoriesStep` | expense-tracker/src/components/Expenses/ExpenseList.jsx:96-98 | Appending an expense appends its category only when it is new, so first appearances give the order. |
| `ExpenseList.KeepOne` | expense-tracker/src/components/Expenses/ExpenseList.jsx:85-93 | A single expense lands in its own category's group only. |
| `ExpenseList.OneGroupGetsIt` | expense-tracker/src/components/Expenses/ExpenseList.jsx:85-93 | Over distinct categories, a single expense adds its amount to exactly one group total. |
| `ExpenseList.GroupTotalsConcat` | expense-tracker/src/components/Expenses/ExpenseList.jsx:85-93 | The sum of group totals distributes over concatenation. |
| `ExpenseList.GroupTotalsOfNothing` | expense-tracker/src/components/Expenses/ExpenseList.jsx:85-93 | With no expenses every group total is zero. |
| `ExpenseList.GroupTotalsSum` | expense-tracker/src/components/Expenses/ExpenseList.jsx:85-104 | Over distinct categories covering every expense, the group totals add up to the overall total. |
| `ExpenseList.InCategoryIsFilter` | expense-tracker/src/components/Expenses/ExpenseList.jsx:85-93 | The expenses a group collects, in the order the reduce meets them, are the list filtered by that category. |
| `ExpenseList.AbsentCategory` | expense-tracker/src/components/Expenses/ExpenseList.jsx:87-89 | A category that no expense has collects no expenses, so a group created for a new category starts empty. |
| `ExpenseList.GroupAt` | expense-tracker/src/components/Expenses/ExpenseList.jsx:90-91 | One more expense is pushed onto its own category's group and adds its amount to that total; every other group is unchanged. |
| `ExpenseList.AddToGroup` | expense-tracker/src/components/Expenses/ExpenseList.jsx:85-93 | The reducer fails (the push throws) exactly for a category inherited from `Object.prototype`. Otherwise it keeps the invariant: one group per category seen so far, in first-appearance order, each holding exactly its category's expenses and their total. |
| `ExpenseList.GroupedTotals` | expense-tracker/src/components/Expenses/ExpenseList.jsx:85-104 | The group totals, one per distinct category, add up to the overall total. |
| `ExpenseList.GroupByCategory` | expense-tracker/src/components/Expenses/ExpenseList.jsx:85-93 | The reduce throws exactly when some category is inherited from `Object.prototype` ("constructor", "toString", "__proto__", …). Otherwise there is one group per category present, created in first-appearance order. Each group holds exactly that category's expenses in sorted order, with their total. The totals add up to the total of the list. |
| `ExpenseList.IndexKeys` | expense-tracker/src/components/Expenses/ExpenseList.jsx:184-189 | The array-index keys are exactly the created keys that are canonical array indexes. |
| `ExpenseList.NamedKeys` | expense-tracker/src/components/Expenses/ExpenseList.jsx:184-189 | The other keys are exactly the created keys that are not array indexes. |
| `ExpenseList.SortKeysSpec` | expense-tracker/src/components/Expenses/ExpenseList.jsx:184-189 | Ordering the array-index keys keeps the same keys and puts them in ascending numeric order. |
| `ExpenseList.ObjectKeys` | expense-tracker/src/components/Expenses/ExpenseList.jsx:184-189 | `Object.keys` of the accumulator: the array-index keys in ascending order, then the other keys in creation order. |
| `ExpenseList.ObjectKeysSpec` | expense-tracker/src/components/Expenses/ExpenseList.jsx:184-189 | `Object.keys` lists every created key once: the array-index keys first, ascending by value, then the others in creation order. |
| `ExpenseList.ObjectKeysInCreationOrder` | expense-tracker/src/components/Expenses/ExpenseList.jsx:184-189 | Without array-index keys, `Object.keys` follows creation order. |
| `ExpenseList.ShownInFirstAppearanceOrder` | expense-tracker/src/components/Expenses/ExpenseList.jsx:85-189 | When no category is an array index, the groups are shown in first-appearance order of their categories in the sorted list. |
| `ExpenseList.NumericCategoriesFirst` | expense-tracker/src/components/Expenses/ExpenseList.jsx:184-189 | Categories created as "Food", "10", "2" are shown as "2", "10", "Food". |
| `ExpenseList.Percentage` | expense-tracker/src/components/Expenses/ExpenseList.jsx:107-109 | 0 when the overall total is not positive. Otherwise the percentage times the overall total is 100 times the category total. |
| `ExpenseList.PercentageBounds` | expense-tracker/src/components/Expenses/ExpenseList.jsx:107-109 | A category total between 0 and the overall total gives a percentage between 0 and 100. |
| `ExpenseList.ExpenseListState.constructor` | expense-tracker/src/components/Expenses/ExpenseList.jsx:14-21 | Starts with no expenses, no filter, no search term, sorted by date descending. |
| `ExpenseList.ExpenseListState.FilteredExpenses` | expense-tracker/src/components/Expenses/ExpenseList.jsx:61-71 | The filtered list of the current state. |
| `ExpenseList.ExpenseListState.SortedExpenses` | expense-tracker/src/components/Expenses/ExpenseList.jsx:73-82 | The filtered list sorted by the current field and order. |
| `ExpenseList.ExpenseListState.OverallTotal` | expense-tracker/src/components/Expenses/ExpenseList.jsx:101-104 | The total of the sorted list. |
| `ExpenseList.ExpenseListState.CategoryList` | expense-tracker/src/components/Expenses/ExpenseList.jsx:96-98 | The categories of the whole (unfiltered) list. |
| `ExpenseList.ExpenseListState.OverallTotalIsFilteredTotal` | expense-tracker/src/components/Expenses/ExpenseList.jsx:61-104 | The overall total over the sorted list equals the total of the filtered list. |
| `ExpenseList.ExpenseListState.HandleDelete` | expense-tracker/src/components/Expenses/ExpenseList.jsx:44-58 | The new list is the old one without every expense of that id, other expenses kept in order. |
| `ExpenseList.ExpenseListState.OnExpenseAdded` | expense-tracker/src/components/Expenses/ExpenseList.jsx:213-215 | The new expense is appended at the end. Existing entries are unchanged. |
| `ExpenseList.DeleteKeepsOrder` | expense-tracker/src/components/Expenses/ExpenseList.jsx:50 | Deleting distributes over concatenation and leaves no expense of that id. |
| `GroupExpense.Remove` | expense-tracker/src/components/Expenses/AddGroupExpense.jsx:54 | Removing a user leaves exactly the other users, and a duplicate-free list stays duplicate-free. |
| `GroupExpense.RemoveKeepsOrder` | expense-tracker/src/components/Expenses/AddGroupExpense.jsx:54 | Removal distributes over concatenation, so the others keep their order. |
| `GroupExpense.RemoveAbsent` | expense-tracker/src/components/Expenses/AddGroupExpense.jsx:54 | Removing an absent user changes nothing. |
| `GroupExpense.ToggleTwiceRestores` | expense-tracker/src/components/Expenses/AddGroupExpense.jsx:52-69 | Selecting an unselected user and deselecting them restores both the selection and the splits. |
| `GroupExpense.SumValues` | expense-tracker/src/components/Expenses/AddGroupExpense.jsx:150-153 | The sum of the custom split values. |
| `GroupExpense.SumValuesRemove` | expense-tracker/src/components/Expenses/AddGroupExpense.jsx:150-153 | The sum of the split values does not depend on which key is taken first. |
| `GroupExpense.SumOverFrame` | expense-tracker/src/components/Expenses/AddGroupExpense.jsx:150-185 | A sum over users depends only on those users' splits. |
| `GroupExpense.SumOverSelection` | expense-tracker/src/components/Expenses/AddGroupExpense.jsx:150-153 | When the split keys are exactly the selected users, summing the map's values is summing over the selection. |
| `GroupExpense.TotalOfEqualShares` | expense-tracker/src/components/Expenses/AddGroupExpense.jsx:118-146 | k expenses of the same amount add up to k times it. |
| `GroupExpense.TotalOfShares` | expense-tracker/src/components/Expenses/AddGroupExpense.jsx:175-185 | The amounts of the others' expenses add up to their splits. |
| `GroupExpense.GroupExpenseForm.constructor` | expense-tracker/src/components/Expenses/AddGroupExpense.jsx:10-26 | The form starts empty and dated today, with an equal split and nobody selected. It satisfies the form invariant. |
| `GroupExpense.GroupExpenseForm.EditFields` | expense-tracker/src/components/Expenses/AddGroupExpense.jsx:11-14 | The text inputs set their fields and keep the invariant. |
| `GroupExpense.GroupExpenseForm.ToggleUserSelection` | expense-tracker/src/components/Expenses/AddGroupExpense.jsx:52-69 | A selected user is removed from the selection and the splits. An unselected one is appended, with split 0 in custom mode. The invariant is kept: no duplicates, split keys among the selected, all selected keyed in custom mode. |
| `GroupExpense.GroupExpenseForm.InitialSplit` | expense-tracker/src/components/Expenses/AddGroupExpense.jsx:75-80 | The split each selected user gets on switching to custom: the rounded equal share of the amount, or 0 with nobody selected. |
| `GroupExpense.GroupExpenseForm.HandleSplitMethodChange` | expense-tracker/src/components/Expenses/AddGroupExpense.jsx:71-88 | Switching to custom gives exactly the selected users a split, all the same rounded equal share, or 0 with nobody selected. Switching to equal keeps the splits. The invariant is kept. |
| `GroupExpense.GroupExpenseForm.HandleCustomSplitChange` | expense-tracker/src/components/Expenses/AddGroupExpense.jsx:90-95 | The user's split becomes the typed value, or 0 when it does not parse. The invariant is kept for a selected user. |
| `GroupExpense.GroupExpenseForm.FieldsFilled` | expense-tracker/src/components/Expenses/AddGroupExpense.jsx:100 | Category, description, amount and date are all non-empty. |
| `GroupExpense.GroupExpenseForm.Entry` | expense-tracker/src/components/Expenses/AddGroupExpense.jsx:125-133 | One participant's expense carries the user, the amount, the form's category and date, the suffixed description and the group id. |
| `GroupExpense.GroupExpenseForm.SumCustomSplits` | expense-tracker/src/components/Expenses/AddGroupExpense.jsx:150-153 | The loop's result is the sum of all split values. |
| `GroupExpense.GroupExpenseForm.BuildExpenses` | expense-tracker/src/components/Expenses/AddGroupExpense.jsx:124-146 | The current user's expense comes first, then one per selected user in selection order. All carry the first expense's group id and the form's fields. |
| `GroupExpense.GroupExpenseForm.BuildSplitWith` | expense-tracker/src/components/Expenses/AddGroupExpense.jsx:195-213 | There is one notification line per selected user, in order. Each holds the equal share, or the user's custom split, or 0 when there is none. |
| `GroupExpense.GroupExpenseForm.HandleSubmit` | expense-tracker/src/components/Expenses/AddGroupExpense.jsx:97-213 | An empty field or an empty selection is refused with its message. Otherwise there are n+1 expenses, current user first, then the selection in order, all sharing category, date, group id and the suffixed description. With an equal split every amount is the rounded share, so the total is n+1 times it. With an equal split and the fields filled and someone selected, the expenses are always built. With a custom split the submission is refused, with the "exceeds" message, iff the splits exceed the amount; otherwise the current user gets the remainder and the amounts add up to the total. The notification amounts match the others' expenses. |
| `PasswordStrength.Meets` | expense-tracker/src/components/Auth/Register.jsx:15-19 | The five rules: longer than 6, longer than 10, an upper-case letter, a digit, a character that is not an ASCII letter or digit. |
| `PasswordStrength.SatisfiedCriteria` | expense-tracker/src/components/Auth/Register.jsx:15-19 | The set of rules a password meets: exactly the rules whose test it passes, all among the five. |
| `PasswordStrength.CheckPasswordStrength` | expense-tracker/src/components/Auth/Register.jsx:13-21 | The score is the number of rules met, at most 5. |
| `PasswordStrength.CountPoints` | expense-tracker/src/components/Auth/Register.jsx:14-19 | The number of rules met is the sum of one point per rule, at most 5. |
| `PasswordStrength.CountFirstThree` | expense-tracker/src/components/Auth/Register.jsx:15-17 | The first three rules contribute one point each when met. |
| `PasswordStrength.AddOne` | expense-tracker/src/components/Auth/Register.jsx:15-19 | A rule not yet counted adds one point exactly when it is met. |
| `PasswordStrength.EmptyScoresZero` | expense-tracker/src/components/Auth/Register.jsx:13-20 | The empty password scores 0. |
| `PasswordStrength.MeetsAppend` | expense-tracker/src/components/Auth/Register.jsx:15-19 | Each rule met by a password is still met once a character is appended. |
| `PasswordStrength.AppendNeverWeakens` | expense-tracker/src/components/Auth/Register.jsx:15-19 | Appending a character keeps every rule met, so the score never drops. |
| `PasswordStrength.LongPasswordAtLeastTwo` | expense-tracker/src/components/Auth/Register.jsx:15-16 | A password longer than 10 characters scores at least 2. |
| `PasswordStrength.LowercaseOnlyScoresLength` | expense-tracker/src/components/Auth/Register.jsx:15-19 | A lower-case-only password meets only length rules, so it scores at most 1 up to ten characters. |
| `PasswordStrength.FullScore` | expense-tracker/src/components/Auth/Register.jsx:15-19 | A score of 5 is reached iff the password is longer than 10 and has an upper-case letter, a digit and a symbol. |
| `PasswordStrength.BarClass` | expense-tracker/src/components/Auth/Register.jsx:124-135 | Scores of 4 and above give the full green bar. |
| `PasswordStrength.BarClassesDistinct` | expense-tracker/src/components/Auth/Register.jsx:124-135 | Scores 0 to 4 give pairwise different bars. |
| `PasswordStrength.Hints` | expense-tracker/src/components/Auth/Register.jsx:138-145 | The hints whose condition holds for a score. |
| `PasswordStrength.ExactlyOneHint` | expense-tracker/src/components/Auth/Register.jsx:138-145 | Exactly one hint is shown: weak below 2, medium for 2 and 3, strong from 4. |
| `PasswordStrength.IndicatorFor` | expense-tracker/src/components/Auth/Register.jsx:121 | The indicator is hidden exactly when the password is empty. |
| `PasswordStrength.ShortLowercaseIsWeak` | expense-tracker/src/components/Auth/Register.jsx:121-145 | A non-empty lower-case password of at most ten characters shows the weak hint and a red bar. |

The generator's range is [100000, 999999), because the upper bound of
`Random.Next` is exclusive (`ExpenseTrackerAPI/Services/OtpService.cs:14`).

The case handling of the two reset handlers is modelled as written. The
OTP store always lower-cases its key (`ExpenseTrackerAPI/Services/OtpService.cs:21`),
so a code stored for "Bob@x.com" verifies for "bob@x.com" and the other way
round. "Forgot" looks users up by the lower-cased e-mail and sends the mail to
the e-mail as given. "Reset" looks the user up by the e-mail as given
(`ExpenseTrackerAPI/Controllers/PasswordResetController.cs:65`), and the model
compares it exactly. The API keeps its users in SQL Server
(`ExpenseTrackerAPI/Program.cs:31-33`), whose default collation compares
case-insensitively; with it, that lookup would find "bob@x.com" for
"Bob@x.com". So the NotFound of `MixedCaseScenario` holds only for a
case-sensitive e-mail column.

## Left out

- Concurrency: the `ConcurrentDictionary` is modelled as a sequential map, and the async/await structure is dropped.
- Clock and randomness: `DateTime.UtcNow` is the parameter `now`, and `Random.Next` is a nondeterministic choice.
- `Text.Lower`: only ASCII letters are lower-cased. C# `ToLower` is culture-sensitive and JavaScript `toLowerCase` covers all of Unicode.
- Persistence and libraries: the user table is a map. EF Core lookups, database collation and BCrypt are not modelled; hashing is the uninterpreted `hash`, and a failed `SaveChangesAsync` is the flag `saveSucceeds`. The `details` field of the 500 answer is not modelled.
- E-mail delivery: Postmark and the HTML template are not modelled. Sending is recorded in `outbox`, and its outcome is the flag `emailSent`.
- `ModelState.IsValid` is the flag `modelValid`; the DTO validation attributes are not modelled.
- Floating point: amounts are integers. `parseFloat`, `toFixed(2)` and the percentage division are not modelled bit for bit. The equal share is the uninterpreted `roundShare`, and `Percentage` is exact real division.
- Dates in the expense list are integers. `new Date(...)` parsing is not modelled.
- `getMonthsData` (`ExpenseList.jsx:112-122`) is not modelled, because it rests on locale month names from `toLocaleString`.
- `expense.category || expense.Category` and `(expense.description || "")`: expenses always carry `category` and `description`, so the fallbacks for missing fields are not modelled.
- Object key order: `SumValues` adds the custom splits in an arbitrary order. Integer addition does not depend on order, but the floating-point sum of the source may.
- `GroupExpense.GroupExpenseForm.BuildSplitWith`: it keeps only the user id and the amount of each line. The name and e-mail looked up in the fetched user list are not modelled, nor is the notification request.
- The network side of submit is not modelled: saving each expense, the split notification and their error messages, and handing the first saved expense back. So is fetching the user list.
- `GroupExpense.GroupExpenseForm.HandleCustomSplitChange`: the typed value arrives parsed, as `None` when `parseFloat` fails. A typed 0 and an unparsable value both give 0, as in the source.
- `PasswordStrength.CheckPasswordStrength`: length counts characters (Unicode scalar values), not UTF-16 code units as JavaScript's `length` does. The two differ only outside the Basic Multilingual Plane.
- `ExpenseList.ExpenseListState.HandleDelete`: it always filters the current list. In the source the filter runs 300 ms after the click on the list captured at click time (a stale closure), so an expense added meanwhile is dropped again; and when `deleteExpense` rejects, the list is not updated at all (the rejection escapes the `try`). The request and the timer are not modelled.
- `ExpenseList.GroupByCategory`: the crash is modelled for the twelve names `Object.prototype` has in current engines; a page that adds further members to it is not modelled.
- UI: rendering, animation, timers and the delete confirmation dialog are not modelled. The React state setters become field assignments.
- The client's API module (`expense-tracker/src/services/api.js`) is not part of this model. It exports no `getUsers` or `splitExpense`, which the group form imports.
