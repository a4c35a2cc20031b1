# Aureum personal finance — a Dafny model of the client core

Aureum is a React Native app for personal finance. A user registers, logs
in, and then keeps track of savings goals ("objetivos"), bills ("facturas"),
transactions, incomes and expense categories. Settings and the profile are
saved in the device's key–value store (`AsyncStorage`). The app has a light,
dark and system theme and two languages, English and Spanish. This project
models the logic inside those screens: the form checks, the list
updates, the filters, the totals, the priority sort, the date entry, the
parsing of amounts, the JSON records written to storage and read back, and
the start-up and change rules for theme and language.

Layout, one module per file:

- `seqs.dfy` (`Seqs`): `Option`, an order-keeping `Filter`, `Sum`, subsequences.
- `text.dfy` (`Text`): digits, `trim`, ASCII lower case and `includes`.
- `amounts.dfy` (`Amounts`): `parseFloat`, computed on exact reals; `None` stands for NaN.
- `json.dfy` (`Json`): `JSON.stringify` and `JSON.parse` on the values the app stores.
- `storage.dfy` (`Storage`): `AsyncStorage` as a class over a map from keys to texts.
- `forms.dfy` (`Forms`): the rejections every form can give, and reading an amount.
- `date_entry.dfy` (`DateEntry`): the date mask and the date check. Both goal and bill screens have the same copy of this code. The dates it accepts are the full-dates of section 5.6 of RFC 3339.
- `goals.dfy`, `goal_screen.dfy`, `goal_panel.dfy`: savings goals. The stand-alone screen and the dashboard panel are separate implementations, so each has its own class.
- `bills.dfy`, `bill_screen.dfy`, `bill_panel.dfy`: bills, laid out in the same way.
- `transactions.dfy`, `income.dfy`, `expenses.dfy`: the transactions, incomes and expenses panels.
- `auth.dfy`, `register_screen.dfy`, `navigation.dfy`: registration, login and the role-based routing.
- `profile.dfy`, `settings.dfy`, `theme.dfy`, `dark_mode.dfy`, `i18n.dfy`: profile, settings, theme and language.

Every screen whose handlers change React state is a class. Its fields are
that state, and its methods are the handlers. Each handler's `ensures` gives
the whole new state in terms of the pure functions in the module beside it.
The properties are stated and proved about those functions. A failing
`alert` shows up as a `Rejected` outcome. An `AsyncStorage` failure is a
boolean parameter. The clock, the id generator (`Date.now()`), the device
locale and the system colour scheme are also parameters.

## Model

| member | source | states |
|---|---|---|
| DateEntry.FormatInput | frontend/src/screens/user/Objetivos.tsx:106-125 | The masking loop returns `Format` of the typed text. Its `else if` branch for the sixth digit can never be taken |
| DateEntry.Format | frontend/src/screens/user/Objetivos.tsx:106-125 | The masked text has at most ten characters, each a digit or a dash |
| DateEntry.FormatShape | frontend/src/screens/user/Objetivos.tsx:106-125 | The masked text has at most ten characters, all digits or dashes. Its digits are the first eight digits typed, or all of them when there are fewer |
| DateEntry.FormatDashes | frontend/src/screens/user/Facturas.tsx:62-81 | With n digits kept: a dash at position 4 exactly when n >= 5, one at position 7 exactly when n >= 7, and no other dash. The length is n plus the dashes |
| DateEntry.FormatIdempotent | frontend/src/screens/user/Facturas.tsx:107-110 | Masking text that is already masked changes nothing |
| DateEntry.FixpointShape | frontend/src/screens/user/Objetivos.tsx:151-154 | A text is a ten-character fixed point of the mask exactly when it has the YYYY-MM-DD shape |
| DateEntry.ShapeIsFixpoint | frontend/src/screens/user/Objetivos.tsx:106-125 | Every YYYY-MM-DD text passes through the mask unchanged |
| DateEntry.FixpointHasShape | frontend/src/screens/user/Facturas.tsx:62-81 | A fixed point of the mask with ten characters has the YYYY-MM-DD shape |
| DateEntry.ValidDateIffFullDate | frontend/src/screens/user/Objetivos.tsx:128-148 | On a YYYY-MM-DD text, `validarFecha` accepts exactly the RFC 3339 full-dates with a year from 2025 to 2500. This holds in both directions |
| DateEntry.ValidDate | frontend/src/screens/user/Facturas.tsx:84-104 | On digit-and-dash texts, an accepted text has ten characters and three dash-separated parts. Its year is from 2025 to 2500, its month from 1 to 12 and its day from 1 to that month's length |
| DateEntry.DaysAgree | frontend/src/screens/user/Objetivos.tsx:139-147 | The month table with the code's February fix-up gives the month lengths of RFC 3339 section 5.7 |
| DateEntry.LeapAgree | frontend/src/screens/user/Objetivos.tsx:143 | The code's leap-year test is the Gregorian rule of RFC 3339 Appendix C |
| DateEntry.February | frontend/src/screens/user/Facturas.tsx:95-103 | February 29 is accepted exactly in leap years, and February 30 never |
| DateEntry.IsoDateRoundTrip | frontend/src/screens/user/Facturas.tsx:229 | The `YYYY-MM-DD` text of a date has the date shape, reads back as the same date and passes through the mask unchanged |
| DateEntry.IsoDateValid | frontend/src/screens/user/Facturas.tsx:229 | The text of a calendar date passes `validarFecha` exactly when its year is from 2025 to 2500 |
| Amounts.NoDigitsIsNaN | frontend/src/screens/user/Objetivos.tsx:224 | `parseFloat` gives NaN for any text without a digit, the empty text included |
| Amounts.ParseFloat | frontend/src/screens/user/Objetivos.tsx:224 | A text that is empty after leading white space gives NaN. A text starting with a minus sign, after that white space, never reads as a positive amount |
| Amounts.ParseDecimal | frontend/src/components/user/Ingresos.tsx:118 | A decimal numeral parses to its value |
| Amounts.ParseNegative | frontend/src/components/user/Objetivos.tsx:172 | A minus sign before a numeral gives the negated value |
| Amounts.TrailingTextIgnored | frontend/src/components/user/Facturas.tsx:141 | Text after a numeral with a fraction is ignored when it does not start with a digit or an exponent mark |
| Forms.ReadAmount | frontend/src/components/user/Transacciones.tsx:142-146 | An amount is accepted exactly when `parseFloat` gives a positive number. Otherwise the outcome is `InvalidAmount` |
| Forms.EmptyAmountRejected | frontend/src/components/user/Ingresos.tsx:113-122 | An empty amount fails the amount check too, so the empty-field alert is never the only guard |
| Forms.DecimalAmountAccepted | frontend/src/components/user/Ingresos.tsx:118-122 | A positive decimal numeral is accepted with its exact value |
| Goals.ScreenOutcome | frontend/src/screens/user/Objetivos.tsx:218-247 | On masked deadlines, each rejection comes exactly when the earlier checks pass and its own fails. The order is blank fields, a target that is not a positive number, a deadline that fails `validarFecha`, a deadline not after today. Acceptance yields the parsed target |
| Goals.CheckScreenGoal | frontend/src/screens/user/Objetivos.tsx:218-247 | An accepted target is positive and is what `parseFloat` reads. An accepted deadline has the YYYY-MM-DD shape and its date comes after today |
| Goals.CheckPanelGoal | frontend/src/components/user/Objetivos.tsx:166-176 | The only rejections are missing fields and an invalid amount. An accepted target is positive and is what `parseFloat` reads |
| Goals.WithGoalText | frontend/src/screens/user/Objetivos.tsx:622-742 | Typing into the name, target or description box, or picking a category, sets that field. The other text fields, the deadline and the priority are kept |
| Goals.EmptyTargetNotPositive | frontend/src/screens/user/Objetivos.tsx:219-229 | A target that reads as a positive number is never empty |
| Goals.ScreenStricterThanPanel | frontend/src/components/user/Objetivos.tsx:166-176 | Every form the screen accepts, the dashboard panel accepts with the same target |
| Goals.PanelAcceptance | frontend/src/components/user/Objetivos.tsx:166-200 | The panel accepts exactly when the name and deadline are filled and the target reads as a positive number. The deadline text is not checked. The only rejections are missing fields and an invalid amount |
| Goals.AddMoneyEffect | frontend/src/screens/user/Objetivos.tsx:273-279 | Only the savings of goals with that id change, and never beyond the target. Other goals are unchanged. A positive deposit does not lower the savings of a goal within its target, and it keeps every goal within its target |
| Goals.AddMoneyUnknownId | frontend/src/components/user/Objetivos.tsx:202-208 | Adding money to an id that is not in the list leaves the list unchanged |
| Goals.AddMoney | frontend/src/screens/user/Objetivos.tsx:273-279 | The list keeps its length. Each goal with that id is credited, capped at its target, and every other goal is kept as it was |
| Goals.PromptAmounts | frontend/src/screens/user/Objetivos.tsx:548-552 | An empty answer and "0" deposit nothing. A positive numeral deposits its value. Every deposit is positive |
| Goals.PromptAmount | frontend/src/screens/user/Objetivos.tsx:548-552 | An empty answer deposits nothing, and any deposit is positive |
| Goals.ProgressBounds | frontend/src/screens/user/Objetivos.tsx:315-317 | When every goal is within its target, total savings lie between 0 and the sum of targets, and overall progress between 0 and 100 |
| Goals.ProgresoGeneral | frontend/src/screens/user/Objetivos.tsx:315-317 | When every goal is within its target, overall progress is between 0 and 100 |
| Goals.AddMoneyTotals | frontend/src/components/user/Objetivos.tsx:244-246 | A deposit leaves the total target unchanged. When every goal is within its target, a positive deposit does not lower total savings |
| Goals.ByPrioritySorted | frontend/src/screens/user/Objetivos.tsx:310-313 | The sorted list has the 'alta' goals first, then 'media', then 'baja' |
| Goals.ByPriority | frontend/src/components/user/Objetivos.tsx:239-242 | The sorted list is a permutation of the input: same length, same multiset of goals |
| Goals.ByPriorityStable | frontend/src/screens/user/Objetivos.tsx:310-313 | Goals of equal priority keep their relative order, as the stable `Array.prototype.sort` does |
| Goals.SortedIsByPriority | frontend/src/screens/user/Objetivos.tsx:310-313 | A list already ordered by priority is its own stable sort |
| Goals.ByPriorityUnique | frontend/src/components/user/Objetivos.tsx:239-242 | Any list ordered by priority whose three groups equal the input's groups, in order, is the stable sort. So the sort's result is fully determined |
| Goals.ByPriorityIdempotent | frontend/src/screens/user/Objetivos.tsx:310-313 | Sorting twice gives the same list as sorting once |
| Goals.TotalsUnderSort | frontend/src/screens/user/Objetivos.tsx:310-317 | Sorting changes neither total savings, nor total targets, nor overall progress |
| GoalsScreen.GoalScreen.constructor | frontend/src/screens/user/Objetivos.tsx:84-90 | The screen starts with no goals, the empty form and the modal closed |
| GoalsScreen.GoalScreen.HandleFechaChange | frontend/src/screens/user/Objetivos.tsx:151-154 | The deadline field holds the masked text, which is its own mask. Nothing else changes |
| GoalsScreen.GoalScreen.SetCampo | frontend/src/screens/user/Objetivos.tsx:622-742 | The form becomes `WithGoalText` of the old form. The goals and the modal are unchanged |
| GoalsScreen.GoalScreen.SetPrioridad | frontend/src/screens/user/Objetivos.tsx:719 | The priority button sets the priority and leaves the rest of the form, the goals and the modal unchanged |
| GoalsScreen.GoalScreen.HandleAddObjetivo | frontend/src/screens/user/Objetivos.tsx:218-271 | The outcome is the screen's check. When accepted, the new goal is put in front, the form is reset and the modal closes. When rejected, nothing changes |
| GoalsScreen.GoalScreen.HandleAddMoney | frontend/src/screens/user/Objetivos.tsx:273-279 | The list becomes `AddMoney` of the old list. The form and the modal are unchanged |
| GoalsScreen.GoalScreen.PromptAddMoney | frontend/src/screens/user/Objetivos.tsx:540-560 | The answer is deposited when `PromptAmount` reads a positive amount. Otherwise the list is unchanged |
| GoalsScreen.GoalScreen.SortByPriority | frontend/src/screens/user/Objetivos.tsx:310-313 | The array is rewritten in place with the stable priority order of its old contents, a permutation of them |
| GoalsScreen.GoalScreen.Summary | frontend/src/screens/user/Objetivos.tsx:310-317 | The array is sorted. The totals and the progress returned are those of the old contents |
| GoalsPanel.GoalPanel.constructor | frontend/src/components/user/Objetivos.tsx:82-88 | The panel starts with no goals, the empty form and the modal closed |
| GoalsPanel.GoalPanel.SetFechaLimite | frontend/src/components/user/Objetivos.tsx:578 | The deadline field takes the typed text unmasked |
| GoalsPanel.GoalPanel.SetCampo | frontend/src/components/user/Objetivos.tsx:551-654 | The form becomes `WithGoalText` of the old form. The goals and the modal are unchanged |
| GoalsPanel.GoalPanel.SetPrioridad | frontend/src/components/user/Objetivos.tsx:631 | The priority button sets the priority and leaves the rest of the form, the goals and the modal unchanged |
| GoalsPanel.GoalPanel.HandleAddObjetivo | frontend/src/components/user/Objetivos.tsx:166-200 | The outcome is the panel's check. When accepted, the new goal is put in front, the form is reset and the modal closes. Otherwise nothing changes |
| GoalsPanel.GoalPanel.HandleAddMoney | frontend/src/components/user/Objetivos.tsx:202-208 | The list becomes `AddMoney` of the old list |
| GoalsPanel.GoalPanel.PromptAddMoney | frontend/src/components/user/Objetivos.tsx:470-482 | A positive amount is deposited, and any other answer leaves the list unchanged |
| GoalsPanel.GoalPanel.SortByPriority | frontend/src/components/user/Objetivos.tsx:239-242 | The array is rewritten in place with the stable priority order, a permutation of its old contents |
| GoalsPanel.GoalPanel.Summary | frontend/src/components/user/Objetivos.tsx:239-246 | The array is sorted. The totals and the progress returned are those of the old contents |
| Bills.ScreenBillOutcome | frontend/src/screens/user/Facturas.tsx:185-200 | On masked due dates, each rejection comes exactly when the earlier checks pass and its own fails. The order is blank fields, an amount that is not a positive number, a due date that is not an RFC 3339 full-date in years 2025 to 2500. Acceptance yields the amount |
| Bills.PanelBillOutcome | frontend/src/components/user/Facturas.tsx:135-145 | The panel rejects exactly blank fields, then an amount that is not a positive number. It accepts any due date text |
| Bills.CheckScreenBill | frontend/src/screens/user/Facturas.tsx:185-200 | An accepted amount is positive and is what `parseFloat` reads. An accepted due date has the YYYY-MM-DD shape |
| Bills.CheckPanelBill | frontend/src/components/user/Facturas.tsx:135-145 | The only rejections are missing fields and an invalid amount. An accepted amount is positive and is what `parseFloat` reads |
| Bills.WithBillText | frontend/src/screens/user/Facturas.tsx:559-627 | Typing into the name, type, amount or description box sets that field. The other text fields and the due date are kept |
| Bills.ScreenBillStricter | frontend/src/components/user/Facturas.tsx:135-161 | Every form the screen accepts, the panel accepts with the same amount |
| Bills.MarkPaidEffect | frontend/src/screens/user/Facturas.tsx:218-236 | Only bills with that id change, and only their status (now 'pagada') and their last payment (now the given date) |
| Bills.MarkPaid | frontend/src/screens/user/Facturas.tsx:227-231 | The list keeps its length. Each bill with that id is paid today and every other bill is kept as it was |
| Bills.MarkUniquePending | frontend/src/screens/user/Facturas.tsx:266-268 | When the id belongs to exactly one bill and it is pending, the pending count drops by one and the pending total by its amount. The overdue count stays |
| Bills.TotalPendientes | frontend/src/components/user/Facturas.tsx:211-213 | With non-negative amounts, the pending total is non-negative |
| Bills.FilteredMembers | frontend/src/screens/user/Facturas.tsx:256-264 | A bill is listed exactly when it is in the list, its status passes the chip, and its name or type contains the term, ignoring case |
| Bills.Filtered | frontend/src/components/user/Facturas.tsx:201-209 | The filtered list keeps the bills in their original order |
| Bills.FilterAllEmpty | frontend/src/screens/user/Facturas.tsx:257-262 | With the 'all' chip and an empty search, every bill is shown |
| BillsScreen.BillScreen.constructor | frontend/src/screens/user/Facturas.tsx:44-50 | The screen starts with no bills, the empty form, the modal closed, the 'all' chip and an empty search |
| BillsScreen.BillScreen.HandleFechaVencimientoChange | frontend/src/screens/user/Facturas.tsx:107-110 | The due date field holds the masked text, which is its own mask. Nothing else changes |
| BillsScreen.BillScreen.SetCampo | frontend/src/screens/user/Facturas.tsx:559-627 | The form becomes `WithBillText` of the old form. The bills, the modal, the chip and the search are unchanged |
| BillsScreen.BillScreen.HandleAddFactura | frontend/src/screens/user/Facturas.tsx:185-216 | The outcome is the screen's check. When accepted, the new pending bill is put in front and the form is reset. When rejected, nothing changes |
| BillsScreen.BillScreen.HandleMarcarPagada | frontend/src/screens/user/Facturas.tsx:218-236 | After the confirmation, the list becomes `MarkPaid` with today's `YYYY-MM-DD` text. Without it, nothing changes |
| BillsScreen.BillScreen.SetFiltroEstado | frontend/src/screens/user/Facturas.tsx:347 | A chip selects the state filter and changes nothing else |
| BillsScreen.BillScreen.SetTerminoBusqueda | frontend/src/screens/user/Facturas.tsx:332 | The search box sets the term and changes nothing else |
| BillsScreen.BillScreen.FacturasFiltradas | frontend/src/screens/user/Facturas.tsx:256-264 | The list shown is an order-keeping subsequence of the bills. It is all of them under 'all' with an empty search |
| BillsPanel.BillPanel.constructor | frontend/src/components/user/Facturas.tsx:44-50 | The panel starts with no bills, the empty form, the modal closed, the 'all' chip and an empty search |
| BillsPanel.BillPanel.SetFechaVencimiento | frontend/src/components/user/Facturas.tsx:543-544 | The due date field takes the typed text unmasked |
| BillsPanel.BillPanel.SetCampo | frontend/src/components/user/Facturas.tsx:504-557 | The form becomes `WithBillText` of the old form. The bills, the modal, the chip and the search are unchanged |
| BillsPanel.BillPanel.HandleAddFactura | frontend/src/components/user/Facturas.tsx:135-161 | The outcome is the panel's check. When accepted, the new pending bill is put in front and the form is reset. Otherwise nothing changes |
| BillsPanel.BillPanel.HandleMarcarPagada | frontend/src/components/user/Facturas.tsx:163-181 | After the confirmation, the list becomes `MarkPaid` with today's `YYYY-MM-DD` text. Without it, nothing changes |
| BillsPanel.BillPanel.SetFiltroEstado | frontend/src/components/user/Facturas.tsx:292 | A chip selects the state filter and changes nothing else |
| BillsPanel.BillPanel.SetTerminoBusqueda | frontend/src/components/user/Facturas.tsx:277 | The search box sets the term and changes nothing else |
| BillsPanel.BillPanel.FacturasFiltradas | frontend/src/components/user/Facturas.tsx:201-209 | The list shown is an order-keeping subsequence of the bills. It is all of them under 'all' with an empty search |
| Transactions.TransactionOutcome | frontend/src/components/user/Transacciones.tsx:136-156 | A blank name, category or amount is rejected first, then an amount that is not a positive number. An accepted expense is recorded with the negated amount and an income with the amount itself |
| Transactions.CheckTransaction | frontend/src/components/user/Transacciones.tsx:136-146 | The only rejections are missing fields and an invalid amount. An accepted amount is positive and is what `parseFloat` reads |
| Transactions.NewTransaction | frontend/src/components/user/Transacciones.tsx:148-156 | The record keeps the form's type and the amount's magnitude. A non-negative amount gets the sign its type calls for |
| Transactions.WithTransactionText | frontend/src/components/user/Transacciones.tsx:440-498 | Typing into the name, amount or description box, or picking a category, sets that field. The other text fields and the type are kept |
| Transactions.AddKeepsSigns | frontend/src/components/user/Transacciones.tsx:148-158 | Prepending a recorded transaction keeps the sign convention: incomes are positive and expenses negative |
| Transactions.SelectTipo | frontend/src/components/user/Transacciones.tsx:412-416 | Choosing a type sets it and clears the category, and leaves the rest of the form unchanged |
| Transactions.FilteredMembers | frontend/src/components/user/Transacciones.tsx:164-169 | A transaction is listed exactly when it is in the list, has the chosen type (any under 'todas'), and its name or category contains the term, ignoring case |
| Transactions.Filtered | frontend/src/components/user/Transacciones.tsx:164-169 | The filtered list keeps the transactions in their original order |
| Transactions.FilterTodasEmpty | frontend/src/components/user/Transacciones.tsx:165-168 | With 'todas' and an empty search, every transaction is shown |
| Transactions.BalanceIsSum | frontend/src/components/user/Transacciones.tsx:171-173 | Under the sign convention, both totals are non-negative, the expense total is the negated sum of the expenses, and the balance is the plain sum of all amounts |
| Transactions.Balance | frontend/src/components/user/Transacciones.tsx:171-173 | Under the sign convention, the balance is the plain sum of all amounts |
| Transactions.AddMovesBalance | frontend/src/components/user/Transacciones.tsx:136-173 | Putting a transaction in front moves the balance by its signed amount |
| Transactions.TransactionsPanel.constructor | frontend/src/components/user/Transacciones.tsx:39-45 | The panel starts with no transactions, the 'todas' filter, an empty search and an empty form of type 'gasto' |
| Transactions.TransactionsPanel.HandleAddTransaccion | frontend/src/components/user/Transacciones.tsx:136-162 | The outcome is the form check. When accepted, the signed transaction is put in front and the form is reset. Otherwise nothing changes. The sign convention is preserved |
| Transactions.TransactionsPanel.HandleTipoChange | frontend/src/components/user/Transacciones.tsx:412-416 | The form becomes `SelectTipo` of the old form |
| Transactions.TransactionsPanel.SetCampo | frontend/src/components/user/Transacciones.tsx:440-498 | The form becomes `WithTransactionText` of the old form. The list, the modal, the filter and the search are unchanged |
| Transactions.TransactionsPanel.SetFiltroTipo | frontend/src/components/user/Transacciones.tsx:252 | A chip selects the type filter and changes nothing else |
| Transactions.TransactionsPanel.SetTerminoBusqueda | frontend/src/components/user/Transacciones.tsx:237 | The search box sets the term and changes nothing else |
| Transactions.TransactionsPanel.TransaccionesFiltradas | frontend/src/components/user/Transacciones.tsx:164-169 | The list shown is an order-keeping subsequence of the transactions. It is all of them under 'todas' with an empty search |
| Income.IngresoOutcome | frontend/src/components/user/Ingresos.tsx:112-122 | An income is rejected for a blank concept, source or amount, then for an amount that is not a positive number. Otherwise the outcome is the positive amount read |
| Income.CheckIngreso | frontend/src/components/user/Ingresos.tsx:112-122 | The only rejections are missing fields and an invalid amount. An accepted amount is positive and is what `parseFloat` reads |
| Income.WithIncomeText | frontend/src/components/user/Ingresos.tsx:341-387 | Typing into the concept, source or amount box, or picking a category, sets that field and keeps the others |
| Income.PrependPositive | frontend/src/components/user/Ingresos.tsx:124-133 | Putting an accepted income in front keeps every amount in the list positive |
| Income.IncomePanel.constructor | frontend/src/components/user/Ingresos.tsx:40-44 | The panel starts with no incomes and an empty form |
| Income.IncomePanel.SetCampo | frontend/src/components/user/Ingresos.tsx:341-387 | The form becomes `WithIncomeText` of the old form. The list and the modal are unchanged |
| Income.IncomePanel.HandleAddIngreso | frontend/src/components/user/Ingresos.tsx:112-137 | The outcome is the form check. When accepted, the income is put in front and the form is reset. Otherwise nothing changes. All amounts stay positive |
| Expenses.Share | frontend/src/components/user/Gastos.tsx:401 | A category's share is its part of the total as a percentage. It is not a finite number when the total is zero |
| Expenses.SharesSumTo100 | frontend/src/components/user/Gastos.tsx:401-408 | With a non-zero total, the shares of all categories add up to 100 |
| Expenses.TotalGastos | frontend/src/components/user/Gastos.tsx:125 | With non-negative category totals, the total is non-negative |
| Expenses.ShareBounds | frontend/src/components/user/Gastos.tsx:401 | With non-negative totals, each share lies between 0 and 100 |
| Expenses.PreviewAccountsForAll | frontend/src/components/user/Gastos.tsx:414-428 | The preview (the first two details) and the "see N more" link account for every detail. Without a link, the preview is the whole list |
| Expenses.Preview | frontend/src/components/user/Gastos.tsx:414 | The preview is the first details of the list, at most two of them |
| Expenses.MoreLink | frontend/src/components/user/Gastos.tsx:423-429 | The "see N more" link is shown exactly when there are more than two details |
| Expenses.MaxOf | frontend/src/components/user/Gastos.tsx:156 | The chart's maximum is one of the values and no smaller than any of them |
| Expenses.BarBounds | frontend/src/components/user/Gastos.tsx:155-168 | With non-negative months, one of them positive, every bar is between 0 and 100 high (chart height minus 20) and the largest month's bar is exactly 100. With all months zero, no bar has a finite height |
| Expenses.BarHeights | frontend/src/components/user/Gastos.tsx:155-168 | One bar per month. A month with a non-negative total that gets a bar has one between 0 and the chart height minus 20. A month without a finite bar has a total of at most 0 |
| Expenses.BarAt | frontend/src/components/user/Gastos.tsx:168 | Under a non-zero maximum, each bar is its month's part of the maximum times 100 |
| Expenses.Ratio | frontend/src/components/user/Gastos.tsx:155-168 | A part of the maximum scaled by a height lies between 0 and that height, and the maximum itself gets the full height |
| Expenses.ExpensesPanel.constructor | frontend/src/components/user/Gastos.tsx:41-46 | The panel starts with no categories, a zero total and no monthly data |
| Expenses.ExpensesPanel.SetData | frontend/src/components/user/Gastos.tsx:124-125 | Loading sets the categories, the monthly data and a total equal to the sum of the category totals |
| Auth.RegistroChecksMean | frontend/src/components/auth/Registro.tsx:21-29 | A field is blank after trimming exactly when it is all white space. The e-mail contains '@' exactly when its trimmed copy does |
| Auth.RegistroCheck | frontend/src/components/auth/Registro.tsx:20-49 | The only rejections are the four alerts. An accepted form has a name and e-mail, equal passwords of at least 6 UTF-16 code units, and the ordinary user type |
| Auth.AstralPasswordAccepted | frontend/src/components/auth/Registro.tsx:36 | A password of three emoji has 3 characters but 6 UTF-16 code units, so the form accepts it |
| Auth.RegistroOutcome | frontend/src/components/auth/Registro.tsx:20-39 | Each alert comes exactly when the earlier checks pass and its own fails: a blank field, an e-mail without '@', different passwords, a password shorter than 6 UTF-16 code units (JavaScript's `length`, so an astral character counts twice). Acceptance is exactly when all pass |
| Auth.RegistroAccepted | frontend/src/components/auth/Registro.tsx:41-49 | An accepted form hands on a non-blank trimmed name, a trimmed e-mail with '@', the confirmed password of at least 6 UTF-16 code units and the ordinary user type |
| Auth.LoginOutcome | frontend/src/components/auth/Login.tsx:17-34 | Login rejects a blank e-mail or password, then an e-mail without '@'. Otherwise it hands on the trimmed e-mail, which keeps its '@', and the password as typed |
| Auth.LoginCheck | frontend/src/components/auth/Login.tsx:17-34 | The only rejections are missing fields and an invalid e-mail. Acceptance hands on a non-empty e-mail and the password as typed |
| Auth.RegisteredUser | frontend/src/screens/auth/RegisterScreen.tsx:50-56 | A new user gets the given id, the form's name and e-mail, the form's type or else 'usuario', and role code 4 |
| Auth.UserJson | frontend/src/screens/auth/RegisterScreen.tsx:50-60 | The stored user is a JSON object. Its id, name, e-mail and role read back, and it has no user name, phone or photo |
| RegisterScreen.FormPassesScreen | frontend/src/screens/auth/RegisterScreen.tsx:33-41 | Data the form accepted always passes the screen's own password checks, and it carries the 'usuario' type |
| RegisterScreen.ScreenCheck | frontend/src/screens/auth/RegisterScreen.tsx:33-41 | The screen rejects only different passwords or a password under 6 UTF-16 code units, and passes exactly when neither holds |
| RegisterScreen.RegisterScreenState.constructor | frontend/src/screens/auth/RegisterScreen.tsx:26 | The screen starts not loading |
| RegisterScreen.RegisterScreenState.ManejarRegistro | frontend/src/screens/auth/RegisterScreen.tsx:28-81 | A failed check (passwords differ, or fewer than 6 UTF-16 code units) stores nothing. Otherwise the token is written, then the user record, and the user is reported. A failing write ends in failure and keeps the earlier writes. Loading ends false on every path |
| Navigation.Route | frontend/src/navigation/AppNavigator.tsx:24-51 | Without authentication the app shows the auth flow. Otherwise role 1, 2 and 3 get their welcome screens, and any other or missing role gets the user flow. Each in both directions |
| Navigation.RegisteredUserRoute | frontend/src/navigation/AppNavigator.tsx:42-49 | Whatever the sign-up data and id, a freshly registered user lands on the user dashboard when authenticated, and on the auth flow otherwise |
| Profile.StringOr | frontend/src/components/user/Perfil.tsx:74-78 | A stored non-empty text is kept. Otherwise the fallback is used |
| Profile.LoadStepOf | frontend/src/components/user/Perfil.tsx:67-88 | A missing or empty entry keeps the data. Unparsable text or `null` fails with an alert. Any other value is shown |
| Profile.FromMembers | frontend/src/components/user/Perfil.tsx:72-80 | Every text field of the shown data is non-empty, and the photo is missing when the record has none |
| Profile.SaveLoadRoundTrip | frontend/src/components/user/Perfil.tsx:72-107 | Loading what the profile saved shows `Reloaded` of the saved data. That equals the data exactly when no text field is empty |
| Profile.SaveJson | frontend/src/components/user/Perfil.tsx:101-107 | The saved record is a JSON object. Its id, e-mail and user name read back as themselves, `nombre` as the full name, `telefono` as the phone number, and `fotoPerfilUri` as the photo when there is one and missing otherwise |
| Profile.ProfileAfterRegistration | frontend/src/components/user/Perfil.tsx:72-80 | Right after registration, the profile shows the registered id, name and e-mail, the default user name and phone, and no photo |
| Profile.WithSetsOneField | frontend/src/components/user/Perfil.tsx:206-211 | Editing a field sets that field and leaves the others, the id and the photo unchanged |
| Profile.With | frontend/src/components/user/Perfil.tsx:206-211 | The edited field holds the text. The id and the photo are kept |
| Profile.ProfileScreen.constructor | frontend/src/components/user/Perfil.tsx:50-61 | The screen starts with empty data, out of edit mode, loading and not saving |
| Profile.ProfileScreen.EsEditable | frontend/src/components/user/Perfil.tsx:250 | A field is editable exactly in edit mode and when it is not the e-mail |
| Profile.ProfileScreen.CargarDatosUsuario | frontend/src/components/user/Perfil.tsx:67-88 | The data becomes what `LoadStepOf` the stored entry shows, or stays. An alert comes exactly on a failed read or parse. Loading ends false |
| Profile.ProfileScreen.GuardarDatosUsuario | frontend/src/components/user/Perfil.tsx:90-117 | A successful save writes the record and leaves edit mode. A failed one keeps the store and the mode. Saving ends false |
| Profile.ProfileScreen.HandleCancelarEdicion | frontend/src/components/user/Perfil.tsx:201-204 | Cancel leaves edit mode and then loads the stored record as `CargarDatosUsuario` does |
| Profile.ProfileScreen.ActualizarCampo | frontend/src/components/user/Perfil.tsx:206-211 | The data becomes `With` the field set to the new text. The flags are unchanged |
| Profile.ProfileScreen.PressEditButton | frontend/src/components/user/Perfil.tsx:300-302 | While saving, the button does nothing. Out of edit mode, it enters edit mode. In edit mode, it saves and leaves edit mode when the write succeeds. The loading flag never changes |
| Profile.SaveThenCancel | frontend/src/components/user/Perfil.tsx:90-117 | After a save and a cancel, the screen shows `Reloaded` of what was saved, out of edit mode |
| Settings.LoadOne | frontend/src/components/user/Configuracion.tsx:127-129 | A missing entry keeps the switch. Text that parses sets the switch to its value, and text that does not ends the load |
| Settings.LoadFlagsProperties | frontend/src/components/user/Configuracion.tsx:121-133 | Entries the switches saved read back as those switches. Missing entries keep the switches. An unparsable first or second entry leaves every switch as it was |
| Settings.LoadFlagsWhenAllParse | frontend/src/components/user/Configuracion.tsx:121-133 | When every stored entry parses, each switch shows its own entry, or keeps its value when it has none |
| Settings.LoadFlags | frontend/src/components/user/Configuracion.tsx:121-133 | Each switch keeps its value or takes the value its own entry parses to. With no entries, or with an unparsable first entry, every switch keeps its value |
| Settings.Find | frontend/src/components/user/Configuracion.tsx:182 | The index found is the first option with that mode. None is found only when no option has it |
| Settings.CurrentOptionMatchesMode | frontend/src/components/user/Configuracion.tsx:181-183 | Every mode has its option, so the fallback to the first option is never taken |
| Settings.CurrentLanguageOption | frontend/src/components/user/Configuracion.tsx:181-183 | The option shown has the current mode as its code and is one of the listed options |
| Settings.AutoIsNoLanguage | frontend/src/components/user/Configuracion.tsx:69-91 | 'auto' is not a language `changeLanguage` accepts. 'en' and 'es' are |
| Settings.SettingsScreen.constructor | frontend/src/components/user/Configuracion.tsx:55-61 | The screen starts with the default switches, the 'auto' mode, the modal closed and not loading |
| Settings.SettingsScreen.CargarConfiguraciones | frontend/src/components/user/Configuracion.tsx:121-133 | The switches become `LoadFlags` of the three stored entries. A failed read keeps them |
| Settings.SettingsScreen.HandleToggle | frontend/src/components/user/Configuracion.tsx:135-156 | A toggle sets its switch and writes its JSON text under its key when the write succeeds |
| Settings.SettingsScreen.HandleLanguageChange | frontend/src/components/user/Configuracion.tsx:158-179 | 'en' or 'es' becomes the language and is saved unless the write fails. 'auto' changes neither. Either way the mode is shown, the modal closes and loading ends |
| Settings.ToggleThenReload | frontend/src/components/user/Configuracion.tsx:135-141 | When no stored switch holds unparsable text, a toggled switch reads back on the next load as the value set |
| Theme.SchemeOrLight | frontend/src/context/ThemeContext.tsx:35-38 | A missing system scheme is read as light |
| Theme.Resolve | frontend/src/context/ThemeContext.tsx:50-72 | The scheme is dark exactly in dark mode, or in system mode with a dark system scheme |
| Theme.SavedMode | frontend/src/context/ThemeContext.tsx:79-97 | 'light' and 'dark' are restored as such. Any other text, or none, gives 'system' |
| Theme.SavedModeRoundTrip | frontend/src/context/ThemeContext.tsx:99-105 | A saved mode reads back as itself, and no other text reads as light or dark |
| Theme.ToggleProperties | frontend/src/context/ThemeContext.tsx:121-124 | The toggle never gives 'system'. From a fixed mode, two toggles return to it and one changes the scheme. 'system' goes to light, then dark |
| Theme.NextMode | frontend/src/context/ThemeContext.tsx:121-124 | The toggle never gives system mode, and it always leaves a fixed mode |
| Theme.ThemeProvider.constructor | frontend/src/context/ThemeContext.tsx:33-38 | The provider starts in 'system' mode and loading. It shows light, and the system scheme is the reported one or light |
| Theme.ThemeProvider.UpdateTheme | frontend/src/context/ThemeContext.tsx:50-72 | Once loaded, the scheme is the mode resolved against the system scheme. While loading, it is unchanged |
| Theme.ThemeProvider.OnSystemChange | frontend/src/context/ThemeContext.tsx:41-47 | The system scheme is recorded, read as light when missing. While loading, the shown scheme is unchanged |
| Theme.ThemeProvider.LoadThemePreference | frontend/src/context/ThemeContext.tsx:79-97 | The mode becomes `SavedMode` of the stored entry, or 'system' when the read fails. Loading ends and the scheme is resolved |
| Theme.ThemeProvider.SetThemeMode | frontend/src/context/ThemeContext.tsx:116-119 | The mode is set, and its name is written when the write succeeds. While loading, the shown scheme is unchanged. Once loaded, it is the new mode resolved against the system scheme, which is unchanged |
| Theme.ThemeProvider.ToggleTheme | frontend/src/context/ThemeContext.tsx:121-124 | The mode becomes `NextMode` of the old one, and its name is written when the write succeeds. The system scheme is unchanged. While loading, the shown scheme is unchanged. Once loaded, it is the new mode resolved against the system scheme |
| Theme.ThemeProvider.IsDarkMode | frontend/src/context/ThemeContext.tsx:132 | Once loaded, the flag is set exactly in dark mode, or in system mode with a dark system scheme |
| Theme.ThemeProvider.IsSystemTheme | frontend/src/context/ThemeContext.tsx:133 | Once loaded, in system mode the scheme shown is the system scheme; otherwise it is the mode's own scheme |
| DarkMode.Loaded | frontend/src/hooks/useDarkMode.ts:18-32 | A failed read gives light. A saved flag is dark exactly when it is "true". Without one, the system scheme decides |
| DarkMode.BoolTextRoundTrip | frontend/src/hooks/useDarkMode.ts:34-42 | A saved flag reads back as itself |
| DarkMode.DarkModeHook.constructor | frontend/src/hooks/useDarkMode.ts:7 | The hook starts in light mode |
| DarkMode.DarkModeHook.LoadDarkModePreference | frontend/src/hooks/useDarkMode.ts:18-32 | The flag becomes `Loaded` of the stored entry |
| DarkMode.DarkModeHook.ToggleDarkMode | frontend/src/hooks/useDarkMode.ts:34-42 | The flag flips, and its text is written when the write succeeds |
| DarkMode.ReloadAfterToggle | frontend/src/hooks/useDarkMode.ts:34-42 | A load, a toggle and a second load: the second load gives the negation of the first, and the store holds its text |
| I18n.DeviceLanguage | frontend/src/i18n/i18n.ts:13-26 | The result is always supported. It is the first device locale when that is supported, and English otherwise |
| I18n.StartLanguage | frontend/src/i18n/i18n.ts:45-65 | The result is always supported. It is a saved non-empty supported language, otherwise the device's, and English when the read or the needed write fails |
| I18n.StartLanguageStable | frontend/src/i18n/i18n.ts:47-58 | A saved supported language is the one the next start-up picks, whatever the device reports. This includes the one a first start-up saved |
| I18n.GetSupportedLanguages | frontend/src/i18n/i18n.ts:81-87 | One entry per supported code, in order, with English and native names |
| I18n.I18nState.constructor | frontend/src/i18n/i18n.ts:28-43 | No language is set before start-up |
| I18n.I18nState.InitializeI18n | frontend/src/i18n/i18n.ts:45-65 | The language becomes `StartLanguage`. The device's choice is written when nothing usable was stored and the read succeeded |
| I18n.I18nState.ChangeLanguage | frontend/src/i18n/i18n.ts:67-77 | A supported language becomes current and is saved unless the write fails. Any other request changes nothing |
| I18n.I18nState.GetCurrentLanguage | frontend/src/i18n/i18n.ts:79 | The result is never empty. It is the current language once one is set |
| Json.Stringify | frontend/src/components/user/Configuracion.tsx:137 | Parsing the JSON text of a stored value gives the value back |
| Json.Parse | frontend/src/components/user/Configuracion.tsx:127-129 | Empty or all-blank text is unparsable |
| Text.Utf16Length | frontend/src/components/auth/Registro.tsx:36 | JavaScript's `length` is between the number of characters and twice it, and equals it exactly when no character lies beyond the Basic Multilingual Plane |
| Storage.Store.Get | frontend/src/components/user/Configuracion.tsx:123-125 | A key gives its stored text, and `null` exactly when nothing is stored under it |
| Storage.Store.SetItem | frontend/src/components/user/Configuracion.tsx:137 | The key holds the value afterwards and every other key reads as before |

## Left out

- Numbers are exact reals. IEEE-754 rounding, `Infinity`, `toFixed`, `toLocaleString` and the currency formatting are not modelled. `parseFloat` does not read the text "Infinity", and NaN is `None`.
- `validarFecha` is modelled only on texts of digits and dashes, which is all the date mask produces. On other texts, `parseInt` gives NaN and the source's comparisons would let them through. The mask makes that unreachable.
- The clock (`new Date()`), `Date.now()` ids, the device locales and the system colour scheme are parameters. Time zones are not modelled. "Today" is the UTC calendar date, and a deadline must come strictly after it.
- `Text.Lower`: `toLowerCase` is modelled on ASCII letters only. Other characters are left as they are.
- `Json.Parse`: only the JSON the app writes is read: objects, strings, booleans, `null` and non-negative integers. Arrays, fractions, negative numbers and exponents are read as unparsable, although `JSON.parse` would accept them. A `\u` escape in the range D800 to DFFF is rejected too, valid surrogate pairs such as `\uD83D\uDE00` included, so an astral character written as an escape does not parse. `JSON.stringify` writes such characters as they are, never as escapes.
- `Profile.StringOr`: a stored member that is not a text (a number, say) is read as missing and gets the default. The source would keep any truthy value. The app only ever stores texts there.
- `Goals.ByPriority`: the engine's sorting algorithm is not modelled. What is modelled is the result the language standard fixes for the stable `Array.prototype.sort` with the rank comparator, written into the array in place.
- Asynchronous interleaving: each `await` chain runs as one sequential method. Effects run when the model calls them. The cancel handler's reload, which the source does not await, finishes before the next handler.
- `Settings.SettingsScreen.constructor`: `loadCurrentLanguage` calls a `getCurrentLanguageMode` that `i18n.ts` does not define. It therefore always throws, and the mode stays 'auto'. The model keeps that outcome and leaves out the call.
- The `catch` in `handleLanguageChange` is unreachable because `changeLanguage` catches its own storage failures. Its alert is not modelled.
- The Android system UI colours (`updateSystemUI`), the camera and gallery pickers of the profile, the user card in settings, logout, and the mock loaders for goals, bills, transactions, incomes and expenses are not modelled. They are I/O or fixed sample data.
- `Expenses.BarHeights`: with no categories, the source's `Math.max` is -Infinity and no bar is drawn. The model gives an empty list of bars.
- The JSX layout, styles, modals, icons, `Alert` texts and translations are not modelled. An alert is a `Rejected` outcome or a boolean result.
- The admin and employee screens, the dashboard shell, `api.ts`, the network utilities and `App.tsx` are not part of this model.
