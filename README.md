# Fluxo Digital dashboard — a verified Dafny model

Fluxo Digital is an agency back-office written as Next.js pages over a hosted
Postgres store. This project models the page logic that decides what the pages
show and what they write:

- the client list: phone and currency masks, the save that turns the form into a
  row, the search and the delete (`Clients`, `Phone`, `Money`);
- the billing ledger: its summary cards, search, new-entry dialog and two-step
  delete (`Billing`);
- the project board: drag-and-drop status changes, collapsible columns, the
  client/internal tabs, status counts, the progress figure, the
  overdue-then-priority ordering, client names, the team ranking and delete
  (`Projects`, with `Tally` and `Ranking`);
- the to-do list: the done/to-do toggle, delete, the new-task dialog, the five
  filter tabs, today's progress and the avatar helpers (`Tasks`);
- the dashboard: the month's revenue card, the stats, the twelve-month chart and
  the per-state client map (`Dashboard`);
- the request guard that redirects signed-out visitors and signed-in users
  (`RouteGuard`);
- the notes page: the safe reading of stored documents, the autosave buffer and
  its flush, creating and deleting notes (`Notes`).

Each page is a class whose fields are the page's state. Each handler is a
method with a `modifies` clause, and it states the whole new state. Each query
or write to the store is an input saying whether it succeeded, and the method
returns the write it sends. A `confirm` dialog is a boolean input. A timer
firing is an explicit method call. "Now" and due dates are abstract integers.
Money on screen is integer cents. What a save writes is the exact decimal that
`parseFloat` reads.

Some behaviour follows the code rather than its description:

- The notes autosave buffer is shared between notes. A title typed for one note
  and a content edit for another are written together, to the note of the later
  call (`Notes.SharedBuffer`).
- `toggleTaskStatus` takes the new status from the record the row was drawn
  with.
- `handleDeleteTask` and `confirmDeleteNote` drop the row whatever the store
  answers.
- A new task needs only a non-empty title; a title of spaces is accepted.

## Model

| member | source | states |
|---|---|---|
| Phone.KeptDigits | src/app/clientes/page.tsx:147-150 | the mask works on at most eleven characters, all of them digits |
| Phone.LayoutDigits | src/app/clientes/page.tsx:153-165 | every layout branch inserts only punctuation: the digits of the laid-out value are the digits given |
| Phone.MaskKeepsDigits | src/app/clientes/page.tsx:146-168 | the masked phone holds exactly the first eleven typed digits, in order |
| Phone.MaskIdempotent | src/app/clientes/page.tsx:146-168 | masking an already masked value leaves it unchanged |
| Phone.MaskFull | src/app/clientes/page.tsx:153-155 | eleven or more digits give `(DD) DDDDD-DDDD`, exactly 15 characters |
| Phone.MaskPartial | src/app/clientes/page.tsx:156-158 | seven to ten digits: the greedy middle group takes five digits and the last group takes at most three |
| Phone.MaskShort | src/app/clientes/page.tsx:159-165 | three to six digits give the area code then the rest; one or two give an opening parenthesis; none give the empty string |
| Phone.MaskFits | src/app/clientes/page.tsx:346 | whatever is typed, the masked value fits the field's 15-character limit |
| Money.RemoveDots | src/app/clientes/page.tsx:227 | the cleaned string has no '.' left |
| Money.DigitRun | src/app/clientes/page.tsx:228 | the integer part `parseFloat` reads is the longest run of leading digits |
| Money.ParseDecimal | src/app/clientes/page.tsx:228 | a number read from the cleaned string is never negative |
| Money.ParseAmount | src/app/clientes/page.tsx:227-228 | the saved amount is never negative; text that does not read as a number saves as 0 |
| Money.RemoveDotsGroup | src/app/clientes/page.tsx:137-140 | removing the thousands separators from a grouped numeral gives back its digits |
| Money.OnlyDigitsGroup | src/app/clientes/page.tsx:137-140 | the grouping adds no digit and loses none |
| Money.GroupShape | src/app/clientes/page.tsx:137-140 | a grouped numeral keeps the leading digit, has a '.' exactly at every fourth position from the right and digits everywhere else |
| Money.FormatCentsDigits | src/app/clientes/page.tsx:136-140 | the digits of a formatted amount, read as an integer, are its cents |
| Money.FormatCentsShape | src/app/clientes/page.tsx:136-140 | a formatted amount ends with a comma and two decimals holding the cents below one real; before the comma come digits with a '.' every fourth position; it starts with 0 exactly when it is under one real |
| Money.CurrencyMaskEmpty | src/app/clientes/page.tsx:131-135 | the field is cleared exactly when no digit was typed |
| Money.CurrencyMaskCents | src/app/clientes/page.tsx:130-143 | the mask shows the typed digits read as cents; reading its digits back gives the same cents |
| Money.CurrencyMaskIdempotent | src/app/clientes/page.tsx:130-143 | masking an already masked value leaves it unchanged |
| Money.CleanFormatted | src/app/clientes/page.tsx:227 | cleaning a formatted amount leaves its integer digits, a point and its two decimals |
| Money.ParsePointed | src/app/clientes/page.tsx:228 | `parseFloat` of `digits.digits` is the decimal value of that numeral |
| Money.ParseFormatted | src/app/clientes/page.tsx:227-228 | saving a formatted amount stores its cents divided by 100, exactly |
| Money.ParseEmpty | src/app/clientes/page.tsx:228 | an empty field saves as zero |
| Money.EditRoundTrip | src/app/clientes/page.tsx:186-228 | the value the edit dialog shows for a stored amount saves back as that amount, zero included |
| Money.SaveMasked | src/app/faturamento/page.tsx:61-118 | saving what the mask shows stores the typed digits read as cents, divided by 100, or 0 when none were typed |
| Clients.EditSaveRoundTrip | src/app/clientes/page.tsx:183-248 | opening a client for edit and saving without changes writes back exactly the stored fields |
| Clients.FilteredClients | src/app/clientes/page.tsx:293-296 | the visible clients are exactly the clients whose name or company contains the term, ignoring case |
| Clients.FilteredClientsInOrder | src/app/clientes/page.tsx:293-296 | the search keeps list order and multiplicity: it maps a concatenation to the concatenation of the results, and one client to itself or to nothing |
| Clients.EmptySearchShowsAll | src/app/clientes/page.tsx:293-296 | an empty search shows the whole list, unchanged |
| Lists.WithoutKey | src/app/clientes/page.tsx:289 | after a delete no element has that id, every other element stays, and a list without that id is unchanged; the billing, project, to-do and note pages delete the same way |
| Lists.WithoutKeyInOrder | src/app/clientes/page.tsx:289 | the delete keeps order and multiplicity: it maps a concatenation to the concatenation of the results, and one element to itself or to nothing |
| Clients.ClientsPage.constructor | src/app/clientes/page.tsx:70-90 | the page starts with no clients, an empty search, the dialog closed, no client being edited and an empty form |
| Clients.ClientsPage.Fetched | src/app/clientes/page.tsx:170-181 | a successful query replaces the list; a failed one changes nothing |
| Clients.ClientsPage.SetSearchTerm | src/app/clientes/page.tsx:432 | typing in the search box sets the term and nothing else |
| Clients.ClientsPage.HandleStateChange | src/app/clientes/page.tsx:118-121 | choosing a state sets it and clears the city; the rest of the form is kept |
| Clients.ClientsPage.HandleCurrencyChange | src/app/clientes/page.tsx:130-143 | the contract field becomes the currency mask of the input; the other fields are kept |
| Clients.ClientsPage.HandlePhoneChange | src/app/clientes/page.tsx:146-168 | the phone field becomes the phone mask of the input; the other fields are kept |
| Clients.ClientsPage.OpenEditModal | src/app/clientes/page.tsx:183-207 | the client becomes the one being edited, the form shows its fields and the dialog opens |
| Clients.ClientsPage.HandleOpenChange | src/app/clientes/page.tsx:209-216 | closing the dialog forgets the edited client and empties the form; opening it keeps both |
| Clients.ClientsPage.SaveClient | src/app/clientes/page.tsx:218-283 | a write is sent exactly when name, company and a signed-in user are all present; it updates the edited client when the editing id is truthy (present and not empty) and otherwise inserts an active one owned by the user; only a successful write closes and resets the dialog |
| Clients.ClientsPage.DeleteClient | src/app/clientes/page.tsx:285-291 | the delete is sent exactly when confirmed; the list drops that id only when the delete succeeds |
| Clients.ClientsPage.Visible | src/app/clientes/page.tsx:293-296 | every client on screen is in the list |
| Billing.IncomeSplits | src/app/faturamento/page.tsx:175-178 | received income and income to receive add up to all income |
| Billing.CardsAfterAdding | src/app/faturamento/page.tsx:175-178 | one more entry moves only the card of its kind and status, by its amount; the balance moves only for a settled entry |
| Billing.FilteredTransactions | src/app/faturamento/page.tsx:170-172 | the visible entries are exactly the entries whose description contains the term, ignoring case |
| Billing.FilteredTransactionsInOrder | src/app/faturamento/page.tsx:170-172 | the search keeps ledger order and multiplicity: it maps a concatenation to the concatenation of the results, and one entry to itself or to nothing |
| Billing.SavedAmount | src/app/faturamento/page.tsx:61-129 | an amount typed into the masked field is inserted as its digits read as cents |
| Billing.BillingPage.constructor | src/app/faturamento/page.tsx:34-51 | the page starts empty, with the form defaulting to received income dated today |
| Billing.BillingPage.Fetched | src/app/faturamento/page.tsx:80-93 | a successful query replaces the ledger; a failed one changes nothing |
| Billing.BillingPage.HandleCurrencyChange | src/app/faturamento/page.tsx:61-74 | the amount field becomes the currency mask of the input |
| Billing.BillingPage.HandleOpenChange | src/app/faturamento/page.tsx:95-106 | closing the dialog resets the form to today's default; opening keeps it |
| Billing.BillingPage.SaveTransaction | src/app/faturamento/page.tsx:108-148 | an insert is sent exactly when description and amount are filled, signed in or not, with the user attached when there is one; only a successful insert closes and resets the dialog |
| Billing.BillingPage.RequestDelete | src/app/faturamento/page.tsx:151-154 | the entry is remembered and the confirmation opens; the ledger is unchanged |
| Billing.BillingPage.ConfirmDelete | src/app/faturamento/page.tsx:157-168 | nothing happens without a remembered entry; otherwise the entry leaves the ledger only when the delete succeeds, and the confirmation closes and forgets it either way |
| Projects.ColumnsComplete | src/app/projetos/page.tsx:61-66 | the board has four columns, one for every status |
| Projects.SetStatus | src/app/projetos/page.tsx:241 | the dragged project takes the new status; every other project and every other field is unchanged |
| Projects.Toggle | src/app/projetos/page.tsx:245-247 | toggling a column flips whether it is collapsed, leaves the other columns as they were and never lists a column twice |
| Projects.ToggleTwice | src/app/projetos/page.tsx:245-247 | toggling the same column twice gives back the same collapsed set, and the same list when the column was open |
| Projects.ActiveProjects | src/app/projetos/page.tsx:283 | the "clientes" tab shows exactly the client projects and any other tab exactly the internal ones |
| Projects.TabsPartition | src/app/projetos/page.tsx:283 | every project is on exactly one of the two tabs |
| Projects.DragStaysInTab | src/app/projetos/page.tsx:241-283 | moving a card changes its status within the same tab and never moves it to the other tab |
| Projects.StatusCountsSum | src/app/projetos/page.tsx:293-297 | the four column counts add up to the number of projects on the tab |
| Projects.ProgressPercent | src/app/projetos/page.tsx:307 | an empty tab shows 0% |
| Projects.RoundHalfUp | src/app/projetos/page.tsx:307 | `Math.round` of the share: the integer nearest to `100 * done / total`, ties upwards, at most 100 |
| Projects.ProgressPercentRounds | src/app/projetos/page.tsx:307 | the progress figure is the nearest whole percentage of finished projects, between 0 and 100 |
| Projects.Weight | src/app/projetos/page.tsx:285 | a priority weighs at most 3, and an unknown priority weighs 0 |
| Projects.CompareIsRank | src/app/projetos/page.tsx:286-291 | the comparator orders any two projects as their rank does: overdue first, then by priority weight |
| Projects.SortedProjectsOrder | src/app/projetos/page.tsx:286-291 | the sorted list is a permutation of the tab; overdue projects come first and, within each group, heavier priorities first |
| Projects.SortedProjectsStable | src/app/projetos/page.tsx:286-291 | projects the comparator ties keep their relative order |
| Projects.FindClient | src/app/projetos/page.tsx:251 | the lookup finds the first client with that id, or reports that none has it |
| Projects.GetClientName | src/app/projetos/page.tsx:249-252 | stated over the list itself: an id that is null or empty shows "Projeto Interno"; an id no client has shows "Desconhecido"; otherwise the first client with that id gives its company, or "Desconhecido" when that is empty |
| Projects.ClientNameSource | src/app/projetos/page.tsx:249-252 | the name shown is one of the two labels or the company of a client with that id |
| Projects.TeamStats | src/app/projetos/page.tsx:148-154 | the counting loop yields the per-name tallies in first-seen order, sorted by count, busiest first, ties in first-seen order |
| Projects.TeamStatsShape | src/app/projetos/page.tsx:148-154 | the ranking lists every name once with its count, never rising in count |
| Projects.Board.constructor | src/app/projetos/page.tsx:97-112 | the board starts empty, all columns open, on the "clientes" tab, with no delete pending |
| Projects.Board.Fetched | src/app/projetos/page.tsx:130-157 | each result that arrives replaces its list; member rows become the team ranking |
| Projects.Board.OnDragEnd | src/app/projetos/page.tsx:234-243 | a drop outside the board or on its own place changes nothing and sends nothing; any other drop sets the project's status to the target column and sends that status |
| Projects.Board.ToggleColumn | src/app/projetos/page.tsx:245-247 | the collapsed columns become the toggled list, still without duplicates |
| Projects.Board.ShowKanban | src/app/projetos/page.tsx:312 | every column opens and the analytics panel hides |
| Projects.Board.ShowAnalytics | src/app/projetos/page.tsx:313 | all four columns collapse and the analytics panel shows |
| Projects.Board.SetActiveTab | src/app/projetos/page.tsx:450 | switching tabs sets the tab and nothing else |
| Projects.Board.RequestDelete | src/app/projetos/page.tsx:214-217 | the project is remembered and the confirmation opens; the list is unchanged |
| Projects.Board.ConfirmDelete | src/app/projetos/page.tsx:219-232 | nothing happens without a remembered project; otherwise it leaves the list only when the delete succeeds, and the confirmation closes either way |
| Tasks.Toggled | src/app/tarefas/page.tsx:126 | a finished task becomes to-do and any other becomes finished |
| Tasks.ToggleTwice | src/app/tarefas/page.tsx:125-129 | toggling twice restores to-do and finished tasks but sends an in-progress task to to-do |
| Tasks.SetTaskStatus | src/app/tarefas/page.tsx:127 | the to-do item with that id takes the new status and nothing else changes |
| Tasks.FilteredTasks | src/app/tarefas/page.tsx:166-186 | the visible to-do items are exactly those that pass the search and the tab's test |
| Tasks.FilteredTasksInOrder | src/app/tarefas/page.tsx:166-186 | the views keep list order and multiplicity: they map a concatenation to the concatenation of the results, and one item to itself or to nothing |
| Tasks.FilteredMatchSearch | src/app/tarefas/page.tsx:167 | every visible task's title contains the search term, ignoring case |
| Tasks.CompletedAndAll | src/app/tarefas/page.tsx:171-183 | the finished tab shows exactly the finished tasks and the "all" tab exactly the unfinished ones |
| Tasks.DatedViews | src/app/tarefas/page.tsx:168-179 | a task without a due date is never under today, upcoming or overdue; no task is both upcoming and overdue |
| Tasks.OverdueWithinToday | src/app/tarefas/page.tsx:174-179 | the overdue tab is the today tab narrowed to overdue tasks, in the same order |
| Tasks.PercentBounds | src/app/tarefas/page.tsx:190 | a share is a percentage between 0 and 100, and it is 100 exactly when the share is everything |
| Tasks.TodayProgressBounds | src/app/tarefas/page.tsx:188-190 | today's progress is 0 with no task due today; otherwise it lies between 0 and 100 and is 100 exactly when every task due today is finished |
| Tasks.GetInitials | src/app/tarefas/page.tsx:160-163 | an empty name gives "?"; otherwise the first one or two characters, in capitals |
| Tasks.BeforeAt | src/app/tarefas/page.tsx:157 | the local part is the longest prefix before the first '@' |
| Tasks.GetUserDisplayName | src/app/tarefas/page.tsx:155-158 | the profile name when there is one; otherwise a prefix of the e-mail that holds no '@' and stops at the first '@' or at the end |
| Tasks.DisplayNameOfAddress | src/app/tarefas/page.tsx:155-158 | without a name, the display name of `local@domain` is `local` |
| Tasks.Chosen | src/app/tarefas/page.tsx:112-113 | the "none" choice is stored as no value and any other choice as itself |
| Tasks.InsertShape | src/app/tarefas/page.tsx:108-116 | a new task is to-do, and the "none" choices and an empty due date are stored as no value |
| Tasks.TaskList.constructor | src/app/tarefas/page.tsx:56-75 | the page starts empty, on the today tab, with an empty form |
| Tasks.TaskList.Fetched | src/app/tarefas/page.tsx:81-102 | task rows that arrive replace the list |
| Tasks.TaskList.Select | src/app/tarefas/page.tsx:358 | clicking a task selects it and changes nothing else |
| Tasks.TaskList.ToggleTaskStatus | src/app/tarefas/page.tsx:125-129 | the toggled status of the given record is applied to the list at once and sent |
| Tasks.TaskList.DeleteTask | src/app/tarefas/page.tsx:131-136 | when confirmed the item leaves the list whatever the store answers, and the selection clears if it was that task; unconfirmed, nothing changes |
| Tasks.TaskList.AddTask | src/app/tarefas/page.tsx:105-123 | an insert is sent exactly when the title is filled; only a successful insert closes the dialog and empties the form |
| Dashboard.MonthlyRevenue | src/app/dashboard/page.tsx:83-93 | the card's loop computes the month's income fold, which becomes not-a-number once a non-numeric income row is met |
| Dashboard.Chart | src/app/dashboard/page.tsx:103-123 | the chart has twelve entries, entry m being month m's label, revenue and profit |
| Dashboard.MonthEntry | src/app/dashboard/page.tsx:105-120 | a month's loop yields its income sum as revenue and income minus expenses as profit |
| Dashboard.ChartSeries | src/app/dashboard/page.tsx:103-125 | the twelve-month loop yields the chart of the year |
| Dashboard.OtherRowsIgnored | src/app/dashboard/page.tsx:108-120 | a row of another year, with no date, or of another type moves no month of the chart |
| Dashboard.RowLandsInItsMonth | src/app/dashboard/page.tsx:108-120 | a row moves only its own month: income raises revenue and profit, an expense lowers profit |
| Dashboard.CardMatchesChart | src/app/dashboard/page.tsx:82-123 | with numeric amounts, the revenue card equals the current month's revenue in the chart |
| Dashboard.NormalizeUfIdempotent | src/app/dashboard/page.tsx:131-132 | a normalised state code normalises to itself |
| Dashboard.KeptUfsLength | src/app/dashboard/page.tsx:129-135 | one code is counted per client that has a state |
| Dashboard.StateCounts | src/app/dashboard/page.tsx:128-136 | the map's loop yields, in first-seen order, each normalised code with the number of clients that have it |
| Dashboard.StateCountsTotal | src/app/dashboard/page.tsx:128-136 | the map's counts add up to the number of clients with a state |
| Dashboard.StatsOf | src/app/dashboard/page.tsx:95-100 | the client card counts every client; the active-project card plus the finished projects is every project, and the pending-task card plus the done tasks is every task |
| Dashboard.StatsSplit | src/app/dashboard/page.tsx:97-99 | active and finished projects make up all projects; pending and done tasks make up all tasks |
| Dashboard.DashboardPage.constructor | src/app/dashboard/page.tsx:22-31 | the dashboard starts with zero stats, no chart and no map data |
| Dashboard.DashboardPage.Init | src/app/dashboard/page.tsx:51-145 | with the map loaded and a user signed in, stats, chart and map are computed from that user's rows; otherwise nothing changes |
| RouteGuard.Guard | src/middleware.ts:40-68 | a redirect happens exactly when the lookup returned and being signed in matches the route being public; it goes to `/login` for a visitor and `/dashboard` for a user and keeps the rest of the URL; a throwing lookup passes through |
| RouteGuard.PublicByPrefix | src/middleware.ts:45-47 | any path starting with `/login` or `/register`, such as `/login-x`, is public, and `/dashboard...` is not |
| RouteGuard.NoRedirectLoop | src/middleware.ts:45-61 | following a redirect with the same user state passes through |
| RouteGuard.LandingPagesReachable | src/middleware.ts:45-61 | a visitor reaches `/login` and `/register` and a user reaches `/dashboard` without redirect |
| Notes.GetSafeContent | src/app/anotacoes/page.tsx:199-207 | the document is always a non-empty array; it is the parsed value when that is a non-empty array, and one empty paragraph in every other case |
| Notes.Merge | src/app/anotacoes/page.tsx:222 | a field in the later update overrides the buffered one, and a field it lacks is kept |
| Notes.MergeMonoid | src/app/anotacoes/page.tsx:222 | merging is associative with the empty buffer as unit, so the buffer is the calls merged in order |
| Notes.PayloadOf | src/app/anotacoes/page.tsx:228-232 | the payload always has the time stamp, has the title exactly when one is buffered, and has the serialised content exactly when content is buffered |
| Notes.SharedBuffer | src/app/anotacoes/page.tsx:216-234 | a title and a content edit buffered before the timer fires are written together in one payload |
| Notes.SetTitle | src/app/anotacoes/page.tsx:218 | the notes with that id take the new title; every other note and every other field is unchanged |
| Notes.SelectionTitled | src/app/anotacoes/page.tsx:219 | the selection takes the new title only when it is the edited note |
| Notes.NotesPage.constructor | src/app/anotacoes/page.tsx:163-169 | the page starts with no notes, no selection, idle status, the confirmation closed and nothing buffered |
| Notes.NotesPage.Fetched | src/app/anotacoes/page.tsx:193-196 | rows that arrive replace the list |
| Notes.NotesPage.Select | src/app/anotacoes/page.tsx:325 | clicking a note selects it and changes nothing else |
| Notes.NotesPage.UpdateNote | src/app/anotacoes/page.tsx:216-226 | a title edit shows in the list and in a matching selection; a content-only edit touches neither; the fields join the buffer, the save targets this note and the status reads saving |
| Notes.NotesPage.Flush | src/app/anotacoes/page.tsx:227-244 | with a save pending, the buffered payload is written to the note of the last call, the buffer empties whether or not the write succeeds, and the status becomes saved or error; with none pending nothing is sent |
| Notes.NotesPage.StatusTimerFired | src/app/anotacoes/page.tsx:241 | the status goes back to idle |
| Notes.NotesPage.CreateNote | src/app/anotacoes/page.tsx:247-251 | an untitled, unpinned note holding one empty paragraph is inserted; the row returned goes to the top of the list and becomes the selection |
| Notes.NotesPage.RequestDelete | src/app/anotacoes/page.tsx:263-265 | the confirmation opens and nothing else changes |
| Notes.NotesPage.ConfirmDeleteNote | src/app/anotacoes/page.tsx:254-260 | with no selection nothing happens; otherwise the selected note leaves the list, the selection clears and the confirmation closes |

## Left out

- Calls to the store, `auth.getUser`, the IBGE state and city lists and the map topology download are inputs or outcome flags. The store itself is not modelled.
- The reload that follows a successful save (`fetchClients`, `fetchTransactions`, `fetchData`) is not chained to the save. It is the separate `Fetched` method.
- The `isLoading`, `isSaving` and `loadingCities` flags, the alerts and the console output are not modelled.
- The city list fetched when a state is chosen or a client is opened is not modelled.
- Timers are explicit steps (`Flush`, `StatusTimerFired`). The model does not capture interleavings. For example, an edit made while a flush's write is in flight is cleared by that flush without being written.
- Floating point is not modelled. Amounts on screen are integer cents, and what a save writes is an exact decimal. `parseFloat` is modelled only on what the mask produces: a digit run with an optional point and decimals, with no leading spaces, sign or exponent.
- Money.CurrencyMask: does not model the float rounding of `parseInt(d) / 100`. From 2^46 reais on (16 digits typed), the nearest double can sit more than half a cent from the typed value, and the source can then show a neighbouring cent. For example, 9007199254740893 is shown by the source as "90.071.992.547.408,94". The mask here is exact for every input.
- Money.EditRoundTrip: holds for stored amounts in whole, non-negative cents, the only amounts the model's `contractCents` can hold. The source also accepts a stored negative value, shown as "-5,00" and saved back as -5, and a value with more than two decimals, such as 12.345, shown rounded as "12,35" and saved as 12.35.
- Projects.ProgressPercent: rounds the exact share, not the float `concluidos / total * 100`, which can land just below a .5 tie.
- Tasks.TodayProgressBounds: the progress is an exact real. The proportionality `progress * total == 100 * done` is not stated.
- `Intl.NumberFormat` is modelled for pt-BR grouping and two decimals only. Case mapping and `trim` are ASCII only.
- Wall-clock dates are abstract integers. `isToday` is a half-open day interval, and the `Clock` type admits only readings whose "now" lies inside it. The dashboard rows carry their year and month already read from the date.
- Tally.Keys: first-insertion order is the JavaScript order only for keys that do not look like array indices. A state code or member name such as "7" would be listed first by `Object.keys`, and this model does not do that.
- Projects.TeamStats: a member row without a name is counted under the string "undefined" by the source. The model takes names as given.
- Projects: a stored status outside the four columns is not representable. The priority is one of three values or `Other`.
- `handleSaveProject`, `openEditModal` and `openNewProjectModal` of the projects page, and the project dialog's form, are not part of this model.
- The per-project workspace (`src/app/projetos/[id]/page.tsx`) and the client detail page are not part of this model. The login, register and layout pages are not part of this model either.
- The rich-text editor (rendering, marks, the slash menu, normalisation), drag-and-drop rendering and the charts are not modelled. JSON parsing and `JSON.stringify` are parameters. The note search box is also not modelled.
- RouteGuard: the cookie handling, the response rebuilt by the cookie callback and the path matcher are not modelled. The decision is over the pathname, the rest of the URL and the lookup result.
- The dashboard card holds `None` where the source holds `NaN` after a non-numeric income row. The chart counts such a row as 0, as the source does.
