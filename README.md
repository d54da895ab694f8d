# dualfin-flow ledger, authentication and calendar statistics in Dafny

This project models the data layer of dualfin-flow, a personal and business
finance app, and proves properties of it. It covers four parts:

- **Ledger** (`ledger.dfy`, module `Ledger`). The `DataProvider` holds three lists:
  transactions, calendar events and balance baselines. The operations are:
  - add, update and delete for transactions and for events;
  - `completeEvent`, which marks an event completed and records its profit as
    an income transaction;
  - the balance lookup and upsert keyed by (user, mode).

  `DataStore` is a class with three `seq` fields. Every mutator is a method
  that reassigns the fields. Each method's new state is tied to a
  specification function (`UpdateTransactions`, `RemoveWhere`, `MarkCompleted`,
  `UpsertBalance`, …), and the properties are proved about those functions.
- **Authentication** (`auth.dfy`, module `Auth`). The `AuthProvider` is an
  `AuthService` class. It holds a credential map from email to account and an
  optional session, with `Signup`, `Login` and `Logout`.
- **Calendar page** (`calendar_page.dfy`, module `CalendarPage`). These are the
  values the page derives from the event list:
  - the events of a day;
  - the five next pending events;
  - the expected and realized profit totals;
  - the pending count.
- **Year view** (`year_view.dfy`, module `YearView`). This is the per-month
  statistics card and the three year-total cards.

Supporting modules:

- `options.dfy` (`Options`): an optional value.
- `lists.dfy` (`Lists`): JavaScript's `filter`, `reduce` as a sum, `find`, and
  `map`/`filter` by key, with their lemmas.
- `dates.dfy` (`Dates`): calendar instants in local time, with their order.
- `records.dfy` (`Records`): the record types, the drafts the add operations
  take, and the partial updates the update operations merge in.

Modelling choices:

- Money is whole cents (`int`).
- A date is its local (year, month, day, milliseconds since midnight). The
  date-fns comparisons the app makes are comparisons of these fields.
- The ledger reads the logged-in user from the authentication service. The
  operations that consult it (`AddTransaction`, `AddEvent`, `CompleteEvent`,
  `GetBalance`, `SetBalance`) take that session as a parameter; update and
  delete do not look at it, as in the application.
- The fresh UUID and the timestamp each operation draws are parameters. The
  add operations require the fresh id not to be in use.
- A `Partial<T>` update is a patch with one `Option` per field. For an
  optional field, `Some(None)` is a key present with the value `undefined`;
  the spread copies it over the old value.
- The user-facing strings are the code's Portuguese ones: "Email já
  cadastrado", "Email ou senha inválidos", "Lucro do evento: ", "Gerado
  automaticamente pelo evento ".

## Model

| member | source | states |
|---|---|---|
| Ledger.DataStore.constructor | src/contexts/DataContext.tsx:63-65 | The provider starts with three empty lists and no balance key repeated. |
| Ledger.DataStore.AddTransaction | src/contexts/DataContext.tsx:103-114 | Without a session the transactions are unchanged. With one, exactly one record is appended at the end and the earlier records are untouched. |
| Records.NewTransaction | src/contexts/DataContext.tsx:106-111 | The new transaction carries exactly the caller's fields, the fresh id, the session user's id and the timestamp. |
| Ledger.DataStore.UpdateTransaction | src/contexts/DataContext.tsx:116-120 | The new transaction list is `UpdateTransactions` of the old one; no session is checked. |
| Ledger.UpdateTransactions | src/contexts/DataContext.tsx:116-120 | Length is kept. A record with the id becomes the record with the patch's fields overriding its own. Every other record is unchanged. An id no record has changes nothing. |
| Ledger.DataStore.DeleteTransaction | src/contexts/DataContext.tsx:122-124 | The new transaction list is `RemoveWhere` of the old one by id; no session is checked. |
| Lists.RemoveWhere | src/contexts/DataContext.tsx:122-124 | No record with the key remains. Every record with another key keeps all its occurrences, and nothing is added. A key no record has changes nothing. |
| Lists.RemoveWhereAppend | src/contexts/DataContext.tsx:146-148 | Removal distributes over concatenation, so the records that stay keep their relative order. |
| Ledger.DataStore.AddEvent | src/contexts/DataContext.tsx:126-138 | Without a session the events are unchanged. With one, exactly one event is appended at the end. |
| Records.NewEvent | src/contexts/DataContext.tsx:129-135 | The new event carries the caller's fields, the fresh id, the user's id and the timestamp, and is not completed whatever the input. |
| Ledger.DataStore.UpdateEvent | src/contexts/DataContext.tsx:140-144 | The new event list is `UpdateEvents` of the old one; no session is checked. |
| Ledger.UpdateEvents | src/contexts/DataContext.tsx:140-144 | Length is kept. A matching event gets the patch merged in and every other event is unchanged. An unknown id changes nothing. |
| Ledger.DataStore.DeleteEvent | src/contexts/DataContext.tsx:146-148 | The new event list is `RemoveWhere` of the old one by event id; no session is checked. |
| Records.PatchLaws | src/contexts/DataContext.tsx:118 | An empty patch changes nothing, and merging the same patch twice equals merging it once. |
| Ledger.DataStore.CompleteEvent | src/contexts/DataContext.tsx:150-177 | With no event having the id, or no session, both lists are unchanged. Otherwise the events become `MarkCompleted`, and one `EventIncome` built from the first matching event is appended to the transactions. |
| Ledger.MarkCompleted | src/contexts/DataContext.tsx:155-159 | Every event with the id is completed with the given actual profit and keeps all its other fields. Every other event is unchanged. |
| Ledger.EventIncome | src/contexts/DataContext.tsx:162-174 | The automatic transaction is a confirmed personal income, recurring once. Its value is the profit, its date the event's date, its user the session's, and its description and observations are the fixed texts with the event name. |
| Ledger.CompleteTwice | src/contexts/DataContext.tsx:150-177 | The prior completion state is not checked: completing an event twice appends exactly two records, each the confirmed personal income `EventIncome` made from that event with its own profit and id, and leaves the second profit on the event; the baselines are untouched. |
| Ledger.BalanceOf | src/contexts/DataContext.tsx:182-183 | With no record for (user, mode) the balance is 0. Otherwise it is the value of the first record with that key. |
| Ledger.DataStore.GetBalance | src/contexts/DataContext.tsx:179-184 | 0 without a session or without a record. With unique keys, it is the value of the user's record for the mode. |
| Ledger.UpsertBalance | src/contexts/DataContext.tsx:189-200 | Reading the key back gives the new value and every other key reads as before. At most one record is added, and an added record is exactly (user, mode, value). Records of other keys keep their places, and unique keys stay unique. |
| Ledger.DataStore.SetBalance | src/contexts/DataContext.tsx:186-201 | Without a session the baselines are unchanged. Otherwise they are upserted, and `GetBalance` for that mode then returns the new value. |
| Auth.AuthService.constructor | src/contexts/AuthContext.tsx:20-22 | No account is registered and nobody is logged in. |
| Auth.AuthService.Signup | src/contexts/AuthContext.tsx:33-56 | A registered email fails with "Email já cadastrado" and changes neither the map nor the session. A new email adds exactly that key, mapped to the new account, and sets the session to its id, email and name. Every account stays under its own email with a unique id. |
| Auth.SessionOf | src/contexts/AuthContext.tsx:42-46 | The session carries the account's id, email and name, and the `User` type has no password field. |
| Auth.AuthService.Login | src/contexts/AuthContext.tsx:58-76 | Success exactly when the email is registered and the stored password matches; the session then becomes the stored id, email and name. Any failure is the one error "Email ou senha inválidos" and leaves the session unchanged. The accounts are never touched. |
| Auth.AuthService.Logout | src/contexts/AuthContext.tsx:78-81 | The session becomes empty; the accounts are untouched, so every account stays under its own email with a unique id. |
| Auth.SignupThenLogin | src/contexts/AuthContext.tsx:48-70 | After a successful signup, the map holds exactly the new account under its email, and logging in with the same email and password succeeds with the session id assigned at signup. |
| Auth.LogoutTwice | src/contexts/AuthContext.tsx:78-81 | Logging out twice leaves the same state as once: no session, accounts untouched. |
| CalendarPage.EventsForDay | src/pages/Calendar.tsx:118-120 | Only events dated on the day are returned, each occurrence of every such event is kept, and nothing else is. |
| CalendarPage.EventsForDayKeepsOrder | src/pages/Calendar.tsx:118-120 | The day's events keep their order in the list (the filter distributes over concatenation). |
| CalendarPage.SortByDate | src/pages/Calendar.tsx:124 | The result is sorted ascending by date and is a permutation of the input. |
| CalendarPage.InsertByDate | src/pages/Calendar.tsx:124 | Inserting into a date-sorted list keeps it sorted and adds exactly that event. |
| CalendarPage.UpcomingEvents | src/pages/Calendar.tsx:122-125 | At most 5 events, and exactly min(5, candidates). They are sorted by date. Every one is in the list, not completed and dated at or after now. Every candidate left out is dated no earlier than any kept event, so these are the earliest. |
| CalendarPage.PrefixIsEarliest | src/pages/Calendar.tsx:125 | A prefix of a date-sorted list is sorted, and no element left out is dated before an element kept. |
| CalendarPage.TotalExpectedProfit | src/pages/Calendar.tsx:127-129 | The total is the sum over all events of the expected profit of the uncompleted ones. |
| CalendarPage.TotalRealizedProfit | src/pages/Calendar.tsx:131-133 | Leaving out the events with a zero or missing actual profit changes nothing. The total equals the sum of actual profits over all completed events, with a missing one as 0. |
| CalendarPage.PendingCount | src/pages/Calendar.tsx:193 | The count of uncompleted events; with the completed ones it makes up the whole list. |
| CalendarPage.CompletionMovesProfit | src/pages/Calendar.tsx:127-133 | Completing a pending event with a unique id with profit P lowers the expected total by its expected profit, raises the realized total by P and lowers the pending count by one. |
| YearView.MonthEvents | src/components/calendar/YearView.tsx:28 | Exactly the events dated in the month, each with all its occurrences. |
| YearView.GetMonthStats | src/components/calendar/YearView.tsx:27-42 | Pending plus completed equals the total, which is the number of the month's events. |
| YearView.MonthStatsAsSums | src/components/calendar/YearView.tsx:29-40 | The expected profit sums the expected profit of the uncompleted month events. The realized profit sums the actual profit, missing as 0, of the completed ones. |
| YearView.StatsAsSums | src/components/calendar/YearView.tsx:35-41 | Every statistic of a list of events is a sum of per-event contributions. |
| YearView.OtherMonthsIgnored | src/components/calendar/YearView.tsx:28 | Events dated in other months, wherever they stand in the list, do not change a month's statistics. |
| YearView.MonthsTotalIsRange | src/components/calendar/YearView.tsx:56-57 | Adding up the month cards of a range of months gives the statistics of the events dated in that range. |
| YearView.YearTotalsCoverMonths | src/components/calendar/YearView.tsx:138-165 | When every event is dated in the displayed year, the twelve month cards add up to the three year-total cards and to the whole list's pending and completed counts. |
| YearView.OtherYearOnlyInTotals | src/components/calendar/YearView.tsx:138-165 | An event of another year changes no month card of the displayed year. It still adds one to the event-count card (`TotalEvents`) and its contribution to both profit cards, which aggregate the whole list. |

## Left out

- Persistence: the `localStorage` reads and writes, JSON encoding, and the effects that load a user's lists at login and save them on change. Both stores are in-memory fields. The ledger's constructor starts empty, as the provider does with no user.
- The clearing of the ledger's lists when the session ends is part of that load effect, and is not modelled either.
- `crypto.randomUUID()` and `new Date().toISOString()` are foreign calls. They are parameters, and the fresh id is required to be unused.
- Time zones, daylight-saving time, invalid dates and the date-fns calendar-grid and month enumeration. Dates are abstract local instants, and the year view's twelve months are the months 1 to 12.
- Floating-point money: sums are exact integers (cents), and the `toLocaleString` formatting of the totals is display only.
- A `NaN` balance, which `|| 0` would read as 0, cannot occur in integer money; a stored 0 reads as 0 either way.
- React machinery: `isLoading`, the providers and hooks, the "outside provider" errors, and state batching. Each operation is applied to the current state at once.
- The user interface: pages, dialogs, form checks over parsed strings, toasts, routing, and the login page's simulated login that never calls the service.
- The dashboards show hard-coded figures. A balance computed from baseline and confirmed transactions does not exist in the code, and it is not modelled.
- `Auth.AuthService.Signup`: the application's credential store is a plain object, so an email equal to a property every object inherits (`toString`, `constructor`, `__proto__`, `hasOwnProperty`, …) reads as already registered there, and signup fails with "Email já cadastrado" even on an empty store. The model's map has no such keys, so it registers those emails like any other.
- `CalendarPage.SortByDate`: the order it gives to events with equal dates is not stated. `Array.prototype.sort` is stable, and insertion sort is too, but only sortedness and permutation are proved.
