# Personal-finance ledger (Ferrari Manauara) in Dafny

This project models the transaction ledger of a browser-resident personal
finance tracker. The tracker keeps one `db` record: a sequence of income and
expense transactions plus settings. That record is copied to a single
local-storage entry after every change. The model covers:

- **Ledger store** (`store.dfy`, class `Store.Store`). The page's mutable
  state is `db`, its stored copy, the active tab and what the main area shows.
  It has these handlers:
  - page start-up and `loadData`, which falls back to a seed of four
    transactions and saves it at once;
  - `saveData`;
  - `switchTab`;
  - `saveTransaction`, which validates, normalises, then appends (add) or
    replaces in place (edit);
  - `deleteTransaction`.
- **Ledger operations** (`ledger_ops.dfy`, module `LedgerOps`): `findIndex`
  and `find` by identifier, the in-place edit, the deleting `filter`, the
  validation and normalisation of a submitted form, the form that opens for a
  new or an existing transaction, and the seed.
- **Aggregator** (`aggregator.dfy`, module `Aggregator`): the income, expense
  and balance totals; the list sorted stably by date, most recent first; and
  the first five entries of that list.
- **Views** (`views.dfy`, module `Views`): the tab dispatch with its fallback
  to the dashboard, and the view model each tab shows.
- **Records** (`types.dfy`, module `LedgerTypes`).

Representation choices:

- Identifiers are integers. The source compares a string identifier with a
  numeric one using loose `==`, which amounts to integer equality.
- Amounts are exact integers (for instance cents).
- A `parseFloat` result of NaN is `None`.
- Dates are `YYYYMMDD` integers, whose numeric order is calendar order. An
  empty date field is `None`. `DateOf(2025, 10, 1)` writes the seed's
  `'2025-10-01'`.
- `Date.now()`, the `confirm()` answer, today's date and the stored blob are
  parameters.
- The ghost counter `writes` records how often the page wrote local storage.
  It makes "nothing was saved" a checkable statement.

Where the code departs from what the tracker evidently intends, the model
follows the code:

- A negative amount is accepted, because `!value` is false for it.
- Editing an identifier that is absent changes no element but still saves.
- Deleting an absent identifier is a silent no-op followed by a save.
- Opening the editor for an absent identifier throws instead of showing an
  empty form (`OpenForm` returns `None`).
- There are no text, date or kind filters on the transaction list.
- The category is whatever the category select holds. It is kept for
  expenses and cleared otherwise.

## Model

| member | source | states |
|---|---|---|
| `Aggregator.OfKind` | app.js:65-66 | every element of the filtered list is a ledger transaction of the given kind, and every ledger transaction of that kind is in it |
| `Aggregator.OfKindMultiset` | app.js:65-66 | the filter keeps each transaction of the kind exactly as many times as the ledger holds it, and no transaction of the other kind |
| `Aggregator.OfKindAppend` | app.js:65-66 | filtering a split ledger filters each part, keeping their order |
| `Aggregator.SumValues` | app.js:65-66 | the `reduce` starts from 0: an empty list sums to 0 |
| `Aggregator.SumAppend` | app.js:65-66 | the sum over a concatenation is the sum of the two sums |
| `Aggregator.SumPermutation` | app.js:65-66 | two lists holding the same transactions, each as often, have the same sum, so the order of the additions does not matter |
| `Aggregator.KindTotal` | app.js:65-66 | the total of a kind is 0 on a ledger with no transaction of that kind |
| `Aggregator.TotalIncome` | app.js:65 | income total is 0 on an empty ledger |
| `Aggregator.TotalExpenses` | app.js:66 | expense total is 0 on an empty ledger |
| `Aggregator.Balance` | app.js:67 | balance is 0 on an empty ledger |
| `Aggregator.KindTotalAppend` | app.js:65-66 | a total over a split ledger is the sum of the totals of its parts |
| `Aggregator.KindTotalPermutation` | app.js:65-66 | the total of a kind is the same for any two ledgers holding the same multiset of transactions |
| `Aggregator.TotalsPermutationInvariant` | app.js:65-67 | income, expenses and balance do not change under any permutation of the ledger |
| `Aggregator.BalanceAppend` | app.js:65-67 | appending a transaction moves the balance by its amount, up for income and down for an expense |
| `Aggregator.TotalsScenario` | app.js:65-67 | an income of 1500 and an expense of 50 give totals 1500, 50 and balance 1450 |
| `Aggregator.Insert` | app.js:135 | inserting adds exactly one occurrence of the element |
| `Aggregator.SortByDateDesc` | app.js:135 | the sorted copy has the ledger's length and is a permutation of it |
| `Aggregator.InsertSorted` | app.js:135 | inserting into a date-descending list keeps it date-descending |
| `Aggregator.InsertOnDate` | app.js:135 | the inserted element goes before every element of its own date, so equal dates keep input order |
| `Aggregator.SortIsStable` | app.js:135 | the sorted list is date-descending and keeps the ledger order among transactions of one date |
| `Aggregator.StableSortUnique` | app.js:135 | two date-descending lists with the same per-date order are equal |
| `Aggregator.SortedListSpec` | app.js:135 | the full list is a permutation, sorted non-increasingly by date, stable, and the only list with these properties |
| `Aggregator.Recent` | app.js:68 | the recent list has length min(5, ledger size) and is a prefix of the stable date-descending sort |
| `Aggregator.RecentSpec` | app.js:68 | the recent list is a sub-multiset of the ledger, sorted, and no transaction left out is dated later than one shown |
| `LedgerOps.FindIndex` | app.js:267 | -1 exactly when no transaction has the identifier; otherwise the first position holding it |
| `LedgerOps.Find` | app.js:195 | `None` exactly when the identifier is absent; otherwise the ledger transaction at the first position holding the identifier |
| `LedgerOps.ReplaceFirst` | app.js:266-268 | the edit keeps the length, and an absent identifier leaves the sequence unchanged |
| `LedgerOps.ReplaceFirstSpec` | app.js:266-268 | only the first position holding the identifier changes; it then holds the new record |
| `LedgerOps.EditLeavesExactlyOne` | app.js:261-268 | with unique identifiers, the edit leaves exactly one transaction with the identifier: the new record |
| `LedgerOps.Without` | app.js:281 | a transaction survives deletion exactly when it was in the ledger with a different identifier |
| `LedgerOps.WithoutAppend` | app.js:281 | deletion distributes over concatenation, so survivors keep their relative order |
| `LedgerOps.WithoutMultiset` | app.js:281 | each survivor keeps its multiplicity; transactions with the identifier occur zero times |
| `LedgerOps.WithoutAbsent` | app.js:281 | deleting an absent identifier leaves the ledger unchanged |
| `LedgerOps.WithoutKeepsUniqueIds` | app.js:281 | deletion keeps identifiers unique |
| `LedgerOps.AddKeepsUniqueIds` | app.js:261-270 | appending a record with a fresh identifier keeps identifiers unique |
| `LedgerOps.Normalise` | app.js:255-264 | the form is rejected exactly for a NaN or zero amount or an empty date; otherwise the record has the given identifier, copies type, amount, date and payment method, and has a category, equal to the form's, exactly when the type is expense |
| `LedgerOps.NegativeAmountAccepted` | app.js:255 | a negative amount with a date passes validation and is stored negative |
| `LedgerOps.ConsistencyKept` | app.js:260-270 | adding or editing with an accepted form keeps every stored category set exactly on expenses |
| `LedgerOps.WithoutKeepsConsistency` | app.js:281 | deletion keeps every remaining category set exactly on expenses |
| `LedgerOps.SelectValue` | app.js:218-231 | a select shows the option asked for when it exists, and always one of its options |
| `LedgerOps.OpenForm` | app.js:193-231 | a new form is an expense with an empty amount and today's date; an edit form opens exactly when the identifier exists |
| `LedgerOps.EditFormRoundTrip` | app.js:193-268 | opening a transaction and saving the form unchanged gives back the same record exactly when the record is representable in the form, and then leaves the ledger unchanged |
| `LedgerOps.NewFormDefaults` | app.js:195-264 | an untouched new form is rejected; with an amount it stores an expense of today in the first category and payment method |
| `LedgerOps.SeedAsWrittenEditRewritesPix` | app.js:14 | as written, saving the first seed transaction unchanged turns its payment method `PIX` into `Dinheiro` |
| `LedgerOps.SeedInvariant` | app.js:12-18 | the seed as written, which start-up loads from empty storage, and the corrected seed both have unique identifiers and categories exactly on expenses |
| `LedgerOps.SeedEditRoundTrips` | app.js:12-18 | with the seed's payment method spelled `Pix`, every seed transaction survives an unchanged edit |
| `Views.Dispatch` | app.js:55-60 | the identifiers `transactions` and `settings` select their tab; every other identifier selects the dashboard |
| `Views.RenderContent` | app.js:52-68 | the dashboard shows the ledger's income and expense totals, their difference as balance, the two totals as chart and exactly the recent list of the ledger; the transaction tab shows a stable date-descending permutation of the ledger |
| `Views.UnknownTabShowsDashboard` | app.js:60 | an unknown tab identifier renders exactly the dashboard |
| `Views.DashboardTotalsOrderIndependent` | app.js:64-67 | the dashboard's totals do not depend on the order of the ledger |
| `Store.Store.constructor` | app.js:337-340 | start-up loads the stored document, or else the seed as written (`PIX`) with settings `light`/`Usuário`, saved once; the dashboard is active and shown |
| `Store.Store.SaveData` | app.js:6 | the stored entry becomes a copy of `db`, one more write |
| `Store.Store.LoadData` | app.js:7-26 | a stored document becomes `db` with no write; without one, `db` is the seed as written and is written at once |
| `Store.Store.Refresh` | app.js:52-61 | the main area shows the active tab rendered from the current ledger |
| `Store.Store.SwitchTab` | app.js:31-34 | the tab becomes active and the main area shows it rendered from the unchanged ledger |
| `Store.Store.SaveTransaction` | app.js:247-277 | a rejected form changes and writes nothing; an accepted add appends the normalised record; an accepted edit replaces the first match in place; then one write, a re-render, and unique identifiers and category consistency kept |
| `Store.Store.DeleteTransaction` | app.js:279-286 | without confirmation nothing changes; with it the ledger keeps exactly the transactions with other identifiers, in order, followed by one write and a re-render |

## Findings

| source | as written | input that shows it | evidently intended | confidence | as-written member | corrected member |
|---|---|---|---|---|---|---|
| app.js:14 | the first seed transaction has payment method `PIX`, which is none of the form's options `Dinheiro`, `Pix`, `Cartão` (app.js:219-221) | open the editor on seed transaction 1 and save without changes: its payment method becomes `Dinheiro` | the seed spells it `Pix`, so an unchanged edit keeps the record | medium, not executed | `LedgerOps.SeedAsWrittenEditRewritesPix` | `LedgerOps.SeedEditRoundTrips` |

Start-up (`Store.Store.constructor`, `Store.Store.LoadData`) loads
`LedgerOps.SeedAsWritten`, the seed with the source's spelling `PIX`.
`LedgerOps.Seed` is the corrected seed; `LedgerOps.SeedEditRoundTrips` is
proved about it.

## Left out

- Markup is not modelled: HTML templates, `innerHTML`, Chart.js, lucide icons and the modal's DOM. The model keeps only what each view shows.
- Toasts and their timed removal are not modelled. `SaveTransaction` returns whether the success or the error toast would show.
- `closeModal` after a save is not modelled. It is presentation only.
- Local storage and JSON are not modelled as I/O. The stored entry is an already-parsed `Option<Db>`.
- Corrupt stored JSON is not modelled. `JSON.parse` would throw, and the code does not catch it.
- The `'theme'` key that the theme toggle writes is not modelled.
- `parseFloat` and floating-point addition are not modelled. Amounts are exact integers, so rounding and the order of additions in `reduce` do not arise.
- `toLocaleString` currency and date formatting are not modelled.
- The clock tick (`setInterval`), the theme toggle and service-worker registration are not modelled. They are platform glue with no ledger state.
- `Views.Dispatch` treats every identifier other than the three tab names as unknown. That includes keys inherited by the object literal, such as `toString`, which would pick an inherited function.
- `Store.Store.SwitchTab` keeps any identifier as the active tab. With an identifier that no navigation tab carries, no tab is highlighted, and the next save or delete would fail reading the active tab. That failure is not modelled.
- The identifier that `Date.now()` returns is a parameter. `SaveTransaction` keeps identifiers unique only when that value is fresh, which the source does not check.
- `api/generate-insights.js` is not part of this model. It is an HTTP handler around a foreign text-generation call and builds its prompt with `toFixed`.
