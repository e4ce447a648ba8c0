# Sales and receivables back office, modelled in Dafny

This project models the business logic of a small back-office web app for a
company that sells to franchise brands. The app keeps four lists: contracts
with their payments and expenses, brands with their contacts, and users. Its
screens do the following:

- The dashboard adds contract figures up by month and by brand. It also lists
  the contracts that still owe money, most overdue first.
- The brand analysis builds a profit summary per brand name.
- The receivables screen lists what is owed, earliest construction date
  first, and colours each row by how overdue it is.
- The contract screen registers contracts through a form. The form fills in a
  collection date once the down payment equals the sale. The same screen
  migrates contracts stored in an older format, and exports and imports the
  list.
- The contract edit dialog keeps the collection date in step with the payments
  and cleans up the contract when it is saved.
- The brand screen registers brands and fills them from a read-out of the
  registration certificate. It edits contacts inside a brand, searches brands
  by name and names the certificate download.
- The user screen edits users and keeps the old password when the new one is
  left blank.
- Every list can be exported as a CSV file and restored from a JSON backup.

## Modules

| file | module | what it holds |
|---|---|---|
| types.dfy | `Types` | the records: `Contract`, `Payment`, `Expense`, `Brand`, `BrandContact`, `User`, and the parsed form of a date |
| seqs.dfy | `Seqs` | filtering, sums, grouped sums, distinct keys, and replace or remove by id |
| text.dfy | `Text` | `trim`, ASCII `toLowerCase`, `includes`, and integers written as decimal text and read back |
| csv.dfy | `Csv` | the shared field escaping and document layout, and a reader for the exported text used to state round trips |
| import.dfy | `FileImport` | restoring a list from a JSON backup |
| ledger.dfy | `Ledger` | total paid, balance, profit, days overdue and the outstanding contracts |
| sorting.dfy | `Sorting` | a stable sort by an integer key, and `slice(0, n)` |
| dashboard.dfy | `Dashboard` | the dashboard aggregation |
| brand_analysis.dfy | `BrandAnalysis` | the per-brand summary |
| receivables.dfy | `Receivables` | the receivables list, the colour tiers, and the update of a contract by id |
| contract_management.dfy | `ContractManagement` | the new-contract form (class `ContractForm`), the migration, the export, and the list (class `ContractBook`) |
| contract_edit.dfy | `ContractEdit` | the edit dialog (class `EditSession`) |
| brand_management.dfy | `BrandManagement` | the brand screen (class `BrandRegistry`) and its pure parts |
| user_management.dfy | `UserManagement` | the user screen (class `UserDirectory`) |

State that the screens update step by step becomes a class whose methods
state the whole new state. Loops that fill dictionaries become methods with
loop invariants, proved against functions that say what each entry holds.
Pure computations become functions, and lemmas relate them to each other.

The model makes these simplifications:

- "Today" and the timestamps behind generated ids are parameters.
- A date string is read by a `parse` parameter into a year, a month and a day
  number, or into "invalid".
- A confirmation dialog is a boolean.
- A picked backup file is a value that says whether it held a JSON array.
- Amounts are unbounded integers.

The three screens repeat the same `escapeCsvField`. It is modelled once, as
`Csv.EscapeField`. Its quoting follows items 6 and 7 of section 2 of RFC
4180, but lines end in a bare line feed, and the text starts with a byte-order
mark. `Csv.Decode` reads such a text back. Each export is proved to decode
to its header followed by the texts of its values.

## Model

| member | source | states |
|---|---|---|
| Ledger.PaymentLowersBalance | components/dashboard/Dashboard.tsx:138-139 | one more payment raises the total paid by its amount and lowers the balance by the same amount |
| Ledger.TotalProfit | components/dashboard/Dashboard.tsx:101-103 | total profit equals total sales less total purchases |
| Ledger.GroupProfit | components/dashboard/Dashboard.tsx:114-116 | within every group, profit equals sales less purchases |
| Ledger.DaysOverdue | components/dashboard/Dashboard.tsx:55-63 | days overdue are never negative; they are the days from the construction date to today when that date is earlier, and 0 for a later date, for today, or for a date that does not parse |
| Ledger.WithBalance | components/dashboard/Dashboard.tsx:137-141 | each contract is paired, in order, with its sales amount less the sum of its payments |
| Ledger.WithBalanceMembers | components/dashboard/Dashboard.tsx:137-141 | a pair is in the list exactly when its contract is and its balance is that contract's balance |
| Ledger.Outstanding | components/dashboard/Dashboard.tsx:137-142 | a contract is listed exactly when its balance is positive and it has no collection date; each listed entry is an input contract with its balance; the output is a sub-multiset of the input |
| Ledger.OutstandingTotal | components/dashboard/Dashboard.tsx:142-144 | the outstanding total equals the sum of the balances of the outstanding contracts |
| Ledger.OutstandingTotalSign | components/dashboard/Dashboard.tsx:136-144 | the outstanding total is never negative; it is positive exactly when some contract is outstanding |
| Dashboard.FilterContracts | components/dashboard/Dashboard.tsx:90-98 | a contract is kept exactly when each drop-down is on "all" or matches its year, month and brand; an unparsable date matches no chosen year or month; nothing is added |
| Dashboard.FilterAllSelected | components/dashboard/Dashboard.tsx:93-95 | with all three drop-downs on "all", every contract is kept |
| Dashboard.FilterContractsConcat | components/dashboard/Dashboard.tsx:90-98 | the filter keeps list order, because it distributes over concatenation |
| Dashboard.Summarize | components/dashboard/Dashboard.tsx:101-103 | total sales is the sum of the sales amounts; total profit is the sum of sales less purchases |
| Dashboard.MonthlyTable | components/dashboard/Dashboard.tsx:106-124 | the chart has exactly twelve rows, named January to December in order, and each row's profit is its sales less its purchases |
| Dashboard.FillMonthlyData | components/dashboard/Dashboard.tsx:108-117 | after the loop, every bucket holds the running totals of the contracts whose month falls in it |
| Dashboard.MonthlyRollup | components/dashboard/Dashboard.tsx:105-124 | the rows built from the filled buckets are the twelve-row table |
| Dashboard.AccumulatedSums | components/dashboard/Dashboard.tsx:108-117 | adding contract by contract gives the sales, purchase and profit totals of the contracts in the bucket |
| Dashboard.MonthlyEmptyMonth | components/dashboard/Dashboard.tsx:119-124 | a month that no contract falls in reports zero sales, purchases and profit |
| Dashboard.MonthlySalesTotal | components/dashboard/Dashboard.tsx:101-124 | the twelve monthly sales add up to the sales of the contracts with a date that parses; when every date parses, they add up to total sales |
| Dashboard.BrandOrderFacts | components/dashboard/Dashboard.tsx:126-133 | the brand keys hold each brand name of the filtered contracts exactly once, and nothing else |
| Dashboard.FillBrandData | components/dashboard/Dashboard.tsx:126-132 | after the loop, the dictionary has a key exactly for each brand seen, in first-seen order, and each key holds that brand's running sales total |
| Dashboard.BrandAccumulatedSum | components/dashboard/Dashboard.tsx:127-132 | a brand's running total is the sum of the sales amounts of its contracts |
| Dashboard.SharesOver | components/dashboard/Dashboard.tsx:133 | one slice per key, holding that brand's raw sales total |
| Dashboard.BrandDistribution | components/dashboard/Dashboard.tsx:126-133 | the slices produced are the share table |
| Dashboard.BrandSharesTotal | components/dashboard/Dashboard.tsx:126-133 | the slices are not normalised: together they are exactly total sales |
| Dashboard.ShareTableNames | components/dashboard/Dashboard.tsx:133 | there is exactly one slice per distinct brand name in the filtered contracts |
| Dashboard.Aged | components/dashboard/Dashboard.tsx:143-146 | each outstanding contract gets, in order, its days overdue from its construction date |
| Dashboard.Receivables | components/dashboard/Dashboard.tsx:135-156 | over all contracts, whatever the filters: the outstanding total is the sum of the outstanding balances and is never negative; the top list is the first five of the ranking |
| Dashboard.OverdueRankingFacts | components/dashboard/Dashboard.tsx:137-147 | the ranking is a permutation of the aged outstanding contracts, sorted by days overdue with the largest first, and stable |
| Dashboard.TopOverdueOrder | components/dashboard/Dashboard.tsx:147-155 | the top list has min(5, number outstanding) entries, sorted with the most overdue first, and none of the rest is more overdue than an entry in it |
| Dashboard.TopOverdueMembers | components/dashboard/Dashboard.tsx:137-155 | every entry of the top list is an outstanding contract, with its balance and its days overdue |
| BrandAnalysis.Analyze | components/analysis/BrandAnalysis.tsx:10-47 | the keys are the registered names, then the names first used by a contract, in creation order; each entry is the finished summary of that name |
| BrandAnalysis.RegisterBrands | components/analysis/BrandAnalysis.tsx:13-20 | every registered name gets an all-zero entry, and duplicate names collapse into one key |
| BrandAnalysis.TallyContracts | components/analysis/BrandAnalysis.tsx:22-37 | a name not yet present gets a new entry; each entry then holds its contracts in order, their count and their cumulative profit |
| BrandAnalysis.SetAverages | components/analysis/BrandAnalysis.tsx:39-45 | an entry with contracts gets its average sales amount; an entry without contracts is left as it was |
| BrandAnalysis.AddNameFacts | components/analysis/BrandAnalysis.tsx:24-31 | creating a key adds only that name and keeps the keys distinct |
| BrandAnalysis.AccumulatedIsSelect | components/analysis/BrandAnalysis.tsx:22-37 | the entry built contract by contract holds exactly that brand's contracts, their count and their summed profit |
| BrandAnalysis.FinishedMeaning | components/analysis/BrandAnalysis.tsx:33-45 | an entry's contracts are the brand's contracts in input order; its count is their number; its profit is the sum of sales less purchases; its average is total sales over count when there are contracts, and 0 otherwise |
| BrandAnalysis.UnusedBrandIsEmpty | components/analysis/BrandAnalysis.tsx:13-20 | a registered name with no contracts keeps count 0, profit 0 and average 0 |
| BrandAnalysis.RegisteredOrderFacts | components/analysis/BrandAnalysis.tsx:13-20 | the keys after the first loop are exactly the registered names, without duplicates |
| BrandAnalysis.KeyOrderFacts | components/analysis/BrandAnalysis.tsx:11-37 | the final keys are exactly the registered names and the names the contracts use, without duplicates |
| BrandAnalysis.EveryNameHasAnEntry | components/analysis/BrandAnalysis.tsx:13-37 | every registered brand has an entry, and so does every name a contract uses, registered or not |
| BrandAnalysis.CountsAddUp | components/analysis/BrandAnalysis.tsx:11-37 | the counts of all entries add up to the number of contracts |
| Receivables.OutstandingContractsFacts | components/receivables/ReceivablesManagement.tsx:29-38 | the list is a permutation of the outstanding contracts with their balances; a contract is in it exactly when it is outstanding; it is sorted by construction date, earliest first, and the sort is stable |
| Receivables.CollectedNeverListed | components/receivables/ReceivablesManagement.tsx:36 | a contract with a collection date is never listed, whatever it still owes |
| Receivables.OverdueTier | components/receivables/ReceivablesManagement.tsx:51-55 | red exactly above 60 days, orange exactly from 31 to 60, yellow exactly at 30 or fewer |
| Receivables.TierMonotone | components/receivables/ReceivablesManagement.tsx:51-55 | more days overdue never gives a milder colour |
| Receivables.UpdateContract | components/receivables/ReceivablesManagement.tsx:22-27 | the length is kept; each contract with the edited id becomes the edited contract; every other contract stays as it was |
| Receivables.UpdateContractIdempotent | components/receivables/ReceivablesManagement.tsx:23 | saving the same edit twice is the same as saving it once |
| Receivables.UpdateContractAbsent | components/receivables/ReceivablesManagement.tsx:23 | an edit whose id is not in the list changes nothing |
| Sorting.SortByPermutes | components/receivables/ReceivablesManagement.tsx:37 | sorting neither loses nor adds elements |
| Sorting.SortBySorted | components/receivables/ReceivablesManagement.tsx:37 | the result is in key order |
| Sorting.SortByStable | components/dashboard/Dashboard.tsx:147 | elements with the same key keep their input order |
| Sorting.Take | components/dashboard/Dashboard.tsx:155 | `slice(0, n)` returns a prefix of exactly n elements of a longer list, and the whole list when it is that short |
| Csv.NumberNeedsNoQuotes | components/contracts/ContractManagement.tsx:178-185 | a number is written as its decimal text and is never quoted |
| Csv.FieldRoundTrip | components/contracts/ContractManagement.tsx:178-185 | an escaped field reads back as its text (null reads back as empty), and the reader stops exactly where the field ends |
| Csv.RecordRoundTrip | components/contracts/ContractManagement.tsx:200 | a line of escaped values joined by commas reads back as the texts of its values |
| Csv.DocumentRoundTrip | components/contracts/ContractManagement.tsx:202-203 | a byte-order mark, a header of plain names, and the lines joined by line feeds decode to the header followed by the rows' texts |
| Text.TrimEmptyIff | components/management/BrandManagement.tsx:247 | a trimmed name is empty exactly when the name is all white space |
| Text.TrimIdempotent | components/management/BrandManagement.tsx:254 | trimming twice gives the same result as trimming once |
| Text.ToLowerIdempotent | components/management/BrandManagement.tsx:385 | lower-casing twice gives the same result as lower-casing once |
| Text.Contains | components/management/BrandManagement.tsx:385 | `includes` holds exactly when the query occurs at some index |
| Text.IntToStringRoundTrip | components/contracts/ContractManagement.tsx:180 | reading back the decimal text of an integer gives the integer |
| FileImport.ImportAllOrNothing | components/contracts/ContractManagement.tsx:218-240 | success is reported exactly when the overwrite was confirmed and the file held an array; then the list is that array, and otherwise the list is unchanged |
| FileImport.ImportIdempotent | components/contracts/ContractManagement.tsx:218-240 | importing the same file twice is the same as importing it once |
| ContractManagement.AutoCollectionDate | components/contracts/ContractManagement.tsx:23-31 | the date is filled in exactly when the sale is positive and equals the down payment, and then it is today |
| ContractManagement.RemoveAt | components/contracts/ContractManagement.tsx:49-52 | removing an index in range drops exactly that row and keeps the order of the rest; an index out of range changes nothing |
| ContractManagement.ContractForm.constructor | components/contracts/ContractManagement.tsx:8-17 | the form starts empty, with one blank expense row and the edited flag off |
| ContractManagement.ContractForm.CollectionDateEffect | components/contracts/ContractManagement.tsx:19-32 | with the flag on the date stays; otherwise it becomes the automatic date, and nothing else changes |
| ContractManagement.ContractForm.SetText | components/contracts/ContractManagement.tsx:8-15 | one text field changes and nothing else does |
| ContractManagement.ContractForm.SetSalesAmount | components/contracts/ContractManagement.tsx:19-32 | the amount changes; the effect reruns only if the amount is different from before, and keeps the automatic date unless the flag is on |
| ContractManagement.ContractForm.SetDownPayment | components/contracts/ContractManagement.tsx:19-32 | the same as above, for the down payment |
| ContractManagement.ContractForm.ChangeCollectionDate | components/contracts/ContractManagement.tsx:34-37 | a typed date is stored and turns the automatic date off |
| ContractManagement.ContractForm.AddExpense | components/contracts/ContractManagement.tsx:39-41 | one blank row is appended |
| ContractManagement.ContractForm.ChangeExpenseItem | components/contracts/ContractManagement.tsx:43-47 | only that row's item changes |
| ContractManagement.ContractForm.ChangeExpenseAmount | components/contracts/ContractManagement.tsx:43-47 | only that row's amount changes |
| ContractManagement.ContractForm.RemoveExpense | components/contracts/ContractManagement.tsx:49-52 | the row at that index is removed |
| ContractManagement.ContractForm.Submit | components/contracts/ContractManagement.tsx:54-95 | returns the contract built from the form as it was, then resets the form and the flag |
| ContractManagement.ContractForm.Reset | components/contracts/ContractManagement.tsx:84-94 | every field is back to its initial value and the flag is off |
| ContractManagement.StampExpenses | components/contracts/ContractManagement.tsx:79 | each kept row becomes, in order, an expense with a distinct numbered id, the row's item and its amount |
| ContractManagement.NewContractExpenses | components/contracts/ContractManagement.tsx:57-80 | the saved expenses are exactly the rows with a non-blank trimmed item and a positive amount, in order; the purchase total is the sum of their amounts |
| ContractManagement.NewContractPurchaseSign | components/contracts/ContractManagement.tsx:80 | the purchase total is never negative; it is positive exactly when some row is complete |
| ContractManagement.NewContractExpenseIds | components/contracts/ContractManagement.tsx:79 | the expense ids of a new contract are pairwise different |
| ContractManagement.NewContractPayments | components/contracts/ContractManagement.tsx:61-68 | there is exactly one payment when the down payment is positive, for that amount and dated on the contract date, and none otherwise; the balance follows |
| ContractManagement.NewContractCollection | components/contracts/ContractManagement.tsx:76 | an empty collection date is stored as null, and any other date is kept |
| ContractManagement.AutoDateMeansSettled | components/contracts/ContractManagement.tsx:19-32 | while the automatic date is in force, a new contract is saved as collected exactly when its sale is positive and fully paid |
| ContractManagement.MigrateAll | components/contracts/ContractManagement.tsx:316-333 | each stored record goes through the migration, in order |
| ContractManagement.StoreAll | components/contracts/ContractManagement.tsx:337 | each contract is written back in the current format |
| ContractManagement.MigrateKeepsBalance | components/contracts/ContractManagement.tsx:320-332 | an old record's payments become exactly one payment, of its down payment, dated on the contract date and with the id `payment-<id>-migrated`, when the down payment is positive, and none otherwise; its total paid and balance follow from the down payment; every other field is kept |
| ContractManagement.MigrateWithoutDownPayment | components/contracts/ContractManagement.tsx:317-318 | a record without a down payment keeps its payments, or gets an empty list when it has none, and every other field is kept |
| ContractManagement.MigrateIdempotent | components/contracts/ContractManagement.tsx:314-340 | migrating, storing and loading again changes nothing, and the second load does not save |
| ContractManagement.CurrentFormatLoadsUnchanged | components/contracts/ContractManagement.tsx:317-318 | a list in the current format loads exactly as it was stored and is not saved again |
| ContractManagement.ContractRows | components/contracts/ContractManagement.tsx:192-201 | one line per contract, in list order |
| ContractManagement.ContractHeaderPlain | components/contracts/ContractManagement.tsx:188-191 | no header name needs quoting, so the unescaped header reads back as the names |
| ContractManagement.ContractRowReadBack | components/contracts/ContractManagement.tsx:192-200 | a line reads back as twelve fields: id, names and dates, the collection date's text when there is one and an empty text otherwise, and the sales, total paid, balance, purchase total and profit, each read back as its number |
| ContractManagement.ContractsCsvRoundTrip | components/contracts/ContractManagement.tsx:187-203 | the export decodes to the twelve header names, then one line per contract, in order |
| ContractManagement.ContractBook.constructor | components/contracts/ContractManagement.tsx:314-340 | the list is the migrated stored list, with no dialog open; the store is rewritten in the current format exactly when some stored record had a down payment, and is left as it was otherwise; either way it is then in the current format and reloads as the list on screen |
| ContractManagement.ContractBook.Save | components/contracts/ContractManagement.tsx:346 | the store becomes the list in the current format, which reloads as the list; nothing else changes |
| ContractManagement.ContractBook.AddContract | components/contracts/ContractManagement.tsx:344-348 | the new contract is put first and the list is saved; the store reloads as the list |
| ContractManagement.ContractBook.OpenEditModal | components/contracts/ContractManagement.tsx:350-353 | the dialog opens on the contract; the list and the store are unchanged |
| ContractManagement.ContractBook.CloseEditModal | components/contracts/ContractManagement.tsx:355-358 | the dialog closes; the list and the store are unchanged |
| ContractManagement.ContractBook.UpdateContract | components/contracts/ContractManagement.tsx:360-365 | the edited contract replaces the contracts with its id, the list is saved, then the dialog closes |
| ContractManagement.ContractBook.DeleteContract | components/contracts/ContractManagement.tsx:367-373 | once confirmed, the contracts with that id are removed and the list is saved; otherwise nothing changes |
| ContractManagement.ContractBook.Import | components/contracts/ContractManagement.tsx:218-240 | the list is replaced and saved only for a confirmed array, and the notice says how the import ended |
| ContractManagement.DeleteRemovesOnlyThatId | components/contracts/ContractManagement.tsx:367-373 | a contract survives a delete exactly when its id is a different one; deleting an absent id changes nothing |
| ContractEdit.AutoDated | components/contracts/ContractEditModal.tsx:17-32 | at most the collection date changes; with the flag on nothing changes; with it off, a settled contract (positive sale equal to the total paid) is dated today, an unsettled one with a date has it cleared, and an unsettled one without a date is unchanged |
| ContractEdit.AutoDatedIdempotent | components/contracts/ContractEditModal.tsx:17-32 | running the effect again makes no further change |
| ContractEdit.EditSession.constructor | components/contracts/ContractEditModal.tsx:12-13 | the flag starts on exactly when the contract already has a collection date, and the copy has passed through the effect |
| ContractEdit.EditSession.AutoDate | components/contracts/ContractEditModal.tsx:17-32 | the copy becomes its auto-dated form, and the flag is kept |
| ContractEdit.EditSession.AfterChange | components/contracts/ContractEditModal.tsx:32 | the effect reruns only when the sales amount, the total paid, the collection date or the flag changed |
| ContractEdit.EditSession.ChangeField | components/contracts/ContractEditModal.tsx:34-40 | only that field changes; typing a collection date turns the flag on for good, and other fields leave the flag alone |
| ContractEdit.EditSession.ChangeSalesAmount | components/contracts/ContractEditModal.tsx:42-45 | input that is not a number stores 0; the effect reruns if the amount changed |
| ContractEdit.EditSession.ChangeExpenseItem | components/contracts/ContractEditModal.tsx:47-51 | only that expense's item changes |
| ContractEdit.EditSession.ChangeExpenseAmount | components/contracts/ContractEditModal.tsx:47-51 | only that expense's amount changes |
| ContractEdit.EditSession.AddExpense | components/contracts/ContractEditModal.tsx:53-56 | one blank expense with a fresh id is appended |
| ContractEdit.EditSession.RemoveExpense | components/contracts/ContractEditModal.tsx:58-60 | the expenses with that id are removed and the rest keep their order |
| ContractEdit.EditSession.ChangePaymentDate | components/contracts/ContractEditModal.tsx:62-67 | only that payment's date changes |
| ContractEdit.EditSession.ChangePaymentAmount | components/contracts/ContractEditModal.tsx:62-67 | only that payment's amount changes, and the effect reruns if the total paid changed |
| ContractEdit.EditSession.AddPayment | components/contracts/ContractEditModal.tsx:69-72 | one payment of 0 dated today is appended, and the total paid stays the same |
| ContractEdit.EditSession.RemovePayment | components/contracts/ContractEditModal.tsx:74-76 | the payments with that id are removed, keeping order, and the effect reruns if the total paid changed |
| ContractEdit.EditSession.Submit | components/contracts/ContractEditModal.tsx:78-82 | returns the contract with the purchase total recomputed and only the positive, dated payments |
| ContractEdit.SavedKeepsFields | components/contracts/ContractEditModal.tsx:78-82 | saving changes only the purchase total and the payments |
| ContractEdit.SavedPayments | components/contracts/ContractEditModal.tsx:80 | the saved payments are exactly the positive, dated ones; the saved total paid is never negative; it is never less than before when every payment is dated, and the same when no payment is negative and every positive one is dated |
| ContractEdit.SavedProfit | components/contracts/ContractEditModal.tsx:79 | the saved purchase total is the sum of the expense amounts, so profit is sales less that sum |
| ContractEdit.AutoDateMeansSettled | components/contracts/ContractEditModal.tsx:17-32 | while the automatic date is in force, and provided no payment is negative and every positive payment is dated (the dialog guarantees neither), the saved contract has a collection date exactly when its sale is positive and its balance is 0 |
| ContractEdit.UndatedPaymentSavedAsCollected | components/contracts/ContractEditModal.tsx:15-82 | without the dated-payment proviso the rule fails: a sale settled by one undated payment is dated today, and saving drops that payment, so it is saved as collected with its whole sale owed |
| BrandManagement.NewBrandFacts | components/management/BrandManagement.tsx:252-261 | a new brand has the id `brand-<stamp>`, the trimmed, non-empty name, the address, business number, phone and website each trimmed from the form, no contacts, and the form's own certificate image when one was uploaded, none otherwise |
| BrandManagement.AfterUpload | components/management/BrandManagement.tsx:165-199 | an unreadable file clears the name, address, business number and image; a failed read-out clears the three fields and attaches the image; a successful one attaches the image and sets each field to what was read, or empty text; the phone and website fields are kept |
| BrandManagement.MergeOcr | components/management/BrandManagement.tsx:218-233 | the image is always attached; with consent, each extracted field replaces the old one only when it is non-empty; without consent, nothing else changes |
| BrandManagement.MergeEmptyOcr | components/management/BrandManagement.tsx:221-227 | a read-out with nothing in it only attaches the image |
| BrandManagement.EditContacts | components/management/BrandManagement.tsx:341-343 | the contact with the edited id takes the form's fields and keeps its id; all other contacts stay as they were |
| BrandManagement.EditContactsKeepsIds | components/management/BrandManagement.tsx:340-344 | editing keeps every contact's id and every other contact |
| BrandManagement.WithPendingContact | components/management/BrandManagement.tsx:301-311 | a contact typed into the form is appended exactly when its trimmed name is non-empty and no contact is being edited |
| BrandManagement.PendingContactAddsAtMostOne | components/management/BrandManagement.tsx:301-311 | saving never loses a contact and adds at most one |
| BrandManagement.SearchBrands | components/management/BrandManagement.tsx:384-386 | an empty query finds nothing; otherwise a brand is found exactly when its lower-cased name contains the lower-cased query |
| BrandManagement.SearchIgnoresQueryCase | components/management/BrandManagement.tsx:385 | lower-casing the query first finds the same brands |
| BrandManagement.SearchConcat | components/management/BrandManagement.tsx:384-386 | the results keep list order |
| BrandManagement.WordRun | components/management/BrandManagement.tsx:405 | the longest prefix made of word characters |
| BrandManagement.MatchAt | components/management/BrandManagement.tsx:405 | a match at an index captures a non-empty run of word characters, preceded by `data:image/` and followed by `;` |
| BrandManagement.FirstMatch | components/management/BrandManagement.tsx:405 | the result is the match at the leftmost matching index, with no match before it, and when there is none, no index matches |
| BrandManagement.ExtensionOfDataUrl | components/management/BrandManagement.tsx:405-406 | a data URL of the form `data:image/<subtype>;...` yields its subtype as the extension |
| BrandManagement.ExtensionFallback | components/management/BrandManagement.tsx:405-406 | text with no match yields `png` |
| BrandManagement.CertificateDownload | components/management/BrandManagement.tsx:399-408 | a file is offered exactly when the brand has a certificate image; it links to that image and is named `<brand name>_사업자등록증.<extension>`, with the extension read from the image |
| BrandManagement.ContactRows | components/management/BrandManagement.tsx:431-434 | one line per contact, in order |
| BrandManagement.RowsOfBrandShape | components/management/BrandManagement.tsx:426-435 | every line of a brand has seven fields and starts with the brand's id and name; a brand without contacts gives exactly one line, with blank contact fields; otherwise the brand gives one line per contact, in order |
| BrandManagement.BrandRowsConcat | components/management/BrandManagement.tsx:426 | lines are grouped by brand, in brand order |
| BrandManagement.BrandRowsCount | components/management/BrandManagement.tsx:426-435 | the export has one line per contact, plus one per brand without contacts |
| BrandManagement.BrandRowsWidth | components/management/BrandManagement.tsx:425-435 | every line has the header's seven fields |
| BrandManagement.BrandHeaderPlain | components/management/BrandManagement.tsx:425 | no header name needs quoting |
| BrandManagement.BrandsCsvRoundTrip | components/management/BrandManagement.tsx:424-438 | the export decodes to the header, then the texts of every line |
| BrandManagement.BrandRegistry.constructor | components/management/BrandManagement.tsx:140-161 | the stored brands, a blank form, no dialog, no contact being edited, and an empty search |
| BrandManagement.BrandRegistry.ChangeNewBrandField | components/management/BrandManagement.tsx:141-145 | that form field changes and every other part of the screen state stays |
| BrandManagement.BrandRegistry.UploadCertificate | components/management/BrandManagement.tsx:165-199 | the form becomes its state after the upload and every other part of the screen state stays |
| BrandManagement.BrandRegistry.AddBrand | components/management/BrandManagement.tsx:245-273 | a blank trimmed name is refused and changes nothing; otherwise the new brand is put first, the form is cleared, and nothing else changes |
| BrandManagement.BrandRegistry.DeleteBrand | components/management/BrandManagement.tsx:275-281 | once confirmed, exactly the brands with that id are removed; nothing else changes |
| BrandManagement.BrandRegistry.OpenEditModal | components/management/BrandManagement.tsx:284-287 | the dialog opens on the brand; nothing else changes |
| BrandManagement.BrandRegistry.CloseEditModal | components/management/BrandManagement.tsx:289-294 | the dialog closes, and the contact form and its edit state are reset; the list, the new-brand form and the search stay |
| BrandManagement.BrandRegistry.ChangeBrandField | components/management/BrandManagement.tsx:320-324 | only that field of the open brand changes; with no brand open nothing changes |
| BrandManagement.BrandRegistry.UploadModalCertificate | components/management/BrandManagement.tsx:201-242 | a read-out on an open brand is merged as above and nothing else changes; a failed upload or no open brand changes nothing |
| BrandManagement.BrandRegistry.SaveBrand | components/management/BrandManagement.tsx:296-317 | the open brand, with any pending contact, replaces the brands with its id, the dialog closes and the contact form and its edit state are reset; the new-brand form and search stay; with no brand open nothing changes |
| BrandManagement.BrandRegistry.ChangeContactField | components/management/BrandManagement.tsx:326-328 | only that contact-form field changes |
| BrandManagement.BrandRegistry.ChangeContactCategory | components/management/BrandManagement.tsx:326-328 | only the contact's category changes |
| BrandManagement.BrandRegistry.CancelEditContact | components/management/BrandManagement.tsx:330-333 | the contact form is blank and nothing is being edited; nothing else changes |
| BrandManagement.BrandRegistry.ContactSubmit | components/management/BrandManagement.tsx:335-360 | with a name, a phone and an open brand, the contact is edited or appended, the brand is shown and written back by id, and the contact form and its edit state are reset, nothing else changing; otherwise nothing changes |
| BrandManagement.BrandRegistry.StartEditContact | components/management/BrandManagement.tsx:362-370 | the form is loaded with the contact, whose id is now being edited; nothing else changes |
| BrandManagement.BrandRegistry.RemoveContact | components/management/BrandManagement.tsx:372-381 | the contact is removed from the open brand, which is written back by id, nothing else changing; with no brand open nothing changes |
| BrandManagement.BrandRegistry.SetSearchQuery | components/management/BrandManagement.tsx:161 | only the query changes |
| BrandManagement.BrandRegistry.Import | components/management/BrandManagement.tsx:453-475 | the list is replaced only by a confirmed array, and the rest of the screen state stays |
| BrandManagement.WriteBackChangesOnlyThatBrand | components/management/BrandManagement.tsx:313 | writing a brand back keeps the length, replaces the brands with its id, and leaves every other brand as it was |
| UserManagement.Edited | components/management/UserManagement.tsx:35-40 | the user keeps its id and takes the new name and e-mail; the password changes only when a new one was typed |
| UserManagement.UpdateUsers | components/management/UserManagement.tsx:33-43 | the length is kept; the users with the id are edited; all other users stay as they were |
| UserManagement.UpdatePasswords | components/management/UserManagement.tsx:39 | a blank password keeps every stored password; users with other ids are unchanged; the ids are kept |
| UserManagement.UpdateIdempotent | components/management/UserManagement.tsx:31-48 | saving the same edit twice is the same as saving it once |
| UserManagement.UserRows | components/management/UserManagement.tsx:69-71 | one line per user, in order |
| UserManagement.ExportIgnoresPasswords | components/management/UserManagement.tsx:68-71 | passwords are never exported: lists that differ only in passwords export the same text |
| UserManagement.UserHeaderPlain | components/management/UserManagement.tsx:68 | no header name needs quoting |
| UserManagement.UserRowsReadBack | components/management/UserManagement.tsx:69-71 | each line reads back as the user's id, name and e-mail |
| UserManagement.UsersCsvRoundTrip | components/management/UserManagement.tsx:67-74 | the export decodes to `id,name,email`, then one line per user |
| UserManagement.UserDirectory.constructor | components/management/UserManagement.tsx:8-11 | the stored users, no dialog, and a blank form |
| UserManagement.UserDirectory.ChangeFormField | components/management/UserManagement.tsx:14-17 | only that form field changes |
| UserManagement.UserDirectory.OpenEditModal | components/management/UserManagement.tsx:19-23 | the form is pre-filled with the name and e-mail, and the password field is empty |
| UserManagement.UserDirectory.CloseEditModal | components/management/UserManagement.tsx:25-29 | the dialog closes and the form is blank |
| UserManagement.UserDirectory.UpdateUser | components/management/UserManagement.tsx:31-48 | with a user being edited, the form is applied to that id, the dialog closes and the form is blank; otherwise nothing changes |
| UserManagement.UserDirectory.DeleteUser | components/management/UserManagement.tsx:50-56 | once confirmed, exactly the users with that id are removed; nothing else changes |
| UserManagement.UserDirectory.Import | components/management/UserManagement.tsx:89-111 | the list is replaced only by a confirmed array, and the dialog state stays |

## Left out

- Rendering: the JSX, the charts and the pie-slice geometry, the drop-down option lists (years 2025 to 2035, months, brand names), the chosen brand on the analysis screen, the certificate viewer dialog (which also clears the search), the loading flags, and the colour class strings beyond their three tiers. None of these computes anything the lists depend on.
- The receivables screen's own open and close of the edit dialog: it is the same pair of steps as the contract list's, modelled once in `ContractBook`.
- Storage and browser services: `localStorage`, `FileReader`, `Blob`, object URLs and link clicks. A save is the new value of a list; only the contract list's store is a field of its own (`ContractBook.stored`), because loading it decides whether it is rewritten. A file is its parsed payload, and a confirmation or alert is a boolean or a `Notice`.
- The OCR service and the AI target discovery: these are remote calls. Their result is an input to the merge rule.
- Date arithmetic: `new Date(text)`, time zones, `setHours` and the `Math.ceil` of milliseconds. A date is what `parse` returns; days overdue are a difference of day numbers; today is given.
- Receivables.OutstandingContractsFacts: a construction date that does not parse sorts as day 0, whereas JavaScript compares `NaN` and leaves the order up to the engine.
- Floating point: amounts are integers, and `Number(text)` on a decimal input is not modelled. The analysis average is an exact `real`, not a double, and its `Math.round` for display is left out.
- Text: `toLowerCase` maps ASCII letters only, and the UTF-8 bytes the `Blob` writes are not modelled. Object keys keep first-insertion order, so JavaScript's ordering of integer-like keys, and names inherited from `Object.prototype`, are not modelled.
- ContractEdit.EditSession.ChangeExpenseAmount: an expense amount that is not a number would be `NaN` in the app; the model takes an integer.
- Identifiers: a handler that calls `new Date().getTime()` more than once gets one `stamp` in the model. The per-element shape of an imported JSON array is not checked, just as the app does not check it.
- BrandManagement.BrandRegistry.UploadCertificate and BrandManagement.BrandRegistry.UploadModalCertificate: the app's handlers wait for the file reader and the OCR call, and then write the result. The form handler overwrites any name, address or number typed in the meantime. The dialog handler merges into the brand as it was when the file was chosen, so dialog edits made in the meantime are lost. Each method here is one atomic step on the current state, so that interleaving is not captured.
- Shared objects: the expense and payment handlers overwrite an array element that the previous state shares. The model replaces the element in a new sequence, so that aliasing is not captured.
- The service worker, login, sign-up, routing, company settings and mock data are not part of this model.
