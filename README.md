# Excel to CRM automation, modelled in Dafny

The system reads bookings from an Excel sheet. It maps the sheet's columns to the
CRM's field names and normalises every row into a record keyed by its invoice
(booking) number. A Selenium-driven automator then logs into the web CRM and
updates each booking: it searches for the booking, opens it, types the supplier
and the actual net cost into the form, and saves. Two configuration stores feed
it: a nested JSON tree of locators and field mappings, and an INI settings file
with typed lookups. A small Flask front end checks uploads, validates the
column mapping and builds the command line that starts a run.

The model has these modules:

- `Browser` (browser.dfy): the browser session as a scripted oracle. Every
  call is answered by a total function of the earlier history. Every call that
  reaches the page is appended to a trace, tagged with the automator step that
  made it. Without a driver, every action fails without reaching the page.
  Reading `current_url` is the one call whose failure escapes as an exception.
- `CrmWorkflow` (crm_workflow.dfy): each step of `CRMAutomator` as a function
  from the environment and the trace so far to an outcome and a new trace.
  An outcome is a returned boolean or a raised exception.
- `CrmAutomation` (crm_automator.dfy): the `CRMAutomator` class. Its methods
  drive a `BrowserController` object and are proved equal to those functions.
  `update_invoice` keeps its `while` loop and `update_multiple_invoices` its `for` loop.
- `CrmSteps`, `CrmProperties`: which steps each operation may take, and the
  workflow's rules:
  - the search key;
  - the row-locator templates;
  - the save gate;
  - the retry budget;
  - the batch results.
- `Spreadsheet` (spreadsheet.dfy): `ExcelProcessor` over a loaded sheet. It
  covers the column mapping, reading mapped rows, and `process_file`, which
  inverts the mapping, normalises the invoice number, converts cells to text
  and skips rows.
- `NestedConfig` (nested_config.dfy): `Config` over a JSON value tree. It
  covers the defaults, the recursive merge of the user's file, dotted-path
  `get` and `set`, and the field-mapping, column-mapping and CRM-address
  updates.
- `IniConfig` (ini_config.dfy): `ConfigManager`. It covers the default
  sections, `get`, `get_int`, `get_boolean` and `set`.
- `WebForms` (web_forms.dfy): the validators of `simple_main.py`. They are the
  file-extension check, the required-field check and default-mapping blanking
  in `map_columns`, and the command built by `prepare_automation`.
- `Text`, `Dicts`, `Wrappers`: the parts of Python's `str`, `int()` and `dict` the
  model uses:
  - `upper`/`lower`, `strip`, `replace`, `split`, `str(int)` and `int(str)`;
  - insertion-ordered dictionaries as association lists;
  - `Option`.

Where the written description of the system and the code disagree, the model
follows the code:

- A record with neither a supplier nor an actual net cost is still saved. The
  result of `update_invoice` is then the result of `save_changes`
  (`CrmProperties.EmptyRecordStillSaves`).
- The search strips an `SZ` prefix from the booking number. The edit step
  fills the row template with `"SZ"` followed by the number as passed, without
  stripping it. So `SZ1234` and `1234` are searched for alike but open
  different rows (`CrmProperties.EditRowDependsOnSpelling`).
- An empty invoice-number cell reaches `process_file` as NaN. Its text is then
  `"nan"`, which is not empty, so the row is kept
  (`Spreadsheet.InvoiceTextEmptyCell`).

## Model

| member | source | states |
|---|---|---|
| Browser.ByAttribute | excel_to_crm_automation/crm_automator.py:226 | `getattr(By, name)` is defined exactly for Selenium's eight strategy names; any other name raises |
| Browser.Perform | excel_to_crm_automation/browser_controller.py:86-104 | without a driver an action fails and leaves the trace alone; with one it appends exactly one event carrying the page's answer |
| Browser.ReadCurrentUrl | excel_to_crm_automation/crm_automator.py:471 | with no driver, reading the address raises; otherwise it appends one read of the page |
| Browser.BrowserController.NavigateTo | excel_to_crm_automation/browser_controller.py:86-104 | the session's trace and result are those of `Perform` for a navigation |
| Browser.BrowserController.InputText | excel_to_crm_automation/browser_controller.py:196-223 | the same for typing: the text is typed after clearing the field |
| Browser.BrowserController.ClickElement | excel_to_crm_automation/browser_controller.py:158-194 | the same for a click |
| Browser.BrowserController.WaitForElement | excel_to_crm_automation/browser_controller.py:106-133 | the same for waiting for an element: found or not |
| Browser.BrowserController.CurrentUrl | excel_to_crm_automation/crm_automator.py:471 | the same as `ReadCurrentUrl` |
| CrmWorkflow.NavigateToCrm | excel_to_crm_automation/crm_automator.py:179-190 | with no CRM address the result is false and nothing is done; otherwise exactly one navigation to the address |
| CrmWorkflow.SearchKey | excel_to_crm_automation/crm_automator.py:215-217 | no contract of its own; stated by `CrmProperties.SearchKeyCutsPrefix`, `CrmProperties.SearchKeyKeepsOthers` and `CrmProperties.SearchKeyExamples` |
| CrmWorkflow.RowLocator | excel_to_crm_automation/crm_automator.py:257 | no contract of its own; stated by `CrmProperties.RowLocatorFills` and `CrmProperties.RowLocatorsDiffer` |
| CrmWorkflow.Login | excel_to_crm_automation/crm_automator.py:44-127 | login never raises; no address or no driver gives false with no page action |
| CrmWorkflow.SubmitLogin | excel_to_crm_automation/crm_automator.py:83-123 | typing the credentials, clicking and checking the address never raises, and does nothing without a driver |
| CrmWorkflow.NavigateToCrmModule | excel_to_crm_automation/crm_automator.py:129-177 | a missing `crm_module` locator or no driver gives false with no action; success means the first action was a successful click on the module |
| CrmWorkflow.SearchInvoice | excel_to_crm_automation/crm_automator.py:192-273 | a missing search field or search button locator gives false before any action; a search field of a type `By` lacks raises before any action, and only an unknown type of the field, the button or the row raises; success means the stripped search key was typed first, then search was clicked |
| CrmWorkflow.OpenInvoiceForEditing | excel_to_crm_automation/crm_automator.py:275-351 | a missing row or Add Actual Net locator gives false before any action; a row of a type `By` lacks raises before any action, and only an unknown type of the row or the button raises; success means exactly two actions, the first a click on the row template filled with the identifier |
| CrmWorkflow.UpdateField | excel_to_crm_automation/crm_automator.py:353-400 | a key missing from the field mappings, or an empty locator value, gives false with no action; it raises, with no action, exactly when the mapped type is not one of `By`; success means exactly one action that typed the value into the mapped locator |
| CrmWorkflow.SaveChanges | excel_to_crm_automation/crm_automator.py:402-447 | a missing save-button locator gives false with no action; it raises, with no action, exactly when the button's type is not one of `By`; success means exactly one successful action |
| CrmWorkflow.Recover | excel_to_crm_automation/crm_automator.py:474-481 | no contract of its own; stated by `CrmSteps.RecoverWithin` |
| CrmWorkflow.EditInvoice | excel_to_crm_automation/crm_automator.py:484-531 | no contract of its own; stated by `CrmSteps.EditInvoiceWithin` and the save-gate lemmas of `CrmProperties` (`SaveAfterEverySuccess`, `SaveOnlyAfterEverySuccess`, `FieldFailureSkipsSave`, `SearchFailureChangesNothing`, `OpenFailureChangesNothing`, `EmptyRecordStillSaves`) |
| CrmWorkflow.Reorient | excel_to_crm_automation/crm_automator.py:471-481 | no contract of its own; stated by `CrmSteps.ReorientWithin` |
| CrmWorkflow.Attempt | excel_to_crm_automation/crm_automator.py:470-531 | no contract of its own; stated by `CrmSteps.AttemptWithin`, `CrmProperties.AttemptChecksPageOnce` and `CrmProperties.ReturnedAttemptIsLast` |
| CrmWorkflow.Relogin | excel_to_crm_automation/crm_automator.py:541-545 | without both credentials nothing is done before the retry |
| CrmWorkflow.UpdateFields | excel_to_crm_automation/crm_automator.py:502-518 | with both values empty no field is touched and the result is true; what a result means is stated by `CrmProperties.FieldsResultExactly` |
| CrmWorkflow.UpdateLoop | excel_to_crm_automation/crm_automator.py:467-550 | the retry loop always returns, never raises |
| CrmWorkflow.UpdateInvoice | excel_to_crm_automation/crm_automator.py:449-550 | no driver, or a budget of zero or less, gives false with no action; the result is always returned |
| CrmWorkflow.ProcessRecords | excel_to_crm_automation/crm_automator.py:577-594 | the results have exactly one key per invoice number present in the records |
| CrmWorkflow.UpdateMultipleInvoices | excel_to_crm_automation/crm_automator.py:552-596 | an error result needs both credentials and is one of the two error texts; otherwise the keys are exactly the records' invoice numbers |
| CrmAutomation.CrmAutomator.NavigateToCrm | excel_to_crm_automation/crm_automator.py:179-190 | the method's result and the session's new trace are those of `CrmWorkflow.NavigateToCrm` |
| CrmAutomation.CrmAutomator.LoginToCrm | excel_to_crm_automation/crm_automator.py:44-127 | result and trace are those of `CrmWorkflow.Login` |
| CrmAutomation.CrmAutomator.SubmitLogin | excel_to_crm_automation/crm_automator.py:83-123 | result and trace are those of `CrmWorkflow.SubmitLogin` |
| CrmAutomation.CrmAutomator.NavigateToCrmModule | excel_to_crm_automation/crm_automator.py:129-177 | result and trace are those of `CrmWorkflow.NavigateToCrmModule` |
| CrmAutomation.CrmAutomator.SearchInvoice | excel_to_crm_automation/crm_automator.py:192-273 | outcome and trace are those of `CrmWorkflow.SearchInvoice` |
| CrmAutomation.CrmAutomator.OpenInvoiceForEditing | excel_to_crm_automation/crm_automator.py:275-351 | outcome and trace are those of `CrmWorkflow.OpenInvoiceForEditing` |
| CrmAutomation.CrmAutomator.UpdateField | excel_to_crm_automation/crm_automator.py:353-400 | outcome and trace are those of `CrmWorkflow.UpdateField` |
| CrmAutomation.CrmAutomator.SaveChanges | excel_to_crm_automation/crm_automator.py:402-447 | outcome and trace are those of `CrmWorkflow.SaveChanges` |
| CrmAutomation.CrmAutomator.Recover | excel_to_crm_automation/crm_automator.py:474-481 | the trace is that of `CrmWorkflow.Recover` |
| CrmAutomation.CrmAutomator.UpdateFields | excel_to_crm_automation/crm_automator.py:502-518 | outcome and trace are those of `CrmWorkflow.UpdateFields` |
| CrmAutomation.CrmAutomator.EditInvoice | excel_to_crm_automation/crm_automator.py:484-531 | outcome and trace are those of `CrmWorkflow.EditInvoice` |
| CrmAutomation.CrmAutomator.AttemptUpdate | excel_to_crm_automation/crm_automator.py:470-531 | outcome and trace are those of one `CrmWorkflow.Attempt` |
| CrmAutomation.CrmAutomator.UpdateInvoice | excel_to_crm_automation/crm_automator.py:449-550 | the `while` loop's result and trace are those of `CrmWorkflow.UpdateInvoice` |
| CrmAutomation.CrmAutomator.UpdateMultipleInvoices | excel_to_crm_automation/crm_automator.py:552-596 | the `for` loop's results and trace are those of `CrmWorkflow.UpdateMultipleInvoices` |
| CrmSteps.LoginWithin | excel_to_crm_automation/crm_automator.py:44-127 | logging in only takes login steps, only appending to the trace |
| CrmSteps.NavigateToCrmWithin | excel_to_crm_automation/crm_automator.py:179-190 | opening the CRM home only takes the home step |
| CrmSteps.NavigateToCrmModuleWithin | excel_to_crm_automation/crm_automator.py:129-177 | opening the CRM module only takes the module and booking-list steps |
| CrmSteps.SearchInvoiceWithin | excel_to_crm_automation/crm_automator.py:192-273 | a search only takes search steps |
| CrmSteps.OpenInvoiceForEditingWithin | excel_to_crm_automation/crm_automator.py:275-351 | opening a booking only clicks its row and Add Actual Net |
| CrmSteps.UpdateFieldWithin | excel_to_crm_automation/crm_automator.py:353-400 | a field update only acts on that field |
| CrmSteps.SaveChangesWithin | excel_to_crm_automation/crm_automator.py:402-447 | saving only clicks the save button |
| CrmSteps.RecoverWithin | excel_to_crm_automation/crm_automator.py:474-481 | finding the booking list again only takes login, module and home steps |
| CrmSteps.ReloginWithin | excel_to_crm_automation/crm_automator.py:541-545 | logging in again after an exception only takes login, module and home steps |
| CrmSteps.ReorientWithin | excel_to_crm_automation/crm_automator.py:471-481 | returning to the booking list before an attempt only takes login, module and home steps |
| CrmSteps.UpdateFieldsWithin | excel_to_crm_automation/crm_automator.py:502-518 | the field updates only act on the supplier and actual net cost fields |
| CrmSteps.EditInvoiceWithin | excel_to_crm_automation/crm_automator.py:484-531 | an edit only takes search, open, field and save steps, and never reads the page address |
| CrmSteps.AttemptWithin | excel_to_crm_automation/crm_automator.py:470-531 | one attempt only takes the attempt's steps |
| CrmProperties.SearchKeyCutsPrefix | excel_to_crm_automation/crm_automator.py:215-217 | for every text: two leading characters that upper-case to `SZ` are cut and the rest is stripped |
| CrmProperties.SearchKeyKeepsOthers | excel_to_crm_automation/crm_automator.py:215-217 | for every text: it is searched as given if and only if it does not start with the prefix, and a prefixed one gets at least two characters shorter |
| CrmProperties.SearchKeyExamples | excel_to_crm_automation/crm_automator.py:215-217 | `SZ1234` and `sz 1234 ` are both searched as `1234`; `1234` and ` SZ1234` are searched as given |
| CrmProperties.RowLocatorFills | excel_to_crm_automation/crm_automator.py:257 | a template whose placeholder occurs only once is filled with the identifier there, the text around it unchanged |
| CrmProperties.RowLocatorsDiffer | excel_to_crm_automation/crm_automator.py:309 | different identifiers give different row locators |
| CrmProperties.EditRowDependsOnSpelling | excel_to_crm_automation/crm_automator.py:493-497 | `SZ1234` and `1234` give one search key but two edit-row locators |
| CrmProperties.RowCheckUsesSearchKey | excel_to_crm_automation/crm_automator.py:253-270 | a successful search's last action waits for the row template filled with the stripped search key |
| CrmProperties.FieldsTypedInOrder | excel_to_crm_automation/crm_automator.py:502-518 | with both values given, the supplier is typed before the actual net cost, each with its own value |
| CrmProperties.FieldsResultExactly | excel_to_crm_automation/crm_automator.py:502-518 | the fields' result is true if and only if every update that was attempted returned true, and raises if and only if one of them raised |
| CrmProperties.EmptyValueNotTyped | excel_to_crm_automation/crm_automator.py:503-516 | a field whose value is empty is never typed into |
| CrmProperties.CostTypedAfterFailedSupplier | excel_to_crm_automation/crm_automator.py:504-518 | after a supplier update that returns false, the cost is still typed, exactly once and as the last action, and the fields' result is false |
| CrmProperties.SearchFailureChangesNothing | excel_to_crm_automation/crm_automator.py:484-487 | after a failed search no field is typed and nothing is saved |
| CrmProperties.OpenFailureChangesNothing | excel_to_crm_automation/crm_automator.py:493-499 | after a failed opening no field is typed and nothing is saved |
| CrmProperties.FieldFailureSkipsSave | excel_to_crm_automation/crm_automator.py:520-531 | failed field updates end the edit without clicking save |
| CrmProperties.SaveOnlyAfterEverySuccess | excel_to_crm_automation/crm_automator.py:484-531 | a save click implies the search, the opening and the field updates all succeeded |
| CrmProperties.SaveAfterEverySuccess | excel_to_crm_automation/crm_automator.py:484-531 | when the search, the opening and the field updates all succeeded, save is clicked exactly once, as the last action, and the edit's result is that click's |
| CrmProperties.EmptyRecordStillSaves | excel_to_crm_automation/crm_automator.py:502-528 | with neither value, the edit's result is that of saving the opened booking |
| CrmProperties.AttemptChecksPageOnce | excel_to_crm_automation/crm_automator.py:470-471 | every attempt reads the page address exactly once when there is a driver |
| CrmProperties.ReturnedAttemptIsLast | excel_to_crm_automation/crm_automator.py:467-533 | an attempt that returns ends the loop with its result after exactly one more page check: only an exception uses up a retry |
| CrmProperties.FailedEditNotRetried | excel_to_crm_automation/crm_automator.py:467-531 | an edit that returns false ends `update_invoice` with false after a single page check |
| CrmProperties.RetryReopensAndLogsIn | excel_to_crm_automation/crm_automator.py:533-545 | after an exception with retries left and both credentials, the loop goes on from a trace that next opens the CRM home and then the login page, with no page check before the next attempt |
| CrmProperties.LoginOpensLoginPage | excel_to_crm_automation/crm_automator.py:65-68 | with a driver and an address, logging in first navigates to the login page |
| CrmProperties.LoopAttemptsBounded | excel_to_crm_automation/crm_automator.py:467-550 | the loop from attempt `retryCount` on makes at most `maxRetries - retryCount` attempts |
| CrmProperties.AttemptsWithinBudget | excel_to_crm_automation/crm_automator.py:449-550 | `update_invoice` makes at most `max_retries` attempts, none when it is zero or less |
| CrmProperties.RaisingAttemptsExhaustLoop | excel_to_crm_automation/crm_automator.py:533-550 | when every attempt raises, the loop makes exactly its remaining attempts and gives false |
| CrmProperties.RaisingPageExhaustsBudget | excel_to_crm_automation/crm_automator.py:467-550 | when every read raises, exactly `max_retries` attempts are made and the result is false |
| CrmProperties.UnknownSearchTypeExhaustsBudget | excel_to_crm_automation/crm_automator.py:467-550 | a search field whose type `By` lacks makes every attempt raise, so exactly `max_retries` attempts are made and the result is false |
| CrmProperties.RecordWithoutNumberSkipped | excel_to_crm_automation/crm_automator.py:578-581 | a record without an invoice number adds no result and no browser action |
| CrmProperties.LastRecordWins | excel_to_crm_automation/crm_automator.py:577-594 | the result kept for a number is that of its last record, updated with that record's data minus `invoice_number` |
| CrmProperties.OfflineRecordsFail | excel_to_crm_automation/crm_automator.py:463-465 | without a driver every record is reported failed and nothing reaches the page |
| CrmProperties.BatchLoginError | excel_to_crm_automation/crm_automator.py:566-569 | with credentials, a failed login gives the login error |
| CrmProperties.BatchNavigationError | excel_to_crm_automation/crm_automator.py:571-574 | after a successful login, a failed module navigation gives the navigation error |
| CrmProperties.BatchWithoutLogin | excel_to_crm_automation/crm_automator.py:566-594 | without both credentials the batch result is a success map, and a number's entry is its last record's update from the page left by the earlier records |
| Spreadsheet.MapRowKeys | excel_to_crm_automation/excel_processor.py:101-103 | a mapped row's keys are exactly the CRM fields of the mapping |
| Spreadsheet.MapRowGet | excel_to_crm_automation/excel_processor.py:101-103 | each field holds the cell of the last column mapped to it |
| Spreadsheet.MapRowUnique | excel_to_crm_automation/excel_processor.py:101-103 | a mapped row never repeats a key |
| Spreadsheet.MapRow | excel_to_crm_automation/excel_processor.py:101-103 | no contract of its own; stated by `Spreadsheet.MapRowKeys`, `Spreadsheet.MapRowGet` and `Spreadsheet.MapRowUnique` |
| Spreadsheet.Invert | excel_to_crm_automation/excel_processor.py:156-163 | the inverted mapping's keys are exactly the sheet columns some entry names by a string |
| Spreadsheet.InvertLaterWins | excel_to_crm_automation/excel_processor.py:156-163 | a column named by several CRM fields maps to the last of them |
| Spreadsheet.Converted | excel_to_crm_automation/excel_processor.py:195-202 | conversion keeps the length, the keys, their order and their uniqueness, and replaces every value by its text |
| Spreadsheet.MappedRows | excel_to_crm_automation/excel_processor.py:114-121 | one mapped row per sheet row |
| Spreadsheet.Processed | excel_to_crm_automation/excel_processor.py:146-170 | no mapping, an empty mapping, or no usable column gives no records |
| Spreadsheet.NoUsableColumn | excel_to_crm_automation/excel_processor.py:159-170 | a mapping naming no sheet column by a string gives no records |
| Spreadsheet.InvoiceTextCutsPrefix | excel_to_crm_automation/excel_processor.py:186-192 | for every text: one `SZ` prefix, in any case, is cut and the rest stripped |
| Spreadsheet.InvoiceTextStrips | excel_to_crm_automation/excel_processor.py:186-192 | for every text: without the prefix it is only stripped; the result is never longer and has no surrounding whitespace |
| Spreadsheet.InvoiceTextInteger | excel_to_crm_automation/excel_processor.py:188-192 | for every integer: its decimal text, which `int()` reads back as the same integer |
| Spreadsheet.InvoiceTextNegative | excel_to_crm_automation/excel_processor.py:188-192 | for every integer: the text is non-empty and starts with `-` if and only if the integer is negative |
| Spreadsheet.InvoiceText | excel_to_crm_automation/excel_processor.py:185-192 | no contract of its own; stated by the `Spreadsheet.InvoiceText` lemmas |
| Spreadsheet.InvoiceTextExamples | excel_to_crm_automation/excel_processor.py:186-192 | `SZ1234` and `sz 1234 ` both give `1234` |
| Spreadsheet.PaddedNumberKept | excel_to_crm_automation/excel_processor.py:186-192 | ` 1234 ` gives `1234` |
| Spreadsheet.InvoiceIntegerExamples | excel_to_crm_automation/excel_processor.py:188-192 | the integers 1234 and -7 give `1234` and `-7` |
| Spreadsheet.InvoiceTextEmptyCell | excel_to_crm_automation/excel_processor.py:185-207 | an empty cell's NaN becomes `nan` and the row is kept |
| Spreadsheet.InvoiceTextSkips | excel_to_crm_automation/excel_processor.py:180-190 | an empty row, or an invoice number that is no `str`, `int` or `float`, gives no record, and wherever such a row stands the records are those of the other rows |
| Spreadsheet.NormalizeRowHasNumber | excel_to_crm_automation/excel_processor.py:205-207 | every kept record has a non-empty invoice number |
| Spreadsheet.NormalizeRowValues | excel_to_crm_automation/excel_processor.py:185-202 | a kept record holds the normalised number and every other field's text |
| Spreadsheet.ConvertedGet | excel_to_crm_automation/excel_processor.py:195-202 | after conversion a key holds the text of its cell |
| Spreadsheet.CellText | excel_to_crm_automation/excel_processor.py:195-202 | no contract of its own; stated by `Spreadsheet.ConvertedGet` and `Spreadsheet.NormalizeRowValues` |
| Spreadsheet.NormalizeRow | excel_to_crm_automation/excel_processor.py:180-210 | no contract of its own; stated by `Spreadsheet.NormalizeRowHasNumber` and `Spreadsheet.NormalizeRowValues` |
| Spreadsheet.NormalizeAllLength | excel_to_crm_automation/excel_processor.py:177-216 | one record per kept row, never more records than rows |
| Spreadsheet.KeptIncreasing | excel_to_crm_automation/excel_processor.py:177-216 | kept rows are listed in input order |
| Spreadsheet.NormalizeAllKept | excel_to_crm_automation/excel_processor.py:177-216 | record `k` is the normalised row `Kept(rows)[k]` |
| Spreadsheet.KeptExactly | excel_to_crm_automation/excel_processor.py:206-214 | a row is kept if and only if it normalises to a record, and every such record is in the output |
| Spreadsheet.NormalizeAll | excel_to_crm_automation/excel_processor.py:177-216 | no contract of its own; stated by `Spreadsheet.NormalizeAllLength`, `Spreadsheet.NormalizeAllKept`, `Spreadsheet.KeptExactly` and `Spreadsheet.InvoiceTextSkips` |
| Spreadsheet.ExcelProcessor.RowCount | excel_to_crm_automation/excel_processor.py:123-133 | no contract of its own; `Spreadsheet.ExcelProcessor.GetAllRows` states that it counts the rows read |
| Spreadsheet.ExcelProcessor.SetColumnMapping | excel_to_crm_automation/excel_processor.py:70-83 | the mapping is taken if and only if a sheet is loaded and every key is one of its columns; otherwise it stays |
| Spreadsheet.ExcelProcessor.GetRowData | excel_to_crm_automation/excel_processor.py:95-105 | `{}` outside the sheet, else the row mapped through the current mapping |
| Spreadsheet.ExcelProcessor.GetAllRows | excel_to_crm_automation/excel_processor.py:114-121 | one mapped row per sheet row, in order, as many as `RowCount` |
| Spreadsheet.ExcelProcessor.ConvertCells | excel_to_crm_automation/excel_processor.py:195-202 | the loop gives `Converted(row)` |
| Spreadsheet.ExcelProcessor.InvertColumns | excel_to_crm_automation/excel_processor.py:156-163 | the loop gives `Invert(mapping, columns)` |
| Spreadsheet.ExcelProcessor.NormalizeOne | excel_to_crm_automation/excel_processor.py:180-210 | one row's record or skip, as `NormalizeRow` |
| Spreadsheet.ExcelProcessor.NormalizeRows | excel_to_crm_automation/excel_processor.py:177-216 | the loop gives `NormalizeAll(rows)` |
| Spreadsheet.ExcelProcessor.ProcessFile | excel_to_crm_automation/excel_processor.py:146-216 | no sheet gives `[]`; otherwise `Processed`, with the inverted mapping taken, so by `Spreadsheet.KeptExactly` every row with a usable number gives a record |
| Spreadsheet.ExcelProcessor.constructor | excel_to_crm_automation/excel_processor.py:12-24 | the processor holds what reading the file gave, with an empty column mapping |
| NestedConfig.Merge | excel_to_crm_automation/config.py:148-160 | the keys are the union; target-only keys are unchanged; a source value replaces the target's unless both are objects, and then the value is the merge of the two objects |
| NestedConfig.MergeKeepsTargetLeaf | excel_to_crm_automation/config.py:148-160 | a target value at any depth survives when the source sets nothing at its path or above it |
| NestedConfig.DeepMergeExample | excel_to_crm_automation/config.py:157-158 | merging `{a: {x: 3}}` into `{a: {x: 1, y: 2}}` gives `{a: {x: 3, y: 2}}`, not a shallow replacement |
| NestedConfig.MergedAt | excel_to_crm_automation/config.py:157-160 | no contract of its own; stated through the contract of `NestedConfig.Merge` (the both-objects case included) and by `NestedConfig.MergeKeepsSourceLeaf` and `NestedConfig.MergeKeepsTargetLeaf` |
| NestedConfig.MergeSelf | excel_to_crm_automation/config.py:148-160 | merging an object into itself changes nothing |
| NestedConfig.MergeIdempotent | excel_to_crm_automation/config.py:148-160 | merging the same source twice equals merging it once |
| NestedConfig.MergeKeepsSourceLeaf | excel_to_crm_automation/config.py:156-160 | every non-object value of the source is found at the same path in the result |
| NestedConfig.GetPath | excel_to_crm_automation/config.py:175-181 | no contract of its own; stated by `NestedConfig.ReachesGet`, `NestedConfig.MissingSectionIsEmpty` and `NestedConfig.SetThenGet` |
| NestedConfig.Section | excel_to_crm_automation/config.py:172-183 | an empty section name gives the whole tree; the rest is stated by `NestedConfig.SectionAfterSet` and `NestedConfig.CrmUrlAfterSet` |
| NestedConfig.ReachesGet | excel_to_crm_automation/config.py:172-183 | a path through existing objects finds what is there |
| NestedConfig.MissingSectionIsEmpty | excel_to_crm_automation/config.py:175-180 | a missing key along the path gives `{}` |
| NestedConfig.SetPath | excel_to_crm_automation/config.py:196-207 | a successful assignment adds at most the first path part to the top level |
| NestedConfig.SetThenGet | excel_to_crm_automation/config.py:196-207 | after `set`, the path leads to the value assigned |
| NestedConfig.SetKeepsOthers | excel_to_crm_automation/config.py:196-207 | every path that leaves the assigned one reads as before |
| NestedConfig.SetCreatesIntermediates | excel_to_crm_automation/config.py:201-207 | under a top-level key the tree lacks, every intermediate object is created, so the assignment succeeds |
| NestedConfig.SetPathSucceeds | excel_to_crm_automation/config.py:196-207 | an assignment succeeds if and only if every value already present along the path, short of its last part, is an object |
| NestedConfig.SetBelowExisting | excel_to_crm_automation/config.py:201-207 | below an existing object that lacks the next part of the path, the rest is created and the assignment succeeds |
| NestedConfig.DefaultConfig | excel_to_crm_automation/config.py:17-94 | no contract of its own; stated by `NestedConfig.DefaultUrl` and `NestedConfig.ColumnMappingOnDefaults` |
| NestedConfig.Loaded | excel_to_crm_automation/config.py:104-130 | no contract of its own; stated by `NestedConfig.DefaultUrl` and `NestedConfig.UserUrl`, and a default the file does not reach survives by `NestedConfig.MergeKeepsTargetLeaf` |
| NestedConfig.DefaultUrl | excel_to_crm_automation/config.py:104-130 | without a usable file the CRM address is the default one |
| NestedConfig.UserUrl | excel_to_crm_automation/config.py:115-130 | a CRM address in the user's file replaces the default one |
| NestedConfig.FieldMappingUpdate | excel_to_crm_automation/config.py:226-234 | no contract of its own; stated by `NestedConfig.FieldMappingBindsOnlyField` and `NestedConfig.FieldMappingCreated` |
| NestedConfig.ColumnMappingUpdate | excel_to_crm_automation/config.py:246-251 | no contract of its own; stated by `NestedConfig.ColumnMappingReplaces` and `NestedConfig.ColumnMappingOnDefaults` |
| NestedConfig.FieldMappingBindsOnlyField | excel_to_crm_automation/config.py:226-234 | a field-mapping update binds that field and leaves other fields and sections alone |
| NestedConfig.FieldMappingCreated | excel_to_crm_automation/config.py:227-230 | with no field mappings yet the update creates them |
| NestedConfig.ColumnMappingReplaces | excel_to_crm_automation/config.py:246-251 | a column-mapping update replaces the whole mapping and nothing else |
| NestedConfig.ColumnMappingOnDefaults | excel_to_crm_automation/config.py:246-251 | on the default tree the column-mapping update always applies |
| NestedConfig.Config.constructor | excel_to_crm_automation/config.py:97-130 | the tree is the defaults, merged with the user's file when it holds an object (`Loaded`) |
| NestedConfig.Config.UpdateRecursive | excel_to_crm_automation/config.py:148-160 | the in-place loop over the source's keys gives `Merge` |
| NestedConfig.Config.Get | excel_to_crm_automation/config.py:172-183 | the loop along the dotted path gives `Section` |
| NestedConfig.Config.Set | excel_to_crm_automation/config.py:196-213 | on success the tree is updated and the result is whether saving worked; on failure the tree stays |
| NestedConfig.Config.UpdateFieldMapping | excel_to_crm_automation/config.py:226-234 | the same for a field-mapping update |
| NestedConfig.Config.UpdateColumnMapping | excel_to_crm_automation/config.py:246-251 | the same for a column-mapping update |
| NestedConfig.Config.SetCrmUrl | excel_to_crm_automation/config.py:263 | exactly `set('crm.url', url)` |
| NestedConfig.SectionAfterSet | excel_to_crm_automation/config.py:172-207 | after `set`, `get` of the same section gives the value assigned |
| NestedConfig.CrmUrlAfterSet | excel_to_crm_automation/config.py:253-263 | after `set_crm_url` the address reads back and every other section is unchanged |
| IniConfig.Get | excel_to_crm_automation/config_manager.py:125-131 | no contract of its own; stated by `IniConfig.GetAfterPut` and `IniConfig.PutKeepsOthers` |
| IniConfig.GetInt | excel_to_crm_automation/config_manager.py:145-152 | no contract of its own; stated by `IniConfig.GetIntAbsent`, `IniConfig.GetIntAfterPut` and `IniConfig.GetIntUnparsable` |
| IniConfig.GetIntAbsent | excel_to_crm_automation/config_manager.py:146-149 | a missing section or key reads as the default integer |
| IniConfig.GetBoolean | excel_to_crm_automation/config_manager.py:187-194 | no contract of its own; stated by `IniConfig.GetBooleanAbsent`, `IniConfig.GetBooleanAfterPut`, `IniConfig.GetBooleanPresentIsNotDefault` and `IniConfig.TrueWordsExamples` |
| IniConfig.GetBooleanAbsent | excel_to_crm_automation/config_manager.py:188-191 | a missing section or key reads as the default truth value |
| IniConfig.DefaultSections | excel_to_crm_automation/config_manager.py:47-103 | no contract of its own; stated by `IniConfig.DefaultIntervals` and the contract of `IniConfig.ConfigManager.constructor` |
| IniConfig.Put | excel_to_crm_automation/config_manager.py:210-214 | `set` creates the section when missing |
| IniConfig.GetAfterPut | excel_to_crm_automation/config_manager.py:125-131 | a value that was set reads back, whatever the default |
| IniConfig.PutKeepsOthers | excel_to_crm_automation/config_manager.py:210-214 | setting one key leaves every other key of every section alone |
| IniConfig.GetIntAfterPut | excel_to_crm_automation/config_manager.py:145-152 | an integer stored as text reads back as that integer |
| IniConfig.GetIntUnparsable | excel_to_crm_automation/config_manager.py:145-152 | a value that was set but is no integer reads back as the default |
| IniConfig.ParseIntRejects | excel_to_crm_automation/config_manager.py:148-152 | a word and the empty text are no integers |
| IniConfig.GetBooleanAfterPut | excel_to_crm_automation/config_manager.py:187-194 | a stored value is true if and only if it is one of the true words, in any case |
| IniConfig.GetBooleanPresentIsNotDefault | excel_to_crm_automation/config_manager.py:187-194 | once a value is set the default no longer matters, and a value outside the true words reads as false even with a true default |
| IniConfig.TrueWordsExamples | excel_to_crm_automation/config_manager.py:190 | `Yes`, `ON` and `TRUE` are true; `false`, `enabled` and the empty text are not |
| IniConfig.DefaultIntervals | excel_to_crm_automation/config_manager.py:47-52 | after the defaults are written the two intervals read as 30 and 60 |
| IniConfig.ConfigManager.constructor | excel_to_crm_automation/config_manager.py:12-39 | a missing file gives exactly the defaults; a file that cannot be opened gives no sections; a file read in full gives its sections; a parse error gives the sections read before it with the defaults written over them |
| IniConfig.ConfigManager.CreateDefaults | excel_to_crm_automation/config_manager.py:41-111 | the five default sections replace any of the same name and the rest stay |
| IniConfig.ConfigManager.Set | excel_to_crm_automation/config_manager.py:196-223 | the value is stored in memory even when writing fails; the result says whether the file was written |
| WebForms.AllowedFile | excel_to_crm_automation/simple_main.py:39-41 | no contract of its own; stated by `WebForms.AllowedFileExtension`, `WebForms.AllowedExamples` and `WebForms.NotAllowedExamples` |
| WebForms.AllowedFileExtension | excel_to_crm_automation/simple_main.py:31-41 | a name is allowed if and only if its text after the last dot, lower-cased, is `xlsx` or `xls` |
| WebForms.AllowedExamples | excel_to_crm_automation/simple_main.py:39-41 | `a.XLSX` and `report.xls` are allowed |
| WebForms.NotAllowedExamples | excel_to_crm_automation/simple_main.py:39-41 | `a.xlsx.txt` and the bare `xlsx` are not allowed |
| WebForms.MissingExactly | excel_to_crm_automation/simple_main.py:161-170 | a field is missing if and only if it is required and not accepted |
| WebForms.MappedExactly | excel_to_crm_automation/simple_main.py:161-170 | a field is mapped if and only if it is required and accepted |
| WebForms.MappedColumn | excel_to_crm_automation/simple_main.py:165-169 | a mapped field is bound to the column the form chose |
| WebForms.Mapped | excel_to_crm_automation/simple_main.py:165-170 | no contract of its own; stated by `WebForms.MappedExactly` and `WebForms.MappedColumn` |
| WebForms.Missing | excel_to_crm_automation/simple_main.py:165-170 | no contract of its own; stated by `WebForms.MissingExactly` |
| WebForms.AcceptedIffAllMapped | excel_to_crm_automation/simple_main.py:172-177 | the mapping is accepted if and only if every required field is accepted |
| WebForms.MapColumns | excel_to_crm_automation/simple_main.py:161-177 | the loop gives the mapping, the missing fields in order, and whether none is missing |
| WebForms.BlankedExactly | excel_to_crm_automation/simple_main.py:207-210 | blanking keeps every field in order, changes exactly the columns the sheet lacks, and sets each of them to `""` |
| WebForms.BlankedIdempotent | excel_to_crm_automation/simple_main.py:207-210 | after blanking every column is a sheet column or empty; blanking again changes nothing |
| WebForms.Blanked | excel_to_crm_automation/simple_main.py:207-210 | no contract of its own; stated by `WebForms.BlankedExactly` and `WebForms.BlankedIdempotent` |
| WebForms.DefaultMapping | excel_to_crm_automation/simple_main.py:196-210 | the configured mapping, or the built-in one when it is empty, blanked against the sheet |
| WebForms.BuiltInMappingKept | excel_to_crm_automation/simple_main.py:200-210 | a sheet with the built-in column names keeps the built-in mapping whole |
| WebForms.BuildCommand | excel_to_crm_automation/simple_main.py:242-250 | the successive appends build `Command` |
| WebForms.CommandAlwaysHas | excel_to_crm_automation/simple_main.py:242-247 | the command begins with the script and the quoted path and always passes the delay |
| WebForms.CommandFlags | excel_to_crm_automation/simple_main.py:244-250 | `--headless` follows the path when set; a non-empty mapping is passed |
| WebForms.CommandDeterminesFlags | excel_to_crm_automation/simple_main.py:242-250 | for one path and delay, equal commands have the same headless flag and both pass a mapping or neither does |
| WebForms.FlagTextInPath | excel_to_crm_automation/simple_main.py:242-247 | a path that itself contains ` --headless` puts the flag text into a command that is not headless |
| WebForms.Command | excel_to_crm_automation/simple_main.py:242-250 | no contract of its own; stated by `WebForms.CommandAlwaysHas`, `WebForms.CommandFlags` and `WebForms.CommandDeterminesFlags` |
| Text.ParseIntToString | excel_to_crm_automation/config_manager.py:148 | `int(str(i)) == i` |
| Text.IntToStringNoSpace | excel_to_crm_automation/excel_processor.py:188-192 | the decimal text of an integer has no whitespace, so stripping leaves it alone |
| Text.SplitJoin | excel_to_crm_automation/config.py:173 | splitting a section name on dots and joining again gives it back |
| Text.ReplaceOnce | excel_to_crm_automation/crm_automator.py:257 | a pattern met exactly once, with no earlier match starting before it, is replaced there and only there |

## Left out

- The Selenium internals of `browser_controller.py`: the model replaces them with a scripted oracle. That covers starting the browser, `webdriver-manager`, the JavaScript click fallback, and closing the browser.
- `close`, `start` and `__init__` of `CRMAutomator`: the automator is built over a session that is already started or failed to start (`live`).
- All `time.sleep` calls, screenshots, logging and the `time.time()` timestamps stored with each batch result: they do not affect control flow.
- Which exception Selenium raises: an exception is one outcome, `Raised`. It comes from an unknown locator type or from reading the page address.
- IniConfig.ConfigManager.Set: the value is taken as the text `str(value)` gives; the conversion itself is not modelled.
- Username and password `None`: modelled as the empty text, which is falsy in the same way.
- Reading and writing the JSON and INI files: their outcome is a parameter (`file`, `saved`, `written`).
- `load_excel_file` and `pd.read_excel`: the sheet is a parameter.
- `pd.isna` and float formatting: pandas floats enter the model as the text `str()` gives them (`Float(text)`), and NaN as its own cell.
- Integer cells: `Int` stands for a Python `int` only. A row read through `iloc` holds numpy integer scalars for an integer column, and those are no `int` instances. They fall under `Other`, so an integer invoice number of that kind makes `process_file` skip the row, as the `isinstance` test of excel_processor.py:188 does.
- `get_column_names`: it is the sheet's column list (`ExcelProcessor.ColumnNames`) and states nothing more.
- `get_float`: floating point.
- configparser's key case-folding and its `DEFAULT` section: keys are taken as written.
- IniConfig.ConfigManager.Set: configparser's interpolation is not modelled. A value with a `%` that is neither `%%` nor part of `%(name)s` makes the source raise before the value is stored, after a missing section was created. `set` then returns False and the key is not stored, while the model stores every value.
- IniConfig.Get: a stored value is returned as written. In the source, a `%(name)s` reference is replaced by the referenced key's value, and a value with a stray `%` makes `get` raise and return the default.
- NestedConfig.Config.Set: modelled on values through `SetPath`, not by walking references. `DEFAULT_CONFIG.copy()` is shallow, so the source's in-place merges and sets also change nested objects of the module-level default. The model does not capture that aliasing.
- Case mapping: `upper` and `lower` map ASCII letters only. Python also maps some other letters to ASCII ones: U+017F (long s) upper-cases to `S`, U+0131 (dotless i) to `I`, and U+212A (Kelvin sign) lower-cases to `k`. The model can therefore differ from the source where such a letter occurs in these places: a file name's extension, a true word, the `SZ` prefix, a locator's `type`, and the page address. `login_to_crm` looks for `login` in the lower-cased address, and `update_invoice` looks for `booking-list`.
- `int()`: the model accepts ASCII digits only, not other Unicode decimal digits.
- The Flask application: routing, uploads, sessions, `send_from_directory`, saving the mapping, the package download, and parsing the delay with `float`.
- WebForms.CommandFlags: states only that each flag appears when it is set. The converse is false of the source, because the path, the delay or the mapping's JSON text may itself contain ` --headless` or ` --column-mapping` (`WebForms.FlagTextInPath`).
- The command-line and Streamlit entry points (`run.py`, `run_simple.py`, `streamlit_app.py`): argument parsing and user interfaces over the modelled core.
