/**
 * What each operation of the CRM automator does, as a function of the CRM
 * settings, the browser (whether a driver was acquired, and the scripted page)
 * and the calls made so far.
 *
 * Each function returns the operation's outcome and the trace after it. An
 * operation that is not wrapped in `try` in the source can raise (`Raised`). An
 * unknown locator type does this, because `getattr(By, ...)` fails, and so does
 * reading the current page address. Login and the two navigations catch
 * everything and only ever return a boolean.
 */
module CrmWorkflow {
  import opened Wrappers
  import opened Text
  import opened Browser

  /** A locator entry of the settings: keys `type` and `value`. It is falsy when empty. */
  type Locator = map<string, string>

  /** The `crm` section of the configuration, as the automator reads it. */
  datatype CrmSettings = CrmSettings(
    url: string,
    fieldMappings: map<string, Locator>,
    login: map<string, Locator>,
    navigation: map<string, Locator>)

  /** The automator's world: its settings, whether a driver was acquired, and the page. */
  datatype Env = Env(settings: CrmSettings, live: bool, oracle: Oracle)

  datatype Outcome = Returned(ok: bool) | Raised

  datatype Run = Run(outcome: Outcome, trace: seq<Event>)

  const placeholder: string := "{invoice_number}"

  const LoginSteps: set<Step> := {LoginPage, LoginUsername, LoginPassword, LoginButton, LoginCheck}
  const ModuleSteps: set<Step> := {CrmModule, BookingList}
  const SearchSteps: set<Step> := {SearchField, SearchButton, ResultRow}
  const OpenSteps: set<Step> := {InvoiceRow, AddActualNet}
  const FieldSteps: set<Step> := {Field("supplier"), Field("actual_net_cost")}
  /** Every step of editing a booking once its search may start. */
  const EditSteps: set<Step> := SearchSteps + OpenSteps + FieldSteps + {SaveButton}
  /** Every step that finding the booking list again may take. */
  const RecoverySteps: set<Step> := LoginSteps + ModuleSteps + {CrmHome}
  /** Every step one attempt of `update_invoice` may take. */
  const AttemptSteps: set<Step> := {PageCheck} + RecoverySteps + SearchSteps + OpenSteps + FieldSteps + {SaveButton}

  // ----- reading the settings -----

  /** `m.get(key, {})`. */
  function Entry(m: map<string, Locator>, key: string): Locator {
    if key in m then m[key] else map[]
  }

  /** `getattr(By, loc.get('type', default).upper())`; `None` raises. */
  function StrategyOf(loc: Locator, default: string): Option<By> {
    ByAttribute(Upper(if "type" in loc then loc["type"] else default))
  }

  /** `loc.get('value')`. */
  function ValueOf(loc: Locator): Option<string> {
    if "value" in loc then Some(loc["value"]) else None
  }

  /** `loc.get('value', '')`. */
  function ValueOr(loc: Locator): string {
    if "value" in loc then loc["value"] else ""
  }

  /** `data.get(key, '')`. */
  function Lookup(data: map<string, string>, key: string): string {
    if key in data then data[key] else ""
  }

  /** The number typed into the search box: an `SZ` prefix in any case is cut off and the rest stripped. */
  function SearchKey(invoiceNumber: string): string {
    if HasSzPrefix(invoiceNumber) then Strip(invoiceNumber[2..]) else invoiceNumber
  }

  /** A row locator template with the placeholder filled in. */
  function RowLocator(template: string, id: string): string {
    Replace(template, placeholder, id)
  }

  /** One browser action made from the automator's environment. */
  function Do(env: Env, tr: seq<Event>, step: Step, c: Call): (bool, seq<Event>) {
    Perform(env.live, env.oracle, tr, step, c)
  }

  // ----- the operations -----

  /** `navigate_to_crm`: open the configured address. */
  function NavigateToCrm(env: Env, tr: seq<Event>): (r: Run)
    ensures r.outcome.Returned?
    ensures env.settings.url == "" ==> r == Run(Returned(false), tr)
    ensures env.settings.url != "" && env.live ==> r.trace == tr + [Acted(CrmHome, Navigate(env.settings.url), r.outcome.ok)]
  {
    if env.settings.url == "" then Run(Returned(false), tr)
    else
      var (ok, t) := Do(env, tr, CrmHome, Navigate(env.settings.url));
      Run(Returned(ok), t)
  }

  /** `login_to_crm`: fill in and submit the login form; succeed unless still on a login page. */
  function Login(env: Env, username: string, password: string, tr: seq<Event>): (r: Run)
    ensures r.outcome.Returned?
    ensures env.settings.url == "" ==> r == Run(Returned(false), tr)
    ensures !env.live ==> r == Run(Returned(false), tr)
  {
    var cfg := env.settings;
    if cfg.url == "" then Run(Returned(false), tr)
    else
      var (navigated, t0) := Do(env, tr, LoginPage, Navigate(cfg.url));
      var userField := Entry(cfg.login, "username_field");
      var passwordField := Entry(cfg.login, "password_field");
      var button := Entry(cfg.login, "login_button");
      if !navigated then Run(Returned(false), t0)
      else if userField == map[] || passwordField == map[] || button == map[] then Run(Returned(false), t0)
      else SubmitLogin(env, userField, passwordField, button, username, password, t0)
  }

  /** Lines 83-123 of `login_to_crm`: type both credentials, click the button, then look at the address. */
  function SubmitLogin(env: Env, userField: Locator, passwordField: Locator, button: Locator,
                       username: string, password: string, t0: seq<Event>): (r: Run)
    ensures r.outcome.Returned?
    ensures !env.live ==> r == Run(Returned(false), t0)
  {
    if StrategyOf(userField, "XPATH").None? then Run(Returned(false), t0)
    else
      var (typedUser, t1) := Do(env, t0, LoginUsername,
        TypeText(StrategyOf(userField, "XPATH").value, Some(ValueOr(userField)), username));
      if !typedUser then Run(Returned(false), t1)
      else if StrategyOf(passwordField, "XPATH").None? then Run(Returned(false), t1)
      else
        var (typedPassword, t2) := Do(env, t1, LoginPassword,
          TypeText(StrategyOf(passwordField, "XPATH").value, Some(ValueOr(passwordField)), password));
        if !typedPassword then Run(Returned(false), t2)
        else if StrategyOf(button, "XPATH").None? then Run(Returned(false), t2)
        else
          var (clicked, t3) := Do(env, t2, LoginButton,
            Click(StrategyOf(button, "XPATH").value, Some(ValueOr(button)), 0));
          if !clicked then Run(Returned(false), t3)
          else
            var (page, t4) := ReadCurrentUrl(env.live, env.oracle, t3, LoginCheck);
            Run(Returned(page.At? && !Contains(Lower(page.url), "login")), t4)
  }

  /** `navigate_to_crm_module`: click the CRM module, then the booking list when one is configured. */
  function NavigateToCrmModule(env: Env, tr: seq<Event>): (r: Run)
    ensures r.outcome.Returned?
    ensures Entry(env.settings.navigation, "crm_module") == map[] ==> r == Run(Returned(false), tr)
    ensures !env.live ==> r == Run(Returned(false), tr)
    ensures r.outcome.ok ==> |r.trace| > |tr| && r.trace[|tr|].step == CrmModule && r.trace[|tr|].Acted? && r.trace[|tr|].ok
  {
    var nav := env.settings.navigation;
    var crmModule := Entry(nav, "crm_module");
    var bookingList := Entry(nav, "booking_list");
    if crmModule == map[] || StrategyOf(crmModule, "XPATH").None? then Run(Returned(false), tr)
    else
      var (clicked, t0) := Do(env, tr, CrmModule, Click(StrategyOf(crmModule, "XPATH").value, Some(ValueOr(crmModule)), 0));
      if !clicked then Run(Returned(false), t0)
      else if bookingList == map[] then Run(Returned(true), t0)
      else if StrategyOf(bookingList, "XPATH").None? then Run(Returned(false), t0)
      else
        var (listed, t1) := Do(env, t0, BookingList,
          Click(StrategyOf(bookingList, "XPATH").value, Some(ValueOr(bookingList)), 0));
        Run(Returned(listed), t1)
  }

  /** `search_invoice`: type the search key, press search, and wait for the booking's row when a row locator is set. */
  function SearchInvoice(env: Env, invoiceNumber: string, tr: seq<Event>): (r: Run)
    ensures (Entry(env.settings.fieldMappings, "invoice_number_search") == map[]
             || Entry(env.settings.fieldMappings, "search_button") == map[]) ==> r == Run(Returned(false), tr)
    ensures (Entry(env.settings.fieldMappings, "invoice_number_search") != map[]
             && Entry(env.settings.fieldMappings, "search_button") != map[]
             && StrategyOf(Entry(env.settings.fieldMappings, "invoice_number_search"), "XPATH").None?) ==> r == Run(Raised, tr)
    ensures r.outcome.Raised? ==>
      || StrategyOf(Entry(env.settings.fieldMappings, "invoice_number_search"), "XPATH").None?
      || StrategyOf(Entry(env.settings.fieldMappings, "search_button"), "XPATH").None?
      || StrategyOf(Entry(env.settings.fieldMappings, "invoice_row"), "XPATH").None?
    ensures !env.live ==> r.trace == tr && r.outcome != Returned(true)
    ensures r.outcome == Returned(true) ==>
      && |r.trace| > |tr| + 1
      && r.trace[|tr|].Acted? && r.trace[|tr|].step == SearchField && r.trace[|tr|].ok
      && r.trace[|tr|].call.TypeText? && r.trace[|tr|].call.text == SearchKey(invoiceNumber)
      && r.trace[|tr| + 1].Acted? && r.trace[|tr| + 1].step == SearchButton && r.trace[|tr| + 1].ok
  {
    var fm := env.settings.fieldMappings;
    var field := Entry(fm, "invoice_number_search");
    var button := Entry(fm, "search_button");
    var row := Entry(fm, "invoice_row");
    var key := SearchKey(invoiceNumber);
    if field == map[] || button == map[] then Run(Returned(false), tr)
    else if StrategyOf(field, "XPATH").None? then Run(Raised, tr)
    else
      var (typed, t0) := Do(env, tr, SearchField, TypeText(StrategyOf(field, "XPATH").value, ValueOf(field), key));
      if !typed then Run(Returned(false), t0)
      else if StrategyOf(button, "XPATH").None? then Run(Raised, t0)
      else
        var (clicked, t1) := Do(env, t0, SearchButton, Click(StrategyOf(button, "XPATH").value, ValueOf(button), 2));
        if !clicked then Run(Returned(false), t1)
        else if row == map[] then Run(Returned(true), t1)
        else if StrategyOf(row, "XPATH").None? then Run(Raised, t1)
        else
          var (found, t2) := Do(env, t1, ResultRow,
            WaitVisible(StrategyOf(row, "XPATH").value, Some(RowLocator(ValueOr(row), key)), 5));
          Run(Returned(found), t2)
  }

  /** `open_invoice_for_editing`: click the booking's row, then the Add Actual Net button. */
  function OpenInvoiceForEditing(env: Env, rowId: string, tr: seq<Event>): (r: Run)
    ensures (Entry(env.settings.fieldMappings, "invoice_row") == map[]
             || Entry(env.settings.fieldMappings, "add_actual_net_button") == map[]) ==> r == Run(Returned(false), tr)
    ensures (Entry(env.settings.fieldMappings, "invoice_row") != map[]
             && Entry(env.settings.fieldMappings, "add_actual_net_button") != map[]
             && StrategyOf(Entry(env.settings.fieldMappings, "invoice_row"), "XPATH").None?) ==> r == Run(Raised, tr)
    ensures r.outcome.Raised? ==>
      || StrategyOf(Entry(env.settings.fieldMappings, "invoice_row"), "XPATH").None?
      || StrategyOf(Entry(env.settings.fieldMappings, "add_actual_net_button"), "XPATH").None?
    ensures !env.live ==> r.trace == tr && r.outcome != Returned(true)
    ensures r.outcome == Returned(true) ==>
      && |r.trace| == |tr| + 2
      && r.trace[|tr|].Acted? && r.trace[|tr|].step == InvoiceRow && r.trace[|tr|].ok
      && r.trace[|tr|].call.Click?
      && r.trace[|tr|].call.target == Some(RowLocator(ValueOr(Entry(env.settings.fieldMappings, "invoice_row")), rowId))
      && r.trace[|tr| + 1].Acted? && r.trace[|tr| + 1].step == AddActualNet && r.trace[|tr| + 1].ok
  {
    var fm := env.settings.fieldMappings;
    var row := Entry(fm, "invoice_row");
    var addNet := Entry(fm, "add_actual_net_button");
    if row == map[] || addNet == map[] then Run(Returned(false), tr)
    else if StrategyOf(row, "XPATH").None? then Run(Raised, tr)
    else
      var (rowClicked, t0) := Do(env, tr, InvoiceRow, Click(StrategyOf(row, "XPATH").value, Some(RowLocator(ValueOr(row), rowId)), 3));
      if !rowClicked then Run(Returned(false), t0)
      else if StrategyOf(addNet, "XPATH").None? then Run(Raised, t0)
      else
        var (clicked, t1) := Do(env, t0, AddActualNet, Click(StrategyOf(addNet, "XPATH").value, ValueOf(addNet), 3));
        Run(Returned(clicked), t1)
  }

  /** `update_field`: type `value` into the form field the mapping `key` names. */
  function UpdateField(env: Env, key: string, value: string, tr: seq<Event>): (r: Run)
    ensures key !in env.settings.fieldMappings ==> r == Run(Returned(false), tr)
    ensures r.outcome.Raised? <==> key in env.settings.fieldMappings && StrategyOf(env.settings.fieldMappings[key], "NAME").None?
    ensures r.outcome.Raised? ==> r.trace == tr
    ensures (key in env.settings.fieldMappings && StrategyOf(env.settings.fieldMappings[key], "NAME").Some?
             && ValueOr(env.settings.fieldMappings[key]) == "") ==> r == Run(Returned(false), tr)
    ensures r.outcome == Returned(true) ==>
      && |r.trace| == |tr| + 1 && r.trace[|tr|].Acted? && r.trace[|tr|].ok
      && r.trace[|tr|].call.TypeText? && r.trace[|tr|].call.text == value
      && r.trace[|tr|].call.target == ValueOf(env.settings.fieldMappings[key])
  {
    var fm := env.settings.fieldMappings;
    if key !in fm then Run(Returned(false), tr)
    else if StrategyOf(fm[key], "NAME").None? then Run(Raised, tr)
    else if ValueOr(fm[key]) == "" then Run(Returned(false), tr)
    else
      var (typed, t) := Do(env, tr, Field(key), TypeText(StrategyOf(fm[key], "NAME").value, ValueOf(fm[key]), value));
      Run(Returned(typed), t)
  }

  /** `save_changes`: click the save button. */
  function SaveChanges(env: Env, tr: seq<Event>): (r: Run)
    ensures Entry(env.settings.fieldMappings, "save_button") == map[] ==> r == Run(Returned(false), tr)
    ensures r.outcome.Raised? <==>
      Entry(env.settings.fieldMappings, "save_button") != map[]
      && StrategyOf(Entry(env.settings.fieldMappings, "save_button"), "XPATH").None?
    ensures r.outcome.Raised? ==> r.trace == tr
    ensures r.outcome == Returned(true) ==> |r.trace| == |tr| + 1 && r.trace[|tr|].Acted? && r.trace[|tr|].ok
  {
    var button := Entry(env.settings.fieldMappings, "save_button");
    if button == map[] then Run(Returned(false), tr)
    else if StrategyOf(button, "XPATH").None? then Run(Raised, tr)
    else
      var (clicked, t) := Do(env, tr, SaveButton, Click(StrategyOf(button, "XPATH").value, ValueOf(button), 3));
      Run(Returned(clicked), t)
  }

  // ----- update_invoice -----

  /** Lines 474-481: find the booking list again, logging in on the way when credentials were given. */
  function Recover(env: Env, username: string, password: string, tr: seq<Event>): (t: seq<Event>)
  {
    var m := NavigateToCrmModule(env, tr);
    if m.outcome == Returned(true) then m.trace
    else
      var h := NavigateToCrm(env, m.trace);
      if username != "" && password != "" then
        NavigateToCrmModule(env, Login(env, username, password, h.trace).trace).trace
      else h.trace
  }

  /** Lines 541-545: before a retry, reopen the CRM and log in again when credentials were given. */
  function Relogin(env: Env, username: string, password: string, tr: seq<Event>): (t: seq<Event>)
    ensures username == "" || password == "" ==> t == tr
  {
    if username != "" && password != "" then
      Login(env, username, password, NavigateToCrm(env, tr).trace).trace
    else tr
  }

  /** Lines 502-518: the supplier, then the actual net cost, each only when given; both are tried. */
  function UpdateFields(env: Env, data: map<string, string>, tr: seq<Event>): (r: Run)
    ensures Lookup(data, "supplier") == "" && Lookup(data, "actual_net_cost") == "" ==> r == Run(Returned(true), tr)
  {
    var supplier := Lookup(data, "supplier");
    var s := if supplier != "" then UpdateField(env, "supplier", supplier, tr) else Run(Returned(true), tr);
    if s.outcome.Raised? then s
    else
      var cost := Lookup(data, "actual_net_cost");
      var c := if cost != "" then UpdateField(env, "actual_net_cost", cost, s.trace) else Run(Returned(true), s.trace);
      if c.outcome.Raised? then c
      else Run(Returned(s.outcome.ok && c.outcome.ok), c.trace)
  }

  /** Lines 484-531: search, open the booking, update its fields and save, stopping at the first failure. */
  function EditInvoice(env: Env, invoiceNumber: string, data: map<string, string>, tr: seq<Event>): (r: Run)
  {
    var s := SearchInvoice(env, invoiceNumber, tr);
    if s.outcome != Returned(true) then s
    else
      var o := OpenInvoiceForEditing(env, "SZ" + invoiceNumber, s.trace);
      if o.outcome != Returned(true) then o
      else
        var f := UpdateFields(env, data, o.trace);
        if f.outcome != Returned(true) then f
        else
          SaveChanges(env, f.trace)
  }

  /** Lines 471-481: the address of the page decides whether the booking list must be found again. */
  function Reorient(env: Env, url: string, username: string, password: string, tr: seq<Event>): (t: seq<Event>)
  {
    if Contains(Lower(url), "booking-list") then tr else Recover(env, username, password, tr)
  }

  /** Lines 470-531: one pass of the `try` block of `update_invoice`. */
  function Attempt(env: Env, invoiceNumber: string, data: map<string, string>, username: string, password: string,
                   tr: seq<Event>): (r: Run)
  {
    var (page, t0) := ReadCurrentUrl(env.live, env.oracle, tr, PageCheck);
    if page.Unreachable? then Run(Raised, t0)
    else
      EditInvoice(env, invoiceNumber, data, Reorient(env, page.url, username, password, t0))
  }

  /** Lines 467-550: the retry loop from attempt number `retryCount` on. */
  function UpdateLoop(env: Env, invoiceNumber: string, data: map<string, string>, username: string, password: string,
                      maxRetries: int, retryCount: nat, tr: seq<Event>): (r: Run)
    ensures r.outcome.Returned?
    decreases maxRetries - retryCount
  {
    if retryCount >= maxRetries then Run(Returned(false), tr)
    else
      var a := Attempt(env, invoiceNumber, data, username, password, tr);
      if a.outcome.Returned? then a
      else if retryCount + 1 < maxRetries then
        UpdateLoop(env, invoiceNumber, data, username, password, maxRetries, retryCount + 1,
                   Relogin(env, username, password, a.trace))
      else Run(Returned(false), a.trace)
  }

  /** `update_invoice`: nothing is tried without a driver. */
  function UpdateInvoice(env: Env, invoiceNumber: string, data: map<string, string>, username: string, password: string,
                         maxRetries: int, tr: seq<Event>): (r: Run)
    ensures r.outcome.Returned?
    ensures !env.live ==> r == Run(Returned(false), tr)
    ensures maxRetries <= 0 ==> r == Run(Returned(false), tr)
  {
    if !env.live then Run(Returned(false), tr)
    else UpdateLoop(env, invoiceNumber, data, username, password, maxRetries, 0, tr)
  }

  // ----- update_multiple_invoices -----

  datatype BatchResult = Failed(error: string) | Updated(success: map<string, bool>)

  datatype BatchRun = BatchRun(result: BatchResult, trace: seq<Event>)

  /** `invoice_data.get('invoice_number')`, with a missing number read as the falsy `""`. */
  function RecordId(record: map<string, string>): string {
    if "invoice_number" in record then record["invoice_number"] else ""
  }

  /** The invoice numbers of the records that have one. */
  ghost function Ids(records: seq<map<string, string>>): set<string> {
    set i | 0 <= i < |records| && RecordId(records[i]) != "" :: RecordId(records[i])
  }

  lemma IdsLast(records: seq<map<string, string>>)
    requires records != []
    ensures var id := RecordId(records[|records| - 1]);
      Ids(records) == Ids(records[..|records| - 1]) + (if id != "" then {id} else {})
  {
    var front := records[..|records| - 1];
    var id := RecordId(records[|records| - 1]);
    forall k | k in Ids(records) ensures k in Ids(front) + (if id != "" then {id} else {}) {
      var i :| 0 <= i < |records| && RecordId(records[i]) != "" && RecordId(records[i]) == k;
      if i < |records| - 1 { assert front[i] == records[i]; }
    }
    forall k | k in Ids(front) ensures k in Ids(records) {
      var i :| 0 <= i < |front| && RecordId(front[i]) != "" && RecordId(front[i]) == k;
      assert front[i] == records[i];
    }
  }

  /** Lines 578-594: each record with a number, in order, updated without credentials and with three tries. */
  function ProcessRecords(env: Env, records: seq<map<string, string>>, tr: seq<Event>): (r: (map<string, bool>, seq<Event>))
    ensures r.0.Keys == Ids(records)
  {
    if records == [] then (map[], tr)
    else
      var (results, t) := ProcessRecords(env, records[..|records| - 1], tr);
      var record := records[|records| - 1];
      var id := RecordId(record);
      IdsLast(records);
      if id == "" then (results, t)
      else
        var u := UpdateInvoice(env, id, record - {"invoice_number"}, "", "", 3, t);
        (results[id := u.outcome.ok], u.trace)
  }

  /** `update_multiple_invoices`: log in and open the CRM module first when credentials are given. */
  function UpdateMultipleInvoices(env: Env, records: seq<map<string, string>>, username: string, password: string,
                                  tr: seq<Event>): (r: BatchRun)
    ensures r.result.Failed? ==> username != "" && password != ""
    ensures r.result.Failed? ==> r.result.error in {"Login failed", "Navigation to CRM module failed"}
    ensures r.result.Updated? ==>
      r.result.success.Keys == Ids(records)
  {
    if username != "" && password != "" then
      var l := Login(env, username, password, tr);
      if !l.outcome.ok then BatchRun(Failed("Login failed"), l.trace)
      else
        var n := NavigateToCrmModule(env, l.trace);
        if !n.outcome.ok then BatchRun(Failed("Navigation to CRM module failed"), n.trace)
        else
          var (results, t) := ProcessRecords(env, records, n.trace);
          BatchRun(Updated(results), t)
    else
      var (results, t) := ProcessRecords(env, records, tr);
      BatchRun(Updated(results), t)
  }
}
