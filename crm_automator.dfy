/**
 * The CRM automator object: its settings and the browser session it drives.
 * Each method changes only the browser's trace, and leaves it as the matching
 * function of `CrmWorkflow` says. A method that can raise returns an `Outcome`;
 * `Raised` stands for the exception leaving the method.
 */
module CrmAutomation {
  import opened Wrappers
  import opened Text
  import opened Browser
  import opened CrmWorkflow

  class CrmAutomator {
    const settings: CrmSettings
    const browser: BrowserController

    /** The automator over a browser session that is already started (or failed to start). */
    constructor (settings: CrmSettings, browser: BrowserController)
      ensures this.settings == settings && this.browser == browser
    {
      this.settings := settings;
      this.browser := browser;
    }

    function World(): Env {
      Env(settings, browser.live, browser.oracle)
    }

    method NavigateToCrm() returns (ok: bool)
      modifies browser
      ensures Run(Returned(ok), browser.trace) == CrmWorkflow.NavigateToCrm(World(), old(browser.trace))
    {
      if settings.url == "" {
        return false;
      }
      ok := browser.NavigateTo(CrmHome, settings.url);
    }

    method LoginToCrm(username: string, password: string) returns (ok: bool)
      modifies browser
      ensures Run(Returned(ok), browser.trace) == CrmWorkflow.Login(World(), username, password, old(browser.trace))
    {
      if settings.url == "" {
        return false;
      }
      ok := browser.NavigateTo(LoginPage, settings.url);
      if !ok {
        return false;
      }
      var userField := Entry(settings.login, "username_field");
      var passwordField := Entry(settings.login, "password_field");
      var button := Entry(settings.login, "login_button");
      if userField == map[] || passwordField == map[] || button == map[] {
        return false;
      }
      ok := SubmitLogin(userField, passwordField, button, username, password);
    }

    method SubmitLogin(userField: Locator, passwordField: Locator, button: Locator, username: string, password: string)
      returns (ok: bool)
      modifies browser
      ensures Run(Returned(ok), browser.trace)
              == CrmWorkflow.SubmitLogin(World(), userField, passwordField, button, username, password, old(browser.trace))
    {
      ok := false;
      var userBy := StrategyOf(userField, "XPATH");
      if userBy.Some? {
        var typedUser := browser.InputText(LoginUsername, userBy.value, Some(ValueOr(userField)), username);
        var passwordBy := StrategyOf(passwordField, "XPATH");
        if typedUser && passwordBy.Some? {
          var typedPassword := browser.InputText(LoginPassword, passwordBy.value, Some(ValueOr(passwordField)), password);
          var buttonBy := StrategyOf(button, "XPATH");
          if typedPassword && buttonBy.Some? {
            var clicked := browser.ClickElement(LoginButton, buttonBy.value, Some(ValueOr(button)), 0);
            if clicked {
              var page := browser.CurrentUrl(LoginCheck);
              ok := page.At? && !Contains(Lower(page.url), "login");
            }
          }
        }
      }
    }

    method NavigateToCrmModule() returns (ok: bool)
      modifies browser
      ensures Run(Returned(ok), browser.trace) == CrmWorkflow.NavigateToCrmModule(World(), old(browser.trace))
    {
      var crmModule := Entry(settings.navigation, "crm_module");
      if crmModule == map[] {
        return false;
      }
      var moduleBy := StrategyOf(crmModule, "XPATH");
      if moduleBy.None? {
        return false;
      }
      ok := browser.ClickElement(CrmModule, moduleBy.value, Some(ValueOr(crmModule)), 0);
      if !ok {
        return false;
      }
      var bookingList := Entry(settings.navigation, "booking_list");
      if bookingList != map[] {
        var listBy := StrategyOf(bookingList, "XPATH");
        if listBy.None? {
          return false;
        }
        ok := browser.ClickElement(BookingList, listBy.value, Some(ValueOr(bookingList)), 0);
      }
    }

    method SearchInvoice(invoiceNumber: string) returns (r: Outcome)
      modifies browser
      ensures Run(r, browser.trace) == CrmWorkflow.SearchInvoice(World(), invoiceNumber, old(browser.trace))
    {
      var field := Entry(settings.fieldMappings, "invoice_number_search");
      var button := Entry(settings.fieldMappings, "search_button");
      if field == map[] || button == map[] {
        return Returned(false);
      }
      var key := SearchKey(invoiceNumber);
      var fieldBy := StrategyOf(field, "XPATH");
      if fieldBy.None? {
        return Raised;
      }
      var ok := browser.InputText(SearchField, fieldBy.value, ValueOf(field), key);
      if !ok {
        return Returned(false);
      }
      var buttonBy := StrategyOf(button, "XPATH");
      if buttonBy.None? {
        return Raised;
      }
      ok := browser.ClickElement(SearchButton, buttonBy.value, ValueOf(button), 2);
      if !ok {
        return Returned(false);
      }
      var row := Entry(settings.fieldMappings, "invoice_row");
      if row != map[] {
        var rowBy := StrategyOf(row, "XPATH");
        if rowBy.None? {
          return Raised;
        }
        var found := browser.WaitForElement(ResultRow, rowBy.value, Some(RowLocator(ValueOr(row), key)), 5);
        if !found {
          return Returned(false);
        }
      }
      return Returned(true);
    }

    method OpenInvoiceForEditing(rowId: string) returns (r: Outcome)
      modifies browser
      ensures Run(r, browser.trace) == CrmWorkflow.OpenInvoiceForEditing(World(), rowId, old(browser.trace))
    {
      var row := Entry(settings.fieldMappings, "invoice_row");
      var addNet := Entry(settings.fieldMappings, "add_actual_net_button");
      if row == map[] || addNet == map[] {
        return Returned(false);
      }
      var rowBy := StrategyOf(row, "XPATH");
      if rowBy.None? {
        return Raised;
      }
      var ok := browser.ClickElement(InvoiceRow, rowBy.value, Some(RowLocator(ValueOr(row), rowId)), 3);
      if !ok {
        return Returned(false);
      }
      var addNetBy := StrategyOf(addNet, "XPATH");
      if addNetBy.None? {
        return Raised;
      }
      ok := browser.ClickElement(AddActualNet, addNetBy.value, ValueOf(addNet), 3);
      return Returned(ok);
    }

    method UpdateField(key: string, value: string) returns (r: Outcome)
      modifies browser
      ensures Run(r, browser.trace) == CrmWorkflow.UpdateField(World(), key, value, old(browser.trace))
    {
      if key !in settings.fieldMappings {
        return Returned(false);
      }
      var fieldConfig := settings.fieldMappings[key];
      var fieldBy := StrategyOf(fieldConfig, "NAME");
      if fieldBy.None? {
        return Raised;
      }
      if ValueOr(fieldConfig) == "" {
        return Returned(false);
      }
      var ok := browser.InputText(Field(key), fieldBy.value, ValueOf(fieldConfig), value);
      return Returned(ok);
    }

    method SaveChanges() returns (r: Outcome)
      modifies browser
      ensures Run(r, browser.trace) == CrmWorkflow.SaveChanges(World(), old(browser.trace))
    {
      var button := Entry(settings.fieldMappings, "save_button");
      if button == map[] {
        return Returned(false);
      }
      var buttonBy := StrategyOf(button, "XPATH");
      if buttonBy.None? {
        return Raised;
      }
      var ok := browser.ClickElement(SaveButton, buttonBy.value, ValueOf(button), 3);
      return Returned(ok);
    }

    /** Lines 474-481: find the booking list again, logging in on the way when credentials were given. */
    method Recover(username: string, password: string)
      modifies browser
      ensures browser.trace == CrmWorkflow.Recover(World(), username, password, old(browser.trace))
    {
      var navigated := NavigateToCrmModule();
      if !navigated {
        navigated := NavigateToCrm();
        if username != "" && password != "" {
          navigated := LoginToCrm(username, password);
          navigated := NavigateToCrmModule();
        }
      }
    }

    /** Lines 502-518: the supplier, then the actual net cost, each only when given. */
    method UpdateFields(data: map<string, string>) returns (r: Outcome)
      modifies browser
      ensures Run(r, browser.trace) == CrmWorkflow.UpdateFields(World(), data, old(browser.trace))
    {
      var updateSuccess := true;
      var supplier := Lookup(data, "supplier");
      if supplier != "" {
        var s := UpdateField("supplier", supplier);
        if s.Raised? {
          return Raised;
        }
        updateSuccess := s.ok;
      }
      var cost := Lookup(data, "actual_net_cost");
      if cost != "" {
        var c := UpdateField("actual_net_cost", cost);
        if c.Raised? {
          return Raised;
        }
        updateSuccess := updateSuccess && c.ok;
      }
      return Returned(updateSuccess);
    }

    /** Lines 484-531: search, open, update the fields and save, stopping at the first failure. */
    method EditInvoice(invoiceNumber: string, data: map<string, string>) returns (r: Outcome)
      modifies browser
      ensures Run(r, browser.trace) == CrmWorkflow.EditInvoice(World(), invoiceNumber, data, old(browser.trace))
    {
      r := SearchInvoice(invoiceNumber);
      if r != Returned(true) {
        return;
      }
      r := OpenInvoiceForEditing("SZ" + invoiceNumber);
      if r != Returned(true) {
        return;
      }
      r := UpdateFields(data);
      if r != Returned(true) {
        return;
      }
      r := SaveChanges();
    }

    /** The body of the `try` block of `update_invoice`. */
    method AttemptUpdate(invoiceNumber: string, data: map<string, string>, username: string, password: string)
      returns (r: Outcome)
      modifies browser
      ensures Run(r, browser.trace) == CrmWorkflow.Attempt(World(), invoiceNumber, data, username, password, old(browser.trace))
    {
      var page := browser.CurrentUrl(PageCheck);
      if page.Unreachable? {
        return Raised;
      }
      if !Contains(Lower(page.url), "booking-list") {
        Recover(username, password);
      }
      r := EditInvoice(invoiceNumber, data);
    }

    method UpdateInvoice(invoiceNumber: string, data: map<string, string>, username: string, password: string,
                         maxRetries: int) returns (ok: bool)
      modifies browser
      ensures Run(Returned(ok), browser.trace)
              == CrmWorkflow.UpdateInvoice(World(), invoiceNumber, data, username, password, maxRetries, old(browser.trace))
    {
      if !browser.live {
        return false;
      }
      var retryCount: nat := 0;
      while retryCount < maxRetries
        invariant UpdateLoop(World(), invoiceNumber, data, username, password, maxRetries, retryCount, browser.trace)
                  == CrmWorkflow.UpdateInvoice(World(), invoiceNumber, data, username, password, maxRetries, old(browser.trace))
        decreases maxRetries - retryCount
      {
        var r := AttemptUpdate(invoiceNumber, data, username, password);
        if r.Returned? {
          return r.ok;
        }
        retryCount := retryCount + 1;
        if retryCount < maxRetries {
          if username != "" && password != "" {
            var navigated := NavigateToCrm();
            var loggedIn := LoginToCrm(username, password);
          }
        } else {
          return false;
        }
      }
      return false;
    }

    method UpdateMultipleInvoices(records: seq<map<string, string>>, username: string, password: string)
      returns (result: BatchResult)
      modifies browser
      ensures BatchRun(result, browser.trace) == CrmWorkflow.UpdateMultipleInvoices(World(), records, username, password, old(browser.trace))
    {
      if username != "" && password != "" {
        var loggedIn := LoginToCrm(username, password);
        if !loggedIn {
          return Failed("Login failed");
        }
        var navigated := NavigateToCrmModule();
        if !navigated {
          return Failed("Navigation to CRM module failed");
        }
      }
      ghost var start := browser.trace;
      var results: map<string, bool> := map[];
      for i := 0 to |records|
        invariant (results, browser.trace) == ProcessRecords(World(), records[..i], start)
      {
        assert records[..i + 1][..i] == records[..i];
        var id := RecordId(records[i]);
        if id != "" {
          var success := UpdateInvoice(id, records[i] - {"invoice_number"}, "", "", 3);
          results := results[id := success];
        }
      }
      assert records[..|records|] == records;
      return Updated(results);
    }
  }
}
