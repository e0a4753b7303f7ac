/**
 * Which steps each operation of the workflow may take: every call it appends to the
 * trace is tagged with one of the steps named here, and nothing earlier is changed.
 * These facts say, for instance, that an edit never reads the page address and that
 * logging in never clicks the save button.
 */
module CrmSteps {
  import opened Wrappers
  import opened Browser
  import opened CrmWorkflow

  /** `Do` on behalf of one of `steps` keeps the trace within `steps`. */
  lemma DoWithin(env: Env, t: seq<Event>, tr: seq<Event>, step: Step, c: Call, steps: set<Step>)
    requires Within(t, tr, steps) && step in steps
    ensures Within(Do(env, t, step, c).1, tr, steps)
  {
    PerformWithin(env.live, env.oracle, t, tr, step, c, steps);
  }

  lemma NavigateToCrmWithin(env: Env, tr: seq<Event>)
    ensures Within(NavigateToCrm(env, tr).trace, tr, {CrmHome})
  {
    WithinRefl(tr, {CrmHome});
    if env.settings.url != "" {
      DoWithin(env, tr, tr, CrmHome, Navigate(env.settings.url), {CrmHome});
    }
  }

  lemma LoginWithin(env: Env, username: string, password: string, tr: seq<Event>)
    ensures Within(Login(env, username, password, tr).trace, tr, LoginSteps)
  {
    var cfg := env.settings;
    WithinRefl(tr, LoginSteps);
    if cfg.url != "" {
      var (navigated, t0) := Do(env, tr, LoginPage, Navigate(cfg.url));
      DoWithin(env, tr, tr, LoginPage, Navigate(cfg.url), LoginSteps);
      var userField := Entry(cfg.login, "username_field");
      var passwordField := Entry(cfg.login, "password_field");
      var button := Entry(cfg.login, "login_button");
      if navigated && !(userField == map[] || passwordField == map[] || button == map[]) {
        SubmitLoginWithin(env, userField, passwordField, button, username, password, t0, tr);
      }
    }
  }

  lemma SubmitLoginWithin(env: Env, userField: Locator, passwordField: Locator, button: Locator,
                          username: string, password: string, t0: seq<Event>, tr: seq<Event>)
    requires Within(t0, tr, LoginSteps)
    ensures Within(SubmitLogin(env, userField, passwordField, button, username, password, t0).trace, tr, LoginSteps)
  {
    if StrategyOf(userField, "XPATH").Some? {
      var c1 := TypeText(StrategyOf(userField, "XPATH").value, Some(ValueOr(userField)), username);
      var (typedUser, t1) := Do(env, t0, LoginUsername, c1);
      DoWithin(env, t0, tr, LoginUsername, c1, LoginSteps);
      if typedUser && StrategyOf(passwordField, "XPATH").Some? {
        var c2 := TypeText(StrategyOf(passwordField, "XPATH").value, Some(ValueOr(passwordField)), password);
        var (typedPassword, t2) := Do(env, t1, LoginPassword, c2);
        DoWithin(env, t1, tr, LoginPassword, c2, LoginSteps);
        if typedPassword && StrategyOf(button, "XPATH").Some? {
          var c3 := Click(StrategyOf(button, "XPATH").value, Some(ValueOr(button)), 0);
          var (clicked, t3) := Do(env, t2, LoginButton, c3);
          DoWithin(env, t2, tr, LoginButton, c3, LoginSteps);
          if clicked {
            ReadCurrentUrlWithin(env.live, env.oracle, t3, tr, LoginCheck, LoginSteps);
          }
        }
      }
    }
  }

  lemma NavigateToCrmModuleWithin(env: Env, tr: seq<Event>)
    ensures Within(NavigateToCrmModule(env, tr).trace, tr, ModuleSteps)
  {
    var nav := env.settings.navigation;
    var crmModule := Entry(nav, "crm_module");
    var bookingList := Entry(nav, "booking_list");
    WithinRefl(tr, ModuleSteps);
    if crmModule != map[] && StrategyOf(crmModule, "XPATH").Some? {
      var c0 := Click(StrategyOf(crmModule, "XPATH").value, Some(ValueOr(crmModule)), 0);
      var (clicked, t0) := Do(env, tr, CrmModule, c0);
      DoWithin(env, tr, tr, CrmModule, c0, ModuleSteps);
      if clicked && bookingList != map[] && StrategyOf(bookingList, "XPATH").Some? {
        DoWithin(env, t0, tr, BookingList,
          Click(StrategyOf(bookingList, "XPATH").value, Some(ValueOr(bookingList)), 0), ModuleSteps);
      }
    }
  }

  lemma SearchInvoiceWithin(env: Env, invoiceNumber: string, tr: seq<Event>)
    ensures Within(SearchInvoice(env, invoiceNumber, tr).trace, tr, SearchSteps)
  {
    var fm := env.settings.fieldMappings;
    var field := Entry(fm, "invoice_number_search");
    var button := Entry(fm, "search_button");
    var row := Entry(fm, "invoice_row");
    var key := SearchKey(invoiceNumber);
    WithinRefl(tr, SearchSteps);
    if !(field == map[] || button == map[]) && StrategyOf(field, "XPATH").Some? {
      var c0 := TypeText(StrategyOf(field, "XPATH").value, ValueOf(field), key);
      var (typed, t0) := Do(env, tr, SearchField, c0);
      DoWithin(env, tr, tr, SearchField, c0, SearchSteps);
      if typed && StrategyOf(button, "XPATH").Some? {
        var c1 := Click(StrategyOf(button, "XPATH").value, ValueOf(button), 2);
        var (clicked, t1) := Do(env, t0, SearchButton, c1);
        DoWithin(env, t0, tr, SearchButton, c1, SearchSteps);
        if clicked && row != map[] && StrategyOf(row, "XPATH").Some? {
          DoWithin(env, t1, tr, ResultRow,
            WaitVisible(StrategyOf(row, "XPATH").value, Some(RowLocator(ValueOr(row), key)), 5), SearchSteps);
        }
      }
    }
  }

  lemma OpenInvoiceForEditingWithin(env: Env, rowId: string, tr: seq<Event>)
    ensures Within(OpenInvoiceForEditing(env, rowId, tr).trace, tr, OpenSteps)
  {
    var fm := env.settings.fieldMappings;
    var row := Entry(fm, "invoice_row");
    var addNet := Entry(fm, "add_actual_net_button");
    WithinRefl(tr, OpenSteps);
    if !(row == map[] || addNet == map[]) && StrategyOf(row, "XPATH").Some? {
      var c0 := Click(StrategyOf(row, "XPATH").value, Some(RowLocator(ValueOr(row), rowId)), 3);
      var (rowClicked, t0) := Do(env, tr, InvoiceRow, c0);
      DoWithin(env, tr, tr, InvoiceRow, c0, OpenSteps);
      if rowClicked && StrategyOf(addNet, "XPATH").Some? {
        DoWithin(env, t0, tr, AddActualNet, Click(StrategyOf(addNet, "XPATH").value, ValueOf(addNet), 3), OpenSteps);
      }
    }
  }

  lemma UpdateFieldWithin(env: Env, key: string, value: string, tr: seq<Event>)
    ensures Within(UpdateField(env, key, value, tr).trace, tr, {Field(key)})
  {
    var fm := env.settings.fieldMappings;
    WithinRefl(tr, {Field(key)});
    if key in fm && StrategyOf(fm[key], "NAME").Some? && ValueOr(fm[key]) != "" {
      DoWithin(env, tr, tr, Field(key), TypeText(StrategyOf(fm[key], "NAME").value, ValueOf(fm[key]), value), {Field(key)});
    }
  }

  lemma SaveChangesWithin(env: Env, tr: seq<Event>)
    ensures Within(SaveChanges(env, tr).trace, tr, {SaveButton})
  {
    var button := Entry(env.settings.fieldMappings, "save_button");
    WithinRefl(tr, {SaveButton});
    if button != map[] && StrategyOf(button, "XPATH").Some? {
      DoWithin(env, tr, tr, SaveButton, Click(StrategyOf(button, "XPATH").value, ValueOf(button), 3), {SaveButton});
    }
  }

  lemma RecoverWithin(env: Env, username: string, password: string, tr: seq<Event>)
    ensures Within(Recover(env, username, password, tr), tr, RecoverySteps)
  {
    var m := NavigateToCrmModule(env, tr);
    NavigateToCrmModuleWithin(env, tr);
    if m.outcome != Returned(true) {
      var h := NavigateToCrm(env, m.trace);
      NavigateToCrmWithin(env, m.trace);
      WithinTrans(h.trace, m.trace, tr, ModuleSteps, {CrmHome});
      if username != "" && password != "" {
        var l := Login(env, username, password, h.trace);
        LoginWithin(env, username, password, h.trace);
        NavigateToCrmModuleWithin(env, l.trace);
        WithinTrans(l.trace, h.trace, tr, ModuleSteps + {CrmHome}, LoginSteps);
        WithinTrans(NavigateToCrmModule(env, l.trace).trace, l.trace, tr, ModuleSteps + {CrmHome} + LoginSteps, ModuleSteps);
      }
    }
  }

  lemma ReloginWithin(env: Env, username: string, password: string, tr: seq<Event>)
    ensures Within(Relogin(env, username, password, tr), tr, RecoverySteps)
  {
    if username != "" && password != "" {
      var h := NavigateToCrm(env, tr);
      NavigateToCrmWithin(env, tr);
      LoginWithin(env, username, password, h.trace);
      WithinTrans(Login(env, username, password, h.trace).trace, h.trace, tr, {CrmHome}, LoginSteps);
    }
  }

  lemma ReorientWithin(env: Env, url: string, username: string, password: string, tr: seq<Event>)
    ensures Within(Reorient(env, url, username, password, tr), tr, RecoverySteps)
  {
    RecoverWithin(env, username, password, tr);
  }

  lemma UpdateFieldsWithin(env: Env, data: map<string, string>, tr: seq<Event>)
    ensures Within(UpdateFields(env, data, tr).trace, tr, FieldSteps)
  {
    var supplier := Lookup(data, "supplier");
    var s := if supplier != "" then UpdateField(env, "supplier", supplier, tr) else Run(Returned(true), tr);
    UpdateFieldWithin(env, "supplier", supplier, tr);
    var cost := Lookup(data, "actual_net_cost");
    var c := if cost != "" then UpdateField(env, "actual_net_cost", cost, s.trace) else Run(Returned(true), s.trace);
    UpdateFieldWithin(env, "actual_net_cost", cost, s.trace);
    WithinRefl(tr, {Field("supplier")});
    WithinRefl(s.trace, {Field("actual_net_cost")});
    FieldsWithin(c.trace, s.trace, tr);
  }

  lemma FieldsWithin(t2: seq<Event>, t1: seq<Event>, t0: seq<Event>)
    requires Within(t1, t0, {Field("supplier")}) && Within(t2, t1, {Field("actual_net_cost")})
    ensures Within(t2, t0, FieldSteps) && Within(t1, t0, FieldSteps)
  {
    WithinTrans(t2, t1, t0, {Field("supplier")}, {Field("actual_net_cost")});
  }

  lemma EditInvoiceWithin(env: Env, invoiceNumber: string, data: map<string, string>, tr: seq<Event>)
    ensures Within(EditInvoice(env, invoiceNumber, data, tr).trace, tr, EditSteps)
  {
    var s := SearchInvoice(env, invoiceNumber, tr);
    SearchInvoiceWithin(env, invoiceNumber, tr);
    if s.outcome == Returned(true) {
      var o := OpenInvoiceForEditing(env, "SZ" + invoiceNumber, s.trace);
      OpenInvoiceForEditingWithin(env, "SZ" + invoiceNumber, s.trace);
      WithinTrans(o.trace, s.trace, tr, SearchSteps, OpenSteps);
      if o.outcome == Returned(true) {
        var f := UpdateFields(env, data, o.trace);
        UpdateFieldsWithin(env, data, o.trace);
        WithinTrans(f.trace, o.trace, tr, SearchSteps + OpenSteps, FieldSteps);
        if f.outcome == Returned(true) {
          SaveChangesWithin(env, f.trace);
          WithinTrans(SaveChanges(env, f.trace).trace, f.trace, tr, SearchSteps + OpenSteps + FieldSteps, {SaveButton});
        }
      }
    }
  }

  lemma AttemptWithin(env: Env, invoiceNumber: string, data: map<string, string>, username: string, password: string,
                      tr: seq<Event>)
    ensures Within(Attempt(env, invoiceNumber, data, username, password, tr).trace, tr, AttemptSteps)
  {
    var (page, t0) := ReadCurrentUrl(env.live, env.oracle, tr, PageCheck);
    if page.At? {
      var t1 := Reorient(env, page.url, username, password, t0);
      ReorientWithin(env, page.url, username, password, t0);
      EditInvoiceWithin(env, invoiceNumber, data, t1);
      WithinTrans(t1, t0, tr, {PageCheck}, RecoverySteps);
      WithinTrans(EditInvoice(env, invoiceNumber, data, t1).trace, t1, tr, {PageCheck} + RecoverySteps, EditSteps);
    }
  }
}
