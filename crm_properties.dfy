/**
 * Properties of the invoice-update workflow: the search key and row-locator rules,
 * the all-or-nothing save gate, the retry budget that only exceptions consume, and
 * how the batch driver keeps one result per invoice number.
 */
module CrmProperties {
  import opened Wrappers
  import opened Text
  import opened Browser
  import opened CrmWorkflow
  import opened CrmSteps

  // ----- search key and row locators -----

  /** Two leading characters that upper-case to `SZ` are cut, whatever follows, and the rest stripped. */
  lemma SearchKeyCutsPrefix(p: string, t: string)
    requires |p| == 2 && UpperChar(p[0]) == 'S' && UpperChar(p[1]) == 'Z'
    ensures SearchKey(p + t) == Strip(t)
  {
    HasSzPrefixChars(p + t);
    assert (p + t)[2..] == t;
  }

  /** The number is typed as given exactly when it does not start with the prefix; otherwise it gets shorter. */
  lemma SearchKeyKeepsOthers(s: string)
    ensures SearchKey(s) == s <==> !HasSzPrefix(s)
    ensures HasSzPrefix(s) ==> |SearchKey(s)| <= |s| - 2
  {
    HasSzPrefixChars(s);
  }

  /** Instances: either case and surrounding blanks are handled; a leading space keeps the prefix. */
  lemma SearchKeyExamples()
    ensures SearchKey("SZ1234") == "1234"
    ensures SearchKey("sz 1234 ") == "1234"
    ensures SearchKey("1234") == "1234"
    ensures SearchKey(" SZ1234") == " SZ1234"
  {
    assert forall k :: 0 <= k < |"1234"| ==> !IsSpace("1234"[k]);
    StripNoSpace("1234");
    assert "SZ1234" == "SZ" + "1234";
    SearchKeyCutsPrefix("SZ", "1234");
    assert "sz 1234 " == "sz" + (" " + "1234" + " ");
    SearchKeyCutsPrefix("sz", " " + "1234" + " ");
    StripAround("1234");
    HasSzPrefixChars("1234");
    HasSzPrefixChars(" SZ1234");
  }

  /** No occurrence of the placeholder starts in `prefix`, even one running on into a placeholder after it. */
  predicate NoEarlyPlaceholder(prefix: string) {
    !Contains(prefix + placeholder[..|placeholder| - 1], placeholder)
  }

  /** A template whose placeholder occurs once is filled with `id`. */
  lemma RowLocatorFills(prefix: string, suffix: string, id: string)
    requires NoEarlyPlaceholder(prefix) && !Contains(suffix, placeholder)
    ensures RowLocator(prefix + placeholder + suffix, id) == prefix + id + suffix
  {
    ReplaceOnce(prefix, placeholder, id, suffix);
  }

  /** Filling one template with two different identifiers gives two different locators. */
  lemma RowLocatorsDiffer(prefix: string, suffix: string, a: string, b: string)
    requires NoEarlyPlaceholder(prefix) && !Contains(suffix, placeholder)
    requires a != b
    ensures RowLocator(prefix + placeholder + suffix, a) != RowLocator(prefix + placeholder + suffix, b)
  {
    RowLocatorFills(prefix, suffix, a);
    RowLocatorFills(prefix, suffix, b);
    if |a| == |b| {
      assert (prefix + a + suffix)[|prefix|..|prefix| + |a|] == a;
      assert (prefix + b + suffix)[|prefix|..|prefix| + |b|] == b;
    } else {
      assert |prefix + a + suffix| != |prefix + b + suffix|;
    }
  }

  /**
   * The result-row check fills the template with the search key, while the edit step
   * fills it with "SZ" and the number as passed: "SZ1234" and "1234" search for the
   * same key but click different rows.
   */
  lemma EditRowDependsOnSpelling(prefix: string, suffix: string)
    requires NoEarlyPlaceholder(prefix) && !Contains(suffix, placeholder)
    ensures SearchKey("SZ1234") == SearchKey("1234") == "1234"
    ensures RowLocator(prefix + placeholder + suffix, "SZ" + "SZ1234") != RowLocator(prefix + placeholder + suffix, "SZ" + "1234")
  {
    SearchKeyExamples();
    assert ("SZ" + "SZ1234")[2] == 'S' != ("SZ" + "1234")[2];
    RowLocatorsDiffer(prefix, suffix, "SZ" + "SZ1234", "SZ" + "1234");
  }

  /** A successful search with a row locator ends by finding the row named by the filled-in search key. */
  lemma RowCheckUsesSearchKey(env: Env, invoiceNumber: string, tr: seq<Event>, prefix: string, suffix: string)
    requires SearchInvoice(env, invoiceNumber, tr).outcome == Returned(true)
    requires ValueOr(Entry(env.settings.fieldMappings, "invoice_row")) == prefix + placeholder + suffix
    requires NoEarlyPlaceholder(prefix) && !Contains(suffix, placeholder)
    ensures var t := SearchInvoice(env, invoiceNumber, tr).trace;
      && |t| == |tr| + 3
      && t[|tr| + 2].Acted? && t[|tr| + 2].step == ResultRow && t[|tr| + 2].ok
      && t[|tr| + 2].call.WaitVisible?
      && t[|tr| + 2].call.target == Some(prefix + SearchKey(invoiceNumber) + suffix)
  {
    RowLocatorFills(prefix, suffix, SearchKey(invoiceNumber));
  }

  // ----- the field updates -----

  /** Both values given and both typed: the supplier first, then the actual net cost, each with its own text. */
  lemma FieldsTypedInOrder(env: Env, data: map<string, string>, tr: seq<Event>)
    requires Lookup(data, "supplier") != "" && Lookup(data, "actual_net_cost") != ""
    requires UpdateFields(env, data, tr).outcome == Returned(true)
    ensures var t := UpdateFields(env, data, tr).trace;
      && |t| == |tr| + 2
      && t[|tr|].Acted? && t[|tr|].step == Field("supplier") && t[|tr|].ok
      && t[|tr|].call.TypeText? && t[|tr|].call.text == Lookup(data, "supplier")
      && t[|tr| + 1].Acted? && t[|tr| + 1].step == Field("actual_net_cost") && t[|tr| + 1].ok
      && t[|tr| + 1].call.TypeText? && t[|tr| + 1].call.text == Lookup(data, "actual_net_cost")
  {
    var s := UpdateField(env, "supplier", Lookup(data, "supplier"), tr);
    var c := UpdateField(env, "actual_net_cost", Lookup(data, "actual_net_cost"), s.trace);
    assert s.outcome == Returned(true) && c.outcome == Returned(true);
    assert c.trace[..|s.trace|] == s.trace;
    assert c.trace[|tr|] == s.trace[|tr|];
  }

  /** A supplier update that fails without raising does not stop the cost update; the result is false. */
  lemma FailedSupplierStillTriesCost(env: Env, data: map<string, string>, tr: seq<Event>)
    requires Lookup(data, "supplier") != "" && Lookup(data, "actual_net_cost") != ""
    requires UpdateField(env, "supplier", Lookup(data, "supplier"), tr).outcome == Returned(false)
    ensures var c := UpdateField(env, "actual_net_cost", Lookup(data, "actual_net_cost"),
                                 UpdateField(env, "supplier", Lookup(data, "supplier"), tr).trace);
      UpdateFields(env, data, tr) == if c.outcome.Raised? then c else Run(Returned(false), c.trace)
  {
  }

  /** A field whose value is empty is never typed into. */
  lemma EmptyValueNotTyped(env: Env, data: map<string, string>, key: string, tr: seq<Event>)
    requires key == "supplier" || key == "actual_net_cost"
    requires Lookup(data, key) == ""
    ensures Count(UpdateFields(env, data, tr).trace, Field(key)) == Count(tr, Field(key))
  {
    var r := UpdateFields(env, data, tr);
    var supplier := Lookup(data, "supplier");
    var s := if supplier != "" then UpdateField(env, "supplier", supplier, tr) else Run(Returned(true), tr);
    if key == "supplier" {
      assert s.trace == tr;
      if s.outcome.Returned? {
        var cost := Lookup(data, "actual_net_cost");
        var c := if cost != "" then UpdateField(env, "actual_net_cost", cost, s.trace) else Run(Returned(true), s.trace);
        assert r.trace == c.trace;
        UpdateFieldWithin(env, "actual_net_cost", cost, s.trace);
        CountWithin(c.trace, tr, {Field("actual_net_cost")}, Field(key));
      }
    } else {
      UpdateFieldWithin(env, "supplier", supplier, tr);
      CountWithin(s.trace, tr, {Field("supplier")}, Field(key));
    }
  }

  /**
   * A supplier update that fails without raising does not stop the cost update: the
   * cost is still typed, once, and the fields' result is false.
   */
  lemma CostTypedAfterFailedSupplier(env: Env, data: map<string, string>, tr: seq<Event>)
    requires env.live
    requires Lookup(data, "supplier") != "" && Lookup(data, "actual_net_cost") != ""
    requires "actual_net_cost" in env.settings.fieldMappings
    requires StrategyOf(env.settings.fieldMappings["actual_net_cost"], "NAME").Some?
    requires ValueOr(env.settings.fieldMappings["actual_net_cost"]) != ""
    requires UpdateField(env, "supplier", Lookup(data, "supplier"), tr).outcome == Returned(false)
    ensures var r := UpdateFields(env, data, tr);
      && r.outcome == Returned(false)
      && Count(r.trace, Field("actual_net_cost")) == Count(tr, Field("actual_net_cost")) + 1
      && r.trace[|r.trace| - 1].Acted? && r.trace[|r.trace| - 1].call.TypeText?
      && r.trace[|r.trace| - 1].call.text == Lookup(data, "actual_net_cost")
  {
    FailedSupplierStillTriesCost(env, data, tr);
    var s := UpdateField(env, "supplier", Lookup(data, "supplier"), tr);
    UpdateFieldWithin(env, "supplier", Lookup(data, "supplier"), tr);
    CountWithin(s.trace, tr, {Field("supplier")}, Field("actual_net_cost"));
    var loc := env.settings.fieldMappings["actual_net_cost"];
    var call := TypeText(StrategyOf(loc, "NAME").value, ValueOf(loc), Lookup(data, "actual_net_cost"));
    CountAppend(s.trace, Acted(Field("actual_net_cost"), call, env.oracle.act(s.trace, call)), Field("actual_net_cost"));
  }

  // ----- the save gate -----

  /**
   * The fields' result is true exactly when every update that was attempted (one per
   * non-empty value) returned true, and it raises exactly when one of them raised.
   */
  lemma FieldsResultExactly(env: Env, data: map<string, string>, tr: seq<Event>)
    ensures var supplier := Lookup(data, "supplier");
      var cost := Lookup(data, "actual_net_cost");
      var s := UpdateField(env, "supplier", supplier, tr);
      var c := UpdateField(env, "actual_net_cost", cost, if supplier != "" then s.trace else tr);
      var r := UpdateFields(env, data, tr);
      && (r.outcome == Returned(true) <==>
          (supplier != "" ==> s.outcome == Returned(true)) && (cost != "" ==> c.outcome == Returned(true)))
      && (r.outcome.Raised? <==> (supplier != "" && s.outcome.Raised?) || (cost != "" && c.outcome.Raised?))
  {
  }

  /** A search that does not succeed ends the edit with its own result. */
  lemma SearchFailureStopsEdit(env: Env, invoiceNumber: string, data: map<string, string>, tr: seq<Event>)
    requires SearchInvoice(env, invoiceNumber, tr).outcome != Returned(true)
    ensures EditInvoice(env, invoiceNumber, data, tr) == SearchInvoice(env, invoiceNumber, tr)
  {
  }

  /** After a search that does not succeed no field is typed and nothing is saved. */
  lemma SearchFailureChangesNothing(env: Env, invoiceNumber: string, data: map<string, string>, tr: seq<Event>)
    requires SearchInvoice(env, invoiceNumber, tr).outcome != Returned(true)
    ensures forall s | s in FieldSteps + {SaveButton} :: Count(EditInvoice(env, invoiceNumber, data, tr).trace, s) == Count(tr, s)
  {
    SearchFailureStopsEdit(env, invoiceNumber, data, tr);
    SearchInvoiceWithin(env, invoiceNumber, tr);
    CountsOutside(SearchInvoice(env, invoiceNumber, tr).trace, tr, SearchSteps, FieldSteps + {SaveButton});
  }

  /** Opening the booking that does not succeed ends the edit with the result of opening it. */
  lemma OpenFailureStopsEdit(env: Env, invoiceNumber: string, data: map<string, string>, tr: seq<Event>)
    requires SearchInvoice(env, invoiceNumber, tr).outcome == Returned(true)
    requires OpenInvoiceForEditing(env, "SZ" + invoiceNumber, SearchInvoice(env, invoiceNumber, tr).trace).outcome != Returned(true)
    ensures EditInvoice(env, invoiceNumber, data, tr)
            == OpenInvoiceForEditing(env, "SZ" + invoiceNumber, SearchInvoice(env, invoiceNumber, tr).trace)
  {
  }

  /** After opening fails no field is typed and nothing is saved. */
  lemma OpenFailureChangesNothing(env: Env, invoiceNumber: string, data: map<string, string>, tr: seq<Event>)
    requires SearchInvoice(env, invoiceNumber, tr).outcome == Returned(true)
    requires OpenInvoiceForEditing(env, "SZ" + invoiceNumber, SearchInvoice(env, invoiceNumber, tr).trace).outcome != Returned(true)
    ensures forall s | s in FieldSteps + {SaveButton} :: Count(EditInvoice(env, invoiceNumber, data, tr).trace, s) == Count(tr, s)
  {
    OpenFailureStopsEdit(env, invoiceNumber, data, tr);
    var t0 := SearchInvoice(env, invoiceNumber, tr).trace;
    SearchInvoiceWithin(env, invoiceNumber, tr);
    OpenInvoiceForEditingWithin(env, "SZ" + invoiceNumber, t0);
    SearchThenOpenKeepsFields(OpenInvoiceForEditing(env, "SZ" + invoiceNumber, t0).trace, t0, tr);
  }

  lemma SearchThenOpenKeepsFields(t: seq<Event>, t0: seq<Event>, tr: seq<Event>)
    requires Within(t0, tr, SearchSteps) && Within(t, t0, OpenSteps)
    ensures forall s | s in FieldSteps + {SaveButton} :: Count(t, s) == Count(tr, s)
  {
    CountsOutside(t0, tr, SearchSteps, FieldSteps + {SaveButton});
    CountsOutside(t, t0, OpenSteps, FieldSteps + {SaveButton});
  }

  /** Once the booking is open, save is clicked exactly when every attempted field update succeeded. */
  lemma SaveGate(env: Env, invoiceNumber: string, data: map<string, string>, tr: seq<Event>)
    requires SearchInvoice(env, invoiceNumber, tr).outcome == Returned(true)
    requires OpenInvoiceForEditing(env, "SZ" + invoiceNumber, SearchInvoice(env, invoiceNumber, tr).trace).outcome == Returned(true)
    ensures var f := UpdateFields(env, data,
                        OpenInvoiceForEditing(env, "SZ" + invoiceNumber, SearchInvoice(env, invoiceNumber, tr).trace).trace);
      EditInvoice(env, invoiceNumber, data, tr) == if f.outcome == Returned(true) then SaveChanges(env, f.trace) else f
  {
  }

  /** Field updates that do not all succeed end the edit before the save button. */
  lemma FieldFailureSkipsSave(env: Env, invoiceNumber: string, data: map<string, string>, tr: seq<Event>)
    requires SearchInvoice(env, invoiceNumber, tr).outcome == Returned(true)
    requires OpenInvoiceForEditing(env, "SZ" + invoiceNumber, SearchInvoice(env, invoiceNumber, tr).trace).outcome == Returned(true)
    requires UpdateFields(env, data, OpenInvoiceForEditing(env, "SZ" + invoiceNumber,
                                       SearchInvoice(env, invoiceNumber, tr).trace).trace).outcome != Returned(true)
    ensures Count(EditInvoice(env, invoiceNumber, data, tr).trace, SaveButton) == Count(tr, SaveButton)
  {
    SaveGate(env, invoiceNumber, data, tr);
    var s := SearchInvoice(env, invoiceNumber, tr).trace;
    var o := OpenInvoiceForEditing(env, "SZ" + invoiceNumber, s).trace;
    SearchInvoiceWithin(env, invoiceNumber, tr);
    OpenInvoiceForEditingWithin(env, "SZ" + invoiceNumber, s);
    UpdateFieldsWithin(env, data, o);
    EditBeforeSaveKeepsSave(UpdateFields(env, data, o).trace, o, s, tr);
  }

  lemma EditBeforeSaveKeepsSave(f: seq<Event>, o: seq<Event>, s: seq<Event>, tr: seq<Event>)
    requires Within(s, tr, SearchSteps) && Within(o, s, OpenSteps) && Within(f, o, FieldSteps)
    ensures Count(f, SaveButton) == Count(tr, SaveButton)
  {
    CountWithin(s, tr, SearchSteps, SaveButton);
    CountWithin(o, s, OpenSteps, SaveButton);
    CountWithin(f, o, FieldSteps, SaveButton);
  }

  /** The save button is only ever clicked after the search, the opening and every field update succeeded. */
  lemma SaveOnlyAfterEverySuccess(env: Env, invoiceNumber: string, data: map<string, string>, tr: seq<Event>)
    requires Count(EditInvoice(env, invoiceNumber, data, tr).trace, SaveButton) > Count(tr, SaveButton)
    ensures var s := SearchInvoice(env, invoiceNumber, tr);
      && s.outcome == Returned(true)
      && var o := OpenInvoiceForEditing(env, "SZ" + invoiceNumber, s.trace);
      && o.outcome == Returned(true)
      && UpdateFields(env, data, o.trace).outcome == Returned(true)
  {
    var s := SearchInvoice(env, invoiceNumber, tr);
    if s.outcome != Returned(true) {
      SearchFailureChangesNothing(env, invoiceNumber, data, tr);
    } else {
      var o := OpenInvoiceForEditing(env, "SZ" + invoiceNumber, s.trace);
      if o.outcome != Returned(true) {
        OpenFailureChangesNothing(env, invoiceNumber, data, tr);
      } else {
        if UpdateFields(env, data, o.trace).outcome != Returned(true) {
          FieldFailureSkipsSave(env, invoiceNumber, data, tr);
        }
      }
    }
  }

  /**
   * Once the search, the opening and every field update succeeded, the save button is
   * clicked exactly once, as the edit's last action, and the edit's result is that click's.
   */
  lemma SaveAfterEverySuccess(env: Env, invoiceNumber: string, data: map<string, string>, tr: seq<Event>)
    requires env.live
    requires Entry(env.settings.fieldMappings, "save_button") != map[]
    requires StrategyOf(Entry(env.settings.fieldMappings, "save_button"), "XPATH").Some?
    requires SearchInvoice(env, invoiceNumber, tr).outcome == Returned(true)
    requires OpenInvoiceForEditing(env, "SZ" + invoiceNumber, SearchInvoice(env, invoiceNumber, tr).trace).outcome == Returned(true)
    requires UpdateFields(env, data, OpenInvoiceForEditing(env, "SZ" + invoiceNumber,
                                       SearchInvoice(env, invoiceNumber, tr).trace).trace).outcome == Returned(true)
    ensures var e := EditInvoice(env, invoiceNumber, data, tr);
      && Count(e.trace, SaveButton) == Count(tr, SaveButton) + 1
      && |e.trace| > 0 && e.trace[|e.trace| - 1].Acted? && e.trace[|e.trace| - 1].step == SaveButton
      && e.outcome == Returned(e.trace[|e.trace| - 1].ok)
  {
    SaveGate(env, invoiceNumber, data, tr);
    var s := SearchInvoice(env, invoiceNumber, tr).trace;
    var o := OpenInvoiceForEditing(env, "SZ" + invoiceNumber, s).trace;
    var f := UpdateFields(env, data, o).trace;
    SearchInvoiceWithin(env, invoiceNumber, tr);
    OpenInvoiceForEditingWithin(env, "SZ" + invoiceNumber, s);
    UpdateFieldsWithin(env, data, o);
    EditBeforeSaveKeepsSave(f, o, s, tr);
    SaveClicksOnce(env, f);
  }

  lemma SaveClicksOnce(env: Env, f: seq<Event>)
    requires env.live
    requires Entry(env.settings.fieldMappings, "save_button") != map[]
    requires StrategyOf(Entry(env.settings.fieldMappings, "save_button"), "XPATH").Some?
    ensures var r := SaveChanges(env, f);
      && Count(r.trace, SaveButton) == Count(f, SaveButton) + 1
      && |r.trace| > 0 && r.trace[|r.trace| - 1].Acted? && r.trace[|r.trace| - 1].step == SaveButton
      && r.outcome == Returned(r.trace[|r.trace| - 1].ok)
  {
    var button := Entry(env.settings.fieldMappings, "save_button");
    var call := Click(StrategyOf(button, "XPATH").value, ValueOf(button), 3);
    CountAppend(f, Acted(SaveButton, call, env.oracle.act(f, call)), SaveButton);
  }

  /** A record with neither value still saves the opened booking: the result is that of the save. */
  lemma EmptyRecordStillSaves(env: Env, invoiceNumber: string, data: map<string, string>, tr: seq<Event>)
    requires Lookup(data, "supplier") == "" && Lookup(data, "actual_net_cost") == ""
    requires SearchInvoice(env, invoiceNumber, tr).outcome == Returned(true)
    requires OpenInvoiceForEditing(env, "SZ" + invoiceNumber, SearchInvoice(env, invoiceNumber, tr).trace).outcome == Returned(true)
    ensures EditInvoice(env, invoiceNumber, data, tr)
            == SaveChanges(env, OpenInvoiceForEditing(env, "SZ" + invoiceNumber, SearchInvoice(env, invoiceNumber, tr).trace).trace)
  {
  }

  // ----- the retry budget -----

  /** Every attempt reads the page address exactly once, and only when there is a driver. */
  lemma AttemptChecksPageOnce(env: Env, invoiceNumber: string, data: map<string, string>, username: string,
                              password: string, tr: seq<Event>)
    ensures Count(Attempt(env, invoiceNumber, data, username, password, tr).trace, PageCheck)
            == Count(tr, PageCheck) + (if env.live then 1 else 0)
  {
    var (page, t0) := ReadCurrentUrl(env.live, env.oracle, tr, PageCheck);
    if env.live {
      CountAppend(tr, ReadUrl(PageCheck, page), PageCheck);
    }
    if page.At? {
      var t1 := Reorient(env, page.url, username, password, t0);
      ReorientWithin(env, page.url, username, password, t0);
      EditInvoiceWithin(env, invoiceNumber, data, t1);
      PageCheckOutsideAttempt(EditInvoice(env, invoiceNumber, data, t1).trace, t1, t0);
    }
  }

  lemma PageCheckOutsideAttempt(e: seq<Event>, t1: seq<Event>, t0: seq<Event>)
    requires Within(t1, t0, RecoverySteps) && Within(e, t1, EditSteps)
    ensures Count(e, PageCheck) == Count(t0, PageCheck)
  {
    CountWithin(t1, t0, RecoverySteps, PageCheck);
    CountWithin(e, t1, EditSteps, PageCheck);
  }

  /** An attempt that returns ends the loop with its result: only an exception uses up a retry. */
  lemma ReturnedEndsLoop(env: Env, invoiceNumber: string, data: map<string, string>, username: string,
                         password: string, maxRetries: int, retryCount: nat, tr: seq<Event>)
    requires retryCount < maxRetries
    requires Attempt(env, invoiceNumber, data, username, password, tr).outcome.Returned?
    ensures UpdateLoop(env, invoiceNumber, data, username, password, maxRetries, retryCount, tr)
            == Attempt(env, invoiceNumber, data, username, password, tr)
  {
  }

  /** After an exception that leaves retries, the CRM is reopened and logged into before the next attempt. */
  lemma RetryLogsInAgain(env: Env, invoiceNumber: string, data: map<string, string>, username: string,
                         password: string, maxRetries: int, retryCount: nat, tr: seq<Event>)
    requires retryCount + 1 < maxRetries
    requires username != "" && password != ""
    requires Attempt(env, invoiceNumber, data, username, password, tr).outcome.Raised?
    ensures var a := Attempt(env, invoiceNumber, data, username, password, tr);
      UpdateLoop(env, invoiceNumber, data, username, password, maxRetries, retryCount, tr)
      == UpdateLoop(env, invoiceNumber, data, username, password, maxRetries, retryCount + 1,
                    Login(env, username, password, NavigateToCrm(env, a.trace).trace).trace)
  {
  }

  /** An attempt that returns is the last one: its result is the loop's, after exactly one page check. */
  lemma ReturnedAttemptIsLast(env: Env, invoiceNumber: string, data: map<string, string>, username: string,
                              password: string, maxRetries: int, retryCount: nat, tr: seq<Event>)
    requires retryCount < maxRetries
    requires Attempt(env, invoiceNumber, data, username, password, tr).outcome.Returned?
    ensures var r := UpdateLoop(env, invoiceNumber, data, username, password, maxRetries, retryCount, tr);
      && r.outcome == Attempt(env, invoiceNumber, data, username, password, tr).outcome
      && Count(r.trace, PageCheck) == Count(tr, PageCheck) + 1
  {
    ReturnedEndsLoop(env, invoiceNumber, data, username, password, maxRetries, retryCount, tr);
    AttemptChecksPageOnce(env, invoiceNumber, data, username, password, tr);
  }

  /**
   * An edit that returns false, because the search, the opening, a field update or
   * the save failed without raising, ends `update_invoice` with false after that one
   * attempt: failures that are not exceptions are never retried.
   */
  lemma FailedEditNotRetried(env: Env, invoiceNumber: string, data: map<string, string>, username: string,
                             password: string, maxRetries: int, tr: seq<Event>, url: string)
    requires env.live && maxRetries > 0 && env.oracle.page(tr) == At(url)
    requires EditInvoice(env, invoiceNumber, data,
               Reorient(env, url, username, password, tr + [ReadUrl(PageCheck, At(url))])).outcome == Returned(false)
    ensures var r := UpdateInvoice(env, invoiceNumber, data, username, password, maxRetries, tr);
      r.outcome == Returned(false) && Count(r.trace, PageCheck) == Count(tr, PageCheck) + 1
  {
    ReturnedAttemptIsLast(env, invoiceNumber, data, username, password, maxRetries, 0, tr);
  }

  /**
   * After an exception that leaves retries, with both credentials, the CRM home and
   * then the login page are opened before the next attempt, and no page check comes
   * in between.
   */
  lemma RetryReopensAndLogsIn(env: Env, invoiceNumber: string, data: map<string, string>, username: string,
                              password: string, maxRetries: int, retryCount: nat, tr: seq<Event>)
    requires env.live && env.settings.url != ""
    requires retryCount + 1 < maxRetries
    requires username != "" && password != ""
    requires Attempt(env, invoiceNumber, data, username, password, tr).outcome.Raised?
    ensures var a := Attempt(env, invoiceNumber, data, username, password, tr).trace;
      var t := Relogin(env, username, password, a);
      && UpdateLoop(env, invoiceNumber, data, username, password, maxRetries, retryCount, tr)
         == UpdateLoop(env, invoiceNumber, data, username, password, maxRetries, retryCount + 1, t)
      && |t| >= |a| + 2
      && t[|a|].Acted? && t[|a|].step == CrmHome && t[|a|].call == Navigate(env.settings.url)
      && t[|a| + 1].Acted? && t[|a| + 1].step == LoginPage && t[|a| + 1].call == Navigate(env.settings.url)
      && Count(t, PageCheck) == Count(a, PageCheck)
  {
    RetryLogsInAgain(env, invoiceNumber, data, username, password, maxRetries, retryCount, tr);
    var a := Attempt(env, invoiceNumber, data, username, password, tr).trace;
    ReopenThenLogin(env, username, password, a);
    ReloginWithin(env, username, password, a);
    CountWithin(Relogin(env, username, password, a), a, RecoverySteps, PageCheck);
  }

  lemma ReopenThenLogin(env: Env, username: string, password: string, a: seq<Event>)
    requires env.live && env.settings.url != ""
    requires username != "" && password != ""
    ensures var t := Relogin(env, username, password, a);
      && |t| >= |a| + 2
      && t[|a|].Acted? && t[|a|].step == CrmHome && t[|a|].call == Navigate(env.settings.url)
      && t[|a| + 1].Acted? && t[|a| + 1].step == LoginPage && t[|a| + 1].call == Navigate(env.settings.url)
  {
    var h := NavigateToCrm(env, a).trace;
    LoginOpensLoginPage(env, username, password, h);
  }

  /** With a driver and an address, logging in first opens the login page. */
  lemma LoginOpensLoginPage(env: Env, username: string, password: string, h: seq<Event>)
    requires env.live && env.settings.url != ""
    ensures var t := Login(env, username, password, h).trace;
      |t| > |h| && t[..|h| + 1] == h + [Acted(LoginPage, Navigate(env.settings.url), env.oracle.act(h, Navigate(env.settings.url)))]
  {
    var cfg := env.settings;
    var (navigated, t0) := Do(env, h, LoginPage, Navigate(cfg.url));
    var userField := Entry(cfg.login, "username_field");
    var passwordField := Entry(cfg.login, "password_field");
    var button := Entry(cfg.login, "login_button");
    if navigated && !(userField == map[] || passwordField == map[] || button == map[]) {
      WithinRefl(t0, LoginSteps);
      SubmitLoginWithin(env, userField, passwordField, button, username, password, t0, t0);
    }
  }

  /** The loop from attempt `retryCount` on makes at most `maxRetries - retryCount` attempts. */
  lemma {:induction false} LoopAttemptsBounded(env: Env, invoiceNumber: string, data: map<string, string>,
                                               username: string, password: string, maxRetries: int,
                                               retryCount: nat, tr: seq<Event>)
    ensures Count(UpdateLoop(env, invoiceNumber, data, username, password, maxRetries, retryCount, tr).trace, PageCheck)
            <= Count(tr, PageCheck) + (if maxRetries > retryCount then maxRetries - retryCount else 0)
    decreases maxRetries - retryCount
  {
    if retryCount < maxRetries {
      var a := Attempt(env, invoiceNumber, data, username, password, tr);
      AttemptChecksPageOnce(env, invoiceNumber, data, username, password, tr);
      if a.outcome.Raised? && retryCount + 1 < maxRetries {
        var t := Relogin(env, username, password, a.trace);
        ReloginWithin(env, username, password, a.trace);
        CountWithin(t, a.trace, RecoverySteps, PageCheck);
        LoopAttemptsBounded(env, invoiceNumber, data, username, password, maxRetries, retryCount + 1, t);
      }
    }
  }

  /** `update_invoice` makes at most `max_retries` attempts, and none when it is zero or less. */
  lemma AttemptsWithinBudget(env: Env, invoiceNumber: string, data: map<string, string>, username: string,
                             password: string, maxRetries: int, tr: seq<Event>)
    ensures Count(UpdateInvoice(env, invoiceNumber, data, username, password, maxRetries, tr).trace, PageCheck)
            <= Count(tr, PageCheck) + (if maxRetries > 0 then maxRetries else 0)
  {
    LoopAttemptsBounded(env, invoiceNumber, data, username, password, maxRetries, 0, tr);
  }

  /** When every attempt raises, the loop uses up the whole budget and gives false. */
  lemma {:induction false} RaisingAttemptsExhaustLoop(env: Env, invoiceNumber: string, data: map<string, string>,
                                                      username: string, password: string, maxRetries: int,
                                                      retryCount: nat, tr: seq<Event>)
    requires env.live
    requires forall h :: Attempt(env, invoiceNumber, data, username, password, h).outcome.Raised?
    ensures var r := UpdateLoop(env, invoiceNumber, data, username, password, maxRetries, retryCount, tr);
      && r.outcome == Returned(false)
      && Count(r.trace, PageCheck) == Count(tr, PageCheck) + (if maxRetries > retryCount then maxRetries - retryCount else 0)
    decreases maxRetries - retryCount
  {
    if retryCount < maxRetries {
      assert Attempt(env, invoiceNumber, data, username, password, tr).outcome.Raised?;
      RaisedAttemptStep(env, invoiceNumber, data, username, password, maxRetries, retryCount, tr);
      if retryCount + 1 < maxRetries {
        var t := Relogin(env, username, password, Attempt(env, invoiceNumber, data, username, password, tr).trace);
        RaisingAttemptsExhaustLoop(env, invoiceNumber, data, username, password, maxRetries, retryCount + 1, t);
      }
    }
  }

  /** One raising attempt: one page check more, then the next attempt or the final false. */
  lemma RaisedAttemptStep(env: Env, invoiceNumber: string, data: map<string, string>, username: string,
                          password: string, maxRetries: int, retryCount: nat, tr: seq<Event>)
    requires env.live && retryCount < maxRetries
    requires Attempt(env, invoiceNumber, data, username, password, tr).outcome.Raised?
    ensures var a := Attempt(env, invoiceNumber, data, username, password, tr).trace;
      var t := Relogin(env, username, password, a);
      && Count(a, PageCheck) == Count(tr, PageCheck) + 1
      && Count(t, PageCheck) == Count(tr, PageCheck) + 1
      && UpdateLoop(env, invoiceNumber, data, username, password, maxRetries, retryCount, tr)
         == if retryCount + 1 < maxRetries
            then UpdateLoop(env, invoiceNumber, data, username, password, maxRetries, retryCount + 1, t)
            else Run(Returned(false), a)
  {
    var a := Attempt(env, invoiceNumber, data, username, password, tr).trace;
    AttemptChecksPageOnce(env, invoiceNumber, data, username, password, tr);
    ReloginKeepsPageChecks(env, username, password, a);
  }

  lemma ReloginKeepsPageChecks(env: Env, username: string, password: string, a: seq<Event>)
    ensures Count(Relogin(env, username, password, a), PageCheck) == Count(a, PageCheck)
  {
    ReloginWithin(env, username, password, a);
    CountWithin(Relogin(env, username, password, a), a, RecoverySteps, PageCheck);
  }

  /** An address that cannot be read makes the attempt raise after that one read. */
  lemma UnreachablePageRaises(env: Env, invoiceNumber: string, data: map<string, string>, username: string,
                              password: string, tr: seq<Event>)
    requires env.live && env.oracle.page(tr) == Unreachable
    ensures Attempt(env, invoiceNumber, data, username, password, tr) == Run(Raised, tr + [ReadUrl(PageCheck, Unreachable)])
  {
  }

  /** When the address can never be read, exactly `max_retries` attempts are made and the result is false. */
  lemma RaisingPageExhaustsBudget(env: Env, invoiceNumber: string, data: map<string, string>, username: string,
                                  password: string, maxRetries: int, tr: seq<Event>)
    requires env.live
    requires forall h :: env.oracle.page(h) == Unreachable
    ensures var r := UpdateInvoice(env, invoiceNumber, data, username, password, maxRetries, tr);
      && r.outcome == Returned(false)
      && Count(r.trace, PageCheck) == Count(tr, PageCheck) + (if maxRetries > 0 then maxRetries else 0)
  {
    forall h ensures Attempt(env, invoiceNumber, data, username, password, h).outcome.Raised? {
      UnreachablePageRaises(env, invoiceNumber, data, username, password, h);
    }
    RaisingAttemptsExhaustLoop(env, invoiceNumber, data, username, password, maxRetries, 0, tr);
  }

  /**
   * A search field of a locator type `By` does not have makes every attempt raise,
   * whatever the page: `update_invoice` makes exactly `max_retries` attempts and
   * gives false.
   */
  lemma UnknownSearchTypeExhaustsBudget(env: Env, invoiceNumber: string, data: map<string, string>, username: string,
                                        password: string, maxRetries: int, tr: seq<Event>)
    requires env.live
    requires Entry(env.settings.fieldMappings, "invoice_number_search") != map[]
    requires Entry(env.settings.fieldMappings, "search_button") != map[]
    requires StrategyOf(Entry(env.settings.fieldMappings, "invoice_number_search"), "XPATH").None?
    ensures var r := UpdateInvoice(env, invoiceNumber, data, username, password, maxRetries, tr);
      && r.outcome == Returned(false)
      && Count(r.trace, PageCheck) == Count(tr, PageCheck) + (if maxRetries > 0 then maxRetries else 0)
  {
    forall h ensures Attempt(env, invoiceNumber, data, username, password, h).outcome.Raised? {
      var (page, t0) := ReadCurrentUrl(env.live, env.oracle, h, PageCheck);
      if page.At? {
        var t1 := Reorient(env, page.url, username, password, t0);
        assert SearchInvoice(env, invoiceNumber, t1).outcome.Raised?;
      }
    }
    RaisingAttemptsExhaustLoop(env, invoiceNumber, data, username, password, maxRetries, 0, tr);
  }

  // ----- the batch -----

  /** A record without an invoice number is skipped: no result, no browser call. */
  lemma RecordWithoutNumberSkipped(env: Env, records: seq<map<string, string>>, record: map<string, string>, tr: seq<Event>)
    requires RecordId(record) == ""
    ensures ProcessRecords(env, records + [record], tr) == ProcessRecords(env, records, tr)
  {
    assert (records + [record])[..|records|] == records;
  }

  /**
   * The result kept for an invoice number is that of its last record, updated with
   * the record's own data minus `invoice_number`, from the browser state the earlier
   * records left.
   */
  lemma {:induction false} LastRecordWins(env: Env, records: seq<map<string, string>>, tr: seq<Event>, i: nat)
    requires i < |records| && RecordId(records[i]) != ""
    requires forall j | i < j < |records| :: RecordId(records[j]) != RecordId(records[i])
    ensures var id := RecordId(records[i]);
      var r := ProcessRecords(env, records, tr);
      id in r.0
      && r.0[id] == UpdateInvoice(env, id, records[i] - {"invoice_number"}, "", "", 3,
                                  ProcessRecords(env, records[..i], tr).1).outcome.ok
    decreases |records|
  {
    var front := records[..|records| - 1];
    var p := ProcessRecords(env, front, tr);
    var record := records[|records| - 1];
    var u := UpdateInvoice(env, RecordId(record), record - {"invoice_number"}, "", "", 3, p.1);
    ProcessLastRecord(env, records, tr);
    if i < |records| - 1 {
      assert front[..i] == records[..i];
      assert front[i] == records[i];
      LastRecordWins(env, front, tr, i);
      StoreKeepsOthers(p, ProcessRecords(env, records, tr), RecordId(records[i]), RecordId(record), u.outcome.ok, u.trace);
    } else {
      assert front == records[..i];
      StoreLast(p, ProcessRecords(env, records, tr), RecordId(record), u.outcome.ok, u.trace);
    }
  }

  lemma StoreLast(p: (map<string, bool>, seq<Event>), r: (map<string, bool>, seq<Event>), id: string,
                  okLast: bool, tLast: seq<Event>)
    requires id != "" && r == if id == "" then p else (p.0[id := okLast], tLast)
    ensures id in r.0 && r.0[id] == okLast
  {
  }

  lemma StoreKeepsOthers(p: (map<string, bool>, seq<Event>), r: (map<string, bool>, seq<Event>), id: string,
                         idLast: string, okLast: bool, tLast: seq<Event>)
    requires r == if idLast == "" then p else (p.0[idLast := okLast], tLast)
    requires idLast != id && id in p.0
    ensures id in r.0 && r.0[id] == p.0[id]
  {
  }

  /** One step of the batch loop: the last record's result is stored over what came before. */
  lemma ProcessLastRecord(env: Env, records: seq<map<string, string>>, tr: seq<Event>)
    requires records != []
    ensures var p := ProcessRecords(env, records[..|records| - 1], tr);
      var record := records[|records| - 1];
      var id := RecordId(record);
      var u := UpdateInvoice(env, id, record - {"invoice_number"}, "", "", 3, p.1);
      ProcessRecords(env, records, tr) == if id == "" then p else (p.0[id := u.outcome.ok], u.trace)
  {
  }

  /** Without a driver every record with a number is reported as failed and nothing reaches the page. */
  lemma {:induction false} OfflineRecordsFail(env: Env, records: seq<map<string, string>>, tr: seq<Event>)
    requires !env.live
    ensures ProcessRecords(env, records, tr).1 == tr
    ensures forall k | k in ProcessRecords(env, records, tr).0 :: !ProcessRecords(env, records, tr).0[k]
  {
    if records != [] {
      OfflineRecordsFail(env, records[..|records| - 1], tr);
    }
  }

  /** With credentials, a failed login is the one way to get the login error. */
  lemma BatchLoginError(env: Env, records: seq<map<string, string>>, username: string, password: string, tr: seq<Event>)
    requires username != "" && password != ""
    ensures UpdateMultipleInvoices(env, records, username, password, tr).result == Failed("Login failed")
            <==> Login(env, username, password, tr).outcome == Returned(false)
  {
  }

  /** After a successful login, a failed module navigation is the one way to get the navigation error. */
  lemma BatchNavigationError(env: Env, records: seq<map<string, string>>, username: string, password: string,
                             tr: seq<Event>)
    requires username != "" && password != ""
    requires Login(env, username, password, tr).outcome == Returned(true)
    ensures UpdateMultipleInvoices(env, records, username, password, tr).result == Failed("Navigation to CRM module failed")
            <==> NavigateToCrmModule(env, Login(env, username, password, tr).trace).outcome == Returned(false)
  {
  }

  /** Without credentials no login is tried and every record is processed from the current page. */
  lemma BatchWithoutCredentials(env: Env, records: seq<map<string, string>>, username: string, password: string,
                                tr: seq<Event>)
    requires username == "" || password == ""
    ensures UpdateMultipleInvoices(env, records, username, password, tr)
            == BatchRun(Updated(ProcessRecords(env, records, tr).0), ProcessRecords(env, records, tr).1)
  {
  }

  /**
   * Without both credentials the batch never fails and logs in nowhere first: the
   * result kept for a number is its last record's update, made from the page the
   * batch started on after the earlier records.
   */
  lemma BatchWithoutLogin(env: Env, records: seq<map<string, string>>, username: string, password: string,
                          tr: seq<Event>, i: nat)
    requires username == "" || password == ""
    requires i < |records| && RecordId(records[i]) != ""
    requires forall j | i < j < |records| :: RecordId(records[j]) != RecordId(records[i])
    ensures var r := UpdateMultipleInvoices(env, records, username, password, tr).result;
      var id := RecordId(records[i]);
      && r.Updated? && id in r.success
      && r.success[id] == UpdateInvoice(env, id, records[i] - {"invoice_number"}, "", "", 3,
                                        ProcessRecords(env, records[..i], tr).1).outcome.ok
  {
    BatchWithoutCredentials(env, records, username, password, tr);
    LastRecordWins(env, records, tr, i);
  }
}
