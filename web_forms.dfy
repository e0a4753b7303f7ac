/**
 * The rules of the web front end (`simple_main.py`) that do not depend on Flask:
 * which uploads are spreadsheets, when a submitted column mapping is accepted,
 * how the configured default mapping is checked against the sheet, and the
 * command line handed to the automation.
 */
module WebForms {
  import opened Wrappers
  import opened Text
  import opened Dicts

  // ----- allowed_file -----

  /** Line 31: `ALLOWED_EXTENSIONS`. */
  const AllowedExtensions: set<string> := {"xlsx", "xls"}

  /** Lines 39-41: the text after the last dot, lower-cased, is an allowed extension. */
  predicate AllowedFile(filename: string) {
    '.' in filename && Lower(filename[LastIndexOf(filename, '.') + 1..]) in AllowedExtensions
  }

  /** A name without a dot is never allowed. */
  lemma NoDotNotAllowed(filename: string)
    requires '.' !in filename
    ensures !AllowedFile(filename)
  {
  }

  /** Only the part after the last dot counts, in any case. */
  lemma AllowedFileExtension(name: string, ext: string)
    requires '.' !in ext
    ensures AllowedFile(name + "." + ext) <==> Lower(ext) in AllowedExtensions
  {
    var f := name + "." + ext;
    assert f[|name|] == '.';
    assert f[|name| + 1..] == ext;
  }

  /** Both extensions are allowed, in any case. */
  lemma AllowedExamples()
    ensures AllowedFile("a.XLSX")
    ensures AllowedFile("report.xls")
  {
    assert "a.XLSX" == "a" + "." + "XLSX";
    assert Lower("XLSX") == "xlsx";
    AllowedFileExtension("a", "XLSX");
    assert "report.xls" == "report" + "." + "xls";
    assert Lower("xls") == "xls";
    AllowedFileExtension("report", "xls");
  }

  /** Only the last extension counts, and a bare extension without a dot is no file name. */
  lemma NotAllowedExamples()
    ensures !AllowedFile("a.xlsx.txt")
    ensures !AllowedFile("xlsx")
  {
    assert "a.xlsx.txt" == "a.xlsx" + "." + "txt";
    assert Lower("txt") == "txt";
    AllowedFileExtension("a.xlsx", "txt");
    NoDotNotAllowed("xlsx");
  }

  // ----- map_columns: the submitted mapping -----

  /** Line 162: the CRM fields a mapping must name. */
  const RequiredFields: seq<string> := ["invoice_number", "supplier", "actual_net_cost"]

  /** Line 167: the form names a non-empty value for the field, and it is a sheet column. */
  predicate Accepts(form: map<string, string>, columns: seq<string>, field: string) {
    field in form && form[field] != "" && form[field] in columns
  }

  /** Lines 165-170: the accepted fields bound to their columns, in field order. */
  function Mapped(form: map<string, string>, columns: seq<string>, fields: seq<string>): Dict<string>
    decreases |fields|
  {
    if fields == [] then []
    else
      var f := fields[|fields| - 1];
      var rest := Mapped(form, columns, fields[..|fields| - 1]);
      if Accepts(form, columns, f) then Put(rest, f, form[f]) else rest
  }

  /** Lines 165-170: the fields not accepted, in field order. */
  function Missing(form: map<string, string>, columns: seq<string>, fields: seq<string>): seq<string>
    decreases |fields|
  {
    if fields == [] then []
    else
      var f := fields[|fields| - 1];
      var rest := Missing(form, columns, fields[..|fields| - 1]);
      if Accepts(form, columns, f) then rest else rest + [f]
  }

  /** A field is missing exactly when it is required and not accepted. */
  lemma {:induction false} MissingExactly(form: map<string, string>, columns: seq<string>, fields: seq<string>, f: string)
    ensures f in Missing(form, columns, fields) <==> f in fields && !Accepts(form, columns, f)
    decreases |fields|
  {
    if fields != [] {
      var front := fields[..|fields| - 1];
      MissingExactly(form, columns, front, f);
      assert fields == front + [fields[|fields| - 1]];
    }
  }

  /** A field is mapped exactly when it is required and accepted. */
  lemma {:induction false} MappedExactly(form: map<string, string>, columns: seq<string>, fields: seq<string>)
    ensures KeySet(Mapped(form, columns, fields)) == set f | f in fields && Accepts(form, columns, f)
    decreases |fields|
  {
    if fields != [] {
      var front := fields[..|fields| - 1];
      MappedExactly(form, columns, front);
      assert fields == front + [fields[|fields| - 1]];
    }
  }

  /** A mapped field is bound to the column the form chose for it. */
  lemma {:induction false} MappedColumn(form: map<string, string>, columns: seq<string>, fields: seq<string>, f: string)
    requires f in fields && Accepts(form, columns, f)
    ensures Get(Mapped(form, columns, fields), f) == Some(form[f])
    decreases |fields|
  {
    var front := fields[..|fields| - 1];
    var last := fields[|fields| - 1];
    if Accepts(form, columns, last) {
      GetPut(Mapped(form, columns, front), last, form[last], f);
    }
    if f != last {
      assert fields == front + [last];
      MappedColumn(form, columns, front, f);
    }
  }

  /** The mapping is accepted exactly when every required field is accepted. */
  lemma AcceptedIffAllMapped(form: map<string, string>, columns: seq<string>)
    ensures Missing(form, columns, RequiredFields) == [] <==>
            forall i | 0 <= i < |RequiredFields| :: Accepts(form, columns, RequiredFields[i])
  {
    if Missing(form, columns, RequiredFields) == [] {
      forall i | 0 <= i < |RequiredFields| ensures Accepts(form, columns, RequiredFields[i]) {
        MissingExactly(form, columns, RequiredFields, RequiredFields[i]);
      }
    } else {
      var f := Missing(form, columns, RequiredFields)[0];
      MissingExactly(form, columns, RequiredFields, f);
    }
  }

  /** Lines 161-177: the mapping built from the form, the fields missing, and whether it is accepted. */
  method MapColumns(form: map<string, string>, columns: seq<string>)
    returns (mapping: Dict<string>, missing: seq<string>, accepted: bool)
    ensures mapping == Mapped(form, columns, RequiredFields)
    ensures missing == Missing(form, columns, RequiredFields)
    ensures accepted <==> missing == []
  {
    mapping := [];
    missing := [];
    for i := 0 to |RequiredFields|
      invariant mapping == Mapped(form, columns, RequiredFields[..i])
      invariant missing == Missing(form, columns, RequiredFields[..i])
    {
      assert RequiredFields[..i + 1][..i] == RequiredFields[..i];
      var field := RequiredFields[i];
      if field in form && form[field] != "" && form[field] in columns {
        mapping := Put(mapping, field, form[field]);
      } else {
        missing := missing + [field];
      }
    }
    assert RequiredFields[..|RequiredFields|] == RequiredFields;
    accepted := missing == [];
  }

  // ----- map_columns: the default mapping -----

  /** Lines 200-204: the mapping used when the configuration has none. */
  const BuiltInMapping: Dict<string> :=
    [("invoice_number", "Booking No"), ("supplier", "Supplier"), ("actual_net_cost", "Actual Net Cost")]

  /** Lines 207-210: every entry kept, its column blanked when the sheet has no such column. */
  function Blanked(mapping: Dict<string>, columns: seq<string>): Dict<string> {
    seq(|mapping|, i requires 0 <= i < |mapping| =>
      (mapping[i].0, if mapping[i].1 in columns then mapping[i].1 else ""))
  }

  /** Blanking keeps every field, in order, and changes exactly the columns the sheet lacks. */
  lemma BlankedExactly(mapping: Dict<string>, columns: seq<string>)
    ensures |Blanked(mapping, columns)| == |mapping|
    ensures forall i | 0 <= i < |mapping| :: Blanked(mapping, columns)[i].0 == mapping[i].0
    ensures forall i | 0 <= i < |mapping| ::
              (Blanked(mapping, columns)[i].1 == mapping[i].1 <==> mapping[i].1 in columns || mapping[i].1 == "")
    ensures forall i | 0 <= i < |mapping| && mapping[i].1 !in columns :: Blanked(mapping, columns)[i].1 == ""
  {
  }

  /** After blanking, every column named is a sheet column or empty; blanking again changes nothing. */
  lemma BlankedIdempotent(mapping: Dict<string>, columns: seq<string>)
    ensures forall i | 0 <= i < |mapping| :: Blanked(mapping, columns)[i].1 in columns || Blanked(mapping, columns)[i].1 == ""
    ensures Blanked(Blanked(mapping, columns), columns) == Blanked(mapping, columns)
  {
  }

  /** Lines 196-210: the configured mapping, or the built-in one when it is empty, checked against the sheet. */
  method DefaultMapping(configured: Dict<string>, columns: seq<string>) returns (mapping: Dict<string>)
    ensures mapping == Blanked(if configured == [] then BuiltInMapping else configured, columns)
  {
    mapping := if configured == [] then BuiltInMapping else configured;
    ghost var start := mapping;
    for i := 0 to |mapping|
      invariant |mapping| == |start|
      invariant forall j | 0 <= j < i :: mapping[j] == Blanked(start, columns)[j]
      invariant forall j | i <= j < |mapping| :: mapping[j] == start[j]
    {
      if mapping[i].1 !in columns {
        mapping := mapping[i := (mapping[i].0, "")];
      }
    }
  }

  /** With a sheet whose columns match the built-in names, the built-in mapping survives whole. */
  lemma BuiltInMappingKept(columns: seq<string>)
    requires "Booking No" in columns && "Supplier" in columns && "Actual Net Cost" in columns
    ensures Blanked(BuiltInMapping, columns) == BuiltInMapping
  {
  }

  // ----- prepare_automation -----

  /** Line 242: how every command begins. */
  function CommandStart(path: string): string {
    "python run.py --excel \"" + path + "\""
  }

  /**
   * Lines 242-250: the command line of the automation. `delay` is the text the
   * float formats to and `mappingJson` the text `json.dumps` gives for the mapping.
   */
  function Command(path: string, headless: bool, delay: string, mapping: Dict<string>, mappingJson: string): string {
    CommandStart(path)
    + (if headless then " --headless" else "")
    + " --delay " + delay
    + (if mapping != [] then " --column-mapping '" + mappingJson + "'" else "")
  }

  /** Lines 242-250: the command built by successive appends. */
  method BuildCommand(path: string, headless: bool, delay: string, mapping: Dict<string>, mappingJson: string)
    returns (command: string)
    ensures command == Command(path, headless, delay, mapping, mappingJson)
  {
    command := "python run.py --excel \"" + path + "\"";
    if headless {
      command := command + " --headless";
    }
    command := command + " --delay " + delay;
    if mapping != [] {
      command := command + " --column-mapping '" + mappingJson + "'";
    }
  }

  /** The command always begins with the script and the quoted path, and always passes the delay. */
  lemma CommandAlwaysHas(path: string, headless: bool, delay: string, mapping: Dict<string>, mappingJson: string)
    ensures StartsWith(Command(path, headless, delay, mapping, mappingJson), CommandStart(path))
    ensures Contains(Command(path, headless, delay, mapping, mappingJson), " --delay " + delay)
  {
    var c := Command(path, headless, delay, mapping, mappingJson);
    var head := CommandStart(path) + (if headless then " --headless" else "");
    var d := " --delay " + delay;
    assert c == head + d + (if mapping != [] then " --column-mapping '" + mappingJson + "'" else "");
    assert c[..|CommandStart(path)|] == CommandStart(path);
    assert OccursAt(c, d, |head|) by {
      assert c[|head|..|head| + |d|] == d;
    }
  }

  /** With `--headless` the flag follows the path; with a mapping the command passes it. */
  lemma CommandFlags(path: string, headless: bool, delay: string, mapping: Dict<string>, mappingJson: string)
    ensures headless ==> Contains(Command(path, headless, delay, mapping, mappingJson), " --headless")
    ensures mapping != [] ==> Contains(Command(path, headless, delay, mapping, mappingJson), " --column-mapping '" + mappingJson + "'")
  {
    var c := Command(path, headless, delay, mapping, mappingJson);
    var start := CommandStart(path);
    if headless {
      assert OccursAt(c, " --headless", |start|) by {
        assert c[|start|..|start| + 11] == " --headless";
      }
    }
    if mapping != [] {
      var m := " --column-mapping '" + mappingJson + "'";
      var before := start + (if headless then " --headless" else "") + " --delay " + delay;
      assert c == before + m;
      assert OccursAt(c, m, |before|) by {
        assert c[|before|..|before| + |m|] == m;
      }
    }
  }

  /** The flag text alone does not show the run is headless: a path may contain it. */
  lemma FlagTextInPath(delay: string)
    ensures Contains(Command(" --headless", false, delay, [], ""), " --headless")
  {
    var c := Command(" --headless", false, delay, [], "");
    var k := |"python run.py --excel \""|;
    assert c == "python run.py --excel \"" + " --headless" + "\"" + " --delay " + delay;
    assert OccursAt(c, " --headless", k) by {
      assert c[k..k + 11] == " --headless";
    }
  }

  /** For one path and delay, the command tells whether the run is headless and whether a mapping was passed. */
  lemma CommandDeterminesFlags(path: string, delay: string, h1: bool, m1: Dict<string>, j1: string,
                               h2: bool, m2: Dict<string>, j2: string)
    requires Command(path, h1, delay, m1, j1) == Command(path, h2, delay, m2, j2)
    ensures h1 == h2
    ensures (m1 == []) == (m2 == [])
  {
    var start := CommandStart(path);
    var c1 := Command(path, h1, delay, m1, j1);
    var c2 := Command(path, h2, delay, m2, j2);
    assert c1[|start| + 3] == (if h1 then 'h' else 'd');
    assert c2[|start| + 3] == (if h2 then 'h' else 'd');
    var before := start + (if h1 then " --headless" else "") + " --delay " + delay;
    assert c1 == before + (if m1 != [] then " --column-mapping '" + j1 + "'" else "");
    assert c2 == before + (if m2 != [] then " --column-mapping '" + j2 + "'" else "");
    assert |c1| == |before| <==> m1 == [];
    assert |c2| == |before| <==> m2 == [];
  }
}
