/**
 * The JSON configuration store of `config.py`: a tree of JSON values with a
 * recursive merge of the user's file into the defaults, lookups by dotted
 * section name, and assignments that create missing intermediate objects.
 *
 * The tree is a value. Where the source changes a nested dictionary in place
 * through a reference, the model rebuilds the path to it.
 */
module NestedConfig {
  import opened Wrappers
  import opened Text

  /** A JSON value as `json.load` gives it. */
  datatype Value =
    | Dict(entries: map<string, Value>)
    | Str(s: string)
    | List(items: seq<Value>)
    | Scalar(text: string)   // a number, `true`, `false` or `null`, by its JSON text

  /** A JSON object: the configuration itself and every section of it. */
  type Tree = map<string, Value>

  // ----- _update_config_recursive -----

  /** Lines 157-160: what key `k` of the source leaves in the target. */
  function MergedAt(target: Tree, source: Value, k: string): Value
    requires source.Dict? && k in source.entries
    decreases source, 0
  {
    var v := source.entries[k];
    if k in target && target[k].Dict? && v.Dict? then Dict(Merge(target[k].entries, v)) else v
  }

  /**
   * Lines 148-160: the target after merging the source into it. Objects present on
   * both sides are merged key by key; any other source value replaces the target's.
   */
  function Merge(target: Tree, source: Value): (r: Tree)
    requires source.Dict?
    ensures r.Keys == target.Keys + source.entries.Keys
    ensures forall k | k in target && k !in source.entries :: r[k] == target[k]
    ensures forall k | k in source.entries && !(k in target && target[k].Dict? && source.entries[k].Dict?) ::
              r[k] == source.entries[k]
    ensures forall k | k in source.entries && k in target && target[k].Dict? && source.entries[k].Dict? ::
              r[k] == Dict(Merge(target[k].entries, source.entries[k]))
    decreases source, 1
  {
    map k | k in target.Keys + source.entries.Keys :: if k in source.entries then MergedAt(target, source, k) else target[k]
  }

  /** Merging an object into itself changes nothing. */
  lemma {:induction false} MergeSelf(s: Value)
    requires s.Dict?
    ensures Merge(s.entries, s) == s.entries
    decreases s
  {
    forall k | k in s.entries ensures Merge(s.entries, s)[k] == s.entries[k] {
      if s.entries[k].Dict? {
        MergeSelf(s.entries[k]);
      }
    }
  }

  /** Merging the same source a second time changes nothing more. */
  lemma {:induction false} MergeIdempotent(t: Tree, s: Value)
    requires s.Dict?
    ensures Merge(Merge(t, s), s) == Merge(t, s)
    decreases s
  {
    var m1 := Merge(t, s);
    var m2 := Merge(m1, s);
    forall k | k in m1 ensures m2[k] == m1[k] {
      if k in s.entries {
        var v := s.entries[k];
        assert m1[k] == MergedAt(t, s, k);
        assert m2[k] == MergedAt(m1, s, k);
        if k in t && t[k].Dict? && v.Dict? {
          MergeIdempotent(t[k].entries, v);
        } else if v.Dict? {
          assert m1[k] == v;
          MergeSelf(v);
        }
      }
    }
    assert m2 == m1;
  }

  /** `p` leads from `v` to `x` through objects that have each key of `p`. */
  ghost predicate Reaches(v: Value, p: seq<string>, x: Value)
    decreases |p|
  {
    if p == [] then v == x
    else v.Dict? && p[0] in v.entries && Reaches(v.entries[p[0]], p[1..], x)
  }

  /** A source value that is no object ends up in the merged tree, at the same place. */
  lemma {:induction false} MergeKeepsSourceLeaf(t: Tree, s: Value, p: seq<string>, x: Value)
    requires s.Dict? && p != [] && Reaches(s, p, x) && !x.Dict?
    ensures Reaches(Dict(Merge(t, s)), p, x)
    decreases |p|
  {
    var k := p[0];
    var v := s.entries[k];
    if k in t && t[k].Dict? && v.Dict? {
      MergeKeepsSourceLeaf(t[k].entries, v, p[1..], x);
    }
  }

  /** The source sets nothing at `p` or above it: along `p` it has objects, and it stops short of the end. */
  ghost predicate Untouched(s: Value, p: seq<string>)
    decreases |p|
  {
    p != [] && s.Dict? && (p[0] !in s.entries || Untouched(s.entries[p[0]], p[1..]))
  }

  /** A target value the source does not reach survives the merge at the same place, however deep. */
  lemma {:induction false} MergeKeepsTargetLeaf(t: Tree, s: Value, p: seq<string>, x: Value)
    requires s.Dict? && Reaches(Dict(t), p, x) && Untouched(s, p)
    ensures Reaches(Dict(Merge(t, s)), p, x)
    decreases |p|
  {
    var k := p[0];
    if k in s.entries {
      var v := s.entries[k];
      assert t[k].Dict?;
      MergeKeepsTargetLeaf(t[k].entries, v, p[1..], x);
    }
  }

  /** Nested objects are merged, not replaced: a key the source does not mention stays. */
  lemma DeepMergeExample()
    ensures Merge(map["a" := Dict(map["x" := Scalar("1"), "y" := Scalar("2")])],
                  Dict(map["a" := Dict(map["x" := Scalar("3")])]))
            == map["a" := Dict(map["x" := Scalar("3"), "y" := Scalar("2")])]
  {
    var inner := Merge(map["x" := Scalar("1"), "y" := Scalar("2")], Dict(map["x" := Scalar("3")]));
    assert inner == map["x" := Scalar("3"), "y" := Scalar("2")];
  }

  // ----- get -----

  /**
   * Lines 175-181: the walk along a split section name. A missing key gives `{}` at
   * once. At a value that is no object, `key in value` is a substring or element test
   * (strings and lists) or a TypeError (other values); a key that is found there
   * raises when it is indexed. `None` stands for the exception.
   */
  function GetPath(v: Value, path: seq<string>): Option<Value>
    decreases |path|
  {
    if path == [] then Some(v)
    else
      var key := path[0];
      match v
      case Dict(m) => if key in m then GetPath(m[key], path[1..]) else Some(Dict(map[]))
      case Str(s) => if Contains(s, key) then None else Some(Dict(map[]))
      case List(items) => if Str(key) in items then None else Some(Dict(map[]))
      case Scalar(_) => None
  }

  /** Lines 172-183: the whole tree for an empty section name, otherwise the walk along its parts. */
  function Section(config: Tree, section: string): (r: Option<Value>)
    ensures section == "" ==> r == Some(Dict(config))
  {
    if section == "" then Some(Dict(config)) else GetPath(Dict(config), Split(section, '.'))
  }

  /** A path through existing objects finds what is there. */
  lemma {:induction false} ReachesGet(v: Value, p: seq<string>, x: Value)
    requires Reaches(v, p, x)
    ensures GetPath(v, p) == Some(x)
    decreases |p|
  {
    if p != [] {
      ReachesGet(v.entries[p[0]], p[1..], x);
    }
  }

  /** A missing key anywhere along the path gives `{}`. */
  lemma {:induction false} MissingSectionIsEmpty(v: Value, p: seq<string>, i: nat, y: Value)
    requires i < |p| && Reaches(v, p[..i], y) && y.Dict? && p[i] !in y.entries
    ensures GetPath(v, p) == Some(Dict(map[]))
    decreases i
  {
    if i > 0 {
      assert p[1..][..i - 1] == p[..i][1..];
      MissingSectionIsEmpty(v.entries[p[0]], p[1..], i - 1, y);
    }
  }

  // ----- set -----

  /**
   * Lines 197-207: the tree with the last part of the path bound to `v`, missing
   * intermediate objects created as `{}`. `None` when an intermediate value is no
   * object, where indexing or assigning into it raises.
   */
  function SetPath(m: Tree, path: seq<string>, v: Value): (r: Option<Tree>)
    requires |path| >= 1
    ensures r.Some? ==> r.value.Keys == m.Keys + {path[0]}
    decreases |path|
  {
    var key := path[0];
    if |path| == 1 then Some(m[key := v])
    else
      var child := if key in m then m[key] else Dict(map[]);
      if !child.Dict? then None
      else
        match SetPath(child.entries, path[1..], v)
        case None => None
        case Some(c) => Some(m[key := Dict(c)])
  }

  /** After a successful assignment the path leads to the value assigned. */
  lemma {:induction false} SetThenGet(m: Tree, p: seq<string>, v: Value)
    requires |p| >= 1 && SetPath(m, p, v).Some?
    ensures Reaches(Dict(SetPath(m, p, v).value), p, v)
    ensures GetPath(Dict(SetPath(m, p, v).value), p) == Some(v)
    decreases |p|
  {
    if |p| > 1 {
      var child := if p[0] in m then m[p[0]] else Dict(map[]);
      SetThenGet(child.entries, p[1..], v);
    }
    ReachesGet(Dict(SetPath(m, p, v).value), p, v);
  }

  /** Every path that leaves `p` at some part `i` reads the same before and after the assignment. */
  lemma {:induction false} SetKeepsOthers(m: Tree, p: seq<string>, v: Value, q: seq<string>, i: nat)
    requires |p| >= 1 && SetPath(m, p, v).Some?
    requires i < |p| && i < |q| && q[..i] == p[..i] && q[i] != p[i]
    ensures GetPath(Dict(SetPath(m, p, v).value), q) == GetPath(Dict(m), q)
    decreases i
  {
    if i > 0 {
      assert q[0] == q[..i][0];
      var child := if p[0] in m then m[p[0]] else Dict(map[]);
      assert q[1..][..i - 1] == q[..i][1..];
      assert p[1..][..i - 1] == p[..i][1..];
      SetKeepsOthers(child.entries, p[1..], v, q[1..], i - 1);
    }
  }

  /** Under a key the tree does not have yet, every intermediate object is created. */
  lemma {:induction false} SetCreatesIntermediates(m: Tree, p: seq<string>, v: Value)
    requires |p| >= 1 && p[0] !in m
    ensures SetPath(m, p, v).Some?
    decreases |p|
  {
    if |p| > 1 {
      if |p[1..]| > 0 {
        SetCreatesIntermediates(map[], p[1..], v);
      }
    }
  }

  /** Every value already present along the path, short of its last part, is an object. */
  ghost predicate OpenPath(m: Tree, p: seq<string>)
    decreases |p|
  {
    |p| <= 1 || p[0] !in m || (m[p[0]].Dict? && OpenPath(m[p[0]].entries, p[1..]))
  }

  /** An assignment succeeds exactly when no value along the way is something other than an object. */
  lemma {:induction false} SetPathSucceeds(m: Tree, p: seq<string>, v: Value)
    requires |p| >= 1
    ensures SetPath(m, p, v).Some? <==> OpenPath(m, p)
    decreases |p|
  {
    if |p| > 1 {
      if p[0] !in m {
        SetCreatesIntermediates(m, p, v);
      } else if m[p[0]].Dict? {
        SetPathSucceeds(m[p[0]].entries, p[1..], v);
      }
    }
  }

  /** Below an existing object that lacks the next part, the rest of the path is created. */
  lemma {:induction false} SetBelowExisting(m: Tree, p: seq<string>, v: Value, i: nat, y: Tree)
    requires i < |p| && Reaches(Dict(m), p[..i], Dict(y)) && p[i] !in y
    ensures SetPath(m, p, v).Some?
    decreases i
  {
    if i == 0 {
      SetCreatesIntermediates(m, p, v);
    } else {
      assert p[..i][0] == p[0];
      assert p[..i][1..] == p[1..][..i - 1];
      assert Reaches(m[p[0]], p[1..][..i - 1], Dict(y));
      assert m[p[0]].Dict?;
      SetBelowExisting(m[p[0]].entries, p[1..], v, i - 1, y);
    }
  }

  /** The section name `crm.url` is the path `crm`, `url`. */
  lemma SplitCrmUrl()
    ensures Split("crm.url", '.') == ["crm", "url"]
  {
    assert '.' in "crm.url" by { assert "crm.url"[3] == '.'; }
    assert IndexOf("crm.url", '.') == 3;
    assert "crm.url"[..3] == "crm";
    assert "crm.url"[4..] == "url";
    assert '.' !in "url";
  }

  // ----- the defaults -----

  const DefaultCrmUrl := "https://mis.bestumrahpackagesuk.com/crm/booking-list"

  function Locator(strategy: string, value: string): Value {
    Dict(map["type" := Str(strategy), "value" := Str(value)])
  }

  function TextField(value: string): Value {
    Dict(map["type" := Str("XPATH"), "value" := Str(value), "field_type" := Str("text")])
  }

  /** Lines 17-94: `DEFAULT_CONFIG`. */
  function DefaultConfig(): Tree {
    map["browser" := Dict(DefaultBrowser()), "crm" := Dict(DefaultCrm()), "excel" := Dict(DefaultExcel())]
  }

  /** Lines 18-21. */
  function DefaultBrowser(): Tree {
    map["headless" := Scalar("false"), "timeout" := Scalar("15")]
  }

  /** Lines 22-86. */
  function DefaultCrm(): Tree {
    map[
      "url" := Str(DefaultCrmUrl),
      "search_invoice" := Dict(map[
        "search_field" := Locator("XPATH", "//input[@placeholder=\"Enter Booking Number\"]"),
        "search_button" := Locator("XPATH", "//button[contains(text(), \"Search\")]"),
        "results_container" := Locator("XPATH", "//div[contains(@class, \"booking-list\")]")]),
      "edit_invoice" := Dict(map[
        "row_locator" := Locator("XPATH", "//div[contains(text(), \"Booking #: SZ {identifier}\")]"),
        "booking_link" := Locator("XPATH", "//div[contains(text(), \"Booking #: SZ {identifier}\")]"),
        "pnr_section" := Locator("XPATH", "//div[contains(text(), \"PNR Details\")]"),
        "add_actual_net_button" := Locator("XPATH", "//button[contains(text(), \"Add Actual Net\")]"),
        "popup_form" := Locator("XPATH", "//div[contains(text(), \"Add / Update Flight Actual Net\")]")]),
      "save_changes" := Dict(map[
        "save_button" := Locator("XPATH", "//button[contains(text(), \"Save\")]"),
        "close_button" := Locator("XPATH", "//button[contains(text(), \"Close\")]"),
        "success_indicator" := Locator("XPATH", "//div[contains(@class, \"alert-success\")]")]),
      "field_mappings" := Dict(map[
        "supplier" := TextField("//input[@placeholder=\"Supplier\"]"),
        "actual_net_cost" := TextField("//input[@placeholder=\"Net Cost\"]")])]
  }

  /** Lines 87-93. */
  function DefaultExcel(): Tree {
    map[
      "default_column_mapping" := Dict(map[
        "invoice_number" := Str("invoice_number"),
        "supplier" := Str("supplier"),
        "actual_net_cost" := Str("actual_net_cost")])]
  }

  /** Lines 104-106 and 115-130: the defaults, with the user's file merged in when it holds an object. */
  function Loaded(file: Option<Value>): Tree {
    if file.Some? && file.value.Dict? then Merge(DefaultConfig(), file.value) else DefaultConfig()
  }

  /** Without a usable file the CRM address is the default one. */
  lemma DefaultUrl(file: Option<Value>)
    requires file.None? || !file.value.Dict?
    ensures Section(Loaded(file), "crm.url") == Some(Str(DefaultCrmUrl))
  {
    SectionCrmUrl(Loaded(file));
    DefaultCrmUrlReached();
    ReachesGet(Dict(DefaultConfig()), ["crm", "url"], Str(DefaultCrmUrl));
  }

  lemma DefaultCrmUrlReached()
    ensures Reaches(Dict(DefaultConfig()), ["crm", "url"], Str(DefaultCrmUrl))
  {
    var crm := DefaultConfig()["crm"];
    assert crm == Dict(DefaultCrm());
    assert crm.entries["url"] == Str(DefaultCrmUrl);
    assert ["crm", "url"][1..] == ["url"];
    assert ["url"][1..] == [];
  }

  /** Reading `crm.url` is the walk along `crm`, `url`. */
  lemma SectionCrmUrl(t: Tree)
    ensures Section(t, "crm.url") == GetPath(Dict(t), ["crm", "url"])
  {
    SplitCrmUrl();
  }

  /** A CRM address in the user's file replaces the default one. */
  lemma UserUrl(file: Value, url: string)
    requires file.Dict? && "crm" in file.entries && file.entries["crm"].Dict?
    requires "url" in file.entries["crm"].entries && file.entries["crm"].entries["url"] == Str(url)
    ensures Section(Loaded(Some(file)), "crm.url") == Some(Str(url))
  {
    MergedUrl(DefaultConfig(), file, url);
  }

  lemma MergedUrl(t: Tree, file: Value, url: string)
    requires file.Dict? && "crm" in file.entries && file.entries["crm"].Dict?
    requires "url" in file.entries["crm"].entries && file.entries["crm"].entries["url"] == Str(url)
    ensures Section(Merge(t, file), "crm.url") == Some(Str(url))
  {
    SectionCrmUrl(Merge(t, file));
    assert Reaches(file, ["crm", "url"], Str(url)) by {
      assert ["crm", "url"][1..] == ["url"];
      assert ["url"][1..] == [];
    }
    MergeKeepsSourceLeaf(t, file, ["crm", "url"], Str(url));
    ReachesGet(Dict(Merge(t, file)), ["crm", "url"], Str(url));
  }

  // ----- the updates built on set -----

  /**
   * Lines 226-234: `config['crm']` must exist (a KeyError otherwise), and
   * `field_mappings` is created under it when missing.
   */
  function FieldMappingUpdate(config: Tree, field: string, fieldConfig: Value): Option<Tree> {
    if "crm" !in config then None else SetPath(config, ["crm", "field_mappings", field], fieldConfig)
  }

  /** Lines 246-251: `config['excel']` must exist and be an object. */
  function ColumnMappingUpdate(config: Tree, mapping: Value): Option<Tree> {
    if "excel" !in config then None else SetPath(config, ["excel", "default_column_mapping"], mapping)
  }

  /** A field-mapping update binds that field and leaves every other field and section as it was. */
  lemma FieldMappingBindsOnlyField(config: Tree, field: string, fieldConfig: Value, other: string, section: string)
    requires FieldMappingUpdate(config, field, fieldConfig).Some?
    ensures var updated := Dict(FieldMappingUpdate(config, field, fieldConfig).value);
      && GetPath(updated, ["crm", "field_mappings", field]) == Some(fieldConfig)
      && (other != field ==>
            GetPath(updated, ["crm", "field_mappings", other]) == GetPath(Dict(config), ["crm", "field_mappings", other]))
      && (section != "crm" ==> GetPath(updated, [section]) == GetPath(Dict(config), [section]))
  {
    var p := ["crm", "field_mappings", field];
    SetThenGet(config, p, fieldConfig);
    if other != field {
      var q := ["crm", "field_mappings", other];
      assert q[..2] == p[..2];
      SetKeepsOthers(config, p, fieldConfig, q, 2);
    }
    if section != "crm" {
      SetKeepsOthers(config, p, fieldConfig, [section], 0);
    }
  }

  /** With a `crm` object and no field mappings yet, the update creates them. */
  lemma FieldMappingCreated(config: Tree, field: string, fieldConfig: Value)
    requires "crm" in config && config["crm"].Dict? && "field_mappings" !in config["crm"].entries
    ensures FieldMappingUpdate(config, field, fieldConfig).Some?
  {
    SetCreatesIntermediates(config["crm"].entries, ["field_mappings", field], fieldConfig);
    assert ["crm", "field_mappings", field][1..] == ["field_mappings", field];
  }

  /** A column-mapping update replaces the whole mapping and nothing else. */
  lemma ColumnMappingReplaces(config: Tree, mapping: Value, key: string)
    requires ColumnMappingUpdate(config, mapping).Some?
    ensures var updated := Dict(ColumnMappingUpdate(config, mapping).value);
      && GetPath(updated, ["excel", "default_column_mapping"]) == Some(mapping)
      && (key != "default_column_mapping" ==>
            GetPath(updated, ["excel", key]) == GetPath(Dict(config), ["excel", key]))
  {
    var p := ["excel", "default_column_mapping"];
    SetThenGet(config, p, mapping);
    if key != "default_column_mapping" {
      var q := ["excel", key];
      assert q[..1] == p[..1];
      SetKeepsOthers(config, p, mapping, q, 1);
    }
  }

  /** With the default tree a column-mapping update always applies. */
  lemma ColumnMappingOnDefaults(mapping: Value)
    ensures ColumnMappingUpdate(DefaultConfig(), mapping).Some?
  {
  }

  /** `Config`: the configuration tree. Saving to the file is its result `saved`. */
  class Config {
    var config: Tree

    /** `Config(path)`: `file` is what `json.load` gave, `None` when the file was missing or unreadable. */
    constructor (file: Option<Value>)
      ensures config == Loaded(file)
    {
      var loaded := DefaultConfig();
      if file.Some? && file.value.Dict? {
        loaded := UpdateRecursive(loaded, file.value);
      }
      config := loaded;
    }

    /** Lines 156-160: the source's keys merged into the target one at a time. */
    static method UpdateRecursive(target: Tree, source: Value) returns (r: Tree)
      requires source.Dict?
      ensures r == Merge(target, source)
      decreases source
    {
      r := target;
      var todo := source.entries.Keys;
      while todo != {}
        invariant todo <= source.entries.Keys
        invariant r.Keys == target.Keys + (source.entries.Keys - todo)
        invariant forall k | k in r :: r[k] == if k in source.entries && k !in todo then MergedAt(target, source, k) else target[k]
        decreases todo
      {
        var key :| key in todo;
        var value := source.entries[key];
        if key in r && r[key].Dict? && value.Dict? {
          var sub := UpdateRecursive(r[key].entries, value);
          r := r[key := Dict(sub)];
        } else {
          r := r[key := value];
        }
        todo := todo - {key};
      }
    }

    /** Lines 172-183: the section, `{}` at the first missing key, `None` when the walk raises. */
    method Get(section: string) returns (r: Option<Value>)
      ensures r == Section(config, section)
    {
      if section == "" {
        return Some(Dict(config));
      }
      var path := Split(section, '.');
      var result := Dict(config);
      for i := 0 to |path|
        invariant GetPath(Dict(config), path) == GetPath(result, path[i..])
      {
        var key := path[i];
        assert path[i..][1..] == path[i + 1..];
        match result
        case Dict(m) =>
          if key in m {
            result := m[key];
          } else {
            return Some(Dict(map[]));
          }
        case Str(s) =>
          if Contains(s, key) {
            return None;
          }
          return Some(Dict(map[]));
        case List(items) =>
          if Str(key) in items {
            return None;
          }
          return Some(Dict(map[]));
        case Scalar(_) =>
          return None;
      }
      return Some(result);
    }

    /** Lines 196-213: on success the tree is updated and the result is whether saving worked. */
    method Set(section: string, value: Value, saved: bool) returns (ok: bool)
      modifies this
      ensures var r := SetPath(old(config), Split(section, '.'), value);
        && (r.Some? ==> config == r.value && ok == saved)
        && (r.None? ==> config == old(config) && !ok)
    {
      var r := SetPath(config, Split(section, '.'), value);
      if r.None? {
        return false;
      }
      config := r.value;
      return saved;
    }

    /** Lines 226-234. */
    method UpdateFieldMapping(field: string, fieldConfig: Value, saved: bool) returns (ok: bool)
      modifies this
      ensures var r := FieldMappingUpdate(old(config), field, fieldConfig);
        && (r.Some? ==> config == r.value && ok == saved)
        && (r.None? ==> config == old(config) && !ok)
    {
      var r := FieldMappingUpdate(config, field, fieldConfig);
      if r.None? {
        return false;
      }
      config := r.value;
      return saved;
    }

    /** Lines 246-251. */
    method UpdateColumnMapping(mapping: Value, saved: bool) returns (ok: bool)
      modifies this
      ensures var r := ColumnMappingUpdate(old(config), mapping);
        && (r.Some? ==> config == r.value && ok == saved)
        && (r.None? ==> config == old(config) && !ok)
    {
      var r := ColumnMappingUpdate(config, mapping);
      if r.None? {
        return false;
      }
      config := r.value;
      return saved;
    }

    /** Line 263: exactly `set('crm.url', url)`. */
    method SetCrmUrl(url: string, saved: bool) returns (ok: bool)
      modifies this
      ensures var r := SetPath(old(config), ["crm", "url"], Str(url));
        && (r.Some? ==> config == r.value && ok == saved)
        && (r.None? ==> config == old(config) && !ok)
    {
      SplitCrmUrl();
      ok := Set("crm.url", Str(url), saved);
    }
  }

  /** After `set`, `get` of the same non-empty section name gives the value assigned. */
  lemma SectionAfterSet(config: Tree, section: string, v: Value)
    requires section != "" && SetPath(config, Split(section, '.'), v).Some?
    ensures Section(SetPath(config, Split(section, '.'), v).value, section) == Some(v)
  {
    SetThenGet(config, Split(section, '.'), v);
  }

  /** After `set_crm_url` the CRM address reads back as given and every other section is unchanged. */
  lemma CrmUrlAfterSet(config: Tree, url: string, section: string)
    requires SetPath(config, ["crm", "url"], Str(url)).Some?
    ensures Section(SetPath(config, ["crm", "url"], Str(url)).value, "crm.url") == Some(Str(url))
    ensures section != "crm" ==>
      GetPath(Dict(SetPath(config, ["crm", "url"], Str(url)).value), [section]) == GetPath(Dict(config), [section])
  {
    SplitCrmUrl();
    SectionAfterSet(config, "crm.url", Str(url));
    if section != "crm" {
      SetKeepsOthers(config, ["crm", "url"], Str(url), [section], 0);
    }
  }
}
