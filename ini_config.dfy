/**
 * The INI settings of `config_manager.py`: sections of string-valued keys read
 * with a default, converted to integers and booleans the way the source does,
 * and the table of defaults written when no settings file exists.
 */
module IniConfig {
  import opened Wrappers
  import opened Text

  /** Section name to key to value, as configparser holds them. */
  type Sections = map<string, map<string, string>>

  /** Lines 125-131: the stored value when the section and the key exist, the default otherwise. */
  function Get(sections: Sections, section: string, key: string, default: Option<string>): Option<string> {
    if section in sections && key in sections[section] then Some(sections[section][key]) else default
  }

  /** Lines 145-152: the value as `int()` reads it; the default when it is missing or no integer. */
  function GetInt(sections: Sections, section: string, key: string, default: int): int {
    match Get(sections, section, key, None)
    case None => default
    case Some(v) => ParseInt(v).GetOr(default)
  }

  /** The words `get_boolean` takes for true. */
  const TrueWords: set<string> := {"true", "yes", "1", "on"}

  /** Lines 187-194: a stored value is true exactly when it is one of the words, in any case. */
  function GetBoolean(sections: Sections, section: string, key: string, default: bool): bool {
    match Get(sections, section, key, None)
    case None => default
    case Some(v) => Lower(v) in TrueWords
  }

  /** Lines 210-214: the section is created when missing and the key bound to the value's text. */
  function Put(sections: Sections, section: string, key: string, value: string): (r: Sections)
    ensures r.Keys == sections.Keys + {section}
  {
    var entries := if section in sections then sections[section] else map[];
    sections[section := entries[key := value]]
  }

  // ----- properties of the lookups -----

  /** A value that was set reads back, whatever the default. */
  lemma GetAfterPut(sections: Sections, section: string, key: string, value: string, default: Option<string>)
    ensures Get(Put(sections, section, key, value), section, key, default) == Some(value)
  {
  }

  /** Setting one key leaves every other key of every section as it was. */
  lemma PutKeepsOthers(sections: Sections, section: string, key: string, value: string,
                       otherSection: string, otherKey: string, default: Option<string>)
    requires otherSection != section || otherKey != key
    ensures Get(Put(sections, section, key, value), otherSection, otherKey, default)
            == Get(sections, otherSection, otherKey, default)
  {
  }

  /** A missing section or key gives the default, and only then is the default returned unseen. */
  lemma GetDefault(sections: Sections, section: string, key: string, default: Option<string>)
    ensures (section !in sections || key !in sections[section]) <==>
            Get(sections, section, key, None).None?
    ensures Get(sections, section, key, None).None? ==> Get(sections, section, key, default) == default
  {
  }

  /** A missing section or key reads as the default integer. */
  lemma GetIntAbsent(sections: Sections, section: string, key: string, default: int)
    requires section !in sections || key !in sections[section]
    ensures GetInt(sections, section, key, default) == default
  {
  }

  /** A missing section or key reads as the default truth value. */
  lemma GetBooleanAbsent(sections: Sections, section: string, key: string, default: bool)
    requires section !in sections || key !in sections[section]
    ensures GetBoolean(sections, section, key, default) == default
  {
  }

  /** An integer that was stored as text reads back as that integer. */
  lemma GetIntAfterPut(sections: Sections, section: string, key: string, n: int, default: int)
    ensures GetInt(Put(sections, section, key, IntToString(n)), section, key, default) == n
  {
    ParseIntToString(n);
  }

  /** A value that was set but is no integer reads back as the default. */
  lemma GetIntUnparsable(sections: Sections, section: string, key: string, value: string, default: int)
    requires ParseInt(value).None?
    ensures GetInt(Put(sections, section, key, value), section, key, default) == default
  {
  }

  /** A word or an empty value is no integer. */
  lemma ParseIntRejects()
    ensures ParseInt("abc") == None
    ensures ParseInt("") == None
  {
    StripNoSpace("abc");
    assert !IsDigit("abc"[0]);
  }

  /** A stored value, read as a boolean, is whether it is one of the true words. */
  lemma GetBooleanAfterPut(sections: Sections, section: string, key: string, value: string, default: bool)
    ensures GetBoolean(Put(sections, section, key, value), section, key, default) == (Lower(value) in TrueWords)
  {
  }

  /**
   * Once a value is set the default no longer matters: a value outside the true
   * words reads as false even when the default is true.
   */
  lemma GetBooleanPresentIsNotDefault(sections: Sections, section: string, key: string, value: string)
    ensures GetBoolean(Put(sections, section, key, value), section, key, true)
            == GetBoolean(Put(sections, section, key, value), section, key, false)
    ensures Lower(value) !in TrueWords ==> !GetBoolean(Put(sections, section, key, value), section, key, true)
  {
  }

  /** The true words are matched in any case; any other text is false. */
  lemma TrueWordsExamples()
    ensures Lower("Yes") in TrueWords && Lower("ON") in TrueWords && Lower("TRUE") in TrueWords
    ensures Lower("false") !in TrueWords && Lower("enabled") !in TrueWords && Lower("") !in TrueWords
  {
    assert Lower("Yes") == "yes";
    assert Lower("ON") == "on";
    assert Lower("TRUE") == "true";
    assert Lower("false") == "false";
    assert |Lower("enabled")| == 7;
  }

  // ----- the defaults -----

  /** Lines 47-103: the sections `_create_default_config` writes. */
  function DefaultSections(): Sections {
    map["General" := DefaultGeneral(), "WhatsApp" := DefaultWhatsApp(), "OCR" := DefaultOcr(),
        "CRM" := DefaultCrm(), "Email" := DefaultEmail()]
  }

  /** Lines 47-52. */
  function DefaultGeneral(): map<string, string> {
    map[
      "check_interval_seconds" := "30",
      "error_retry_seconds" := "60",
      "temp_dir" := "temp",
      "log_level" := "INFO"]
  }

  /** Lines 55-61. */
  function DefaultWhatsApp(): map<string, string> {
    map[
      "group_name" := "Payment Confirmation Group",
      "whatsapp_window_title" := "WhatsApp",
      "message_check_interval" := "5",
      "verification_timeout" := "3600",
      "verification_keywords" := "received, confirmed, approved"]
  }

  /** Lines 64-70. */
  function DefaultOcr(): map<string, string> {
    map[
      "tesseract_path" := "C:\\Program Files\\Tesseract-OCR\\tesseract.exe",
      "language" := "eng",
      "invoice_number_regex" := "[Ii]nvoice\\s*#?\\s*(\\w+)",
      "amount_regex" := "(?:USD|£|₹|€|Rs\\.?|INR|$)?\\s*(\\d+(?:[,.]\\d+)?)",
      "date_regex" := "(\\d{1,2}[-/\\.]\\d{1,2}[-/\\.]\\d{2,4})"]
  }

  /** Lines 73-84. */
  function DefaultCrm(): map<string, string> {
    map[
      "crm_window_title" := "CRM System",
      "search_button_x" := "500",
      "search_button_y" := "300",
      "payment_field_x" := "600",
      "payment_field_y" := "400",
      "save_button_x" := "700",
      "save_button_y" := "500",
      "download_button_x" := "750",
      "download_button_y" := "550",
      "action_delay" := "1.5"]
  }

  /** Lines 87-103. */
  function DefaultEmail(): map<string, string> {
    map[
      "email_client_title" := "Outlook",
      "compose_button_x" := "800",
      "compose_button_y" := "600",
      "to_field_x" := "850",
      "to_field_y" := "650",
      "subject_field_x" := "850",
      "subject_field_y" := "680",
      "body_field_x" := "850",
      "body_field_y" := "720",
      "attach_button_x" := "920",
      "attach_button_y" := "780",
      "send_button_x" := "900",
      "send_button_y" := "700",
      "subject_template" := "Payment Confirmation: Invoice #{invoice_number}",
      "email_template_path" := "templates/payment_confirmation_email.txt"]
  }

  /** Whatever was there before, after the defaults are written the two intervals read as 30 and 60 seconds. */
  lemma DefaultIntervals(before: Sections)
    ensures GetInt(before + DefaultSections(), "General", "check_interval_seconds", 0) == 30
    ensures GetInt(before + DefaultSections(), "General", "error_retry_seconds", 0) == 60
  {
    GeneralDefaults();
    UnionRight(before, DefaultSections(), "General");
    IntervalsOf(before + DefaultSections());
  }

  lemma GeneralDefaults()
    ensures "General" in DefaultSections() && DefaultSections()["General"] == DefaultGeneral()
  {
  }

  lemma UnionRight(before: Sections, after: Sections, k: string)
    requires k in after
    ensures k in before + after && (before + after)[k] == after[k]
  {
  }

  lemma IntervalsOf(sections: Sections)
    requires "General" in sections && sections["General"] == DefaultGeneral()
    ensures GetInt(sections, "General", "check_interval_seconds", 0) == 30
    ensures GetInt(sections, "General", "error_retry_seconds", 0) == 60
  {
    assert DefaultGeneral()["check_interval_seconds"] == IntToString(30) by {
      assert NatToString(3) == "3";
    }
    assert DefaultGeneral()["error_retry_seconds"] == IntToString(60) by {
      assert NatToString(6) == "6";
    }
    ParseIntToString(30);
    ParseIntToString(60);
  }

  lemma EmptyUnion(m: Sections)
    ensures map[] + m == m
  {
  }

  /**
   * What reading the settings file gave. `configparser.read` skips a file it cannot
   * open without raising; a parse error raises after the sections before it were read.
   */
  datatype SettingsFile =
    | Missing                          // `os.path.exists` is false
    | Unreadable                       // it exists, but cannot be opened
    | Parsed(sections: Sections)       // read in full
    | ParseError(partial: Sections)    // reading raised; `partial` is what was read before

  /** `ConfigManager`: the settings held in memory. Writing the file is the result `written`. */
  class ConfigManager {
    var sections: Sections

    /**
     * Lines 12-39: a missing file gives the defaults; an unreadable one gives no
     * sections at all; a parse error keeps what was read and then writes the
     * defaults over it.
     */
    constructor (file: SettingsFile)
      ensures file.Missing? ==> sections == DefaultSections()
      ensures file.Unreadable? ==> sections == map[]
      ensures file.Parsed? ==> sections == file.sections
      ensures file.ParseError? ==> sections == file.partial + DefaultSections()
    {
      sections := map[];
      new;
      match file
      case Missing =>
        CreateDefaults();
        EmptyUnion(DefaultSections());
      case Unreadable =>
      case Parsed(read) =>
        sections := read;
      case ParseError(partial) =>
        sections := partial;
        CreateDefaults();
    }

    /** Lines 41-111: the five default sections replace any of the same name; the rest stay. */
    method CreateDefaults()
      modifies this
      ensures sections == old(sections) + DefaultSections()
    {
      sections := sections + DefaultSections();
    }

    /**
     * Lines 196-223: the value is stored in memory even when writing the file fails;
     * the result says whether the file was written.
     */
    method Set(section: string, key: string, value: string, written: bool) returns (ok: bool)
      modifies this
      ensures sections == Put(old(sections), section, key, value)
      ensures ok == written
    {
      if section !in sections {
        sections := sections[section := map[]];
      }
      sections := sections[section := sections[section][key := value]];
      ok := written;
    }
  }
}
