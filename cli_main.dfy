/** The decisions of src/mangadm/cli/main.py: the chapter-limit prompt's validator and
    filter, the download command's option defaults read from the saved settings, and the
    rule that the configuration answers are saved only when `save_defaults` is truthy. */
module CliMain {
  import opened Wrappers
  import opened Strings
  import opened Json
  import CliUtil

  // ---------------------------------------------------------------------------------------
  // The limit prompt

  /** The validate lambda: "-1", or a digit string whose value is above 0. */
  predicate ValidLimit(r: string) {
    r == "-1" || (IsDigits(r) && DigitsValue(r) > 0)
  }

  /** The filter lambda: int(r) for "-1" or a digit string, -1 for anything else. */
  function FilterLimit(r: string): (n: int)
    ensures n >= -1
    ensures n == -1 ==> r == "-1" || !IsDigits(r)
  {
    if r == "-1" then -1 else if IsDigits(r) then DigitsValue(r) else -1
  }

  /** The validator accepts "-1" and the digit strings holding a digit other than '0', and
      nothing else: "0", "00", "" and "-5" are refused. */
  lemma ValidLimitIff(r: string)
    ensures ValidLimit(r) <==> r == "-1" || (IsDigits(r) && exists i :: 0 <= i < |r| && r[i] != '0')
  {
    if IsDigits(r) {
      DigitsValueZero(r);
    }
  }

  /** Every accepted answer filters to -1 (only "-1" does) or to a positive count. */
  lemma ValidatedFilters(r: string)
    requires ValidLimit(r)
    ensures FilterLimit(r) == -1 || FilterLimit(r) > 0
    ensures FilterLimit(r) == -1 <==> r == "-1"
  {
  }

  /** The prompt's default is `str` of the saved limit; when that limit is -1 or positive the
      default is accepted and filters back to the same limit. */
  lemma DefaultAnswerRoundTrip(n: int)
    requires n == -1 || n > 0
    ensures ValidLimit(IntToString(n)) && FilterLimit(IntToString(n)) == n
  {
    if n == -1 {
      assert NatToString(1) == "1";
      assert IntToString(n) == "-1";
    } else {
      assert IntToString(n) != "-1" by {
        assert IsDigit(IntToString(n)[0]);
      }
    }
  }

  /** A leading zero changes neither whether an answer is accepted nor, for a non-empty
      answer, what the filter makes of it. "-1" is the exception: "0-1" is refused. */
  lemma LeadingZeroIgnored(r: string)
    requires r != "-1"
    ensures ValidLimit("0" + r) <==> ValidLimit(r)
    ensures r != "" ==> FilterLimit("0" + r) == FilterLimit(r)
  {
    var z := "0" + r;
    assert z[0] == '0' && z != "-1";
    if IsDigits(r) {
      ZerosPrefixValue(1, r);
      assert Zeros(1) + r == z;
      assert IsDigits(z) && DigitsValue(z) == DigitsValue(r);
    } else if r == "" {
      assert z == "0" && DigitsValue(z) == 0;
    } else {
      var j :| 0 <= j < |r| && !IsDigit(r[j]);
      assert z[j + 1] == r[j];
      assert !IsDigits(z);
    }
  }

  // ---------------------------------------------------------------------------------------
  // The download command's defaults

  /** The option defaults of the download command, as the saved values themselves (click
      takes whatever type the saved value has). */
  datatype Options = Options(dest: Json, limit: Json, delete: Json, format: Json, updateDetails: Json)

  /** The defaults, `settings.get(key, fallback)` for each option; `get` on a value that is not
      a dict raises AttributeError. */
  function DownloadDefaults(settings: Json): (r: Result<Options>)
    ensures r.Ok? <==> settings.JObj?
    ensures r.Err? ==> r.error.AttributeError?
    ensures r.Ok? ==>
      r.value.dest == GetOr(settings.fields, "dest", JStr(".")) &&
      r.value.limit == GetOr(settings.fields, "limit", JInt(-1)) &&
      r.value.delete == GetOr(settings.fields, "delete", JBool(false)) &&
      r.value.format == GetOr(settings.fields, "format", JStr("cbz")) &&
      r.value.updateDetails == GetOr(settings.fields, "update_details", JBool(false))
  {
    match settings
    case JObj(fields) =>
      Ok(Options(GetOr(fields, "dest", JStr(".")), GetOr(fields, "limit", JInt(-1)),
                 GetOr(fields, "delete", JBool(false)), GetOr(fields, "format", JStr("cbz")),
                 GetOr(fields, "update_details", JBool(false))))
    case _ => Err(AttributeError("'" + TypeName(settings) + "' object has no attribute 'get'"))
  }

  function TypeName(j: Json): string {
    match j
    case JNull => "NoneType"
    case JBool(_) => "bool"
    case JInt(_) => "int"
    case JStr(_) => "str"
    case JArr(_) => "list"
    case JObj(_) => "dict"
  }

  /** With nothing saved, the defaults are ".", -1, no deletion, "cbz" and no detail update. */
  lemma FreshDefaults()
    ensures DownloadDefaults(CliUtil.EmptySettings) ==
      Ok(Options(JStr("."), JInt(-1), JBool(false), JStr("cbz"), JBool(false)))
  {
  }

  // ---------------------------------------------------------------------------------------
  // configure

  /** The answers of the configuration prompt, the limit already filtered. */
  datatype Answers = Answers(dest: string, limit: int, format: string, delete: bool,
                             updateDetails: bool, saveDefaults: bool)

  /** The answers as the dict the prompt returns, keyed in question order. */
  function AnswersDict(a: Answers): (j: Json)
    ensures j.JObj? && |j.fields| == 6
  {
    JObj([("dest", JStr(a.dest)), ("limit", JInt(a.limit)), ("format", JStr(a.format)),
          ("delete", JBool(a.delete)), ("update_details", JBool(a.updateDetails)),
          ("save_defaults", JBool(a.saveDefaults))])
  }

  /** configure after the prompt: the settings written, which are the answers themselves,
      only when `answers.get("save_defaults")` is truthy; None when nothing is written. */
  function SavedSettings(answers: seq<(string, Json)>): (r: Option<Json>)
    ensures r.Some? <==> Get(answers, "save_defaults").Some? && Truthy(Get(answers, "save_defaults").value)
    ensures r.Some? ==> r.value == JObj(answers)
  {
    if Truthy(GetOr(answers, "save_defaults", JNull)) then Some(JObj(answers)) else None
  }

  /** Confirmed answers are saved, and read back they are the next download's defaults. */
  lemma SavedAnswersBecomeDefaults(a: Answers)
    requires a.saveDefaults
    ensures var s := SavedSettings(AnswersDict(a).fields);
      s.Some? &&
      DownloadDefaults(s.value) ==
        Ok(Options(JStr(a.dest), JInt(a.limit), JBool(a.delete), JStr(a.format), JBool(a.updateDetails)))
  {
    var f := AnswersDict(a).fields;
    AnswersLookup(a);
    assert SavedSettings(f) == Some(JObj(f));
    assert GetOr(f, "dest", JStr(".")) == JStr(a.dest);
    assert GetOr(f, "limit", JInt(-1)) == JInt(a.limit);
    assert GetOr(f, "delete", JBool(false)) == JBool(a.delete);
    assert GetOr(f, "format", JStr("cbz")) == JStr(a.format);
    assert GetOr(f, "update_details", JBool(false)) == JBool(a.updateDetails);
  }

  /** Each answer is found under its key. */
  lemma AnswersLookup(a: Answers)
    ensures var f := AnswersDict(a).fields;
      Get(f, "dest") == Some(JStr(a.dest)) && Get(f, "limit") == Some(JInt(a.limit)) &&
      Get(f, "format") == Some(JStr(a.format)) && Get(f, "delete") == Some(JBool(a.delete)) &&
      Get(f, "update_details") == Some(JBool(a.updateDetails)) &&
      Get(f, "save_defaults") == Some(JBool(a.saveDefaults))
  {
    var f := AnswersDict(a).fields;
    AnswerKeysDistinct(a);
    GetDistinct(f, 0);
    GetDistinct(f, 1);
    GetDistinct(f, 2);
    GetDistinct(f, 3);
    GetDistinct(f, 4);
    GetDistinct(f, 5);
  }

  /** The six keys differ from each other. */
  lemma AnswerKeysDistinct(a: Answers)
    ensures DistinctKeys(AnswersDict(a).fields)
  {
    var f := AnswersDict(a).fields;
    assert "format" != "delete" by {
      assert "format"[0] != "delete"[0];
    }
  }

  /** Declined answers are not saved. */
  lemma DeclinedAnswersNotSaved(a: Answers)
    requires !a.saveDefaults
    ensures SavedSettings(AnswersDict(a).fields).None?
  {
  }

  /** The table shown after saving lists the five answers other than `save_defaults`. */
  lemma SavedTable(a: Answers)
    ensures CliUtil.SettingsRows(AnswersDict(a).fields) ==
      [("dest", a.dest), ("limit", IntToString(a.limit)), ("format", a.format),
       ("delete", Show(JBool(a.delete))), ("update_details", Show(JBool(a.updateDetails)))]
  {
    var f := AnswersDict(a).fields;
    var five := f[..5];
    assert f == five + [f[5]];
    assert f[..|f| - 1] == five;
    assert forall i :: 0 <= i < 5 ==> five[i].0 != CliUtil.SaveDefaultsKey;
    CliUtil.SettingsRowsAll(five);
  }
}
