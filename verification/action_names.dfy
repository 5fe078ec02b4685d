/**
  The names and strings the mixin derives from an action's slug and options:
  the URL name of its view, its verbose names, the form page title, the audit
  log message, the flash message after an action, and the template lookup list.
 */
module ActionNames {
  import opened PyValues
  import opened ActionTable
  import opened Framework

  /** `get_object_action_view_name`: `<app_label>_<model_name>_<action>`. */
  function ViewName(opts: ModelOptions, action: string): string {
    opts.appLabel + "_" + opts.modelName + "_" + action
  }

  /** Distinct actions of one model get distinct view names, and a view name ends with its action. */
  lemma ViewNameInjective(opts: ModelOptions, a: string, b: string)
    ensures ViewName(opts, a)[|ViewName(opts, a)| - |a|..] == a
    ensures ViewName(opts, a) == ViewName(opts, b) ==> a == b
  {
    var prefix := opts.appLabel + "_" + opts.modelName + "_";
    assert ViewName(opts, a) == prefix + a;
    assert ViewName(opts, b) == prefix + b;
    assert (prefix + a)[|prefix|..] == a;
    assert (prefix + b)[|prefix|..] == b;
  }

  /** `get_object_action_verbose_name`: the `verbose_name` option, by default `action.title()`. */
  function VerboseName(table: seq<Entry>, action: string): string {
    TextOption(table, action, "verbose_name", Title(action))
  }

  /** `get_object_action_verbose_name_title`: the `verbose_name_title` option, by default the verbose name. */
  function VerboseNameTitle(table: seq<Entry>, action: string): string {
    TextOption(table, action, "verbose_name_title", VerboseName(table, action))
  }

  /**
    Without configured verbose names the verbose name is the title-cased slug
    and the title verbose name is the verbose name.
   */
  lemma VerboseNameDefaults(table: seq<Entry>, action: string)
    requires forall j :: 0 <= j < |table| ==> !Matches(table[j], action, "verbose_name")
    requires forall j :: 0 <= j < |table| ==> !Matches(table[j], action, "verbose_name_title")
    ensures VerboseName(table, action) == Title(action)
    ensures VerboseNameTitle(table, action) == Title(action)
    ensures |VerboseName(table, action)| == |action|
  {
    LookupDefault(table, action, "verbose_name", NoneValue);
    LookupDefault(table, action, "verbose_name_title", NoneValue);
  }

  /** `get_object_action_option(action, 'verbose_name_past', None) or verbose_name` */
  function PastTense(table: seq<Entry>, action: string): string {
    var past := TextOption(table, action, "verbose_name_past", "");
    if past != "" then past else VerboseName(table, action)
  }

  /**
    `construct_object_action_log_message`: the past-tense verbose name with
    its first character upper-cased and one `.` appended; IndexError when
    that name is empty.
   */
  function LogMessage(table: seq<Entry>, action: string): (r: Result<string>)
    ensures r.Ok? <==> PastTense(table, action) != ""
    ensures r.Err? ==> r.error.kind == IndexError
    ensures r.Ok? ==> var p := PastTense(table, action);
              |r.value| == |p| + 1 && r.value[|p|] == '.' && r.value[1..|p|] == p[1..]
              && r.value[0] == Upper(p[0])
  {
    var past := PastTense(table, action);
    if past == "" then Err(Exception(IndexError, "string index out of range"))
    else Ok(Capitalize(past) + ".")
  }

  /**
    An action with no configured verbose names logs its title-cased slug
    followed by a full stop.
   */
  lemma LogMessageDefault(table: seq<Entry>, action: string)
    requires action != ""
    requires forall j :: 0 <= j < |table| ==> !Matches(table[j], action, "verbose_name")
    requires forall j :: 0 <= j < |table| ==> !Matches(table[j], action, "verbose_name_past")
    ensures LogMessage(table, action) == Ok(Title(action) + ".")
  {
    LookupDefault(table, action, "verbose_name", NoneValue);
    LookupDefault(table, action, "verbose_name_past", NoneValue);
    assert PastTense(table, action) == Title(action);
    CapitalizeKeepsTitle(action);
  }

  /** A configured non-empty past-tense name wins over the verbose name. */
  lemma LogMessageOfPast(table: seq<Entry>, action: string, i: nat, past: string)
    requires i < |table| && Matches(table[i], action, "verbose_name_past")
    requires forall j :: 0 <= j < i ==> !Matches(table[j], action, "verbose_name_past")
    requires table[i].options["verbose_name_past"] == Text(past) && past != ""
    ensures LogMessage(table, action) == Ok(Capitalize(past) + ".")
  {
    LookupIsFirstMatch(table, action, "verbose_name_past", NoneValue, i);
  }

  /** The page title of the action form: the capitalised title verbose name and the model's verbose name. */
  function FormTitle(opts: ModelOptions, table: seq<Entry>, action: string): (r: Result<string>)
    ensures r.Ok? <==> VerboseNameTitle(table, action) != ""
    ensures r.Err? ==> r.error.kind == IndexError
    ensures r.Ok? ==> var t := VerboseNameTitle(table, action);
              |r.value| == |t| + 1 + |opts.verboseName| && r.value[0] == Upper(t[0])
              && r.value[1..|t|] == t[1..] && r.value[|t|..] == " " + opts.verboseName
  {
    var t := VerboseNameTitle(table, action);
    if t == "" then Err(Exception(IndexError, "string index out of range"))
    else Ok(Capitalize(t) + " " + opts.verboseName)
  }

  datatype Level = Success | Error

  /**
    The flash message of `construct_object_action_message`: the model's
    verbose name, the object, the `verbose_name_past` option (by default
    "acted upon") and, after a failure, `str(exception)`.
   */
  datatype ActionMessage = ActionMessage(level: Level, modelName: string, obj: Instance, past: string, exception: Option<string>)

  function ConstructMessage(opts: ModelOptions, table: seq<Entry>, obj: Instance, action: string, exception: Option<Exception>): (m: ActionMessage)
    ensures m.level == Error <==> exception.Some?
    ensures exception.Some? ==> m.exception == Some(exception.value.message)
    ensures m.past == TextOption(table, action, "verbose_name_past", "acted upon")
  {
    var past := TextOption(table, action, "verbose_name_past", "acted upon");
    match exception
    case Some(e) => ActionMessage(Error, opts.verboseName, obj, past, Some(e.message))
    case None => ActionMessage(Success, opts.verboseName, obj, past, None)
  }

  /** `admin/` followed by one `<dir>/` per directory and the form template's file name. */
  function TemplatePath(dirs: seq<string>): string {
    "admin/" + DirPrefix(dirs) + "object_action_form.html"
  }

  function DirPrefix(dirs: seq<string>): string {
    if dirs == [] then "" else dirs[0] + "/" + DirPrefix(dirs[1..])
  }

  /** The default template list of `render_object_action_form`. */
  function DefaultTemplates(opts: ModelOptions): seq<string> {
    [ "admin/" + opts.appLabel + "/" + opts.modelName + "/object_action_form.html",
      "admin/" + opts.appLabel + "/object_action_form.html",
      "admin/object_action_form.html" ]
  }

  /**
    The default list goes from the most specific template (per model) to the
    least (site-wide): each path drops the last directory of the one before.
   */
  lemma DefaultTemplatesMostSpecificFirst(opts: ModelOptions)
    ensures DefaultTemplates(opts) == [TemplatePath([opts.appLabel, opts.modelName]), TemplatePath([opts.appLabel]), TemplatePath([])]
  {
    var app, model := opts.appLabel, opts.modelName;
    assert [app, model][1..] == [model];
    assert [model][1..] == [];
    assert [app][1..] == [];
    assert DirPrefix([model]) == model + "/";
    assert DirPrefix([app, model]) == app + "/" + (model + "/");
    assert DirPrefix([app]) == app + "/";
    var file := "object_action_form.html";
    assert "/object_action_form.html" == "/" + file;
    assert "admin/" + app + "/" + model + "/object_action_form.html" == "admin/" + (app + "/" + (model + "/")) + file;
    assert "admin/" + app + "/object_action_form.html" == "admin/" + (app + "/") + file;
    assert "admin/object_action_form.html" == "admin/" + "" + file;
    assert DefaultTemplates(opts)[0] == TemplatePath([app, model]);
    assert DefaultTemplates(opts)[1] == TemplatePath([app]);
    assert DefaultTemplates(opts)[2] == TemplatePath([]);
  }

  /**
    The templates handed to `TemplateResponse`: the `form_template` option
    when it is truthy, otherwise the default list.
   */
  function FormTemplates(opts: ModelOptions, table: seq<Entry>, action: string): (r: seq<string>)
    ensures r != []
    ensures !Truthy(Lookup(table, action, "form_template", NoneValue)) ==> r == DefaultTemplates(opts)
    ensures var t := Lookup(table, action, "form_template", NoneValue);
            && (t.Text? && t.s != "" ==> r == [t.s])
            && (t.Names? && t.names != [] ==> r == t.names)
  {
    match Lookup(table, action, "form_template", NoneValue)
    case Text(s) => if s != "" then [s] else DefaultTemplates(opts)
    case Names(ns) => if ns != [] then ns else DefaultTemplates(opts)
    case _ => DefaultTemplates(opts)
  }
}
