/**
  The request handling of an action view (`_object_action_form_view`):
  permission first, then existence, then the form; a submission with a valid
  form saves it and redirects, with a log entry on success and an error
  message on failure; anything else renders the form page.
 */
module ActionView {
  import opened PyValues
  import opened ActionTable
  import opened Framework
  import opened ActionNames
  import opened ActionFields
  import opened ActionDisplay
  import opened ActionUrls
  import opened ActionForm

  /** What the form is bound to: nothing (a fresh form), the POST data and files, or the query string. */
  datatype Binding = Unbound | BoundToPost | BoundToGet

  /** An audit log entry written by `log_object_action`: the object and the change message. */
  datatype LogEntry = LogEntry(obj: Instance, message: string)

  /** How the view ends. */
  datatype Response =
    | Raised(error: Exception)
    | ObjectMissing(objectId: string)
    | Redirect(url: string)
    | FormPage(title: string, formClass: FormClass, binding: Binding, fieldsets: seq<Fieldset>,
               readonlyFields: seq<string>, templates: seq<string>)

  /** The response, the log entries written and the messages queued for the user. */
  datatype ViewResult = ViewResult(response: Response, log: seq<LogEntry>, messages: seq<ActionMessage>)

  /** `get_object_action_option(action, 'form_method', 'POST')` */
  function FormMethod(table: seq<Entry>, action: string): Value {
    Lookup(table, action, "form_method", Text("POST"))
  }

  /** `request.method == 'POST' or request.method == form_method` */
  predicate IsSubmission(req: Request, table: seq<Entry>, action: string) {
    req.httpMethod == "POST" || FormMethod(table, action) == Text(req.httpMethod)
  }

  /** What the form is built from: the POST data when `form_method` is POST, the query string otherwise. */
  function BindingOf(req: Request, table: seq<Entry>, action: string): (b: Binding)
    ensures b == Unbound <==> !IsSubmission(req, table, action)
    ensures b == BoundToPost <==> IsSubmission(req, table, action) && FormMethod(table, action) == Text("POST")
  {
    if !IsSubmission(req, table, action) then Unbound
    else if FormMethod(table, action) == Text("POST") then BoundToPost
    else BoundToGet
  }

  /**
    The form page (`get_object_action_form_context` and
    `render_object_action_form`): the fieldsets, the read-only fields, the
    title and the template list; IndexError when the title verbose name is
    empty.
   */
  function RenderForm(admin: ModelAdmin, action: string, formClass: FormClass, binding: Binding, baseFields: seq<string>): (r: Response)
    ensures r.Raised? <==> VerboseNameTitle(admin.objectActions, action) == ""
    ensures r.Raised? ==> r.error.kind == IndexError
    ensures r.FormPage? ==>
              && r.binding == binding && r.formClass == formClass
              && Ok(r.title) == FormTitle(admin.opts, admin.objectActions, action)
              && r.fieldsets == FieldsetsFor(admin.objectActions, action, baseFields)
              && r.readonlyFields == ReadonlyFields(admin.objectActions, action)
              && r.templates == FormTemplates(admin.opts, admin.objectActions, action)
  {
    var table := admin.objectActions;
    match FormTitle(admin.opts, table, action)
    case Err(e) => Raised(e)
    case Ok(title) =>
      FormPage(title, formClass, binding, FieldsetsFor(table, action, baseFields), ReadonlyFields(table, action),
               FormTemplates(admin.opts, table, action))
  }

  /** The user may run the action: the permission check answers yes without raising. */
  predicate Permitted(admin: ModelAdmin, svc: Services, obj: Option<Instance>, action: string) {
    HasPermission(admin, svc, obj, action) == Ok(true)
  }

  /** The view reaches `save_form`: permitted, the object exists, the form class is built, and a valid submission. */
  predicate SavesForm(admin: ModelAdmin, svc: Services, req: Request, obj: Option<Instance>, action: string, formValid: bool) {
    Permitted(admin, svc, obj, action) && obj.Some? && GetForm(admin, obj.value, action).Ok?
    && IsSubmission(req, admin.objectActions, action) && formValid
  }

  /**
    `_object_action_form_view` for the object `get_object` found (`obj`),
    a form whose `is_valid()` answers `formValid`, whose class declares
    `baseFields`, and whose save, when it is reached, ends with `save`.
   */
  function FormView(admin: ModelAdmin, svc: Services, req: Request, objectId: string, obj: Option<Instance>, action: string,
                    formValid: bool, baseFields: seq<string>, save: SaveOutcome): (r: ViewResult)
    // Permission comes before existence: a refused user is refused even for a missing object.
    ensures HasPermission(admin, svc, obj, action).Err? ==> r == ViewResult(Raised(HasPermission(admin, svc, obj, action).error), [], [])
    ensures HasPermission(admin, svc, obj, action) == Ok(false) ==> r == ViewResult(Raised(Exception(PermissionDenied, "")), [], [])
    ensures Permitted(admin, svc, obj, action) && obj.None? ==> r == ViewResult(ObjectMissing(objectId), [], [])
    // A form class that cannot be built raises before anything is written.
    ensures Permitted(admin, svc, obj, action) && obj.Some? && GetForm(admin, obj.value, action).Err? ==>
              r == ViewResult(Raised(GetForm(admin, obj.value, action).error), [], [])
    // Only a save writes to the log, and it writes one entry.
    ensures r.log != [] ==> SavesForm(admin, svc, req, obj, action, formValid) && save.Saved? && |r.log| == 1
    ensures r.messages != [] ==> SavesForm(admin, svc, req, obj, action, formValid) && |r.messages| == 1 && r.response.Redirect?
    // A failing save: an error message, a redirect, no log entry.
    ensures SavesForm(admin, svc, req, obj, action, formValid) && save.SaveRaised? ==>
              r.response == Redirect(RedirectUrl(admin, svc, req)) && r.log == []
              && r.messages == [ConstructMessage(admin.opts, admin.objectActions, obj.value, action, Some(save.error))]
              && r.messages[0].level == Error
    // A successful save: one log entry with the log message, then a success message and a redirect.
    ensures SavesForm(admin, svc, req, obj, action, formValid) && save.Saved? && LogMessage(admin.objectActions, action).Ok? ==>
              r.response == Redirect(RedirectUrl(admin, svc, req))
              && r.log == [LogEntry(save.instance, LogMessage(admin.objectActions, action).value)]
              && r.messages == [ConstructMessage(admin.opts, admin.objectActions, save.instance, action, None)]
              && r.messages[0].level == Success
    // A successful save whose log message cannot be built raises, and nothing is logged.
    ensures SavesForm(admin, svc, req, obj, action, formValid) && save.Saved? && LogMessage(admin.objectActions, action).Err? ==>
              r == ViewResult(Raised(LogMessage(admin.objectActions, action).error), [], [])
    // Anything other than a valid submission renders the form, bound as the method says.
    ensures r.response.FormPage? <==>
              Permitted(admin, svc, obj, action) && obj.Some? && GetForm(admin, obj.value, action).Ok?
              && !(IsSubmission(req, admin.objectActions, action) && formValid)
              && VerboseNameTitle(admin.objectActions, action) != ""
    ensures r.response.FormPage? ==> r.response.binding == BindingOf(req, admin.objectActions, action)
                                     && r.log == [] && r.messages == []
  {
    var table := admin.objectActions;
    match HasPermission(admin, svc, obj, action)
    case Err(e) => ViewResult(Raised(e), [], [])
    case Ok(permitted) =>
      if !permitted then ViewResult(Raised(Exception(PermissionDenied, "")), [], [])
      else if obj.None? then ViewResult(ObjectMissing(objectId), [], [])
      else
        match GetForm(admin, obj.value, action)
        case Err(e) => ViewResult(Raised(e), [], [])
        case Ok(formClass) =>
          var binding := BindingOf(req, table, action);
          if binding != Unbound && formValid then
            match save
            case SaveRaised(e) =>
              ViewResult(Redirect(RedirectUrl(admin, svc, req)), [],
                         [ConstructMessage(admin.opts, table, obj.value, action, Some(e))])
            case Saved(newObject) =>
              match LogMessage(table, action)
              case Err(e) => ViewResult(Raised(e), [], [])
              case Ok(message) =>
                ViewResult(Redirect(RedirectUrl(admin, svc, req)), [LogEntry(newObject, message)],
                           [ConstructMessage(admin.opts, table, newObject, action, None)])
          else
            ViewResult(RenderForm(admin, action, formClass, binding, baseFields), [], [])
  }

  /**
    The view with the form's own `save`: the form is saved exactly when the
    view reaches `save_form`, and the result is the view's with that save's
    outcome; otherwise the form is left as it was.
   */
  method ObjectActionFormView(admin: ModelAdmin, svc: Services, req: Request, objectId: string, obj: Option<Instance>,
                              action: string, formValid: bool, baseFields: seq<string>, form: ObjectActionForm)
    returns (r: ViewResult)
    modifies form
    ensures r == FormView(admin, svc, req, objectId, obj, action, formValid, baseFields,
                          OutcomeOf(RunAction(form.actionCallable, form.override, old(form.instance))))
    ensures SavesForm(admin, svc, req, obj, action, formValid) ==>
              form.instance == RunAction(form.actionCallable, form.override, old(form.instance)).instance
    ensures SavesForm(admin, svc, req, obj, action, formValid) ==>
              form.nonFieldErrors == old(form.nonFieldErrors)
                                     + RecordedErrors(OutcomeOf(RunAction(form.actionCallable, form.override, old(form.instance))))
    ensures !SavesForm(admin, svc, req, obj, action, formValid) ==>
              form.instance == old(form.instance) && form.nonFieldErrors == old(form.nonFieldErrors)
  {
    var outcome := OutcomeOf(RunAction(form.actionCallable, form.override, form.instance));
    if SavesForm(admin, svc, req, obj, action, formValid) {
      outcome := form.Save();
    }
    r := FormView(admin, svc, req, objectId, obj, action, formValid, baseFields, outcome);
  }

  /**
    An action that raises inside `save` ends in the view's error branch: an
    error message carrying the exception's text, a redirect, and no log entry.
   */
  lemma FailingActionIsNotLogged(admin: ModelAdmin, svc: Services, req: Request, objectId: string, obj: Option<Instance>,
                                 action: string, baseFields: seq<string>,
                                 callable: Option<ActionCallable>, override: Option<Instance -> Effect>, instance: Instance)
    requires SavesForm(admin, svc, req, obj, action, true)
    requires RunAction(callable, override, instance).raised.Some?
    ensures var e := RunAction(callable, override, instance).raised.value;
            var r := FormView(admin, svc, req, objectId, obj, action, true, baseFields, OutcomeOf(RunAction(callable, override, instance)));
            && r.log == []
            && r.response == Redirect(RedirectUrl(admin, svc, req))
            && r.messages == [ConstructMessage(admin.opts, admin.objectActions, obj.value, action, Some(e))]
            && r.messages[0].exception == Some(e.message)
  {
  }

  /** A refused user never reaches the existence check: the answer does not depend on whether the object exists. */
  lemma PermissionBeforeExistence(admin: ModelAdmin, svc: Services, req: Request, objectId: string, action: string,
                                  formValid: bool, baseFields: seq<string>, save: SaveOutcome)
    requires HasPermission(admin, svc, None, action) == Ok(false)
    ensures FormView(admin, svc, req, objectId, None, action, formValid, baseFields, save).response.Raised?
    ensures FormView(admin, svc, req, objectId, None, action, formValid, baseFields, save).response.error.kind == PermissionDenied
  {
  }

  /** A request counts as a submission exactly when its method is POST or the action's `form_method`. */
  lemma SubmissionByMethod(req: Request, table: seq<Entry>, action: string)
    ensures BindingOf(req, table, action) != Unbound <==>
              req.httpMethod == "POST" || Lookup(table, action, "form_method", Text("POST")) == Text(req.httpMethod)
    ensures (forall j :: 0 <= j < |table| ==> !Matches(table[j], action, "form_method")) ==>
              (BindingOf(req, table, action) != Unbound <==> req.httpMethod == "POST")
  {
    if forall j :: 0 <= j < |table| ==> !Matches(table[j], action, "form_method") {
      LookupDefault(table, action, "form_method", Text("POST"));
    }
  }
}
