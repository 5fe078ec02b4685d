# django-admin-object-actions, modelled in Dafny

`ModelAdminObjectActionsMixin` adds per-object actions to a Django model
admin. An action is declared as a dict in the admin's `object_actions` list,
keyed by its `slug`. The mixin then:

- shows a button per action on the change list and change form;
- registers one URL per action ahead of the admin's own URLs;
- serves a form page for each action;
- when that form is submitted and valid, saves it. A successful save writes
  one audit-log entry and redirects with a success message. A failing save
  redirects with an error message and writes no log entry.

The form class, `AdminObjectActionForm`, runs the action in `save`: the
callable attached to the class if there is one, otherwise
`do_object_action`. A failure is recorded as a non-field error and raised
again.

The model is split into modules that follow that structure:

- `PyValues` (python_values.dfy): the Python values found in an action dict,
  truthiness, ASCII letter case, `str.title()` and `s[0].upper() + s[1:]`.
- `ActionTable` (action_table.dfy): the action list, its validation
  (`get_object_actions`) and the first-match option lookup
  (`get_object_action_option`), as loops proved against a lookup function.
- `Framework` (framework.dfy): the model admin, the instance, the request,
  and the Django services the mixin calls, as uninterpreted functions.
- `ActionNames` (action_names.dfy): the view name, verbose names, log
  message, page title, flash message and template list.
- `ActionFields` (action_fields.dfy): the factory fields of
  `get_object_action_form`, the display fields (a loop proved against a
  fold) and the fieldsets.
- `ActionDisplay` (action_display.dfy): `has_object_action_permission` and
  the button loop of `display_object_actions`. It is proved equal to
  "filter the actions, then make their buttons".
- `ActionUrls` (action_urls.dfy): the route loop of `get_urls` and
  `get_object_action_redirect_url`.
- `ActionForm` (action_form.dfy): `AdminObjectActionForm` as a class with the
  instance and the non-field errors as fields.
- `ActionView` (action_view.dfy): `_object_action_form_view` as a function
  from its abstract inputs to an outcome. A method ties it to the form
  class's `save`.

The Python `assert`s in `get_object_actions` are modelled as an
AssertionError result (`ActionTable.GetObjectActions`). The members that use
the validated list require `Configured`: every entry passes those asserts
and has a text slug. The asserts inside other operations are error results
of those operations: the permission name `object_action`, and a `function`
name found on neither the admin nor the object.

## Model

| member | source | states |
|---|---|---|
| ActionTable.GetObjectActions | admin_object_actions/admin.py:45-51 | succeeds exactly when every entry is a dict with a truthy `slug`, and then returns the configured list unchanged and in order; fails with AssertionError otherwise |
| ActionTable.FirstMatchFrom | admin_object_actions/admin.py:53-57 | the index found is the first entry at or after the start whose slug is the action and which holds the option; when none is found, no entry from the start on matches |
| ActionTable.LookupIsFirstMatch | admin_object_actions/admin.py:53-56 | the option is read from the first entry that has the action's slug and holds the option |
| ActionTable.LookupDefault | admin_object_actions/admin.py:57 | the default is returned when no entry matches |
| ActionTable.LookupSkipsNonMatching | admin_object_actions/admin.py:54-56 | an entry with the action's slug but without the option, or with another slug, does not stop the search |
| ActionTable.GetObjectActionOption | admin_object_actions/admin.py:53-57 | the early-return loop returns the first-match lookup, which is the default or the option of some matching entry |
| ActionNames.ViewNameInjective | admin_object_actions/admin.py:59-61 | the view name `<app>_<model>_<action>` ends with the action, and distinct actions of one model get distinct view names |
| PyValues.Upper | admin_object_actions/admin.py:128 | `upper()` maps a lower-case letter to the same letter in upper case, leaves no lower-case letter, and leaves every other character unchanged |
| PyValues.Lower | admin_object_actions/admin.py:64 | `lower()` maps an upper-case letter to the same letter in lower case, leaves no upper-case letter, and leaves every other character unchanged |
| PyValues.TitleFrom | admin_object_actions/admin.py:64 | title-casing keeps the length |
| PyValues.TitleAt | admin_object_actions/admin.py:64 | `title()` upper-cases the first character and every character after an uncased one, and lower-cases every character after a cased one |
| PyValues.TitleFromAt | admin_object_actions/admin.py:64 | the pointwise rule of `title()` from either starting state |
| PyValues.TitleIdempotent | admin_object_actions/admin.py:64 | title-casing a title-cased slug changes nothing |
| PyValues.TitleFromIdempotent | admin_object_actions/admin.py:64 | idempotence from either starting state |
| PyValues.CapitalizeKeepsTitle | admin_object_actions/admin.py:128 | `s[0].upper() + s[1:]` keeps the length, upper-cases the first character, leaves the rest alone, and leaves a title-cased string unchanged |
| ActionNames.VerboseNameDefaults | admin_object_actions/admin.py:63-67 | without configured names, the verbose name is `action.title()` (same length as the slug) and the title verbose name is the verbose name |
| ActionNames.LogMessage | admin_object_actions/admin.py:190-193 | the past-tense name, falling back to the verbose name, with its first character upper-cased (`Upper` of the first character), the rest unchanged and exactly one `.` appended; IndexError exactly when that name is empty |
| ActionNames.LogMessageDefault | admin_object_actions/admin.py:190-193 | without configured names the log message is the title-cased slug followed by `.` |
| ActionNames.LogMessageOfPast | admin_object_actions/admin.py:192-193 | a configured non-empty `verbose_name_past` is the one capitalised |
| ActionNames.FormTitle | admin_object_actions/admin.py:278-280 | the page title exists exactly when the title verbose name is non-empty (IndexError otherwise), and is that name with its first character upper-cased, a space, and the model's verbose name |
| ActionNames.ConstructMessage | admin_object_actions/admin.py:195-213 | the message is an error exactly when an exception is given, carries `str(exception)`, and names the `verbose_name_past` option, by default "acted upon" |
| ActionNames.DefaultTemplatesMostSpecificFirst | admin_object_actions/admin.py:325-329 | the default templates are the per-model, per-app and site-wide paths, each dropping the last directory of the one before |
| ActionNames.FormTemplates | admin_object_actions/admin.py:321-329 | the template list is never empty; a non-empty `form_template` string is used alone, a non-empty list is used as it is, and the default list is used whenever `form_template` is not truthy |
| ActionFields.ReadonlyFieldsOption | admin_object_actions/admin.py:91-95 | the read-only fields are the `readonly_fields` of the first entry for the action that configures them |
| ActionFields.ReadonlyFieldsDefault | admin_object_actions/admin.py:91-95 | with no `readonly_fields` configured there are none |
| ActionFields.WithoutMembers | admin_object_actions/admin.py:75 | a field survives the filter exactly when it is listed and not read-only |
| ActionFields.WithoutConcat | admin_object_actions/admin.py:75 | the filter keeps order: it distributes over concatenation |
| ActionFields.WithoutNoDuplicates | admin_object_actions/admin.py:75 | filtering a duplicate-free list gives a duplicate-free list |
| ActionFields.GetForm | admin_object_actions/admin.py:69-89 | a configured `form_class` is returned unchanged; otherwise the factory fields are the configured fields minus the read-only ones, in order; AssertionError exactly when a `function` name is on neither the admin nor the object |
| ActionFields.DistinctFacts | admin_object_actions/admin.py:102-104 | keeping first occurrences keeps exactly the same members and leaves no duplicates |
| ActionFields.MergeFieldsMembers | admin_object_actions/admin.py:101-105 | the merged list holds exactly the base and read-only fields |
| ActionFields.MergeFieldsSplit | admin_object_actions/admin.py:101-105 | the merged list is the base fields followed by the read-only fields not among them, each once, in read-only order |
| ActionFields.MergeFieldsFacts | admin_object_actions/admin.py:101-105 | the merged list starts with the base fields, holds exactly the base and read-only fields, and has no duplicates when the base has none |
| ActionFields.GetObjectActionFields | admin_object_actions/admin.py:97-105 | the configured `fields` when there are some, otherwise the append loop's merged list |
| ActionFields.DefaultFieldset | admin_object_actions/admin.py:107-111 | without `fieldsets` and `fields`, one unnamed group that starts with the base fields and holds exactly the base and read-only fields |
| ActionDisplay.HasPermission | admin_object_actions/admin.py:116-124 | AssertionError exactly when the permission is `object_action`; otherwise the admin's `has_<p>_permission` answers when it exists, and the user's `<app>.<codename>` permission when it does not |
| ActionDisplay.PermissionDefaultsToChange | admin_object_actions/admin.py:117-121 | without a `permission` option the admin's `has_change_permission` decides |
| ActionDisplay.ActionButton | admin_object_actions/admin.py:126-132 | the caption is the verbose name with its first character upper-cased (`Upper`) and the rest unchanged, the link is the reversed view name for the object's key, and `next` is the current path; IndexError exactly when the verbose name is empty |
| ActionDisplay.DisplayOf | admin_object_actions/admin.py:135-137 | a missing object, or one without a truthy primary key, shows the empty-value placeholder |
| ActionDisplay.EntryButtons | admin_object_actions/admin.py:141-148 | one action adds at most one button: none when the flags skip it, its button only when the permission check answers yes, and an exception only from an action the flags keep |
| ActionDisplay.Outcomes | admin_object_actions/admin.py:140-148 | one outcome per configured action, in configured order |
| ActionDisplay.CollectSnoc | admin_object_actions/admin.py:140-148 | one more turn of the loop appends that action's buttons, raises its exception, or keeps an earlier exception |
| ActionDisplay.CollectErrorSticks | admin_object_actions/admin.py:140-148 | once the loop has raised, later actions do not change the outcome |
| ActionDisplay.DisplayObjectActions | admin_object_actions/admin.py:134-149 | the loop returns the display function's result, errors included |
| ActionDisplay.DisplayObjectActionsList | admin_object_actions/admin.py:152-154 | the change-list column is the display with `list_only` |
| ActionDisplay.DisplayObjectActionsDetail | admin_object_actions/admin.py:156-158 | the change-form field is the display with `detail_only` |
| ActionDisplay.ShownCase | admin_object_actions/admin.py:141-148 | an action the flags keep and the user may run appends its button, or raises where the button does |
| ActionDisplay.HiddenCase | admin_object_actions/admin.py:141-147 | an action the flags skip, or the user may not run, adds nothing |
| ActionDisplay.OutcomesSnoc | admin_object_actions/admin.py:140-148 | the loop over one more action is the loop over the others followed by that action's outcome |
| ActionDisplay.Kept | admin_object_actions/admin.py:141-147 | for each action, its slug when the flags keep it and the user may run it, nothing otherwise |
| ActionDisplay.SomesMembers | admin_object_actions/admin.py:141-147 | the kept slugs are exactly the present ones |
| ActionDisplay.VisibleSnoc | admin_object_actions/admin.py:141-147 | one more action adds its slug to the visible ones exactly when the flags keep it and the user may run it |
| ActionDisplay.CollectIsFilteredActions | admin_object_actions/admin.py:140-148 | when no permission check raises, the loop's buttons are the buttons of the kept and permitted slugs, in configured order |
| ActionDisplay.DisplayIsFilteredActions | admin_object_actions/admin.py:134-149 | when no permission check raises, the display is the buttons of the kept and permitted actions, in configured order |
| ActionDisplay.VisibleMembers | admin_object_actions/admin.py:141-147 | a slug is shown exactly when some entry with that slug passes the flags and the permission |
| ActionDisplay.ShownRespectsFlags | admin_object_actions/admin.py:141-144 | with `list_only` no shown action is `detail_only`, and with `detail_only` none is `list_only` |
| ActionUrls.ResolveView | admin_object_actions/admin.py:165-169 | without a `view` option the mixin's own `object_action_view` is used and always resolves; a configured name resolves exactly when the admin has that attribute (AttributeError otherwise); a configured callable is used as it is; any other configured value raises TypeError |
| ActionUrls.GetUrls | admin_object_actions/admin.py:160-177 | the loop returns the action routes followed by the inherited routes, or the first view error |
| ActionUrls.RouteOf | admin_object_actions/admin.py:164-176 | an action gives a route exactly when its view resolves, and then the route of that view; otherwise the view's AttributeError or TypeError |
| ActionUrls.RouteResults | admin_object_actions/admin.py:163-176 | one route result per configured action, in configured order |
| ActionUrls.GatherSnoc | admin_object_actions/admin.py:163-176 | one turn of the loop appends the action's route, raises its view error, or keeps an earlier error |
| ActionUrls.GatherErrorSticks | admin_object_actions/admin.py:163-168 | once a view fails to resolve, later actions do not change the outcome |
| ActionUrls.GatherShape | admin_object_actions/admin.py:163-176 | the loop succeeds exactly when every action gives a route, and then route `i` is the route of action `i`; otherwise it fails with one action's error |
| ActionUrls.UrlsShape | admin_object_actions/admin.py:160-177 | one route per action, named by its view name and matching `<object_id>/<action>/`, all before the inherited routes, which follow unchanged; AttributeError or TypeError otherwise |
| ActionUrls.UrlsWithDefaultViews | admin_object_actions/admin.py:165 | an admin that configures no `view` option always gets its routes, each dispatching to `object_action_view` |
| ActionUrls.RouteNamesDistinct | admin_object_actions/admin.py:170-175 | actions with distinct slugs get routes with distinct names and distinct patterns |
| ActionUrls.PatternInjective | admin_object_actions/admin.py:172 | the URL pattern determines the slug |
| ActionUrls.RedirectUrl | admin_object_actions/admin.py:179-188 | the `next` parameter (POST before GET) when it is non-empty and passes the host and scheme check, the change list otherwise; preserved filters added in both cases |
| ActionUrls.RedirectFallsBackToChangelist | admin_object_actions/admin.py:183-186 | a missing or unsafe `next` redirects to the change list |
| ActionUrls.RedirectPrefersPost | admin_object_actions/admin.py:182 | a usable `next` in the POST data wins over the query string |
| ActionForm.BaseAction | admin_object_actions/forms.py:7-8 | the base `do_object_action` leaves the instance alone and raises NotImplementedError |
| ActionForm.Invoke | admin_object_actions/forms.py:16-17 | the intended call of the attached callable agrees with the as-written one for bound methods |
| ActionForm.OutcomeOf | admin_object_actions/forms.py:20-23 | `save` returns the instance exactly when the action did not raise, and otherwise passes on the same exception |
| ActionForm.RecordedErrors | admin_object_actions/forms.py:20-21 | a failure records `str(e)` once; a success records nothing |
| ActionForm.ObjectActionForm.constructor | admin_object_actions/forms.py:5 | a new form holds the instance, no errors, and its class's callable and `do_object_action` |
| ActionForm.ObjectActionForm.DoObjectAction | admin_object_actions/forms.py:7-8 | the subclass's action changes the instance as it does; the base one changes nothing and raises |
| ActionForm.ObjectActionForm.AddError | admin_object_actions/forms.py:21 | appends one non-field error and changes nothing else |
| ActionForm.ObjectActionForm.Save | admin_object_actions/forms.py:14-23 | runs the callable if the class has one and `do_object_action` otherwise; the instance is what the action left; one error `str(e)` is appended and `e` is raised again on failure; the instance is returned on success |
| ActionForm.BaseSaveFails | admin_object_actions/forms.py:7-8 | without a callable or an override, saving always fails with the base NotImplementedError and records its message |
| ActionForm.CallableWins | admin_object_actions/forms.py:16-19 | with a callable attached, the class's `do_object_action` plays no part |
| ActionForm.SaveOutcomeFacts | admin_object_actions/forms.py:14-23 | a failing save records exactly one error, the exception's message, and re-raises that exception; a successful one records none and returns the instance |
| ActionForm.PlainFunctionMisbound | admin_object_actions/forms.py:17 | as written, a plain function attached as the callable and declared for the two-argument call always raises TypeError |
| ActionForm.DoFailCounterexample | test_project/test_app/admin.py:26-27 | for `do_fail`, as written the user is told of a TypeError, not of its NotImplementedError |
| ActionView.BindingOf | admin_object_actions/admin.py:244-260 | the form is unbound exactly when the request is not a submission, and bound to the POST data exactly when it is one and `form_method` is POST |
| ActionView.RenderForm | admin_object_actions/admin.py:262-265 | the form page shows the title, the fieldsets, the read-only fields and the template list; IndexError exactly when the title verbose name is empty |
| ActionView.FormView | admin_object_actions/admin.py:234-265 | permission before existence; a form class that cannot be built raises; a failing save is an error message and a redirect with no log entry; a successful save is one log entry, a success message and a redirect, or a raise with nothing logged when the log message cannot be built; anything other than a valid submission renders the form |
| ActionView.ObjectActionFormView | admin_object_actions/admin.py:250-258 | the form's `save` runs exactly when the view reaches `save_form`, leaving the instance and the non-field errors as `save` does; otherwise the form is unchanged; the view's result is the one for that save's outcome |
| ActionView.FailingActionIsNotLogged | admin_object_actions/admin.py:251-254 | an action that raises in `save` ends in an error message with its text, a redirect and no log entry |
| ActionView.PermissionBeforeExistence | admin_object_actions/admin.py:236-241 | a refused user gets PermissionDenied even when the object does not exist |
| ActionView.SubmissionByMethod | admin_object_actions/admin.py:244-245 | a request is a submission exactly when its method is POST or the `form_method` option; without that option, only POST |

## Left out

- HTML: `format_html` and `format_html_join` are not modelled. A button is its caption, link and `next` URL, and the flash message is its parts.
- `reverse`, `url_has_allowed_host_and_scheme`, `add_preserved_filters`, `request.get_full_path`, the user's permission back-end and `get_permission_codename` are uninterpreted functions (`Framework.Services`).
- `get_current_request` (a thread-local) is not modelled; the request's services are passed in.
- Transactions (`transaction.atomic`, `router.db_for_write`), the database writes of `save_form` and `log_change`, and `message_user` are outcome tags. The view returns the log entries and messages it would write instead of writing them. A failure after the action ran (an IndexError from an empty log message) is `Raised`, and the roll-back is not modelled.
- `modelform_factory`, `formfield_for_dbfield`, `helpers.AdminForm`, `media`, the remaining context keys and `TemplateResponse` are not modelled. The form page is its title, form class, binding, fieldsets, read-only fields and templates.
- Form validation is an input (`formValid`), and so are the form class's declared fields (`baseFields`). The instance changes made by binding and cleaning are not modelled.
- `get_object` and `unquote` are replaced by the looked-up object, given as an input.
- `_get_obj_does_not_exist_redirect` is the `ObjectMissing` response; its warning message and admin-index redirect are Django's.
- `object_action_view` and `object_action_form_view` only forward to `_object_action_form_view`, and are not modelled separately.
- `log_object_action` and `response_object_action` are folded into `ActionView.FormView`.
- `functools.partial`, `update_wrapper` and `admin_site.admin_view` wrapping: a route holds its view and the `action` argument, not a wrapped callable.
- The callables themselves are not modelled. An action's effect on the instance is a function (`ActionForm.ActionCallable.run`). Its reads of the form's cleaned data are not modelled. The `Callable` that `get_object_action_form` attaches and the `ActionCallable` a form holds are not linked.
- In the error branch the message names the object as the view holds it. The form mutates that same object in place; this aliasing is not modelled.
- Letter case is ASCII only: Unicode `title()` and `upper()` and lazy translation are not modelled. Non-ASCII characters count as uncased.
- Python's dynamic typing: an option whose value has an unexpected type (a non-text `verbose_name`, a non-list `fields`) is read as absent. The source would instead fail, or use the value as it is, when it is used. `form_method` is compared as the source compares it, whatever its type.
- `ActionTable.GetObjectActionOption` requires `ValidTable`, and the members built on it require `Configured` (a valid table whose slugs are text). The asserts of `get_object_actions` are modelled once, in `ActionTable.GetObjectActions`. Elsewhere, a list that fails them is outside the model.
- Primary keys are modelled as optional integers (`Framework.Instance.pk`), so `not obj.pk` is a missing or zero key. String and UUID keys, for which an empty string is the falsy key, are not modelled.
- ActionDisplay.DisplayIsFilteredActions: stated only when no kept action has the permission `object_action`. Otherwise the first such check raises, which `ActionDisplay.DisplayObjectActions` models.
- `short_description` attributes and the class attributes `object_actions` and `object_action_form_class` are configuration. They are the `ModelAdmin` datatype's fields.
- `six` string-type checks: every text value is a string.

## Findings

| source | as written | input that shows it | evidently intended | confidence | as-written member | corrected member |
|---|---|---|---|---|---|---|
| admin_object_actions/admin.py:88 with admin_object_actions/forms.py:17 | a plain function given as `function` is stored on the form class with `setattr`, so it binds to the form and is called as `fn(form, obj, form)`; a function declared for `fn(obj, form)` then always raises TypeError | the sample admin's `fail` action, whose `do_fail(obj, form)` is a plain function: saving raises TypeError (three positional arguments given for two), and the user sees that instead of "this action is not yet implemented" | the callable is called as `fn(obj, form)`, as a bound method such as `do_refresh` is, for example by storing `staticmethod(fn)` | not executed | ActionForm.InvokeAsWritten, shown by ActionForm.PlainFunctionMisbound and ActionForm.DoFailCounterexample | ActionForm.Invoke, used by ActionForm.RunAction and ActionForm.ObjectActionForm.Save |
