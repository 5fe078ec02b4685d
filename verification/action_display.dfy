/**
  Who may run an action (`has_object_action_permission`) and the action
  buttons shown on the change list and change form (`display_object_actions`
  and its list and detail variants).
 */
module ActionDisplay {
  import opened PyValues
  import opened ActionTable
  import opened Framework
  import opened ActionNames

  /** The `permission` option, by default `change`. */
  function PermissionName(table: seq<Entry>, action: string): string {
    TextOption(table, action, "permission", "change")
  }

  /** The admin method asked first: `has_<permission>_permission`. */
  function PermissionMethodName(permission: string): string {
    "has_" + permission + "_permission"
  }

  /**
    `has_object_action_permission`: the name `object_action` is refused with
    AssertionError; otherwise the admin's own `has_<p>_permission` answers
    when it has one, and the user's `<app_label>.<codename>` permission on
    the object when it has not.
   */
  function HasPermission(admin: ModelAdmin, svc: Services, obj: Option<Instance>, action: string): (r: Result<bool>)
    ensures var p := PermissionName(admin.objectActions, action);
            && (r.Err? <==> p == "object_action")
            && (r.Err? ==> r.error.kind == AssertionError)
            && (r.Ok? && PermissionMethodName(p) in admin.attributes ==> r.value == svc.permissionMethod(p, obj))
            && (r.Ok? && PermissionMethodName(p) !in admin.attributes ==>
                  r.value == svc.userHasPerm(admin.opts.appLabel + "." + svc.codename(p), obj))
  {
    var p := PermissionName(admin.objectActions, action);
    if p == "object_action" then Err(Exception(AssertionError, ""))
    else if PermissionMethodName(p) in admin.attributes then Ok(svc.permissionMethod(p, obj))
    else Ok(svc.userHasPerm(admin.opts.appLabel + "." + svc.codename(p), obj))
  }

  /** An action without a `permission` option is guarded by the admin's change permission. */
  lemma PermissionDefaultsToChange(admin: ModelAdmin, svc: Services, obj: Option<Instance>, action: string)
    requires forall j :: 0 <= j < |admin.objectActions| ==> !Matches(admin.objectActions[j], action, "permission")
    requires "has_change_permission" in admin.attributes
    ensures HasPermission(admin, svc, obj, action) == Ok(svc.permissionMethod("change", obj))
  {
    LookupDefault(admin.objectActions, action, "permission", NoneValue);
    assert PermissionMethodName("change") == "has_change_permission";
  }

  /** One action button: its label, the URL of the action's view for the object, and the `next` URL. */
  datatype Button = Button(caption: string, href: string, next: string)

  /**
    `get_object_action_display`: the capitalised verbose name as label,
    linking to the reversed `admin:<view name>` for the object's primary key
    with the current path as `next`; IndexError for an empty verbose name.
   */
  function ActionButton(admin: ModelAdmin, svc: Services, obj: Instance, action: string): (r: Result<Button>)
    requires PkTruthy(obj)
    ensures var name := VerboseName(admin.objectActions, action);
            && (r.Ok? <==> name != "")
            && (r.Err? ==> r.error.kind == IndexError)
            && (r.Ok? ==> |r.value.caption| == |name| && r.value.caption[1..] == name[1..] && r.value.caption[0] == Upper(name[0]))
            && (r.Ok? ==> r.value.href == svc.reverseWithPk("admin:" + ViewName(admin.opts, action), obj.pk.value))
            && (r.Ok? ==> r.value.next == svc.fullPath)
  {
    var name := VerboseName(admin.objectActions, action);
    if name == "" then Err(Exception(IndexError, "string index out of range"))
    else Ok(Button(Capitalize(name), svc.reverseWithPk("admin:" + ViewName(admin.opts, action), obj.pk.value), svc.fullPath))
  }

  /** The flag tests of the loop: `list_only` skips `detail_only` actions and `detail_only` skips `list_only` ones. */
  predicate Skipped(e: Entry, listOnly: bool, detailOnly: bool)
    requires e.Dict?
  {
    (listOnly && Truthy(Get(e, "detail_only", Flag(false))))
    || (detailOnly && Truthy(Get(e, "list_only", Flag(false))))
  }

  /**
    What one action adds to the buttons of `display_object_actions`:
    nothing when the flags skip it or the user may not run it, its button
    otherwise, or the exception its permission check or its button raises.
   */
  function EntryButtons(admin: ModelAdmin, svc: Services, obj: Instance, listOnly: bool, detailOnly: bool, e: Entry): (r: Result<seq<Button>>)
    requires HasSlug(e) && e.options["slug"].Text? && PkTruthy(obj)
    ensures r.Ok? ==> |r.value| <= 1
    ensures Skipped(e, listOnly, detailOnly) ==> r == Ok([])
    ensures r.Ok? && r.value != [] ==>
              HasPermission(admin, svc, Some(obj), Slug(e)) == Ok(true) && ActionButton(admin, svc, obj, Slug(e)) == Ok(r.value[0])
    ensures r.Err? ==> !Skipped(e, listOnly, detailOnly)
  {
    if Skipped(e, listOnly, detailOnly) then Ok([])
    else
      var permitted :- HasPermission(admin, svc, Some(obj), Slug(e));
      if !permitted then Ok([])
      else
        var button :- ActionButton(admin, svc, obj, Slug(e));
        Ok([button])
  }

  /** The outcome of each action, in configured order. */
  function Outcomes(admin: ModelAdmin, svc: Services, obj: Instance, listOnly: bool, detailOnly: bool, entries: seq<Entry>): (r: seq<Result<seq<Button>>>)
    requires Configured(entries) && PkTruthy(obj)
    ensures |r| == |entries|
    ensures forall i :: 0 <= i < |entries| ==> r[i] == EntryButtons(admin, svc, obj, listOnly, detailOnly, entries[i])
  {
    seq(|entries|, i requires 0 <= i < |entries| => EntryButtons(admin, svc, obj, listOnly, detailOnly, entries[i]))
  }

  /** One step of the accumulation: the buttons so far and the next outcome's, or the first exception. */
  function Append(shown: Result<seq<Button>>, more: Result<seq<Button>>): Result<seq<Button>> {
    var before :- shown;
    var added :- more;
    Ok(before + added)
  }

  /** The accumulation of the loop: the outcomes' buttons in order, stopping at the first exception. */
  function Collect(outcomes: seq<Result<seq<Button>>>): Result<seq<Button>> {
    if outcomes == [] then Ok([])
    else Append(Collect(outcomes[..|outcomes| - 1]), outcomes[|outcomes| - 1])
  }

  /** One more outcome: its buttons are appended, or its exception ends the accumulation. */
  lemma CollectSnoc(outcomes: seq<Result<seq<Button>>>, i: nat)
    requires i < |outcomes|
    ensures Collect(outcomes[..i]).Err? ==> Collect(outcomes[..i + 1]) == Collect(outcomes[..i])
    ensures Collect(outcomes[..i]).Ok? && outcomes[i].Err? ==> Collect(outcomes[..i + 1]) == Err(outcomes[i].error)
    ensures Collect(outcomes[..i]).Ok? && outcomes[i].Ok? ==>
              Collect(outcomes[..i + 1]) == Ok(Collect(outcomes[..i]).value + outcomes[i].value)
  {
    assert outcomes[..i + 1][..i] == outcomes[..i];
  }

  /** Once an exception is raised, the later outcomes do not change the result. */
  lemma {:induction false} CollectErrorSticks(outcomes: seq<Result<seq<Button>>>, k: nat)
    requires k <= |outcomes|
    requires Collect(outcomes[..k]).Err?
    ensures Collect(outcomes) == Collect(outcomes[..k])
    decreases |outcomes| - k
  {
    if k < |outcomes| {
      CollectSnoc(outcomes, k);
      CollectErrorSticks(outcomes, k + 1);
    } else {
      assert outcomes[..k] == outcomes;
    }
  }

  /** What `display_object_actions` renders: the empty-value placeholder, or the buttons joined. */
  datatype Display = EmptyValueDisplay | Buttons(buttons: seq<Button>)

  /** `display_object_actions(obj, list_only, detail_only)` as a value. */
  function DisplayOf(admin: ModelAdmin, svc: Services, obj: Option<Instance>, listOnly: bool, detailOnly: bool): (r: Result<Display>)
    requires Configured(admin.objectActions)
    ensures obj.None? || !PkTruthy(obj.value) ==> r == Ok(EmptyValueDisplay)
  {
    if obj.None? || !PkTruthy(obj.value) then Ok(EmptyValueDisplay)
    else
      var buttons :- Collect(Outcomes(admin, svc, obj.value, listOnly, detailOnly, admin.objectActions));
      Ok(Buttons(buttons))
  }

  /**
    `display_object_actions`: nothing for a missing or unsaved object;
    otherwise one button per action that the flags keep and the user may
    run, in configured order.
   */
  method DisplayObjectActions(admin: ModelAdmin, svc: Services, obj: Option<Instance>, listOnly: bool, detailOnly: bool)
    returns (r: Result<Display>)
    requires Configured(admin.objectActions)
    ensures r == DisplayOf(admin, svc, obj, listOnly, detailOnly)
  {
    if obj.None? || !PkTruthy(obj.value) {
      return Ok(EmptyValueDisplay);
    }
    var actions := GetObjectActions(admin.objectActions);
    var list := actions.value;
    ghost var outcomes := Outcomes(admin, svc, obj.value, listOnly, detailOnly, list);
    var shown: seq<Button> := [];
    for i := 0 to |list|
      invariant Collect(outcomes[..i]) == Ok(shown)
    {
      CollectSnoc(outcomes, i);
      assert shown + [] == shown;
      var e := list[i];
      if !Skipped(e, listOnly, detailOnly) {
        var action := Slug(e);
        var permitted := HasPermission(admin, svc, obj, action);
        if permitted.Err? {
          CollectErrorSticks(outcomes, i + 1);
          return Err(permitted.error);
        }
        if permitted.value {
          var button := ActionButton(admin, svc, obj.value, action);
          if button.Err? {
            CollectErrorSticks(outcomes, i + 1);
            return Err(button.error);
          }
          shown := shown + [button.value];
        }
      }
    }
    assert outcomes[..|list|] == outcomes;
    return Ok(Buttons(shown));
  }

  /** `display_object_actions_list`: the change-list column, which leaves out `detail_only` actions. */
  method DisplayObjectActionsList(admin: ModelAdmin, svc: Services, obj: Option<Instance>) returns (r: Result<Display>)
    requires Configured(admin.objectActions)
    ensures r == DisplayOf(admin, svc, obj, true, false)
  {
    r := DisplayObjectActions(admin, svc, obj, true, false);
  }

  /** `display_object_actions_detail`: the change-form field, which leaves out `list_only` actions. */
  method DisplayObjectActionsDetail(admin: ModelAdmin, svc: Services, obj: Option<Instance>) returns (r: Result<Display>)
    requires Configured(admin.objectActions)
    ensures r == DisplayOf(admin, svc, obj, false, true)
  {
    r := DisplayObjectActions(admin, svc, obj, false, true);
  }

  // An independent description of the buttons: filter the actions, then map
  // each kept slug to its button.

  /** An entry whose button is shown: the flags keep it and its permission check answers yes. */
  predicate Shown(admin: ModelAdmin, svc: Services, obj: Instance, listOnly: bool, detailOnly: bool, e: Entry)
    requires HasSlug(e) && e.options["slug"].Text?
  {
    !Skipped(e, listOnly, detailOnly) && HasPermission(admin, svc, Some(obj), Slug(e)) == Ok(true)
  }

  /** The slug of an entry whose button is shown, or nothing. */
  function KeptSlug(admin: ModelAdmin, svc: Services, obj: Instance, listOnly: bool, detailOnly: bool, e: Entry): Option<string>
    requires HasSlug(e) && e.options["slug"].Text?
  {
    if Shown(admin, svc, obj, listOnly, detailOnly, e) then Some(Slug(e)) else None
  }

  function Kept(admin: ModelAdmin, svc: Services, obj: Instance, listOnly: bool, detailOnly: bool, entries: seq<Entry>): (r: seq<Option<string>>)
    requires Configured(entries)
    ensures |r| == |entries|
    ensures forall i :: 0 <= i < |entries| ==> r[i] == KeptSlug(admin, svc, obj, listOnly, detailOnly, entries[i])
  {
    seq(|entries|, i requires 0 <= i < |entries| => KeptSlug(admin, svc, obj, listOnly, detailOnly, entries[i]))
  }

  /** The values that are present, in order. */
  function Somes(xs: seq<Option<string>>): seq<string> {
    if xs == [] then []
    else
      Somes(xs[..|xs| - 1]) + match xs[|xs| - 1] case Some(s) => [s] case None => []
  }

  lemma {:induction false} SomesMembers(xs: seq<Option<string>>)
    ensures forall s :: s in Somes(xs) <==> exists i :: 0 <= i < |xs| && xs[i] == Some(s)
  {
    if xs != [] {
      var n := |xs| - 1;
      var init := xs[..n];
      SomesMembers(init);
      assert forall i :: 0 <= i < n ==> init[i] == xs[i];
      var last := match xs[n] case Some(s) => [s] case None => [];
      assert Somes(xs) == Somes(init) + last;
      forall s | s in Somes(xs) ensures exists i :: 0 <= i < |xs| && xs[i] == Some(s) {
        if s !in last {
          var i :| 0 <= i < n && init[i] == Some(s);
        }
      }
    }
  }

  /** The slugs of the shown entries, in order. */
  function Visible(admin: ModelAdmin, svc: Services, obj: Instance, listOnly: bool, detailOnly: bool, entries: seq<Entry>): seq<string>
    requires Configured(entries)
  {
    Somes(Kept(admin, svc, obj, listOnly, detailOnly, entries))
  }

  /** Extending the entries by one adds that entry's slug exactly when it is shown. */
  lemma VisibleSnoc(admin: ModelAdmin, svc: Services, obj: Instance, listOnly: bool, detailOnly: bool, entries: seq<Entry>)
    requires Configured(entries) && entries != []
    ensures Configured(entries[..|entries| - 1])
    ensures var init, e := entries[..|entries| - 1], entries[|entries| - 1];
            && (Shown(admin, svc, obj, listOnly, detailOnly, e) ==>
                  Visible(admin, svc, obj, listOnly, detailOnly, entries) == Visible(admin, svc, obj, listOnly, detailOnly, init) + [Slug(e)])
            && (!Shown(admin, svc, obj, listOnly, detailOnly, e) ==>
                  Visible(admin, svc, obj, listOnly, detailOnly, entries) == Visible(admin, svc, obj, listOnly, detailOnly, init))
  {
    var n := |entries| - 1;
    var init := entries[..n];
    assert forall i :: 0 <= i < n ==> init[i] == entries[i];
    var kept := Kept(admin, svc, obj, listOnly, detailOnly, entries);
    assert kept[..n] == Kept(admin, svc, obj, listOnly, detailOnly, init);
    var before := Somes(kept[..n]);
    assert before + [] == before;
  }

  /** The buttons of a list of slugs, in order; IndexError at the first empty verbose name. */
  function ButtonsFor(admin: ModelAdmin, svc: Services, obj: Instance, slugs: seq<string>): Result<seq<Button>>
    requires PkTruthy(obj)
  {
    if slugs == [] then Ok([])
    else
      var before :- ButtonsFor(admin, svc, obj, slugs[..|slugs| - 1]);
      var button :- ActionButton(admin, svc, obj, slugs[|slugs| - 1]);
      Ok(before + [button])
  }

  /** No permission check of a kept entry raises: none is configured with the permission `object_action`. */
  predicate PermissionsCheckable(admin: ModelAdmin, listOnly: bool, detailOnly: bool, entries: seq<Entry>)
    requires Configured(entries)
  {
    forall i :: 0 <= i < |entries| && !Skipped(entries[i], listOnly, detailOnly) ==>
      PermissionName(admin.objectActions, Slug(entries[i])) != "object_action"
  }

  /** A shown entry adds its button, or raises where the button does. */
  lemma ShownCase(admin: ModelAdmin, svc: Services, obj: Instance, listOnly: bool, detailOnly: bool, e: Entry, before: seq<string>)
    requires HasSlug(e) && e.options["slug"].Text? && PkTruthy(obj)
    requires Shown(admin, svc, obj, listOnly, detailOnly, e)
    ensures Append(ButtonsFor(admin, svc, obj, before), EntryButtons(admin, svc, obj, listOnly, detailOnly, e))
         == ButtonsFor(admin, svc, obj, before + [Slug(e)])
  {
    var all := before + [Slug(e)];
    assert all[..|all| - 1] == before;
  }

  /** An entry that is not shown, and whose permission check does not raise, adds nothing. */
  lemma HiddenCase(admin: ModelAdmin, svc: Services, obj: Instance, listOnly: bool, detailOnly: bool, e: Entry, shown: Result<seq<Button>>)
    requires HasSlug(e) && e.options["slug"].Text? && PkTruthy(obj)
    requires !Shown(admin, svc, obj, listOnly, detailOnly, e)
    requires !Skipped(e, listOnly, detailOnly) ==> PermissionName(admin.objectActions, Slug(e)) != "object_action"
    ensures Append(shown, EntryButtons(admin, svc, obj, listOnly, detailOnly, e)) == shown
  {
    assert EntryButtons(admin, svc, obj, listOnly, detailOnly, e) == Ok([]);
    if shown.Ok? {
      assert shown.value + [] == shown.value;
    }
  }

  /** The outcomes of a list extended by one entry. */
  lemma OutcomesSnoc(admin: ModelAdmin, svc: Services, obj: Instance, listOnly: bool, detailOnly: bool, entries: seq<Entry>)
    requires Configured(entries) && PkTruthy(obj) && entries != []
    ensures Configured(entries[..|entries| - 1])
    ensures var outcomes := Outcomes(admin, svc, obj, listOnly, detailOnly, entries);
            Collect(outcomes)
            == Append(Collect(Outcomes(admin, svc, obj, listOnly, detailOnly, entries[..|entries| - 1])),
                      EntryButtons(admin, svc, obj, listOnly, detailOnly, entries[|entries| - 1]))
  {
    var n := |entries| - 1;
    var init := entries[..n];
    assert forall i :: 0 <= i < n ==> init[i] == entries[i];
    var outcomes := Outcomes(admin, svc, obj, listOnly, detailOnly, entries);
    assert outcomes[..n] == Outcomes(admin, svc, obj, listOnly, detailOnly, init);
  }

  /**
    When no permission check raises, the loop's buttons are the buttons of
    the entries the flags keep and the user may run, in configured order.
   */
  lemma {:induction false} CollectIsFilteredActions(admin: ModelAdmin, svc: Services, obj: Instance, listOnly: bool, detailOnly: bool, entries: seq<Entry>)
    requires Configured(entries) && PkTruthy(obj)
    requires PermissionsCheckable(admin, listOnly, detailOnly, entries)
    ensures Collect(Outcomes(admin, svc, obj, listOnly, detailOnly, entries))
         == ButtonsFor(admin, svc, obj, Visible(admin, svc, obj, listOnly, detailOnly, entries))
  {
    if entries != [] {
      var n := |entries| - 1;
      var init, e := entries[..n], entries[n];
      OutcomesSnoc(admin, svc, obj, listOnly, detailOnly, entries);
      VisibleSnoc(admin, svc, obj, listOnly, detailOnly, entries);
      assert PermissionsCheckable(admin, listOnly, detailOnly, init) by {
        assert forall i :: 0 <= i < n ==> init[i] == entries[i];
      }
      CollectIsFilteredActions(admin, svc, obj, listOnly, detailOnly, init);
      var before := Visible(admin, svc, obj, listOnly, detailOnly, init);
      if Shown(admin, svc, obj, listOnly, detailOnly, e) {
        ShownCase(admin, svc, obj, listOnly, detailOnly, e, before);
      } else {
        HiddenCase(admin, svc, obj, listOnly, detailOnly, e, ButtonsFor(admin, svc, obj, before));
      }
    }
  }

  /**
    The rendered display, when no permission check raises: the buttons of
    the kept and permitted actions, in configured order.
   */
  lemma DisplayIsFilteredActions(admin: ModelAdmin, svc: Services, obj: Instance, listOnly: bool, detailOnly: bool)
    requires Configured(admin.objectActions) && PkTruthy(obj)
    requires PermissionsCheckable(admin, listOnly, detailOnly, admin.objectActions)
    ensures DisplayOf(admin, svc, Some(obj), listOnly, detailOnly)
         == match ButtonsFor(admin, svc, obj, Visible(admin, svc, obj, listOnly, detailOnly, admin.objectActions))
            case Ok(buttons) => Ok(Buttons(buttons))
            case Err(e) => Err(e)
  {
    CollectIsFilteredActions(admin, svc, obj, listOnly, detailOnly, admin.objectActions);
  }

  /**
    A slug is visible exactly when some configured entry with that slug is
    kept by the flags and permitted.
   */
  lemma VisibleMembers(admin: ModelAdmin, svc: Services, obj: Instance, listOnly: bool, detailOnly: bool, entries: seq<Entry>)
    requires Configured(entries)
    ensures forall s :: s in Visible(admin, svc, obj, listOnly, detailOnly, entries) <==>
              exists i :: 0 <= i < |entries| && Shown(admin, svc, obj, listOnly, detailOnly, entries[i]) && Slug(entries[i]) == s
  {
    var kept := Kept(admin, svc, obj, listOnly, detailOnly, entries);
    SomesMembers(kept);
    forall s ensures (exists i :: 0 <= i < |kept| && kept[i] == Some(s)) <==>
                     exists i :: 0 <= i < |entries| && Shown(admin, svc, obj, listOnly, detailOnly, entries[i]) && Slug(entries[i]) == s
    {
      if exists i :: 0 <= i < |kept| && kept[i] == Some(s) {
        var i :| 0 <= i < |kept| && kept[i] == Some(s);
        assert Shown(admin, svc, obj, listOnly, detailOnly, entries[i]) && Slug(entries[i]) == s;
      }
      if exists i :: 0 <= i < |entries| && Shown(admin, svc, obj, listOnly, detailOnly, entries[i]) && Slug(entries[i]) == s {
        var i :| 0 <= i < |entries| && Shown(admin, svc, obj, listOnly, detailOnly, entries[i]) && Slug(entries[i]) == s;
        assert kept[i] == Some(s);
      }
    }
  }

  /** With `list_only` no shown entry is `detail_only`, and with `detail_only` none is `list_only`. */
  lemma ShownRespectsFlags(admin: ModelAdmin, svc: Services, obj: Instance, listOnly: bool, detailOnly: bool, e: Entry)
    requires HasSlug(e) && e.options["slug"].Text?
    requires Shown(admin, svc, obj, listOnly, detailOnly, e)
    ensures listOnly ==> !Truthy(Get(e, "detail_only", Flag(false)))
    ensures detailOnly ==> !Truthy(Get(e, "list_only", Flag(false)))
  {
  }
}
