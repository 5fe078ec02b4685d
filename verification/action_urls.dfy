/**
  The URL side of the mixin: the routes `get_urls` adds, one per action and
  ahead of the admin's own, and the URL `get_object_action_redirect_url`
  sends the user to after an action.
 */
module ActionUrls {
  import opened PyValues
  import opened ActionTable
  import opened Framework
  import opened ActionNames

  /** The view a route dispatches to: an admin method found by name, or a configured callable. */
  datatype ViewTarget = AdminView(name: string) | CallableView(id: nat, kind: ObjectKind)

  /**
    A route: its regular expression, its view, the `action` argument the view
    is partially applied to (absent for inherited routes) and its URL name.
   */
  datatype Route = Route(pattern: string, view: ViewTarget, action: Option<string>, name: string)

  /** The name of the mixin's own view, `self.object_action_view`, used when no `view` option is configured. */
  const DefaultViewName := "object_action_view"

  /**
    The view of an action. Without a `view` option it is the mixin's own
    `object_action_view`, which always exists. A configured string names an
    attribute of the admin and raises AttributeError when there is none; any
    other configured value must be callable for `functools.partial`, and
    TypeError is raised otherwise.
   */
  function ResolveView(admin: ModelAdmin, action: string): (r: Result<ViewTarget>)
    ensures FirstMatch(admin.objectActions, action, "view").None? ==> r == Ok(AdminView(DefaultViewName))
    ensures FirstMatch(admin.objectActions, action, "view").Some? ==>
              var v := Lookup(admin.objectActions, action, "view", NoneValue);
              && (v.Text? ==> (r.Ok? <==> v.s in admin.attributes))
              && (v.Text? && r.Ok? ==> r.value == AdminView(v.s))
              && (v.Text? && r.Err? ==> r.error.kind == AttributeError)
              && (v.Object? ==> r == Ok(CallableView(v.id, v.kind)))
              && (!v.Text? && !v.Object? ==> r.Err? && r.error.kind == TypeError)
  {
    match FirstMatch(admin.objectActions, action, "view")
    case None => Ok(AdminView(DefaultViewName))
    case Some(i) =>
      match admin.objectActions[i].options["view"]
      case Text(name) =>
        if name in admin.attributes then Ok(AdminView(name))
        else Err(Exception(AttributeError, "object has no attribute '" + name + "'"))
      case Object(id, kind) => Ok(CallableView(id, kind))
      case _ => Err(Exception(TypeError, "the first argument must be callable"))
  }

  /** `r'^(?P<object_id>\S+)/<action>/$'` */
  function Pattern(action: string): string {
    "^(?P<object_id>\\S+)/" + action + "/$"
  }

  /** The route of one action. */
  function ActionRoute(admin: ModelAdmin, action: string, view: ViewTarget): Route {
    Route(Pattern(action), view, Some(action), ViewName(admin.opts, action))
  }

  /** The route of one action, or the error its view raises. */
  function RouteOf(admin: ModelAdmin, action: string): (r: Result<Route>)
    ensures r.Ok? <==> ResolveView(admin, action).Ok?
    ensures r.Ok? ==> r.value == ActionRoute(admin, action, ResolveView(admin, action).value)
    ensures r.Err? ==> r.error == ResolveView(admin, action).error && r.error.kind in {AttributeError, TypeError}
  {
    var view :- ResolveView(admin, action);
    Ok(ActionRoute(admin, action, view))
  }

  /** The route of each configured action, in configured order. */
  function RouteResults(admin: ModelAdmin): (r: seq<Result<Route>>)
    requires Configured(admin.objectActions)
    ensures |r| == |admin.objectActions|
    ensures forall i :: 0 <= i < |r| ==> r[i] == RouteOf(admin, Slug(admin.objectActions[i]))
  {
    seq(|admin.objectActions|, i requires 0 <= i < |admin.objectActions| => RouteOf(admin, Slug(admin.objectActions[i])))
  }

  /** The routes of a sequence of results, in order, stopping at the first error. */
  function Gather(results: seq<Result<Route>>): Result<seq<Route>> {
    if results == [] then Ok([])
    else
      var routes :- Gather(results[..|results| - 1]);
      var route :- results[|results| - 1];
      Ok(routes + [route])
  }

  /** One turn of the loop: the route is appended, its error raised, or an earlier error kept. */
  lemma GatherSnoc(results: seq<Result<Route>>, i: nat)
    requires i < |results|
    ensures Gather(results[..i]).Err? ==> Gather(results[..i + 1]) == Gather(results[..i])
    ensures Gather(results[..i]).Ok? && results[i].Err? ==> Gather(results[..i + 1]) == Err(results[i].error)
    ensures Gather(results[..i]).Ok? && results[i].Ok? ==>
              Gather(results[..i + 1]) == Ok(Gather(results[..i]).value + [results[i].value])
  {
    assert results[..i + 1][..i] == results[..i];
  }

  /** Once an error is raised, the later results do not change the outcome. */
  lemma {:induction false} GatherErrorSticks(results: seq<Result<Route>>, k: nat)
    requires k <= |results|
    requires Gather(results[..k]).Err?
    ensures Gather(results) == Gather(results[..k])
    decreases |results| - k
  {
    if k < |results| {
      GatherSnoc(results, k);
      GatherErrorSticks(results, k + 1);
    } else {
      assert results[..k] == results;
    }
  }

  /**
    Gathering succeeds exactly when every result is a route, and then gives
    those routes in order; otherwise it fails with the error of one of them.
   */
  lemma {:induction false} GatherShape(results: seq<Result<Route>>)
    ensures Gather(results).Ok? <==> forall i :: 0 <= i < |results| ==> results[i].Ok?
    ensures Gather(results).Ok? ==>
              |Gather(results).value| == |results|
              && forall i :: 0 <= i < |results| ==> Gather(results).value[i] == results[i].value
    ensures Gather(results).Err? ==> exists i :: 0 <= i < |results| && results[i] == Err(Gather(results).error)
  {
    if results != [] {
      var n := |results| - 1;
      var init := results[..n];
      GatherShape(init);
      assert forall i :: 0 <= i < n ==> init[i] == results[i];
      if Gather(init).Err? {
        var j :| 0 <= j < n && init[j] == Err(Gather(init).error);
        assert results[j] == Err(Gather(results).error);
      } else if results[n].Ok? {
        var routes := Gather(init).value + [results[n].value];
        assert Gather(results) == Ok(routes);
      }
    }
  }

  /** The routes the loop of `get_urls` has built after its first `k` actions. */
  function RoutesUpTo(admin: ModelAdmin, k: nat): Result<seq<Route>>
    requires Configured(admin.objectActions) && k <= |admin.objectActions|
  {
    Gather(RouteResults(admin)[..k])
  }

  /** `get_urls` as a value: the action routes, then the inherited ones. */
  function UrlsOf(admin: ModelAdmin, inherited: seq<Route>): Result<seq<Route>>
    requires Configured(admin.objectActions)
  {
    var routes :- RoutesUpTo(admin, |admin.objectActions|);
    Ok(routes + inherited)
  }

  /**
    `get_urls`: one route per configured action, in configured order,
    followed by the routes the admin inherits.
   */
  method GetUrls(admin: ModelAdmin, inherited: seq<Route>) returns (r: Result<seq<Route>>)
    requires Configured(admin.objectActions)
    ensures r == UrlsOf(admin, inherited)
  {
    var actions := GetObjectActions(admin.objectActions);
    var list := actions.value;
    ghost var results := RouteResults(admin);
    var routes: seq<Route> := [];
    for i := 0 to |list|
      invariant Gather(results[..i]) == Ok(routes)
    {
      var action := Slug(list[i]);
      var view := ResolveView(admin, action);
      GatherSnoc(results, i);
      assert results[i] == RouteOf(admin, action);
      if view.Err? {
        GatherErrorSticks(results, i + 1);
        assert results[..|list|] == results;
        return Err(view.error);
      }
      routes := routes + [ActionRoute(admin, action, view.value)];
    }
    assert results[..|list|] == results;
    return Ok(routes + inherited);
  }

  /**
    `get_urls` succeeds exactly when every action's view resolves; it then
    yields one route per action, named by the action's view name and
    matching `<object_id>/<action>/`, all ahead of the inherited routes,
    which follow unchanged; otherwise it fails with AttributeError or
    TypeError.
   */
  lemma UrlsShape(admin: ModelAdmin, inherited: seq<Route>)
    requires Configured(admin.objectActions)
    ensures var n := |admin.objectActions|;
            UrlsOf(admin, inherited).Ok? <==> forall i :: 0 <= i < n ==> ResolveView(admin, Slug(admin.objectActions[i])).Ok?
    ensures var n := |admin.objectActions|;
            UrlsOf(admin, inherited).Ok? ==>
              var urls := UrlsOf(admin, inherited).value;
              |urls| == n + |inherited|
              && urls[n..] == inherited
              && forall i :: 0 <= i < n ==>
                   var action := Slug(admin.objectActions[i]);
                   urls[i].name == ViewName(admin.opts, action)
                   && urls[i].pattern == Pattern(action)
                   && urls[i].action == Some(action)
                   && urls[i].view == ResolveView(admin, action).value
    ensures UrlsOf(admin, inherited).Err? ==> UrlsOf(admin, inherited).error.kind in {AttributeError, TypeError}
  {
    var n := |admin.objectActions|;
    var results := RouteResults(admin);
    assert results[..n] == results;
    GatherShape(results);
    if Gather(results).Ok? {
      var routes := Gather(results).value;
      assert (routes + inherited)[n..] == inherited;
      assert forall i :: 0 <= i < n ==> (routes + inherited)[i] == routes[i];
    } else {
      var j :| 0 <= j < n && results[j] == Err(Gather(results).error);
    }
  }

  /**
    An admin that configures no `view` option gets a route for every action:
    the mixin's own view always resolves.
   */
  lemma UrlsWithDefaultViews(admin: ModelAdmin, inherited: seq<Route>)
    requires Configured(admin.objectActions)
    requires forall j :: 0 <= j < |admin.objectActions| ==> "view" !in admin.objectActions[j].options
    ensures UrlsOf(admin, inherited).Ok?
    ensures |UrlsOf(admin, inherited).value| == |admin.objectActions| + |inherited|
    ensures forall i :: 0 <= i < |admin.objectActions| ==> UrlsOf(admin, inherited).value[i].view == AdminView(DefaultViewName)
  {
    var n := |admin.objectActions|;
    forall i | 0 <= i < n ensures ResolveView(admin, Slug(admin.objectActions[i])) == Ok(AdminView(DefaultViewName)) {
      assert FirstMatch(admin.objectActions, Slug(admin.objectActions[i]), "view").None?;
    }
    UrlsShape(admin, inherited);
  }

  /** Actions with distinct slugs get routes with distinct names and distinct patterns. */
  lemma RouteNamesDistinct(admin: ModelAdmin, a: string, b: string, va: ViewTarget, vb: ViewTarget)
    requires a != b
    ensures ActionRoute(admin, a, va).name != ActionRoute(admin, b, vb).name
    ensures ActionRoute(admin, a, va).pattern != ActionRoute(admin, b, vb).pattern
  {
    ViewNameInjective(admin.opts, a, b);
    var prefix := "^(?P<object_id>\\S+)/";
    assert Pattern(a) == prefix + a + "/$" && Pattern(b) == prefix + b + "/$";
    if Pattern(a) == Pattern(b) {
      PatternInjective(prefix, a, b);
    }
  }

  lemma PatternInjective(prefix: string, a: string, b: string)
    requires prefix + a + "/$" == prefix + b + "/$"
    ensures a == b
  {
    var pa, pb := prefix + a + "/$", prefix + b + "/$";
    assert |a| == |b|;
    assert pa[|prefix|..|prefix| + |a|] == a;
    assert pb[|prefix|..|prefix| + |b|] == b;
  }

  /** `request.POST.get('next', request.GET.get('next', ''))` */
  function NextParam(req: Request): string {
    if "next" in req.post then req.post["next"]
    else if "next" in req.get then req.get["next"]
    else ""
  }

  /** The URL name of the model's change list. */
  function ChangelistName(opts: ModelOptions): string {
    "admin:" + opts.appLabel + "_" + opts.modelName + "_changelist"
  }

  /**
    `get_object_action_redirect_url`: the `next` parameter when it is
    non-empty and passes the host and scheme check, otherwise the change
    list; then the preserved filters are added.
   */
  function RedirectUrl(admin: ModelAdmin, svc: Services, req: Request): (url: string)
    ensures var next := NextParam(req);
            var usable := next != "" && svc.allowedUrl(next);
            && (usable ==> url == svc.preserveFilters(next))
            && (!usable ==> url == svc.preserveFilters(svc.reverse(ChangelistName(admin.opts))))
  {
    var next := NextParam(req);
    var url := if svc.allowedUrl(next) then next else "";
    var target := if url != "" then url else svc.reverse(ChangelistName(admin.opts));
    svc.preserveFilters(target)
  }

  /**
    Without a usable `next` parameter, or with one that fails the host and
    scheme check, the user goes back to the change list.
   */
  lemma RedirectFallsBackToChangelist(admin: ModelAdmin, svc: Services, req: Request)
    requires NextParam(req) == "" || !svc.allowedUrl(NextParam(req))
    ensures RedirectUrl(admin, svc, req) == svc.preserveFilters(svc.reverse(ChangelistName(admin.opts)))
  {
  }

  /** A `next` in the POST data wins over one in the query string. */
  lemma RedirectPrefersPost(admin: ModelAdmin, svc: Services, req: Request)
    requires "next" in req.post && req.post["next"] != "" && svc.allowedUrl(req.post["next"])
    ensures RedirectUrl(admin, svc, req) == svc.preserveFilters(req.post["next"])
  {
  }
}
