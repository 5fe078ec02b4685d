/**
  The host admin framework as the object-action mixin sees it: the model's
  options, the configured model admin, the model instance, the request, and
  the framework services the mixin calls, which are left uninterpreted.
 */
module Framework {
  import opened PyValues
  import opened ActionTable

  /** `self.model._meta`: the parts the mixin reads. */
  datatype ModelOptions = ModelOptions(appLabel: string, modelName: string, verboseName: string)

  /**
    A model admin that mixes in the object actions: its model's options, its
    `object_actions` list, and the names of the attributes `getattr(self, …)`
    can find on it (its methods, including `has_<p>_permission` ones).
   */
  datatype ModelAdmin = ModelAdmin(opts: ModelOptions, objectActions: seq<Entry>, attributes: set<string>)

  /** A model instance: its primary key, the attributes `getattr(obj, …)` can find, and its field values. */
  datatype Instance = Instance(pk: Option<int>, attributes: set<string>, state: map<string, Value>)

  /** `obj.pk` is truthy: present and not zero. */
  predicate PkTruthy(obj: Instance) {
    obj.pk.Some? && obj.pk.value != 0
  }

  /** The parts of the HTTP request the mixin reads itself. */
  datatype Request = Request(httpMethod: string, post: map<string, string>, get: map<string, string>)

  /**
    Framework services, for one request, as uninterpreted functions:
    `permissionMethod(p, obj)` is what `self.has_<p>_permission(request, obj)`
    answers, `userHasPerm(name, obj)` is `request.user.has_perm(name, obj)`,
    `codename(p)` is `get_permission_codename(p, opts)`, `reverse(name)` and
    `reverseWithPk(name, pk)` are URL reversing, `fullPath` is
    `request.get_full_path()`, `allowedUrl(url)` is
    `url_has_allowed_host_and_scheme` against the request's own host and
    scheme, and `preserveFilters(url)` is `add_preserved_filters`.
   */
  datatype Services = Services(
    permissionMethod: (string, Option<Instance>) -> bool,
    userHasPerm: (string, Option<Instance>) -> bool,
    codename: string -> string,
    reverse: string -> string,
    reverseWithPk: (string, int) -> string,
    fullPath: string,
    allowedUrl: string -> bool,
    preserveFilters: string -> string)
}
