/**
  The declarative action table (`ModelAdminObjectActionsMixin.object_actions`):
  a list of dicts keyed by `slug`, its validation by `get_object_actions`, and
  the first-match option lookup `get_object_action_option`.
 */
module ActionTable {
  import opened PyValues

  /** One element of `object_actions`; the source asserts it is a dict. */
  datatype Entry = Dict(options: map<string, Value>) | NotDict(value: Value)

  /** What `get_object_actions` asserts of one element: a dict whose `get('slug')` is truthy. */
  predicate HasSlug(e: Entry) {
    e.Dict? && "slug" in e.options && Truthy(e.options["slug"])
  }

  /** Every element passes the assertions of `get_object_actions`. */
  predicate ValidTable(table: seq<Entry>) {
    forall i :: 0 <= i < |table| ==> HasSlug(table[i])
  }

  /**
    The configurations the rest of the package is modelled for: those that
    pass `get_object_actions` and whose slugs are text.
   */
  predicate Configured(table: seq<Entry>) {
    ValidTable(table) && forall i :: 0 <= i < |table| ==> table[i].options["slug"].Text?
  }

  /** The slug of a configured entry. */
  function Slug(e: Entry): string
    requires HasSlug(e) && e.options["slug"].Text?
  {
    e.options["slug"].s
  }

  /** `object_action.get(key, default)` */
  function Get(e: Entry, key: string, default: Value): Value
    requires e.Dict?
  {
    if key in e.options then e.options[key] else default
  }

  /**
    `get_object_actions`: copies the configured list element by element,
    failing with AssertionError at the first element that is not a dict or
    lacks a truthy slug.
   */
  method GetObjectActions(configured: seq<Entry>) returns (r: Result<seq<Entry>>)
    ensures r.Ok? <==> ValidTable(configured)
    ensures r.Ok? ==> r.value == configured
    ensures r.Err? ==> r.error.kind == AssertionError
  {
    var actions: seq<Entry> := [];
    var i := 0;
    while i < |configured|
      invariant 0 <= i <= |configured|
      invariant actions == configured[..i]
      invariant forall j :: 0 <= j < i ==> HasSlug(configured[j])
    {
      var entry := configured[i];
      if !entry.Dict? {
        return Err(Exception(AssertionError, ""));
      }
      if !("slug" in entry.options && Truthy(entry.options["slug"])) {
        return Err(Exception(AssertionError, ""));
      }
      actions := actions + [entry];
      i := i + 1;
    }
    assert configured[..i] == configured;
    return Ok(actions);
  }

  /** The test of the lookup loop: `action == object_action['slug'] and option in object_action`. */
  predicate Matches(e: Entry, action: string, option: string) {
    e.Dict? && "slug" in e.options && e.options["slug"] == Text(action) && option in e.options
  }

  /**
    The index of the first entry, at or after `from`, whose slug is `action`
    and which contains `option`; None when there is none.
   */
  function FirstMatchFrom(table: seq<Entry>, action: string, option: string, from: nat): (r: Option<nat>)
    requires from <= |table|
    decreases |table| - from
    ensures r.Some? ==> from <= r.value < |table| && Matches(table[r.value], action, option)
    ensures r.Some? ==> forall j :: from <= j < r.value ==> !Matches(table[j], action, option)
    ensures r.None? ==> forall j :: from <= j < |table| ==> !Matches(table[j], action, option)
  {
    if from == |table| then None
    else if Matches(table[from], action, option) then Some(from)
    else FirstMatchFrom(table, action, option, from + 1)
  }

  function FirstMatch(table: seq<Entry>, action: string, option: string): Option<nat> {
    FirstMatchFrom(table, action, option, 0)
  }

  /** `get_object_action_option(action, option, default)` as a value. */
  function Lookup(table: seq<Entry>, action: string, option: string, default: Value): Value {
    match FirstMatch(table, action, option)
    case Some(i) => table[i].options[option]
    case None => default
  }

  /**
    The lookup answers with the option of the first matching entry, and with
    the default exactly when no entry matches.
   */
  lemma LookupIsFirstMatch(table: seq<Entry>, action: string, option: string, default: Value, i: nat)
    requires i < |table| && Matches(table[i], action, option)
    requires forall j :: 0 <= j < i ==> !Matches(table[j], action, option)
    ensures Lookup(table, action, option, default) == table[i].options[option]
  {
  }

  lemma LookupDefault(table: seq<Entry>, action: string, option: string, default: Value)
    requires forall j :: 0 <= j < |table| ==> !Matches(table[j], action, option)
    ensures Lookup(table, action, option, default) == default
  {
  }

  /**
    An entry for the same action that lacks the option does not stop the
    search, and entries for other actions never matter.
   */
  lemma {:induction false} LookupSkipsNonMatching(e: Entry, rest: seq<Entry>, action: string, option: string, default: Value)
    requires !Matches(e, action, option)
    ensures Lookup([e] + rest, action, option, default) == Lookup(rest, action, option, default)
  {
    var t := [e] + rest;
    var m := FirstMatch(rest, action, option);
    if m.Some? {
      assert t[m.value + 1] == rest[m.value];
      forall j | 0 <= j < m.value + 1 ensures !Matches(t[j], action, option) {
        if j > 0 { assert t[j] == rest[j - 1]; }
      }
      LookupIsFirstMatch(t, action, option, default, m.value + 1);
    } else {
      forall j | 0 <= j < |t| ensures !Matches(t[j], action, option) {
        if j > 0 { assert t[j] == rest[j - 1]; }
      }
      LookupDefault(t, action, option, default);
    }
  }

  /**
    `get_object_action_option`: walks the validated action list and returns
    the option of the first entry that matches, or the default.
   */
  method GetObjectActionOption(table: seq<Entry>, action: string, option: string, default: Value) returns (r: Value)
    requires ValidTable(table)
    ensures r == Lookup(table, action, option, default)
    ensures r == default || exists i :: 0 <= i < |table| && Matches(table[i], action, option) && r == table[i].options[option]
  {
    var actions := GetObjectActions(table);
    var list := actions.value;
    var i := 0;
    while i < |list|
      invariant 0 <= i <= |list|
      invariant forall j :: 0 <= j < i ==> !Matches(list[j], action, option)
    {
      var entry := list[i];
      if entry.options["slug"] == Text(action) && option in entry.options {
        LookupIsFirstMatch(table, action, option, default, i);
        return entry.options[option];
      }
      i := i + 1;
    }
    LookupDefault(table, action, option, default);
    return default;
  }

  /** An option read as text; a missing option, or one that is not text, gives `default`. */
  function TextOption(table: seq<Entry>, action: string, option: string, default: string): string {
    match Lookup(table, action, option, NoneValue)
    case Text(s) => s
    case _ => default
  }

  /** An option read as a list of field names; a missing option, or one that is not such a list, gives `[]`. */
  function NamesOption(table: seq<Entry>, action: string, option: string): seq<string> {
    match Lookup(table, action, option, NoneValue)
    case Names(ns) => ns
    case _ => []
  }
}
