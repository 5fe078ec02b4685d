/**
  The form fields of an action: which fields the generated form class edits
  (`get_object_action_form`), which fields and fieldsets the form page shows
  (`get_object_action_fields`, `get_object_action_fieldsets`), and which
  callable the generated form class carries.
 */
module ActionFields {
  import opened PyValues
  import opened ActionTable
  import opened Framework

  predicate NoDuplicates(s: seq<string>) {
    forall i, j :: 0 <= i < j < |s| ==> s[i] != s[j]
  }

  /** `get_object_action_readonly_fields`: the `readonly_fields` option, by default empty. */
  function ReadonlyFields(table: seq<Entry>, action: string): seq<string> {
    NamesOption(table, action, "readonly_fields")
  }

  /**
    The read-only fields are those of the first entry for the action that
    configures them, and none when no entry does.
   */
  lemma ReadonlyFieldsOption(table: seq<Entry>, action: string, i: nat, names: seq<string>)
    requires i < |table| && Matches(table[i], action, "readonly_fields")
    requires forall j :: 0 <= j < i ==> !Matches(table[j], action, "readonly_fields")
    requires table[i].options["readonly_fields"] == Names(names)
    ensures ReadonlyFields(table, action) == names
  {
    LookupIsFirstMatch(table, action, "readonly_fields", NoneValue, i);
  }

  lemma ReadonlyFieldsDefault(table: seq<Entry>, action: string)
    requires forall j :: 0 <= j < |table| ==> !Matches(table[j], action, "readonly_fields")
    ensures ReadonlyFields(table, action) == []
  {
    LookupDefault(table, action, "readonly_fields", NoneValue);
  }

  /** `tuple(f for f in fields if f not in excluded)` */
  function Without(fields: seq<string>, excluded: seq<string>): seq<string> {
    if fields == [] then []
    else (if fields[0] in excluded then [] else [fields[0]]) + Without(fields[1..], excluded)
  }

  /** A field survives exactly when it is listed and not excluded. */
  lemma {:induction false} WithoutMembers(fields: seq<string>, excluded: seq<string>)
    ensures forall f :: f in Without(fields, excluded) <==> f in fields && f !in excluded
  {
    if fields != [] {
      WithoutMembers(fields[1..], excluded);
      assert fields == [fields[0]] + fields[1..];
    }
  }

  /** Filtering keeps order: it distributes over concatenation. */
  lemma {:induction false} WithoutConcat(a: seq<string>, b: seq<string>, excluded: seq<string>)
    ensures Without(a + b, excluded) == Without(a, excluded) + Without(b, excluded)
  {
    if a != [] {
      assert (a + b)[0] == a[0];
      assert (a + b)[1..] == a[1..] + b;
      WithoutConcat(a[1..], b, excluded);
    } else {
      assert a + b == b;
    }
  }

  /** Filtering a duplicate-free list gives a duplicate-free list. */
  lemma {:induction false} WithoutNoDuplicates(fields: seq<string>, excluded: seq<string>)
    requires NoDuplicates(fields)
    ensures NoDuplicates(Without(fields, excluded))
  {
    if fields != [] {
      WithoutNoDuplicates(fields[1..], excluded);
      WithoutMembers(fields[1..], excluded);
      assert fields[0] !in fields[1..] by {
        forall k | 0 <= k < |fields[1..]| ensures fields[1..][k] != fields[0] {
          assert fields[1..][k] == fields[k + 1];
        }
      }
    }
  }

  /** How the generated form class runs the action: a method of the admin or of the object, or a configured callable. */
  datatype Callable = AdminMethod(name: string) | ObjectMethod(name: string) | Given(id: nat, kind: ObjectKind)

  /**
    The form class of an action: the configured `form_class` unchanged, or a
    class built by `modelform_factory` over the given fields, carrying
    `do_object_action_callable` when a `function` is configured.
   */
  datatype FormClass = ConfiguredClass(cls: Value) | FactoryClass(fields: seq<string>, callable: Option<Callable>)

  /**
    `get_object_action_form`. A configured `form_class` is returned as it is.
    Otherwise the factory gets the configured fields minus the read-only ones,
    in their order; a `function` named by a string is looked up on the admin
    first and then on the object, and AssertionError is raised when neither
    has it.
   */
  function GetForm(admin: ModelAdmin, obj: Instance, action: string): (r: Result<FormClass>)
    ensures var cls := Lookup(admin.objectActions, action, "form_class", NoneValue);
            cls != NoneValue ==> r == Ok(ConfiguredClass(cls))
    ensures r.Ok? && r.value.FactoryClass? ==>
              r.value.fields == Without(NamesOption(admin.objectActions, action, "fields"), ReadonlyFields(admin.objectActions, action))
              && forall f :: f in r.value.fields <==>
                   f in NamesOption(admin.objectActions, action, "fields") && f !in ReadonlyFields(admin.objectActions, action)
    ensures r.Err? <==>
              Lookup(admin.objectActions, action, "form_class", NoneValue) == NoneValue
              && var fn := Lookup(admin.objectActions, action, "function", NoneValue);
                 fn.Text? && fn.s != "" && fn.s !in admin.attributes && fn.s !in obj.attributes
    ensures r.Err? ==> r.error.kind == AssertionError
  {
    var table := admin.objectActions;
    var cls := Lookup(table, action, "form_class", NoneValue);
    if cls != NoneValue then Ok(ConfiguredClass(cls))
    else
      var fields := NamesOption(table, action, "fields");
      var readonly := ReadonlyFields(table, action);
      WithoutMembers(fields, readonly);
      var formFields := Without(fields, readonly);
      match Lookup(table, action, "function", NoneValue)
      case Text(name) =>
        if name == "" then Ok(FactoryClass(formFields, None))
        else if name in admin.attributes then Ok(FactoryClass(formFields, Some(AdminMethod(name))))
        else if name in obj.attributes then Ok(FactoryClass(formFields, Some(ObjectMethod(name))))
        else Err(Exception(AssertionError, ""))
      case Object(id, kind) => Ok(FactoryClass(formFields, Some(Given(id, kind))))
      case _ => Ok(FactoryClass(formFields, None))
  }

  /** Each distinct element once, at its first occurrence. */
  function Distinct(s: seq<string>): seq<string> {
    if s == [] then []
    else
      var init := s[..|s| - 1];
      Distinct(init) + (if s[|s| - 1] in init then [] else [s[|s| - 1]])
  }

  lemma {:induction false} DistinctFacts(s: seq<string>)
    ensures forall f :: f in Distinct(s) <==> f in s
    ensures NoDuplicates(Distinct(s))
  {
    if s != [] {
      var init, last := s[..|s| - 1], s[|s| - 1];
      assert s == init + [last];
      DistinctFacts(init);
    }
  }

  /**
    The loop of `get_object_action_fields` after it has seen `extra`: the
    form's base fields followed by each read-only field not yet present.
   */
  function MergeFields(base: seq<string>, extra: seq<string>): seq<string> {
    if extra == [] then base
    else
      var merged := MergeFields(base, extra[..|extra| - 1]);
      var f := extra[|extra| - 1];
      if f in merged then merged else merged + [f]
  }

  lemma {:induction false} MergeFieldsMembers(base: seq<string>, extra: seq<string>)
    ensures forall f :: f in MergeFields(base, extra) <==> f in base || f in extra
  {
    if extra != [] {
      var init := extra[..|extra| - 1];
      assert extra == init + [extra[|extra| - 1]];
      MergeFieldsMembers(base, init);
    }
  }

  /**
    The merged list is the base list followed by the read-only fields that
    are not base fields, each once, in read-only order.
   */
  lemma {:induction false} MergeFieldsSplit(base: seq<string>, extra: seq<string>)
    ensures MergeFields(base, extra) == base + Without(Distinct(extra), base)
  {
    if extra != [] {
      var init, f := extra[..|extra| - 1], extra[|extra| - 1];
      var merged := MergeFields(base, init);
      var tail := if f in init then [] else [f];
      var added := if f in merged then [] else [f];
      var kept := Without(Distinct(init), base);
      assert merged == base + kept by {
        MergeFieldsSplit(base, init);
      }
      assert Without(tail, base) == added by {
        MergeFieldsMembers(base, init);
        if tail != [] { assert tail[1..] == []; }
      }
      assert Without(Distinct(extra), base) == kept + added by {
        assert Distinct(extra) == Distinct(init) + tail;
        WithoutConcat(Distinct(init), tail, base);
      }
      assert MergeFields(base, extra) == merged + added;
      assert (base + kept) + added == base + (kept + added);
    }
  }

  /**
    The display field list starts with the base fields, contains exactly the
    base and read-only fields, and has no duplicates when the base has none.
   */
  lemma MergeFieldsFacts(base: seq<string>, extra: seq<string>)
    ensures |MergeFields(base, extra)| >= |base| && MergeFields(base, extra)[..|base|] == base
    ensures forall f :: f in MergeFields(base, extra) <==> f in base || f in extra
    ensures NoDuplicates(base) ==> NoDuplicates(MergeFields(base, extra))
  {
    MergeFieldsSplit(base, extra);
    var added := Without(Distinct(extra), base);
    DistinctFacts(extra);
    WithoutMembers(Distinct(extra), base);
    WithoutNoDuplicates(Distinct(extra), base);
    assert (base + added)[..|base|] == base;
    if NoDuplicates(base) {
      forall i, j | 0 <= i < j < |base + added| ensures (base + added)[i] != (base + added)[j] {
        if j >= |base| {
          assert (base + added)[j] == added[j - |base|];
          assert added[j - |base|] in added;
          if i >= |base| { assert (base + added)[i] == added[i - |base|]; }
        }
      }
    }
  }

  /** `get_object_action_fields` as a value: the configured `fields`, or the merged list. */
  function DisplayFields(table: seq<Entry>, action: string, baseFields: seq<string>): seq<string> {
    match Lookup(table, action, "fields", NoneValue)
    case Names(ns) => ns
    case _ => MergeFields(baseFields, ReadonlyFields(table, action))
  }

  /**
    `get_object_action_fields`: the configured `fields` when there are some;
    otherwise the form's base fields, to which each read-only field not
    already present is appended.
   */
  method GetObjectActionFields(table: seq<Entry>, action: string, baseFields: seq<string>) returns (fields: seq<string>)
    requires Configured(table)
    ensures fields == DisplayFields(table, action, baseFields)
  {
    var configured := GetObjectActionOption(table, action, "fields", NoneValue);
    if configured.Names? {
      return configured.names;
    }
    var option := GetObjectActionOption(table, action, "readonly_fields", NoneValue);
    var readonly := if option.Names? then option.names else [];
    fields := baseFields;
    for i := 0 to |readonly|
      invariant fields == MergeFields(baseFields, readonly[..i])
    {
      assert readonly[..i + 1][..i] == readonly[..i];
      if readonly[i] !in fields {
        fields := fields + [readonly[i]];
      }
    }
    assert readonly[..|readonly|] == readonly;
  }

  /**
    `get_object_action_fieldsets`: the configured `fieldsets`, or a single
    unnamed group holding the display fields.
   */
  function FieldsetsFor(table: seq<Entry>, action: string, baseFields: seq<string>): seq<Fieldset> {
    match Lookup(table, action, "fieldsets", NoneValue)
    case Fieldsets(groups) => groups
    case _ => [Fieldset(None, DisplayFields(table, action, baseFields))]
  }

  /**
    With neither `fieldsets` nor `fields` configured, the form page shows one
    unnamed group that starts with the base fields and holds every base and
    read-only field.
   */
  lemma DefaultFieldset(table: seq<Entry>, action: string, baseFields: seq<string>)
    requires forall j :: 0 <= j < |table| ==> !Matches(table[j], action, "fieldsets")
    requires forall j :: 0 <= j < |table| ==> !Matches(table[j], action, "fields")
    ensures |FieldsetsFor(table, action, baseFields)| == 1
    ensures var g := FieldsetsFor(table, action, baseFields)[0];
            g.name == None
            && |g.fields| >= |baseFields| && g.fields[..|baseFields|] == baseFields
            && forall f :: f in g.fields <==> f in baseFields || f in ReadonlyFields(table, action)
  {
    LookupDefault(table, action, "fieldsets", NoneValue);
    LookupDefault(table, action, "fields", NoneValue);
    MergeFieldsFacts(baseFields, ReadonlyFields(table, action));
  }
}
