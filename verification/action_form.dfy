/**
  The form every action form derives from (`AdminObjectActionForm`): its
  `save` runs the action, through the callable attached to the form class
  when there is one and through `do_object_action` otherwise, records a
  failure as a non-field error and raises it again.
 */
module ActionForm {
  import opened PyValues
  import opened Framework

  /** What running an action did: the instance afterwards, and the exception it raised, if any. */
  datatype Effect = Effect(instance: Instance, raised: Option<Exception>)

  /**
    The callable stored as `do_object_action_callable` on the form class:
    whether it is a plain function (which the class attribute binds to the
    form, as any function stored on a class is) or already a bound method,
    and what it does to the instance when called as `fn(obj, form)`.
   */
  datatype ActionCallable = ActionCallable(kind: ObjectKind, run: Instance -> Effect)

  /** The exception of the base `do_object_action`. */
  const NotImplementedMessage := "do_object_action has not been implemented"

  /** The base `do_object_action`: it does nothing to the instance and always raises NotImplementedError. */
  function BaseAction(instance: Instance): (e: Effect)
    ensures e.instance == instance
    ensures e.raised.Some? && e.raised.value.kind == NotImplementedError
  {
    Effect(instance, Some(Exception(NotImplementedError, NotImplementedMessage)))
  }

  /**
    `self.do_object_action_callable(self.instance, self)` as written. A
    plain function stored on the form class is bound to the form, so it is
    called with the form, the instance and the form: one argument more than
    the `fn(obj, form)` convention the bound methods follow, and Python
    raises TypeError before the function's body runs.
   */
  function InvokeAsWritten(c: ActionCallable, instance: Instance): Effect {
    if c.kind == PlainFunction then
      Effect(instance, Some(Exception(TypeError, "takes 2 positional arguments but 3 were given")))
    else c.run(instance)
  }

  /** The intended call: the callable runs on the instance and the form, whatever its kind. */
  function Invoke(c: ActionCallable, instance: Instance): (e: Effect)
    ensures c.kind != PlainFunction ==> e == InvokeAsWritten(c, instance)
  {
    c.run(instance)
  }

  /**
    The action `save` runs: the attached callable when the form class has
    one, and otherwise `do_object_action`, the subclass's when it overrides
    it and the base one when it does not.
   */
  function RunAction(callable: Option<ActionCallable>, override: Option<Instance -> Effect>, instance: Instance): Effect {
    match callable
    case Some(c) => Invoke(c, instance)
    case None =>
      match override
      case Some(action) => action(instance)
      case None => BaseAction(instance)
  }

  /** What `save` hands back: the instance, or the exception it raised again. */
  datatype SaveOutcome = Saved(instance: Instance) | SaveRaised(error: Exception)

  /** The outcome of `save` once the action has run. */
  function OutcomeOf(e: Effect): (r: SaveOutcome)
    ensures r.Saved? <==> e.raised.None?
    ensures r.Saved? ==> r.instance == e.instance
    ensures r.SaveRaised? ==> r.error == e.raised.value
  {
    match e.raised
    case None => Saved(e.instance)
    case Some(error) => SaveRaised(error)
  }

  /** The non-field errors `save` records: `str(e)` once when the action raised, nothing otherwise. */
  function RecordedErrors(r: SaveOutcome): (errors: seq<string>)
    ensures r.Saved? ==> errors == []
    ensures r.SaveRaised? ==> errors == [r.error.message]
  {
    match r
    case Saved(_) => []
    case SaveRaised(error) => [error.message]
  }

  /**
    An action form bound to a model instance: the instance the action works
    on, the non-field errors recorded so far, the `do_object_action_callable`
    of its class, and the `do_object_action` its class defines, if it
    overrides the base one.
   */
  class ObjectActionForm {
    var instance: Instance
    var nonFieldErrors: seq<string>
    const actionCallable: Option<ActionCallable>
    const override: Option<Instance -> Effect>

    constructor (instance: Instance, actionCallable: Option<ActionCallable>, override: Option<Instance -> Effect>)
      ensures this.instance == instance && nonFieldErrors == []
      ensures this.actionCallable == actionCallable && this.override == override
    {
      this.instance := instance;
      this.nonFieldErrors := [];
      this.actionCallable := actionCallable;
      this.override := override;
    }

    /** `do_object_action`: the subclass's action, or the base one, which always raises. */
    method DoObjectAction() returns (raised: Option<Exception>)
      modifies this
      ensures override.None? ==> instance == old(instance) && raised == BaseAction(old(instance)).raised
      ensures override.Some? ==> instance == override.value(old(instance)).instance && raised == override.value(old(instance)).raised
      ensures nonFieldErrors == old(nonFieldErrors)
    {
      var effect := if override.Some? then override.value(instance) else BaseAction(instance);
      instance := effect.instance;
      raised := effect.raised;
    }

    /** `add_error(None, message)`: one more non-field error. */
    method AddError(message: string)
      modifies this
      ensures nonFieldErrors == old(nonFieldErrors) + [message]
      ensures instance == old(instance)
    {
      nonFieldErrors := nonFieldErrors + [message];
    }

    /**
      `save`: runs the attached callable when the class has one and
      `do_object_action` otherwise, never both; when the action raises, one
      non-field error holding `str(e)` is recorded and the same exception is
      raised again; otherwise the instance is returned.
     */
    method Save() returns (r: SaveOutcome)
      modifies this
      ensures var effect := RunAction(actionCallable, override, old(instance));
              && instance == effect.instance
              && r == OutcomeOf(effect)
      ensures nonFieldErrors == old(nonFieldErrors) + RecordedErrors(r)
    {
      var raised: Option<Exception>;
      if actionCallable.Some? {
        var effect := Invoke(actionCallable.value, instance);
        instance := effect.instance;
        raised := effect.raised;
      } else {
        raised := DoObjectAction();
      }
      if raised.Some? {
        AddError(raised.value.message);
        return SaveRaised(raised.value);
      }
      return Saved(instance);
    }
  }

  /** Without a callable and without an override, `save` always fails with the base NotImplementedError. */
  lemma BaseSaveFails(instance: Instance)
    ensures OutcomeOf(RunAction(None, None, instance)) == SaveRaised(Exception(NotImplementedError, NotImplementedMessage))
    ensures RecordedErrors(OutcomeOf(RunAction(None, None, instance))) == [NotImplementedMessage]
  {
  }

  /** An attached callable decides the outcome: the class's own `do_object_action` is then never run. */
  lemma CallableWins(c: ActionCallable, o1: Option<Instance -> Effect>, o2: Option<Instance -> Effect>, instance: Instance)
    ensures RunAction(Some(c), o1, instance) == RunAction(Some(c), o2, instance) == c.run(instance)
  {
  }

  /**
    A failing save records exactly one error, its message, and passes on the
    exception the action raised; a successful one records none and hands
    back the instance as the action left it.
   */
  lemma SaveOutcomeFacts(callable: Option<ActionCallable>, override: Option<Instance -> Effect>, instance: Instance)
    ensures var effect := RunAction(callable, override, instance);
            var r := OutcomeOf(effect);
            && (effect.raised.Some? ==> r == SaveRaised(effect.raised.value) && |RecordedErrors(r)| == 1
                                         && RecordedErrors(r)[0] == effect.raised.value.message)
            && (effect.raised.None? ==> r == Saved(effect.instance) && RecordedErrors(r) == [])
  {
  }

  /**
    As written, a plain function attached as `function` and declared for the
    two-argument `fn(obj, form)` call fails on every instance with TypeError,
    whatever its own body does, where the intended call runs it. (A function
    declared with three parameters or `*args` would accept the extra
    argument; `ObjectKind` does not model such signatures.) `do_fail` of the
    sample admin shows it: the user is shown the arity error instead of
    "this action is not yet implemented".
   */
  lemma PlainFunctionMisbound(c: ActionCallable, instance: Instance)
    requires c.kind == PlainFunction
    ensures InvokeAsWritten(c, instance).raised.Some?
    ensures InvokeAsWritten(c, instance).raised.value.kind == TypeError
    ensures Invoke(c, instance) == c.run(instance)
  {
  }

  /** The sample admin's `do_fail(obj, form)`. */
  function DoFail(instance: Instance): Effect {
    Effect(instance, Some(Exception(NotImplementedError, "this action is not yet implemented")))
  }

  lemma DoFailCounterexample(instance: Instance)
    ensures var c := ActionCallable(PlainFunction, DoFail);
            && OutcomeOf(Invoke(c, instance)) == SaveRaised(Exception(NotImplementedError, "this action is not yet implemented"))
            && OutcomeOf(InvokeAsWritten(c, instance)).error.kind == TypeError
            && OutcomeOf(InvokeAsWritten(c, instance)) != OutcomeOf(Invoke(c, instance))
  {
  }
}
