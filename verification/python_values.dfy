/**
  Python-level notions the object-action package relies on: the values that
  can sit in an action's configuration dict, their truthiness, the exceptions
  the package raises or catches, and the ASCII behaviour of `str.title()` and
  of `s[0].upper() + s[1:]`.
 */
module PyValues {

  datatype Option<+T> = None | Some(value: T)

  /** The exception classes the package raises, catches or lets through. */
  datatype ErrorKind =
    | AssertionError
    | AttributeError
    | IndexError
    | TypeError
    | NotImplementedError
    | PermissionDenied
    | OtherError(className: string)

  /** A raised exception; `message` is what `str(e)` gives. */
  datatype Exception = Exception(kind: ErrorKind, message: string)

  /** The outcome of a Python call that either returns or raises. */
  datatype Result<+T> = Ok(value: T) | Err(error: Exception) {
    predicate IsFailure() { Err? }

    function PropagateFailure<U>(): Result<U>
      requires Err?
    {
      Err(error)
    }

    function Extract(): T
      requires Ok?
    {
      value
    }
  }

  /** One `(name, {'fields': ...})` group of a fieldsets list. */
  datatype Fieldset = Fieldset(name: Option<string>, fields: seq<string>)

  /** What kind of Python object an opaque configuration value is. */
  datatype ObjectKind = FormClass | PlainFunction | BoundMethod

  /**
    A value stored under a key of an action's configuration dict. Lazy
    translation strings are `Text`; tuples and lists of field names are
    `Names`; classes and callables are `Object`s known only by identity.
   */
  datatype Value =
    | NoneValue
    | Flag(b: bool)
    | Text(s: string)
    | Names(names: seq<string>)
    | Fieldsets(groups: seq<Fieldset>)
    | Object(id: nat, kind: ObjectKind)

  /** Python truthiness: `None`, `False` and empty containers are false. */
  predicate Truthy(v: Value) {
    match v
    case NoneValue => false
    case Flag(b) => b
    case Text(s) => s != ""
    case Names(ns) => ns != []
    case Fieldsets(gs) => gs != []
    case Object(_, _) => true
  }

  // ASCII letter case. Characters outside A-Z and a-z are uncased and are
  // left alone by every case mapping below.

  predicate IsLower(c: char) { 'a' <= c <= 'z' }
  predicate IsUpper(c: char) { 'A' <= c <= 'Z' }
  predicate IsCased(c: char) { IsLower(c) || IsUpper(c) }

  /** `c.upper()` */
  function Upper(c: char): (u: char)
    ensures IsCased(u) == IsCased(c)
    ensures !IsLower(u)
    ensures IsLower(c) || u == c
    ensures IsLower(c) ==> u as int - 'A' as int == c as int - 'a' as int
  {
    if IsLower(c) then (c as int - 32) as char else c
  }

  /** `c.lower()` */
  function Lower(c: char): (l: char)
    ensures IsCased(l) == IsCased(c)
    ensures !IsUpper(l)
    ensures IsUpper(c) || l == c
    ensures IsUpper(c) ==> l as int - 'a' as int == c as int - 'A' as int
  {
    if IsUpper(c) then (c as int + 32) as char else c
  }

  /**
    `str.title()` from the point where the previous character was cased
    (`afterCased`) or not: a cased character that follows a cased one is
    lower-cased, every other character is upper-cased.
   */
  function TitleFrom(s: string, afterCased: bool): (r: string)
    ensures |r| == |s|
  {
    if s == [] then []
    else [if afterCased then Lower(s[0]) else Upper(s[0])] + TitleFrom(s[1..], IsCased(s[0]))
  }

  /** `s.title()` */
  function Title(s: string): string {
    TitleFrom(s, false)
  }

  /**
    The first character of `s.title()` is upper-cased; every later one is
    upper-cased when the character before it is uncased (a word start) and
    lower-cased otherwise.
   */
  lemma {:induction false} TitleAt(s: string, i: nat)
    requires i < |s|
    ensures |Title(s)| == |s|
    ensures i == 0 ==> Title(s)[i] == Upper(s[i])
    ensures i > 0 && IsCased(s[i - 1]) ==> Title(s)[i] == Lower(s[i])
    ensures i > 0 && !IsCased(s[i - 1]) ==> Title(s)[i] == Upper(s[i])
  {
    TitleFromAt(s, false, i);
  }

  lemma {:induction false} TitleFromAt(s: string, afterCased: bool, i: nat)
    requires i < |s|
    ensures var prev := if i == 0 then afterCased else IsCased(s[i - 1]);
            TitleFrom(s, afterCased)[i] == if prev then Lower(s[i]) else Upper(s[i])
  {
    if i > 0 {
      TitleFromAt(s[1..], IsCased(s[0]), i - 1);
      assert s[1..][i - 1] == s[i];
      assert i - 1 > 0 ==> s[1..][i - 2] == s[i - 1];
    }
  }

  /** Title-casing twice is the same as title-casing once. */
  lemma {:induction false} TitleIdempotent(s: string)
    ensures Title(Title(s)) == Title(s)
  {
    TitleFromIdempotent(s, false);
  }

  lemma {:induction false} TitleFromIdempotent(s: string, afterCased: bool)
    ensures TitleFrom(TitleFrom(s, afterCased), afterCased) == TitleFrom(s, afterCased)
  {
    if s != [] {
      var t := TitleFrom(s, afterCased);
      var c := if afterCased then Lower(s[0]) else Upper(s[0]);
      assert t == [c] + TitleFrom(s[1..], IsCased(s[0]));
      assert t[0] == c && t[1..] == TitleFrom(s[1..], IsCased(s[0]));
      assert IsCased(c) == IsCased(s[0]);
      TitleFromIdempotent(s[1..], IsCased(s[0]));
    }
  }

  /** `s[0].upper() + s[1:]`; Python raises IndexError on the empty string. */
  function Capitalize(s: string): (r: string)
    requires s != []
  {
    [Upper(s[0])] + s[1..]
  }

  /**
    Capitalising only touches the first character, upper-cases it, and
    leaves a title-cased string as it is.
   */
  lemma CapitalizeKeepsTitle(s: string)
    requires s != []
    ensures |Capitalize(s)| == |s| && Capitalize(s)[0] == Upper(s[0])
    ensures Capitalize(s)[1..] == s[1..]
    ensures Capitalize(Title(s)) == Title(s)
  {
    TitleAt(s, 0);
    var t := Title(s);
    assert Capitalize(t) == [Upper(t[0])] + t[1..];
    assert t == [t[0]] + t[1..];
  }
}
