/** WrappedClosure: a decorator that marks methods returning closures, and
    unwrap_all, which replaces every marked entry of a scope by what calling
    it returns. */
module Closures {
  import opened Errors

  /** A Python value as these operations see it: something that cannot be
      called, a callable described by what calling it returns or raises, or
      an instance of WrappedClosure (class WRAPPED_CLOSURE) or of one of its
      subclasses (any other class number) holding the stored method. */
  datatype Value =
    | Plain(tag: nat)
    | Function(outcome: Result<Value>)
    | Instance(cls: nat, stored: Value)

  const WRAPPED_CLOSURE: nat := 0

  /** callable(): plain values are not; functions and instances (the class
      defines __call__) are. */
  predicate Callable(v: Value) {
    !v.Plain?
  }

  /** Calling a value: a function yields its outcome, an instance calls its
      stored method (WrappedClosure.__call__), anything else raises TypeError. */
  function Call(v: Value): (r: Result<Value>)
    ensures !Callable(v) ==> r == Err(TypeError)
    ensures v.Function? ==> r == v.outcome
    ensures v.Instance? ==> r == Call(v.stored)
    decreases v
  {
    match v
    case Plain(_) => Err(TypeError)
    case Function(outcome) => outcome
    case Instance(_, m) => Call(m)
  }

  /** WrappedClosure(method), or a subclass's constructor: refuses anything
      that is not callable; the instance, once called, behaves exactly as the
      stored method does. */
  function New(cls: nat, stored: Value): (r: Result<Value>)
    ensures r.Ok? <==> Callable(stored)
    ensures r.Err? ==> r.error == TypeError
    ensures r.Ok? ==> r.value.Instance? && r.value.cls == cls && Call(r.value) == Call(stored)
  {
    if Callable(stored) then Ok(Instance(cls, stored)) else Err(TypeError)
  }

  /** An entry unwrap_all called on `cls` replaces: an instance of exactly
      that class, not of a subclass. */
  predicate Marked(cls: nat, v: Value) {
    v.Instance? && v.cls == cls
  }

  /** The entry under `k` has been dealt with: replaced by its call's value
      if marked, left alone otherwise. */
  predicate Unwrapped(cls: nat, scope: map<string, Value>, out: map<string, Value>, k: string)
    requires k in scope && k in out
  {
    if Marked(cls, scope[k]) then Call(scope[k]).Ok? && out[k] == Call(scope[k]).value
    else out[k] == scope[k]
  }

  /** unwrap_all(cls, scope), visiting the names in the dict's iteration
      order `order`. The scope is changed in place, so when a call raises,
      the names visited before it stay replaced and the rest stay as they
      were. */
  method UnwrapAll(cls: nat, scope: map<string, Value>, order: seq<string>)
    returns (out: map<string, Value>, raised: Option<Error>)
    requires forall i, j :: 0 <= i < j < |order| ==> order[i] != order[j]
    requires forall k :: k in scope <==> k in order
    ensures out.Keys == scope.Keys
    ensures forall k :: k in scope && !Marked(cls, scope[k]) ==> out[k] == scope[k]
    ensures raised.None? <==> forall k :: k in scope && Marked(cls, scope[k]) ==> Call(scope[k]).Ok?
    ensures raised.None? ==> forall k :: k in scope ==> Unwrapped(cls, scope, out, k)
    ensures raised.Some? ==>
              exists i :: && 0 <= i < |order| && Marked(cls, scope[order[i]])
                          && Call(scope[order[i]]) == Err(raised.value)
                          && (forall j :: 0 <= j < i ==> Unwrapped(cls, scope, out, order[j]))
                          && (forall j :: i <= j < |order| ==> out[order[j]] == scope[order[j]])
  {
    out := scope;
    var i := 0;
    while i < |order|
      invariant 0 <= i <= |order|
      invariant out.Keys == scope.Keys
      invariant forall j :: 0 <= j < i ==> Unwrapped(cls, scope, out, order[j])
      invariant forall j :: i <= j < |order| ==> out[order[j]] == scope[order[j]]
    {
      var k := order[i];
      if Marked(cls, scope[k]) {
        var c := Call(scope[k]);
        if c.Err? {
          raised := Some(c.error);
          return;
        }
        out := out[k := c.value];
      }
      i := i + 1;
    }
    raised := None;
    forall k | k in scope
      ensures Unwrapped(cls, scope, out, k)
    {
      var j :| 0 <= j < |order| && order[j] == k;
    }
  }
}
