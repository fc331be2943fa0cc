/**
 * What the cloud, environment and group data sources share: the exact-name
 * filter and the one-match rule of a lookup by name, the lookup by id, and
 * the id-before-name dispatch.
 */
module Lookup {
  import opened Wrappers
  import opened Framework
  import opened Sdk

  const ErrorNoValidSearchTerms := "no valid search terms - an id or name is required"

  const NoClientDetail := "could not create sdk client"

  /** The items whose name is exactly `name`, in their original order. */
  function Named<T(!new)>(items: seq<T>, nameOf: T -> string, name: string): (m: seq<T>)
    ensures |m| <= |items|
    ensures forall x :: x in m <==> x in items && nameOf(x) == name
    // each item with that name is kept as often as it occurs, the others not at all
    ensures forall x :: multiset(m)[x] == if nameOf(x) == name then multiset(items)[x] else 0
    decreases |items|
  {
    if items == [] then []
    else
      var init := Named(items[..|items| - 1], nameOf, name);
      var last := items[|items| - 1];
      assert items == items[..|items| - 1] + [last];
      assert multiset(items) == multiset(items[..|items| - 1]) + multiset{last};
      if nameOf(last) == name then init + [last] else init
  }

  /** The filter keeps order: filtering a concatenation filters each part. */
  lemma {:induction false} NamedAppend<T(!new)>(a: seq<T>, b: seq<T>, nameOf: T -> string, name: string)
    ensures Named(a + b, nameOf, name) == Named(a, nameOf, name) + Named(b, nameOf, name)
    decreases |b|
  {
    if b == [] {
      assert a + b == a;
    } else {
      var b' := b[..|b| - 1];
      var last := b[|b| - 1];
      assert (a + b)[..|a + b| - 1] == a + b';
      assert (a + b)[|a + b| - 1] == last;
      NamedAppend(a, b', nameOf, name);
    }
  }

  /** An item listed twice under the looked-up name makes the lookup ambiguous. */
  lemma DuplicateNameIsMultiple<T(!new)>(reply: Reply<seq<T>>, nameOf: T -> string, name: string,
                                         failed: string, multiple: string, none: string, x: T)
    requires Succeeded(reply) && nameOf(x) == name && multiset(reply.value)[x] >= 2
    ensures ByName(reply, nameOf, name, failed, multiple, none) == Err(multiple)
  {
    var m := Named(reply.value, nameOf, name);
    assert multiset(m)[x] >= 2;
    var rest := multiset(m) - multiset{x, x};
    assert multiset(m) == rest + multiset{x, x};
    assert |m| == |multiset(m)| >= 2;
  }

  /** The filter loop of the by-name lookups. */
  method KeepNamed<T(!new)>(items: seq<T>, nameOf: T -> string, name: string) returns (m: seq<T>)
    ensures m == Named(items, nameOf, name)
  {
    m := [];
    var i := 0;
    while i < |items|
      invariant 0 <= i <= |items|
      invariant m == Named(items[..i], nameOf, name)
    {
      assert items[..i + 1][..i] == items[..i];
      if nameOf(items[i]) == name {
        m := m + [items[i]];
      }
      i := i + 1;
    }
    assert items[..i] == items;
  }

  /** One match is the answer; several or none are errors. */
  function SelectUnique<T>(matches: seq<T>, multiple: string, none: string): (r: Result<T>)
    ensures r.Ok? <==> |matches| == 1
    ensures r.Ok? ==> r.value == matches[0]
    ensures |matches| > 1 ==> r == Err(multiple)
    ensures |matches| == 0 ==> r == Err(none)
  {
    if |matches| == 1 then Ok(matches[0])
    else if |matches| > 1 then Err(multiple)
    else Err(none)
  }

  /**
   * The outcome of a lookup by name: a failed list call is `failed`; then the
   * listed items with exactly that name must be exactly one.
   */
  function ByName<T(!new)>(reply: Reply<seq<T>>, nameOf: T -> string, name: string,
                     failed: string, multiple: string, none: string): (r: Result<T>)
    ensures !Succeeded(reply) ==> r == Err(failed)
    ensures r.Ok? <==> Succeeded(reply) && |Named(reply.value, nameOf, name)| == 1
    ensures r.Ok? ==> r.value in reply.value && nameOf(r.value) == name
    ensures Succeeded(reply) && |Named(reply.value, nameOf, name)| > 1 ==> r == Err(multiple)
    ensures Succeeded(reply) && (forall x :: x in reply.value ==> nameOf(x) != name) ==> r == Err(none)
  {
    if !Succeeded(reply) then Err(failed)
    else
      var m := Named(reply.value, nameOf, name);
      assert (forall x :: x in reply.value ==> nameOf(x) != name) ==> |m| == 0 by {
        if |m| > 0 { assert m[0] in m; }
      }
      if |m| == 1 then assert m[0] in m; SelectUnique(m, multiple, none) else SelectUnique(m, multiple, none)
  }

  /** The outcome of a lookup by id: the body of a successful reply, `failed` otherwise. */
  function ById<T>(reply: Reply<T>, failed: string): (r: Result<T>)
    ensures r.Ok? <==> Succeeded(reply)
    ensures r.Ok? ==> r.value == reply.value
    ensures r.Err? ==> r.error == failed
  {
    if Succeeded(reply) then Ok(reply.value) else Err(failed)
  }

  /** `getX`: by id when the configuration has one, else by name when it has one, else an error. */
  function Dispatch<T>(id: Value<int>, name: Value<string>, byId: int -> Result<T>, byName: string -> Result<T>): (r: Result<T>)
    ensures !id.IsNull() ==> r == byId(ValueInt64(id))
    ensures id.IsNull() && !name.IsNull() ==> r == byName(ValueString(name))
    ensures id.IsNull() && name.IsNull() ==> r == Err(ErrorNoValidSearchTerms)
  {
    if !id.IsNull() then byId(ValueInt64(id))
    else if !name.IsNull() then byName(ValueString(name))
    else Err(ErrorNoValidSearchTerms)
  }
}
