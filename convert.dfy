/**
 * Null-aware conversions from SDK values (pointers and slices) to framework
 * values (convert/convert.go; the same scalar helpers are repeated in
 * resources/user/resource.go).
 */
module Convert {
  import opened Wrappers
  import opened Framework

  /**
   * `StrToType`, `BoolToType`, `Int64ToType`: a nil pointer becomes null,
   * a pointer to a value becomes that known value. A pointer is an Option.
   */
  function ToType<T>(p: Option<T>): (r: Value<T>)
    ensures p.None? <==> r.Null?
    ensures p.Some? ==> r == Known(p.value)
    ensures !r.Unknown?
  {
    if p.None? then Null else Known(p.value)
  }

  /** An element `attr.Value` (a `types.String` or `types.Int64`) and its element type. */
  datatype AttrValue = StringVal(s: Value<string>) | Int64Val(i: Value<int>)

  datatype ElemType = StringType | Int64Type

  function TypeOf(v: AttrValue): ElemType
  {
    if v.StringVal? then StringType else Int64Type
  }

  /** `types.SetValue`: fails when an element is not of the set's element type. */
  function SetValue(t: ElemType, vals: seq<AttrValue>): (r: Option<seq<AttrValue>>)
    ensures r.Some? <==> forall i :: 0 <= i < |vals| ==> TypeOf(vals[i]) == t
    ensures r.Some? ==> r.value == vals
  {
    if forall i :: 0 <= i < |vals| ==> TypeOf(vals[i]) == t then Some(vals) else None
  }

  /** `StrSliceToSet`: empty is a null set; otherwise a set holding exactly the items, in order. */
  method StrSliceToSet(items: seq<string>) returns (r: Value<seq<AttrValue>>)
    ensures r.Null? <==> |items| == 0
    ensures !r.Unknown?
    ensures r.Known? ==> |r.v| == |items| && forall i :: 0 <= i < |items| ==> r.v[i] == StringVal(Known(items[i]))
  {
    if |items| == 0 {
      return Null;
    }
    var vals: seq<AttrValue> := [];
    var i := 0;
    while i < |items|
      invariant 0 <= i <= |items|
      invariant |vals| == i && forall k :: 0 <= k < i ==> vals[k] == StringVal(Known(items[k]))
    {
      vals := vals + [StringVal(Known(items[i]))];
      i := i + 1;
    }
    var set_ := SetValue(StringType, vals);
    if set_.None? {
      return Null;
    }
    r := Known(set_.value);
  }

  /** `Int64SliceToSet`: empty is a null set; otherwise a set holding exactly the items, in order. */
  method Int64SliceToSet(items: seq<int>) returns (r: Value<seq<AttrValue>>)
    ensures r.Null? <==> |items| == 0
    ensures !r.Unknown?
    ensures r.Known? ==> |r.v| == |items| && forall i :: 0 <= i < |items| ==> r.v[i] == Int64Val(Known(items[i]))
  {
    if |items| == 0 {
      return Null;
    }
    var vals: seq<AttrValue> := [];
    var i := 0;
    while i < |items|
      invariant 0 <= i <= |items|
      invariant |vals| == i && forall k :: 0 <= k < i ==> vals[k] == Int64Val(Known(items[k]))
    {
      vals := vals + [Int64Val(Known(items[i]))];
      i := i + 1;
    }
    var set_ := SetValue(Int64Type, vals);
    if set_.None? {
      return Null;
    }
    r := Known(set_.value);
  }
}
