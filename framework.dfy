/**
 * The few Terraform plugin-framework notions the core depends on: attribute
 * values that may be null or unknown, and diagnostics. The framework itself
 * (plan/state storage, validators, the diagnostics collector) is not modelled.
 */
module Framework {

  /** A `types.String`, `types.Bool` or `types.Int64`: null, unknown, or a known value. */
  datatype Value<T> = Null | Unknown | Known(v: T) {
    predicate IsNull() { Null? }
    predicate IsUnknown() { Unknown? }
  }

  /** `ValueString()`: the known string, or "" for null and unknown. */
  function ValueString(s: Value<string>): string
  {
    if s.Known? then s.v else ""
  }

  /** `ValueBool()`: the known boolean, or false for null and unknown. */
  function ValueBool(b: Value<bool>): bool
  {
    b.Known? && b.v
  }

  /** `ValueInt64()`: the known integer, or 0 for null and unknown. */
  function ValueInt64(i: Value<int>): int
  {
    if i.Known? then i.v else 0
  }

  datatype Severity = Error | Warning

  datatype Diagnostic = Diagnostic(severity: Severity, summary: string, detail: string)

  /** `diags.AddError(summary, detail)`. */
  function ErrorDiag(summary: string, detail: string): Diagnostic
  {
    Diagnostic(Error, summary, detail)
  }

  /** `diags.HasError()`. */
  predicate HasError(ds: seq<Diagnostic>)
  {
    exists i :: 0 <= i < |ds| && ds[i].severity == Error
  }

  /** Attribute types used in provider, resource and data-source schemas. */
  datatype AttrKind = StringAttr | BoolAttr | Int64Attr | StringSetAttr | Int64SetAttr

  /**
   * The string validators the schemas use, over sibling attributes: the
   * named attribute must also be set, must not be set, or one of several
   * validators must hold.
   */
  datatype Validator =
    | AlsoRequires(other: string)
    | ConflictsWith(other: string)
    | AnyOf(alternatives: seq<Validator>)

  datatype Attribute = Attribute(kind: AttrKind, required: bool, optional: bool, sensitive: bool,
                                 validators: seq<Validator>)

  /** Whether a validator holds, given the set of attributes that carry a non-null value. */
  predicate Holds(v: Validator, present: set<string>)
  {
    match v
    case AlsoRequires(o) => o in present
    case ConflictsWith(o) => o !in present
    case AnyOf(vs) => exists i :: 0 <= i < |vs| && Holds(vs[i], present)
  }

  /**
   * A configuration block is accepted when it sets only declared attributes,
   * sets every required one, and every validator of a set attribute holds.
   */
  predicate Accepts(schema: map<string, Attribute>, present: set<string>)
  {
    && present <= schema.Keys
    && (forall n :: n in schema && schema[n].required ==> n in present)
    && (forall n, i :: n in present && n in schema && 0 <= i < |schema[n].validators| ==>
          Holds(schema[n].validators[i], present))
  }
}
