/**
 * The require-on-create plan modifier (modifiers/modifiers.go): an
 * attribute that may be omitted on import but must be set when the
 * resource is created.
 */
module Modifiers {
  import opened Framework

  /** Reading the state's `id`: the value read and the diagnostics the read returned. */
  datatype IdRead = IdRead(id: Value<int>, diags: seq<Diagnostic>)

  const DescriptionText := "Requires the attribute to be set during resource creation."

  function Description(): (d: string)
    ensures d == DescriptionText
  {
    DescriptionText
  }

  /** `MarkdownDescription` is the plain description. */
  function MarkdownDescription(): (d: string)
    ensures d == Description()
  {
    Description()
  }

  /** The detail of the missing-attribute error for the attribute at `path`. */
  function MissingMessage(path: string): (msg: string)
    ensures |msg| >= |"attribute '" + path + "' not set"|
    ensures msg[..|"attribute '" + path + "' not set"|] == "attribute '" + path + "' not set"
  {
    "attribute '" + path + "' not set "
      + "(this attribute is optional for some operations, eg import, but needed during create)"
  }

  /** A resource exists once its state has a known id. */
  predicate ResourceExists(id: Value<int>)
  {
    !id.IsNull() && !id.IsUnknown()
  }

  /**
   * `PlanModifyString`: an id read whose diagnostics hold an error forwards
   * them all and stops; a read with warnings only drops them and goes on, and
   * then one error is added exactly when the resource does not exist yet and
   * the attribute is null in the configuration.
   */
  method PlanModifyString(state: IdRead, config: Value<string>, path: string, before: seq<Diagnostic>)
    returns (after: seq<Diagnostic>)
    ensures HasError(state.diags) ==> after == before + state.diags
    ensures !HasError(state.diags) && !ResourceExists(state.id) && config.IsNull() ==>
      after == before + [ErrorDiag("missing attribute", MissingMessage(path))]
    ensures !HasError(state.diags) && (ResourceExists(state.id) || !config.IsNull()) ==> after == before
  {
    if HasError(state.diags) {
      after := before + state.diags;
      return;
    }
    var resourceExists := !state.id.IsNull() && !state.id.IsUnknown();
    after := before;
    if !resourceExists && config.IsNull() {
      after := after + [ErrorDiag("missing attribute", MissingMessage(path))];
    }
  }
}
