/**
  The checks some tools make on their arguments before any remote call: a
  value must be one of a fixed list (comment visibility, project role), and
  task metadata must map every key to a string.
 */
module Validate {
  import opened Common
  import Json

  const CommentVisibilities: seq<string> := ["app-user", "app-manager", "app-admin"]
  const ProjectRoles: seq<string> := ["project-member", "project-manager", "project-viewer"]
  const DefaultRole: string := "project-member"

  /** The scan over the allowed values that sets a flag and stops at the first match. */
  method IsListed(value: string, allowed: seq<string>) returns (valid: bool)
    ensures valid <==> value in allowed
  {
    valid := false;
    for i := 0 to |allowed|
      invariant !valid && value !in allowed[..i]
    {
      if value == allowed[i] {
        valid := true;
        break;
      }
    }
  }

  predicate AllStrings(values: map<string, Json.Value>) {
    forall k :: k in values ==> values[k].Str?
  }

  /**
    Narrows metadata values to strings, visiting the keys in no particular
    order (Go's map iteration). It succeeds exactly when every value is a
    string, and then returns the same keys with the same strings; otherwise it
    names one key whose value is not a string.
   */
  method NarrowMetadata(values: map<string, Json.Value>) returns (r: Result<map<string, string>, string>)
    ensures r.Success? <==> AllStrings(values)
    ensures r.Success? ==> r.value.Keys == values.Keys &&
                           forall k :: k in values ==> values[k] == Json.Str(r.value[k])
    ensures r.Failure? ==> r.error in values && !values[r.error].Str?
  {
    var narrowed: map<string, string> := map[];
    var rest := values.Keys;
    while rest != {}
      invariant rest <= values.Keys
      invariant narrowed.Keys == values.Keys - rest
      invariant forall k :: k in narrowed ==> values[k] == Json.Str(narrowed[k])
      decreases rest
    {
      var key :| key in rest;
      if !values[key].Str? {
        return Failure(key);
      }
      narrowed := narrowed[key := values[key].s];
      rest := rest - {key};
    }
    return Success(narrowed);
  }
}
