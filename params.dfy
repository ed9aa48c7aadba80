/**
  The parameter maps the create/update tools send. Each tool starts from its
  required keys and then, key by key in a fixed order, inserts an optional
  argument only when it differs from its default: 0 for integers, "" for
  strings, an empty list for tags.
 */
module Params {
  import Json

  datatype OptionalArg =
    | IntArg(key: string, n: int)
    | StringArg(key: string, s: string)
    | TagsArg(key: string, tags: seq<string>)

  /** The argument differs from its default and so is sent. */
  predicate IsSet(o: OptionalArg) {
    match o
    case IntArg(_, n) => n != 0
    case StringArg(_, s) => s != ""
    case TagsArg(_, tags) => |tags| > 0
  }

  /** The JSON value an argument is sent as; tags go as an array of strings. */
  function ValueOf(o: OptionalArg): (v: Json.Value)
    ensures o.TagsArg? ==> v.Arr? && |v.items| == |o.tags| &&
                           forall i :: 0 <= i < |o.tags| ==> v.items[i] == Json.Str(o.tags[i])
  {
    match o
    case IntArg(_, n) => Json.Num(n)
    case StringArg(_, s) => Json.Str(s)
    case TagsArg(_, tags) => Json.Arr(seq(|tags|, i requires 0 <= i < |tags| => Json.Str(tags[i])))
  }

  /** The array sent for a tag list gives back the list: tags are neither dropped, added nor reordered. */
  lemma TagsReadBack(key: string, tags: seq<string>, other: seq<string>)
    requires ValueOf(TagsArg(key, tags)) == ValueOf(TagsArg(key, other))
    ensures tags == other
  {
    var v := ValueOf(TagsArg(key, tags));
    forall i | 0 <= i < |tags|
      ensures tags[i] == other[i]
    {
      assert Json.Str(tags[i]) == v.items[i] == Json.Str(other[i]);
    }
  }

  predicate DistinctKeys(opts: seq<OptionalArg>) {
    forall i, j :: 0 <= i < j < |opts| ==> opts[i].key != opts[j].key
  }

  /** None of the optional keys is already a required key. */
  predicate Fresh(required: map<string, Json.Value>, opts: seq<OptionalArg>) {
    forall i :: 0 <= i < |opts| ==> opts[i].key !in required
  }

  /** The keys of the arguments that differ from their defaults. */
  function SetKeys(opts: seq<OptionalArg>): set<string> {
    set i | 0 <= i < |opts| && IsSet(opts[i]) :: opts[i].key
  }

  /**
    `params` is what a tool builds from `required` and `opts`: the required
    entries unchanged, each optional key present exactly when its argument is
    set and then carrying that argument's value, and no other key.
   */
  ghost predicate Built(params: map<string, Json.Value>, required: map<string, Json.Value>, opts: seq<OptionalArg>) {
    && params.Keys == required.Keys + SetKeys(opts)
    && (forall k :: k in required ==> params[k] == required[k])
    && (forall i :: 0 <= i < |opts| ==> (opts[i].key in params <==> IsSet(opts[i])))
    && (forall i :: 0 <= i < |opts| && IsSet(opts[i]) ==> params[opts[i].key] == ValueOf(opts[i]))
  }

  /** One step of the builder: inserting the next argument when it is set keeps `Built`. */
  lemma BuiltAppend(params: map<string, Json.Value>, required: map<string, Json.Value>,
                    opts: seq<OptionalArg>, o: OptionalArg)
    requires Built(params, required, opts)
    requires DistinctKeys(opts + [o]) && Fresh(required, opts + [o])
    ensures Built(if IsSet(o) then params[o.key := ValueOf(o)] else params, required, opts + [o])
  {
    var all := opts + [o];
    assert SetKeys(all) == SetKeys(opts) + (if IsSet(o) then {o.key} else {}) by {
      assert forall i :: 0 <= i < |opts| ==> all[i] == opts[i];
      assert all[|opts|] == o;
    }
    forall i | 0 <= i < |opts|
      ensures all[i].key != o.key
    {
      assert all[i] == opts[i] && all[|opts|] == o;
    }
  }

  /** The repeated `if v != default { params[key] = v }` steps, one per optional argument, in order. */
  method AddOptionals(required: map<string, Json.Value>, opts: seq<OptionalArg>) returns (params: map<string, Json.Value>)
    requires DistinctKeys(opts) && Fresh(required, opts)
    ensures Built(params, required, opts)
  {
    params := required;
    for n := 0 to |opts|
      invariant params.Keys == required.Keys + SetKeys(opts[..n])
      invariant forall k :: k in required ==> params[k] == required[k]
      invariant forall i :: 0 <= i < n && IsSet(opts[i]) ==> params[opts[i].key] == ValueOf(opts[i])
    {
      if IsSet(opts[n]) {
        params := params[opts[n].key := ValueOf(opts[n])];
      }
      assert SetKeys(opts[..n + 1]) == SetKeys(opts[..n]) + (if IsSet(opts[n]) then {opts[n].key} else {});
    }
    assert opts[..|opts|] == opts;
    forall i | 0 <= i < |opts| && opts[i].key in params
      ensures IsSet(opts[i])
    {
      var j :| 0 <= j < |opts| && IsSet(opts[j]) && opts[j].key == opts[i].key;
      assert i == j;
    }
  }
}
