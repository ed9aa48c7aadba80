/**
  Classification of the loosely-typed result of `getProjectByName`, shared by
  the task-listing and task-creation tools.

  The remote service answers "no such project" with one of several sentinel
  shapes instead of an error. Only a non-empty object whose decoded `id` is
  non-zero counts as found. The `id` is read the way Go's `encoding/json`
  fills `struct { ID int }` from that object: the object is re-marshalled
  with its keys in sorted order, every key equal to "id" up to ASCII case
  sets the field, a null leaves it as it was, and any other non-integer
  (or an integer outside Go's `int`) makes the decoding fail.
 */
module Lookup {
  import opened Common
  import Json
  import Decimal

  datatype NotFoundReason =
    | BoolResult(b: bool)
    | NullResult
    | EmptyArray
    | UnexpectedType
    | EmptyObject
    | ZeroId

  datatype Lookup =
    | Found(id: int)
    | NotFound(reason: NotFoundReason)
    | Unparsable

  /** The keys that fill the `id` field, in the byte order of a marshalled Go map. */
  const IdKeys: seq<string> := ["ID", "Id", "iD", "id"]

  /** A value the `id` field accepts: null (no change) or an integer that fits Go's `int`. */
  predicate Acceptable(v: Json.Value) {
    v.Null? || (v.Num? && Decimal.InInt64(v.n))
  }

  /** The decoder's walk over `keys`, starting from the field value `acc`; None is a decoding error. */
  function DecodeId(fields: map<string, Json.Value>, keys: seq<string>, acc: int): (r: Option<int>)
    ensures r.Some? && Decimal.InInt64(acc) ==> Decimal.InInt64(r.value)
  {
    if keys == [] then Some(acc)
    else if keys[0] !in fields then DecodeId(fields, keys[1..], acc)
    else match fields[keys[0]]
      case Null => DecodeId(fields, keys[1..], acc)
      case Num(n) => if Decimal.InInt64(n) then DecodeId(fields, keys[1..], n) else None
      case _ => None
  }

  /** Some key in `keys` holds a value the `id` field rejects. */
  ghost predicate SomeRejected(fields: map<string, Json.Value>, keys: seq<string>) {
    exists i :: 0 <= i < |keys| && keys[i] in fields && !Acceptable(fields[keys[i]])
  }

  /** `keys[i]` holds a number and every later key is absent or null: the last write. */
  ghost predicate LastNumberAt(fields: map<string, Json.Value>, keys: seq<string>, i: int) {
    && 0 <= i < |keys|
    && keys[i] in fields && fields[keys[i]].Num?
    && forall j :: i < j < |keys| && keys[j] in fields ==> fields[keys[j]].Null?
  }

  /** No key in `keys` holds anything but null. */
  ghost predicate NoNumber(fields: map<string, Json.Value>, keys: seq<string>) {
    forall i :: 0 <= i < |keys| && keys[i] in fields ==> fields[keys[i]].Null?
  }

  /**
    The decoding walk against a declarative reading: it fails exactly when some
    key holds an unacceptable value; otherwise the field keeps its initial value
    when no key holds a number, and takes the last number otherwise.
   */
  lemma {:induction false} DecodeIdMeans(fields: map<string, Json.Value>, keys: seq<string>, acc: int)
    ensures DecodeId(fields, keys, acc).None? <==> SomeRejected(fields, keys)
    ensures !SomeRejected(fields, keys) && NoNumber(fields, keys) ==> DecodeId(fields, keys, acc) == Some(acc)
    ensures forall i :: !SomeRejected(fields, keys) && LastNumberAt(fields, keys, i) ==>
              DecodeId(fields, keys, acc) == Some(fields[keys[i]].n)
  {
    if keys != [] {
      var rest := keys[1..];
      var next := if keys[0] in fields && fields[keys[0]].Num? then fields[keys[0]].n else acc;
      DecodeIdMeans(fields, rest, next);
      assert forall i :: 1 <= i < |keys| ==> keys[i] == rest[i - 1];
      assert SomeRejected(fields, rest) ==> SomeRejected(fields, keys);
      assert SomeRejected(fields, keys) && !SomeRejected(fields, rest) ==>
               keys[0] in fields && !Acceptable(fields[keys[0]]);
      forall i | !SomeRejected(fields, keys) && LastNumberAt(fields, keys, i)
        ensures DecodeId(fields, keys, acc) == Some(fields[keys[i]].n)
      {
        if i == 0 {
          assert NoNumber(fields, rest);
        } else {
          assert LastNumberAt(fields, rest, i - 1);
        }
      }
    }
  }

  /** The sentinel checks in the order the tools make them, then the `id` decoding. */
  function Classify(result: Json.Value): (r: Lookup)
    ensures !result.Obj? ==> r.NotFound?
    ensures r.Found? ==> result.Obj? && result.fields != map[] && r.id != 0 && Decimal.InInt64(r.id)
  {
    match result
    case Bool(b) => NotFound(BoolResult(b))
    case Null => NotFound(NullResult)
    case Arr(items) => if items == [] then NotFound(EmptyArray) else NotFound(UnexpectedType)
    case Num(_) => NotFound(UnexpectedType)
    case Str(_) => NotFound(UnexpectedType)
    case Obj(fields) =>
      if fields == map[] then NotFound(EmptyObject)
      else match DecodeId(fields, IdKeys, 0)
        case None => Unparsable
        case Some(id) => if id == 0 then NotFound(ZeroId) else Found(id)
  }

  /** Every sentinel shape the remote service uses for "no such project" is classified as not found. */
  lemma SentinelsNotFound()
    ensures Classify(Json.Bool(false)) == NotFound(BoolResult(false))
    ensures Classify(Json.Bool(true)) == NotFound(BoolResult(true))
    ensures Classify(Json.Null) == NotFound(NullResult)
    ensures Classify(Json.Arr([])) == NotFound(EmptyArray)
    ensures Classify(Json.Obj(map[])) == NotFound(EmptyObject)
    ensures Classify(Json.Obj(map["id" := Json.Num(0)])) == NotFound(ZeroId)
    ensures Classify(Json.Obj(map["id" := Json.Null])) == NotFound(ZeroId)
  {
    var zero := map["id" := Json.Num(0)];
    assert LastNumberAt(zero, IdKeys, 3);
    DecodeIdMeans(zero, IdKeys, 0);
    var nil := map["id" := Json.Null];
    assert NoNumber(nil, IdKeys);
    DecodeIdMeans(nil, IdKeys, 0);
  }

  /**
    A project is found with id `n` exactly when the result is a non-empty object,
    none of its id keys holds a value Go refuses for an `int`, the last of them
    holding a number holds `n`, and `n` is not zero.
   */
  lemma FoundIff(result: Json.Value, n: int)
    ensures Classify(result) == Found(n) <==>
              && result.Obj? && result.fields != map[]
              && !SomeRejected(result.fields, IdKeys)
              && n != 0
              && exists i :: LastNumberAt(result.fields, IdKeys, i) && result.fields[IdKeys[i]] == Json.Num(n)
  {
    if result.Obj? && result.fields != map[] {
      var fields := result.fields;
      DecodeIdMeans(fields, IdKeys, 0);
      if Classify(result) == Found(n) {
        assert !SomeRejected(fields, IdKeys);
        assert !NoNumber(fields, IdKeys);
        var k :| 0 <= k < |IdKeys| && IdKeys[k] in fields && !fields[IdKeys[k]].Null?;
        var i := LastNumberFrom(fields, IdKeys, k);
        assert result.fields[IdKeys[i]] == Json.Num(n);
      }
    }
  }

  /** Among acceptable values, some key from `k` on holds the last number. */
  lemma LastNumberFrom(fields: map<string, Json.Value>, keys: seq<string>, k: int) returns (i: int)
    requires 0 <= k < |keys| && keys[k] in fields && !fields[keys[k]].Null?
    requires !SomeRejected(fields, keys)
    ensures k <= i && LastNumberAt(fields, keys, i)
    decreases |keys| - k
  {
    assert Acceptable(fields[keys[k]]);
    if exists j :: k < j < |keys| && keys[j] in fields && !fields[keys[j]].Null? {
      var j :| k < j < |keys| && keys[j] in fields && !fields[keys[j]].Null?;
      i := LastNumberFrom(fields, keys, j);
    } else {
      i := k;
    }
  }

  /** The usual answer: an object whose lowercase `id` is a non-zero integer is found with that id. */
  lemma LowercaseIdWins(fields: map<string, Json.Value>, n: int)
    requires "id" in fields && fields["id"] == Json.Num(n) && n != 0 && Decimal.InInt64(n)
    requires forall k :: k in IdKeys && k in fields ==> Acceptable(fields[k])
    ensures Classify(Json.Obj(fields)) == Found(n)
  {
    assert LastNumberAt(fields, IdKeys, 3);
    assert !SomeRejected(fields, IdKeys) by {
      forall i | 0 <= i < |IdKeys| && IdKeys[i] in fields
        ensures Acceptable(fields[IdKeys[i]])
      {
        assert IdKeys[i] in IdKeys;
      }
    }
    DecodeIdMeans(fields, IdKeys, 0);
  }

  /** A string id, which Go will not put in an `int`, makes the result unparsable rather than not found. */
  lemma StringIdUnparsable(s: string)
    ensures Classify(Json.Obj(map["id" := Json.Str(s)])) == Unparsable
  {
    var fields := map["id" := Json.Str(s)];
    assert IdKeys[3] in fields && !Acceptable(fields[IdKeys[3]]);
    DecodeIdMeans(fields, IdKeys, 0);
  }
}
