/** What every database model shares: the deletion flag, bounded generation of unique
    24-character object ids, attribute updates and the plain-value view of a record. */
module CommonModels {
  import opened Wrappers

  /** Length of an object id. */
  const ObjectIdLength: nat := 24

  /** Number of candidate ids tried before giving up. */
  const ObjectIdTries: nat := 10

  /** The `k`-th candidate id: 24 characters drawn from `allowed`, the `n`-th draw of the
      random source being `choose(n)` (reduced to an index of `allowed`). */
  function Candidate(allowed: string, choose: nat -> nat, k: nat): (id: string)
    requires |allowed| > 0
    ensures |id| == ObjectIdLength
    ensures forall j :: 0 <= j < |id| ==> id[j] in allowed
  {
    seq(ObjectIdLength, (j: int) requires 0 <= j < ObjectIdLength => allowed[choose(ObjectIdLength * k + j) % |allowed|])
  }

  /** is_object_id: an object id is any string of 24 characters. */
  predicate IsObjectId(s: string)
  {
    |s| == ObjectIdLength
  }

  /** generate_objectid_string: up to ten candidates are drawn; the first one not already used
      is returned, and when all ten are taken ObjectIdError is raised. */
  method GenerateObjectIdString(existing: set<string>, allowed: string, choose: nat -> nat)
    returns (r: Result<string, string>)
    requires |allowed| > 0
    ensures r.Ok? ==> IsObjectId(r.value) && r.value !in existing
    ensures r.Ok? ==> forall j :: 0 <= j < |r.value| ==> r.value[j] in allowed
    ensures r.Ok? ==> exists k :: (0 <= k < ObjectIdTries && r.value == Candidate(allowed, choose, k)
      && forall i :: 0 <= i < k ==> Candidate(allowed, choose, i) in existing)
    ensures r.Err? <==> forall k :: 0 <= k < ObjectIdTries ==> Candidate(allowed, choose, k) in existing
  {
    var k := 0;
    while k < ObjectIdTries
      invariant 0 <= k <= ObjectIdTries
      invariant forall i :: 0 <= i < k ==> Candidate(allowed, choose, i) in existing
    {
      var id := "";
      var j := 0;
      while j < ObjectIdLength
        invariant 0 <= j <= ObjectIdLength
        invariant id == Candidate(allowed, choose, k)[..j]
      {
        id := id + [allowed[choose(ObjectIdLength * k + j) % |allowed|]];
        j := j + 1;
      }
      assert id == Candidate(allowed, choose, k);
      if id !in existing {
        r := Ok(id);
        return;
      }
      k := k + 1;
    }
    r := Err("Could not generate unique id");
  }

  /** A generated id is accepted by is_object_id. */
  lemma CandidateIsObjectId(allowed: string, choose: nat -> nat, k: nat)
    requires |allowed| > 0
    ensures IsObjectId(Candidate(allowed, choose, k))
  {
  }

  /** The attributes a sequence of `(name, value)` assignments leaves, applied in order. */
  function Assigned(attributes: map<string, string>, kwargs: seq<(string, string)>): map<string, string>
  {
    if |kwargs| == 0 then attributes
    else
      var last := kwargs[|kwargs| - 1];
      Assigned(attributes, kwargs[..|kwargs| - 1])[last.0 := last.1]
  }

  /** Keyword arguments name each attribute at most once. */
  predicate DistinctNames(kwargs: seq<(string, string)>)
  {
    forall i, j :: 0 <= i < j < |kwargs| ==> kwargs[i].0 != kwargs[j].0
  }

  /** `update` sets exactly the given attributes: each named one holds its given value and
      every other keeps its old value. */
  lemma {:induction false} AssignedValues(attributes: map<string, string>, kwargs: seq<(string, string)>, name: string)
    requires DistinctNames(kwargs)
    ensures name in Assigned(attributes, kwargs) <==> name in attributes || exists i :: 0 <= i < |kwargs| && kwargs[i].0 == name
    ensures forall i :: 0 <= i < |kwargs| && kwargs[i].0 == name ==> Assigned(attributes, kwargs)[name] == kwargs[i].1
    ensures (forall i :: 0 <= i < |kwargs| ==> kwargs[i].0 != name) && name in attributes
      ==> Assigned(attributes, kwargs)[name] == attributes[name]
    decreases |kwargs|
  {
    if |kwargs| > 0 {
      var init := kwargs[..|kwargs| - 1];
      AssignedValues(attributes, init, name);
      assert forall i :: 0 <= i < |init| ==> init[i] == kwargs[i];
      if name in Assigned(attributes, kwargs) && name !in attributes && kwargs[|kwargs| - 1].0 != name {
        var i :| 0 <= i < |init| && init[i].0 == name;
        assert kwargs[i].0 == name;
      }
    }
  }

  /** A database record: its deletion flag and its other attributes by name. */
  class Record {
    var deleted: bool
    var attributes: map<string, string>

    constructor (attributes: map<string, string>)
      ensures !deleted && this.attributes == attributes
    {
      deleted := false;
      this.attributes := attributes;
    }

    /** mark_deleted: the flag is set and nothing else changes. */
    method MarkDeleted()
      modifies this
      ensures deleted && attributes == old(attributes)
    {
      deleted := true;
    }

    /** update: each keyword argument is assigned in turn. */
    method Update(kwargs: seq<(string, string)>)
      modifies this
      ensures deleted == old(deleted)
      ensures attributes == Assigned(old(attributes), kwargs)
    {
      var i := 0;
      while i < |kwargs|
        invariant 0 <= i <= |kwargs|
        invariant deleted == old(deleted)
        invariant attributes == Assigned(old(attributes), kwargs[..i])
      {
        assert kwargs[..i + 1][..i] == kwargs[..i];
        attributes := attributes[kwargs[i].0 := kwargs[i].1];
        i := i + 1;
      }
      assert kwargs[..|kwargs|] == kwargs;
    }
  }

  /** How a model field is stored. */
  datatype FieldKind = RelatedField | JsonTextField | PlainField

  /** One field of a record and its stored text. */
  datatype Field = Field(name: string, kind: FieldKind, raw: string)

  /** A plain value: stored text as it is, or the reading of a JSON text field. */
  datatype Value<J> = Text(text: string) | Loaded(json: J)

  /** Whether `as_native_python` reports a field: relation fields never, the two timestamps
      not when timestamps are removed (a JSON text field is reported regardless of its name). */
  predicate Reported(f: Field, removeTimestamps: bool)
  {
    f.kind != RelatedField
    && (f.kind == JsonTextField || !removeTimestamps || (f.name != "created_on" && f.name != "last_updated"))
  }

  /** The value reported for a field. */
  function NativeValue<J>(f: Field, loads: string -> J): Value<J>
  {
    if f.kind == JsonTextField then Loaded(loads(f.raw)) else Text(f.raw)
  }

  /** Field names of a model are distinct. */
  predicate DistinctFields(fields: seq<Field>)
  {
    forall i, j :: 0 <= i < j < |fields| ==> fields[i].name != fields[j].name
  }

  /** as_native_python: the dictionary of reported fields, JSON text fields read with `loads`. */
  method AsNativePython<J>(fields: seq<Field>, removeTimestamps: bool, loads: string -> J)
    returns (d: map<string, Value<J>>)
    requires DistinctFields(fields)
    ensures forall name :: name in d <==> exists i :: 0 <= i < |fields| && fields[i].name == name && Reported(fields[i], removeTimestamps)
    ensures forall i :: 0 <= i < |fields| && Reported(fields[i], removeTimestamps) ==> d[fields[i].name] == NativeValue(fields[i], loads)
  {
    d := map[];
    var i := 0;
    while i < |fields|
      invariant 0 <= i <= |fields|
      invariant forall name :: name in d <==> exists k :: 0 <= k < i && fields[k].name == name && Reported(fields[k], removeTimestamps)
      invariant forall k :: 0 <= k < i && Reported(fields[k], removeTimestamps) ==> d[fields[k].name] == NativeValue(fields[k], loads)
    {
      var f := fields[i];
      if f.kind == RelatedField {
      } else if f.kind == JsonTextField {
        d := d[f.name := Loaded(loads(f.raw))];
      } else if removeTimestamps && (f.name == "created_on" || f.name == "last_updated") {
      } else {
        d := d[f.name := Text(f.raw)];
      }
      i := i + 1;
    }
  }
}
