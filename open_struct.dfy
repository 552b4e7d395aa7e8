/**
  configstruct's OpenStruct: a dict whose items are also reachable as
  attributes. The object holds two stores that its methods update in place:
  the dict items and the instance's own `__dict__`.
*/
module Configstruct {
  import opened Wrappers
  import opened AttributeRouting

  class OpenStruct {
    /** The dict items. */
    var entries: map<string, Value>
    /** The instance `__dict__`, which receives every `_`-prefixed attribute. */
    var internals: map<string, Value>

    /** The object's state as a value of the routing specification. */
    function Snapshot(): State
      reads this
    {
      State(entries, internals)
    }

    /** `OpenStruct(initial)`: the dict constructor copies `initial`; the instance `__dict__` starts empty. */
    constructor (initial: map<string, Value>)
      ensures entries == initial && internals == map[]
    {
      entries := initial;
      internals := map[];
    }

    /** `__getattr__`. */
    method GetAttr(key: string) returns (r: Result<Value, Error>)
      ensures key == "" ==> r == Failure(IndexError)
      ensures IsPrivate(key) && key in internals ==> r == Success(internals[key])
      ensures IsPrivate(key) && key !in internals ==> r == Failure(KeyError(key))
      ensures IsPublic(key) && key in entries ==> r == Success(entries[key])
      ensures IsPublic(key) && key !in entries ==> r == Success(Null)
      ensures r == Read(Snapshot(), key)
    {
      if key == "" {
        r := Failure(IndexError);
      } else if key[0] == '_' {
        if key in internals {
          r := Success(internals[key]);
        } else {
          r := Failure(KeyError(key));
        }
      } else {
        r := Success(if key in entries then entries[key] else Null);
      }
    }

    /** `__setattr__`; `err` is the exception raised, which happens only for the empty name and before any change. */
    method SetAttr(key: string, value: Value) returns (err: Option<Error>)
      modifies this
      ensures err == (if key == "" then Some(IndexError) else None)
      ensures IsPrivate(key) ==> internals == old(internals)[key := value] && entries == old(entries)
      ensures IsPublic(key) ==> entries == old(entries)[key := value] && internals == old(internals)
      ensures key == "" ==> entries == old(entries) && internals == old(internals)
      ensures Snapshot() == Write(old(Snapshot()), key, value)
    {
      if key == "" {
        err := Some(IndexError);
      } else if key[0] == '_' {
        internals := internals[key := value];
        err := None;
      } else {
        entries := entries[key := value];
        err := None;
      }
    }

    /** `__hasattr__`: whether the dict has the key; private fields are not reported. */
    method HasAttr(key: string) returns (present: bool)
      ensures present <==> key in entries
      ensures present == Contains(Snapshot(), key)
    {
      present := key in entries;
    }

    /** `__delattr__`: removes the dict item when present, else does nothing; never touches `__dict__`. */
    method DelAttr(key: string)
      modifies this
      ensures key in old(entries) ==> entries == old(entries) - {key}
      ensures key !in old(entries) ==> entries == old(entries)
      ensures internals == old(internals)
      ensures Snapshot() == Delete(old(Snapshot()), key)
    {
      if key in entries {
        entries := entries - {key};
      }
    }
  }

  /**
    Attribute-style use of an OpenStruct as a configuration section: a
    default read back, an item written and read, a private field kept
    out of the dict, and a missing name read as None. The calls leave the
    object in the state that `Run` gives for the same operations, so the
    lemmas about `Run` apply to it.
  */
  method SectionUsage()
  {
    var options := new OpenStruct(map["one" := Int(1), "two" := Int(2)]);
    ghost var start := options.Snapshot();
    ghost var ops: seq<Op> := [];
    var two := options.GetAttr("two");
    assert two == Success(Int(2));

    var _ := options.SetAttr("fancy", Str("MINE, DAMMIT!"));
    RunAppend(start, ops, SetAttr("fancy", Str("MINE, DAMMIT!")));
    ops := ops + [SetAttr("fancy", Str("MINE, DAMMIT!"))];
    assert options.Snapshot() == Run(start, ops);
    var fancy := options.GetAttr("fancy");
    assert fancy == Success(Str("MINE, DAMMIT!"));

    var _ := options.SetAttr("_origin", Bool(true));
    RunAppend(start, ops, SetAttr("_origin", Bool(true)));
    ops := ops + [SetAttr("_origin", Bool(true))];
    assert options.Snapshot() == Run(start, ops);
    var hidden := options.HasAttr("_origin");
    assert !hidden;
    var missing := options.GetAttr("shoes");
    assert missing == Success(Null);

    options.DelAttr("shoes");
    RunAppend(start, ops, DelAttr("shoes"));
    ops := ops + [DelAttr("shoes")];
    assert options.Snapshot() == Run(start, ops);
    var stillThere := options.GetAttr("_origin");
    assert stillThere == Success(Bool(true));
  }
}
