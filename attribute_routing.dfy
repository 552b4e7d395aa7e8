/**
  The routing rule of configstruct's OpenStruct, stated on values.

  An OpenStruct is a dict whose entries can also be reached as attributes.
  Attribute names that begin with `_` are routed to the instance's own
  `__dict__` (the private store, `internals` here); every other name is a key
  of the dict itself (`entries`). This module gives the four attribute
  operations as functions of a `State`, the properties each of them keeps,
  and what a whole sequence of attribute writes and deletions leaves behind.
*/
module AttributeRouting {
  import opened Wrappers

  /** A Python value stored under a name. `Null` is Python's `None`; no type checks are made. */
  datatype Value = Null | Bool(b: bool) | Int(i: int) | Str(s: string)

  /** The exceptions the attribute operations raise. */
  datatype Error =
    | IndexError              // `key[0]` on the empty name
    | KeyError(key: string)   // `self.__dict__[key]` on a missing private field

  /** The dict contents and the instance's private store. */
  datatype State = State(entries: map<string, Value>, internals: map<string, Value>)

  /** The routing rule: a name is private exactly when its first character is `_`. */
  predicate IsPrivate(key: string)
    ensures IsPrivate(key) ==> key != "" && !IsPublic(key)
    ensures key != "" ==> IsPrivate(key) != IsPublic(key)
  {
    key != "" && key[0] == '_'
  }

  /** A name routed to the dict: non-empty and not private. */
  predicate IsPublic(key: string) {
    key != "" && key[0] != '_'
  }

  /** `m.get(key)` as an Option. */
  function Lookup(m: map<string, Value>, key: string): Option<Value> {
    if key in m then Some(m[key]) else None
  }

  /** `__getattr__`: a private field, or `dict.get` on the entries. */
  function Read(s: State, key: string): (r: Result<Value, Error>)
    ensures r.Failure? <==> key == "" || (IsPrivate(key) && key !in s.internals)
    ensures r == Failure(IndexError) <==> key == ""
    ensures IsPrivate(key) && key !in s.internals ==> r == Failure(KeyError(key))
    ensures IsPrivate(key) && key in s.internals ==> r == Success(s.internals[key])
  {
    if key == "" then Failure(IndexError)
    else if key[0] == '_' then
      if key in s.internals then Success(s.internals[key]) else Failure(KeyError(key))
    else
      Success(if key in s.entries then s.entries[key] else Null)
  }

  /** `__setattr__`: a private field, or a dict item. The empty name raises before anything changes. */
  function Write(s: State, key: string, value: Value): (t: State)
    ensures key != "" ==> Read(t, key) == Success(value)
    ensures forall k :: k != key ==> Read(t, k) == Read(s, k)
    ensures forall k :: k != key ==> Lookup(t.entries, k) == Lookup(s.entries, k)
    ensures !IsPublic(key) ==> t.entries == s.entries
    ensures IsPublic(key) ==> key in t.entries && t.entries[key] == value
    ensures !IsPrivate(key) ==> t.internals == s.internals
  {
    if key == "" then s
    else if key[0] == '_' then s.(internals := s.internals[key := value])
    else s.(entries := s.entries[key := value])
  }

  /** `__hasattr__`: membership among the dict's keys only. */
  predicate Contains(s: State, key: string)
    ensures Contains(s, key) <==> Lookup(s.entries, key).Some?
    ensures Contains(s, key) && IsPublic(key) ==> Read(s, key) == Success(s.entries[key])
  {
    key in s.entries
  }

  /** `__delattr__`: removes the dict item when present; never consults the routing rule. */
  function Delete(s: State, key: string): (t: State)
    ensures t.internals == s.internals
    ensures t.entries.Keys == s.entries.Keys - {key}
    ensures forall k :: k in t.entries ==> t.entries[k] == s.entries[k]
    ensures key !in s.entries ==> t == s
  {
    if key in s.entries then s.(entries := s.entries - {key}) else s
  }

  // ---------------------------------------------------------------------
  // Properties of single operations

  /** A public read never raises, and it agrees with the presence check. */
  lemma PublicReadAgreesWithContains(s: State, key: string)
    requires IsPublic(key)
    ensures Contains(s, key) ==> Read(s, key) == Success(s.entries[key])
    ensures !Contains(s, key) ==> Read(s, key) == Success(Null)
  {
  }

  /** A private read depends on the private store alone. */
  lemma PrivateReadIgnoresEntries(s: State, entries: map<string, Value>, key: string)
    requires IsPrivate(key)
    ensures Read(s, key) == Read(s.(entries := entries), key)
  {
  }

  /** The presence check does not see the private store. */
  lemma ContainsIgnoresInternals(s: State, internals: map<string, Value>, key: string)
    ensures Contains(s, key) == Contains(s.(internals := internals), key)
  {
  }

  /** A dict item under a private name is reported present, yet reading its name does not reach it. */
  lemma PrivateEntryIsUnreadable(s: State, key: string)
    requires IsPrivate(key) && key in s.entries && key !in s.internals
    ensures Contains(s, key)
    ensures Read(s, key) == Failure(KeyError(key))
  {
  }

  /** Deleting a public name that was just added undoes the write. */
  lemma DeleteUndoesFreshWrite(s: State, key: string, value: Value)
    requires IsPublic(key) && key !in s.entries
    ensures Delete(Write(s, key, value), key) == s
  {
  }

  /** Deleting a private name that was just written leaves the written field in place. */
  lemma DeleteDoesNotUndoPrivateWrite(s: State, key: string, value: Value)
    requires IsPrivate(key)
    ensures Read(Delete(Write(s, key, value), key), key) == Success(value)
  {
  }

  /** Deleting twice is the same as deleting once. */
  lemma DeleteIdempotent(s: State, key: string)
    ensures Delete(Delete(s, key), key) == Delete(s, key)
  {
  }

  /** Storing `None` and deleting read the same, while the presence check tells them apart. */
  lemma NullReadsAsAbsent(s: State, key: string)
    requires IsPublic(key)
    ensures Read(Write(s, key, Null), key) == Read(Delete(s, key), key)
    ensures Contains(Write(s, key, Null), key) && !Contains(Delete(s, key), key)
  {
  }

  // ---------------------------------------------------------------------
  // Sequences of attribute writes and deletions

  /** One state-changing attribute operation. */
  datatype Op = SetAttr(key: string, value: Value) | DelAttr(key: string)

  function Apply(s: State, op: Op): State {
    match op
    case SetAttr(k, v) => Write(s, k, v)
    case DelAttr(k) => Delete(s, k)
  }

  /** The state after performing `ops` in order, starting from `s`. */
  function Run(s: State, ops: seq<Op>): State
    decreases |ops|
  {
    if ops == [] then s else Apply(Run(s, ops[..|ops| - 1]), ops[|ops| - 1])
  }

  /** Performing one more operation after a run is the run of the longer sequence. */
  lemma RunAppend(s: State, ops: seq<Op>, op: Op)
    ensures Run(s, ops + [op]) == Apply(Run(s, ops), op)
  {
  }

  /** Whether `op` acts on the dict item `key`: a deletion always does, a write only when routed to the dict. */
  predicate ActsOnEntry(op: Op, key: string) {
    op.key == key && (op.DelAttr? || IsPublic(key))
  }

  /** The last operation of `ops` that acts on the dict item `key`. */
  function LastEntryOp(ops: seq<Op>, key: string): Option<Op>
    decreases |ops|
  {
    if ops == [] then None
    else if ActsOnEntry(ops[|ops| - 1], key) then Some(ops[|ops| - 1])
    else LastEntryOp(ops[..|ops| - 1], key)
  }

  /** The value of the last write of `ops` to the private field `key`. */
  function LastFieldWrite(ops: seq<Op>, key: string): Option<Value>
    decreases |ops|
  {
    if ops == [] then None
    else if ops[|ops| - 1].SetAttr? && ops[|ops| - 1].key == key && IsPrivate(key) then Some(ops[|ops| - 1].value)
    else LastFieldWrite(ops[..|ops| - 1], key)
  }

  /** Reference definition of a dict item after `ops`: set by the last write, removed by the last deletion, else initial. */
  function EntryAfter(s: State, ops: seq<Op>, key: string): Option<Value> {
    match LastEntryOp(ops, key)
    case None => Lookup(s.entries, key)
    case Some(op) => if op.SetAttr? then Some(op.value) else None
  }

  /** Reference definition of a private field after `ops`: the last write to it, else initial. */
  function FieldAfter(s: State, ops: seq<Op>, key: string): Option<Value> {
    match LastFieldWrite(ops, key)
    case None => Lookup(s.internals, key)
    case Some(v) => Some(v)
  }

  /** Every dict item after a run is the one its reference definition names. */
  lemma {:induction false} RunEntries(s: State, ops: seq<Op>, key: string)
    ensures Lookup(Run(s, ops).entries, key) == EntryAfter(s, ops, key)
    decreases |ops|
  {
    if ops != [] {
      RunEntries(s, ops[..|ops| - 1], key);
    }
  }

  /** Every private field after a run is the one its reference definition names. */
  lemma {:induction false} RunInternals(s: State, ops: seq<Op>, key: string)
    ensures Lookup(Run(s, ops).internals, key) == FieldAfter(s, ops, key)
    decreases |ops|
  {
    if ops != [] {
      RunInternals(s, ops[..|ops| - 1], key);
    }
  }

  /** What a read returns after a run, in terms of the reference definitions. */
  lemma {:induction false} ReadAfterRun(s: State, ops: seq<Op>, key: string)
    ensures Read(Run(s, ops), key) ==
      if key == "" then Failure(IndexError)
      else if IsPrivate(key) then
        (match FieldAfter(s, ops, key)
         case Some(v) => Success(v)
         case None => Failure(KeyError(key)))
      else
        (match EntryAfter(s, ops, key)
         case Some(v) => Success(v)
         case None => Success(Null))
  {
    RunEntries(s, ops, key);
    RunInternals(s, ops, key);
  }

  /** No attribute operation removes a private field: the private store only grows. */
  lemma {:induction false} RunNeverShrinksInternals(s: State, ops: seq<Op>)
    ensures s.internals.Keys <= Run(s, ops).internals.Keys
    decreases |ops|
  {
    if ops != [] {
      RunNeverShrinksInternals(s, ops[..|ops| - 1]);
    }
  }

  /** Attribute operations never put a private name into the dict. */
  lemma {:induction false} RunKeepsEntriesPublic(s: State, ops: seq<Op>)
    requires forall k :: k in s.entries ==> !IsPrivate(k)
    ensures forall k :: k in Run(s, ops).entries ==> !IsPrivate(k)
    decreases |ops|
  {
    if ops != [] {
      RunKeepsEntriesPublic(s, ops[..|ops| - 1]);
    }
  }
}
