# OpenStruct attribute routing

A model of `OpenStruct`, the storage base of configstruct's configuration
sections. An `OpenStruct` is a dict whose items can also be read and written
as attributes (`cfg.options.two`, `cfg.options.fancy = ...`). Attribute names
that begin with `_` are routed to the instance's own `__dict__` (the private
store) and never reach the dict.

- `wrappers.dfy` — `Option` and `Result`.
- `attribute_routing.dfy` — module `AttributeRouting`: the values, the
  exceptions (`IndexError` for the empty name, `KeyError` for a missing private
  field), the state (dict items plus private store), the four attribute
  operations as functions of that state, their single-step properties, and a
  reference definition of what any sequence of attribute writes and deletions
  leaves behind, proved by induction.
- `open_struct.dfy` — module `Configstruct`: class `OpenStruct` with fields
  `entries` (the dict) and `internals` (`__dict__`), updated in place by
  `SetAttr` and `DelAttr`; every method's contract is also tied to the
  corresponding function of `AttributeRouting`, so the lemmas there apply to
  any sequence of method calls; `SectionUsage` shows this, proving that a
  chain of calls leaves the object in the state `Run` gives for the same
  operations.

Python's `None` is the value `Null`. `__getattr__` on a non-`_` name is
`dict.get`, so a missing key reads as `Null` and never raises. The empty name
raises `IndexError` in `__getattr__` and `__setattr__` (they evaluate
`key[0]`); the model returns that error instead of requiring a non-empty name.
`__hasattr__` and `__delattr__` do not look at `key[0]` and accept any name.
The model follows the Python 2 semantics the source is written for, where
`has_key` is a dict method; under Python 3 `self.has_key` would fall through
to `__getattr__`, return `None`, and the call would raise TypeError.

## Model

| member | source | states |
|---|---|---|
| `AttributeRouting.IsPrivate` | configstruct/open_struct.py:8-14 | the routing rule: a private name is non-empty, and every non-empty name is either private or routed to the dict, never both |
| `AttributeRouting.Read` | configstruct/open_struct.py:7-11 | a read raises exactly for the empty name (IndexError) or a `_` name missing from the private store (KeyError with that name); a `_` name present there reads its private field |
| `AttributeRouting.Contains` | configstruct/open_struct.py:19-20 | true exactly when the dict has the key (the private store plays no part); for a public name the read then returns that item |
| `AttributeRouting.Write` | configstruct/open_struct.py:13-17 | read-after-write returns the written value; every other name reads and looks up as before; a `_` name leaves the dict unchanged; a public name leaves the private store unchanged and sets the item; the empty name changes nothing |
| `AttributeRouting.Delete` | configstruct/open_struct.py:22-24 | removes exactly that key from the dict, keeps every other item's value, never touches the private store, and is a no-op on an absent key |
| `AttributeRouting.PublicReadAgreesWithContains` | configstruct/open_struct.py:7-20 | a public read never raises: it returns the item when the presence check holds and `None` otherwise |
| `AttributeRouting.PrivateReadIgnoresEntries` | configstruct/open_struct.py:8-9 | a `_` read depends only on the private store, whatever the dict holds |
| `AttributeRouting.ContainsIgnoresInternals` | configstruct/open_struct.py:19-20 | the presence check does not depend on the private store |
| `AttributeRouting.PrivateEntryIsUnreadable` | configstruct/open_struct.py:7-20 | a dict item under a `_` name is reported present, yet reading that name raises KeyError when the private store lacks it |
| `AttributeRouting.DeleteUndoesFreshWrite` | configstruct/open_struct.py:13-24 | deleting a public name just added restores the previous state |
| `AttributeRouting.DeleteDoesNotUndoPrivateWrite` | configstruct/open_struct.py:13-24 | deleting a `_` name just written leaves the written private field readable |
| `AttributeRouting.DeleteIdempotent` | configstruct/open_struct.py:22-24 | deleting twice equals deleting once |
| `AttributeRouting.NullReadsAsAbsent` | configstruct/open_struct.py:10-24 | storing `None` under a public name reads the same as deleting it, while the presence check tells the two apart |
| `AttributeRouting.RunEntries` | configstruct/open_struct.py:13-24 | after any sequence of writes and deletions, each dict item is the value of the last public write to it, absent if the last action on it was a deletion, else the initial item |
| `AttributeRouting.RunInternals` | configstruct/open_struct.py:13-24 | after any sequence of writes and deletions, each private field is the value of the last `_` write to it, else the initial field; deletions never affect it |
| `AttributeRouting.ReadAfterRun` | configstruct/open_struct.py:7-24 | what a read returns after any sequence of writes and deletions, from the two reference definitions above |
| `AttributeRouting.RunNeverShrinksInternals` | configstruct/open_struct.py:13-24 | no sequence of attribute operations removes a private field |
| `AttributeRouting.RunKeepsEntriesPublic` | configstruct/open_struct.py:13-24 | attribute operations never put a `_` name into the dict, so a dict without such names keeps none |
| `Configstruct.OpenStruct.constructor` | configstruct/open_struct.py:1 | the dict starts as a copy of the given mapping and the private store starts empty |
| `Configstruct.OpenStruct.GetAttr` | configstruct/open_struct.py:7-11 | empty name: IndexError; `_` name: the private field or KeyError; other names: the dict item or `None`, never an error |
| `Configstruct.OpenStruct.SetAttr` | configstruct/open_struct.py:13-17 | a `_` name updates only the private store, any other non-empty name sets or overwrites only that dict item; the empty name raises IndexError and changes nothing |
| `Configstruct.OpenStruct.HasAttr` | configstruct/open_struct.py:19-20 | true exactly when the dict has the key; private fields are not reported |
| `Configstruct.OpenStruct.DelAttr` | configstruct/open_struct.py:22-24 | removes the dict item if present, else does nothing; never touches the private store, even for `_` names |

## Left out

- The `ConfigStruct` layer (defaults merged with the file, soft preferences, saving) is a separate layer built on OpenStruct; its source is not part of this project.
- File reading and writing, and the filesystem stubbing of the tests: I/O.
- Python's attribute dispatch: `__getattr__` runs only after normal lookup fails, so inherited dict methods such as `get` or `keys` shadow items of those names; the builtin `hasattr` goes through `__getattr__`, not `__hasattr__`. The four methods are modelled as written, called directly.
- The rest of the dict API (item access with `[]`, `update`, iteration order) beyond the constructor's copy of an initial mapping.
- Value types beyond booleans, integers, strings and `None`: the source performs no type checks, so values are opaque to every operation.
- Non-string attribute names: attribute names are always strings.
