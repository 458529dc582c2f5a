# record-convertor: dict helpers and dataclass processor

record-convertor turns input records (nested JSON-like dicts) into output
records by following rule sets. This project models two parts of it in Dafny
and proves properties of the model:

- **The dict helpers** (`dict_helper.py`):
  - `list_in_lower_case` and `keys_in_lower_case` are mutually recursive
    loops. They build a new list or dict in which every dict key, at every
    depth, is lower case.
  - `dict_without_non_values` builds a copy of a dict without its `None`
    values.
- **The dataclass processor** (`DataClassProcessor`):
  - It keeps a registry of dataclass types by name. A type is registered
    under an explicit name or under the snake-case form of its class name,
    and anything that is not a dataclass is rejected.
  - It materializes a dataclass rule:
    - Resolve the named type.
    - Build an instance from a nested record conversion.
    - Call the configured methods on the instance, once per argument
      mapping and in order.
    - Return the instance as a dict.

Files:

- `wrappers.dfy`: `Option`, `Result` (with `:-` propagation) and `Outcome`.
- `json.dfy`: the JSON-like value `Json`. A dict is an association list of
  `Entry(key, value)` in insertion order. Its dict operations are:
  - `Get`: the first match, like `dict.get`.
  - `Assign`: `d[k] = v`. It replaces the value in place when the key is
    present, and appends the entry otherwise.
  - `UniqueKeys`: "this is a real Python dict".
- `dict_helper.dfy`: the helpers.
  - `LowerValue`, `LowerList` and `LowerKeys` are the recursive
    specification.
  - `ListInLowerCase` and `KeysInLowerCase` are the loops of the Python code,
    proved to compute it.
  - `WithoutNones` is the comprehension.
- `dataclass_processor.dfy`: the processor.
  - Python reflection is explicit. A type is a `TypeDesc`: its class name,
    an `isDataclass` flag, a constructor from keyword arguments and a table
    of named mutators. An instance is its field dict, so `asdict` is the
    identity.
  - The nested record convertor is a function `(rules, record) -> Result`.
  - Pure functions specify each step:
    - `RegisterAll` and `FirstRejected` for registration.
    - `ResolveDataclass` for type resolution.
    - `EntryCalls`, `ApplyMethods`, `Plan` and `Materialize` for
      materialization.
  - The class `DataClassProcessor` holds:
    - a `map` registry, standing for the attributes `setattr` adds;
    - `Option` fields for the attributes the processor sets while it works
      (`None` means not yet set).
  - Its methods are proved to update those fields and to compute the
    specification functions. `UpdateDataclassWithProvidedMethods` keeps the
    Python code's nested loops, each with its invariant.

Exceptions are values: `Result.Failure` carries a `ValueError` with the
Python code's message, a `TypeError` or an `AttributeError`.

The constructor content is the nested conversion of the whole rule dict
(`dataclass_processor/__init__.py:23,79`). `params` is stored (`:54-57`) but
nothing reads it. `ReturnDict`, `CreateReturnDict` and `MaterializeResult`
state this behaviour.

A rule without a `methods` entry never materializes. `rules.get("methods")`
is then `None`, and the loop at `:93` cannot iterate over it
(`MaterializeWithoutMethods`).

## Model

| member | source | states |
|---|---|---|
| JsonValues.FirstIndex | src/record_convertor/dataclass_processor/__init__.py:55-60 | for a key present in the dict, the position of the entry carrying it with no earlier entry carrying it |
| JsonValues.Get | src/record_convertor/dataclass_processor/__init__.py:55-60 | `rules.get(key)` is `None` exactly when the key is absent; otherwise it is the value of the first entry with that key |
| JsonValues.AssignGet | src/record_convertor/package_settings/helpers/dict_helper.py:44-48 | after `d[k] = v` the keys are the old keys plus `k`, `k` maps to `v`, and every other key keeps its value |
| JsonValues.AssignUnique | src/record_convertor/package_settings/helpers/dict_helper.py:44-48 | assigning into a dict never creates a duplicate key |
| JsonValues.AssignOrder | src/record_convertor/package_settings/helpers/dict_helper.py:44-48 | a new key is appended at the end (insertion order); for an existing key the result is the input with only the entry at the key's first position replaced by the new value |
| DictHelper.LowerStrIsLower | src/record_convertor/package_settings/helpers/dict_helper.py:44 | `key.lower()` has the same length and contains no upper-case letter |
| DictHelper.LowerStrFixesLower | src/record_convertor/package_settings/helpers/dict_helper.py:44 | `lower()` leaves a lower-case string unchanged |
| DictHelper.LowerValue | src/record_convertor/package_settings/helpers/dict_helper.py:19-25 | lower-casing keeps a list a list and a dict a dict, and carries any other value over unchanged |
| DictHelper.LowerList | src/record_convertor/package_settings/helpers/dict_helper.py:18-27 | the result has the input's length and order, and item i is the lowered input item i |
| DictHelper.LowerKeysEntries | src/record_convertor/package_settings/helpers/dict_helper.py:42-48 | every result entry is some input entry with its key and value lowered |
| DictHelper.LowerKeysUnique | src/record_convertor/package_settings/helpers/dict_helper.py:41-49 | the result holds each key once, however many input keys collide after lower-casing |
| DictHelper.LowerKeysKeys | src/record_convertor/package_settings/helpers/dict_helper.py:42-48 | a key is in the result if and only if some input key lowers to it |
| DictHelper.LowerKeysLaterWins | src/record_convertor/package_settings/helpers/dict_helper.py:42-48 | under a lowered key the result holds the lowered value of the last input entry with that lowered key |
| DictHelper.LowerValueLowerCase | src/record_convertor/package_settings/helpers/dict_helper.py:18-49 | after lower-casing, every dict key at every depth (dicts in lists too) is lower case, and every dict has unique keys |
| DictHelper.LowerListLowerCase | src/record_convertor/package_settings/helpers/dict_helper.py:18-27 | every item of a lowered list has lower-case, unique keys at every depth |
| DictHelper.LowerKeysLowerCase | src/record_convertor/package_settings/helpers/dict_helper.py:41-49 | a lowered dict has lower-case, unique keys at every depth |
| DictHelper.LowerValueFixes | src/record_convertor/package_settings/helpers/dict_helper.py:18-49 | a value whose keys are already lower case and unique is returned unchanged |
| DictHelper.LowerListFixes | src/record_convertor/package_settings/helpers/dict_helper.py:18-27 | a list of already lowered items is returned unchanged |
| DictHelper.LowerKeysFixes | src/record_convertor/package_settings/helpers/dict_helper.py:41-49 | a dict with lower-case, unique keys at every depth is returned unchanged |
| DictHelper.LowerValueIdempotent | src/record_convertor/package_settings/helpers/dict_helper.py:41-49 | lower-casing twice gives the same result as lower-casing once |
| DictHelper.ListInLowerCase | src/record_convertor/package_settings/helpers/dict_helper.py:7-27 | the append loop, with its recursive calls, builds exactly the lowered list |
| DictHelper.KeysInLowerCase | src/record_convertor/package_settings/helpers/dict_helper.py:30-49 | the assignment loop, with its recursive calls, builds exactly the lowered dict |
| DictHelper.WithoutNones | src/record_convertor/package_settings/helpers/dict_helper.py:52-54 | no result value is `None`, and the result's keys are a subset of the input's |
| DictHelper.WithoutNonesGet | src/record_convertor/package_settings/helpers/dict_helper.py:52-54 | each input key keeps its exact value unless that value is `None`, in which case the key is gone |
| DictHelper.WithoutNonesIdempotent | src/record_convertor/package_settings/helpers/dict_helper.py:52-54 | removing the `None` values twice is the same as removing them once |
| DataclassProcessor.FirstRejected | src/record_convertor/dataclass_processor/__init__.py:45-46 | no type is rejected exactly when every type given is a dataclass |
| DataclassProcessor.SnakeCaseNamed | src/record_convertor/dataclass_processor/__init__.py:32-36 | each type is paired with the snake-case form of its class name, in list order |
| DataclassProcessor.RegisterAllLastWins | src/record_convertor/dataclass_processor/__init__.py:25-33 | after registering only dataclasses, each name holds the last type given for it |
| DataclassProcessor.RegisterAllOthersUntouched | src/record_convertor/dataclass_processor/__init__.py:47 | a name not being registered keeps its entry, or its absence |
| DataclassProcessor.RegisterAllStopsAtRejected | src/record_convertor/dataclass_processor/__init__.py:28-33 | the first non-dataclass is the one reported, and nothing after it is registered |
| DataclassProcessor.SnakeCaseRegistration | src/record_convertor/dataclass_processor/__init__.py:35-39 | registering `DataClassTest` stores it under `data_class_test` and touches no other name |
| DataclassProcessor.ArgumentMappings | src/record_convertor/dataclass_processor/__init__.py:106-110 | a list result is kept as it is, and any other result becomes a one-element list |
| DataclassProcessor.CallsOf | src/record_convertor/dataclass_processor/__init__.py:96-97 | one call of the named method per argument mapping, in list order |
| DataclassProcessor.Construct | src/record_convertor/dataclass_processor/__init__.py:84 | `cls(**content)` on content that is not a mapping raises TypeError; a mapping is passed to the type's constructor as keyword arguments |
| DataclassProcessor.Invoke | src/record_convertor/dataclass_processor/__init__.py:97 | `getattr(instance, method)` on a method the type lacks raises AttributeError; an argument that is not a mapping raises TypeError; otherwise the method runs on the instance |
| DataclassProcessor.Iterate | src/record_convertor/dataclass_processor/__init__.py:93 | the methods value can be iterated if and only if it is a list, a dict or a string (its items, its keys, its characters); anything else, `None` included, raises TypeError |
| DataclassProcessor.Unpack | src/record_convertor/dataclass_processor/__init__.py:94 | a method entry unpacks if and only if it is a dict with exactly one key |
| DataclassProcessor.InvokeAllAppend | src/record_convertor/dataclass_processor/__init__.py:96-97 | running two call lists in a row is running the first, then the second on its result, and stops at the first exception |
| DataclassProcessor.ApplyMethodsFollowsPlan | src/record_convertor/dataclass_processor/__init__.py:93-97 | the methods run exactly the planned calls: entries in declaration order, each method once per argument mapping in order |
| DataclassProcessor.ApplyMethodsMalformedEntry | src/record_convertor/dataclass_processor/__init__.py:94 | any method entry that is not a single-key dict makes the whole update fail |
| DataclassProcessor.PlanLength | src/record_convertor/dataclass_processor/__init__.py:93-97 | the number of method calls is the sum of the argument-list lengths |
| DataclassProcessor.InvokeAllBadCall | src/record_convertor/dataclass_processor/__init__.py:96-97 | a call of a missing method, or with a non-mapping argument, makes the call list fail |
| DataclassProcessor.ApplyMethodsBadCall | src/record_convertor/dataclass_processor/__init__.py:93-97 | any planned call of a missing method, or with a non-mapping argument, makes the update fail |
| DataclassProcessor.MaterializeContentNotMapping | src/record_convertor/dataclass_processor/__init__.py:79-84 | constructor content that is not a mapping fails with TypeError before any method runs |
| DataclassProcessor.MaterializeWithoutMethods | src/record_convertor/dataclass_processor/__init__.py:90-93 | a rule without `methods` always fails, with TypeError once the type resolves and the instance is built |
| DataclassProcessor.MaterializeUnknownName | src/record_convertor/dataclass_processor/__init__.py:62-67 | a rule naming an unregistered type fails with the ValueError "Unknown dataclass ..." |
| DataclassProcessor.MaterializeResult | src/record_convertor/dataclass_processor/__init__.py:14-23 | on success, the name is registered, the whole rule dict converts to a dict, and the result is the instance built from it after all planned calls |
| DataclassProcessor.DataClassProcessor.constructor | src/record_convertor/dataclass_processor/__init__.py:13 | a new processor has an empty registry and no settings |
| DataclassProcessor.DataClassProcessor.DataFromDataclass | src/record_convertor/dataclass_processor/__init__.py:14-23 | stores the record and convertor and returns the materialization under the registry; the registry is unchanged |
| DataclassProcessor.DataClassProcessor.RegisterDictOfDataClasses | src/record_convertor/dataclass_processor/__init__.py:25-29 | each type is registered under its key in order, and the first non-dataclass stops the loop with ValueError |
| DataclassProcessor.DataClassProcessor.RegisterDataClasses | src/record_convertor/dataclass_processor/__init__.py:31-33 | each type is registered under its snake-case name in list order, and the first non-dataclass stops the loop with ValueError |
| DataclassProcessor.DataClassProcessor.RegisterDataclass | src/record_convertor/dataclass_processor/__init__.py:35-39 | a dataclass is stored under its snake-case class name; anything else raises ValueError and leaves the registry unchanged |
| DataclassProcessor.DataClassProcessor.RegisterDataclassNamed | src/record_convertor/dataclass_processor/__init__.py:41-47 | a dataclass is stored under the name, replacing any earlier type; anything else raises ValueError with the class name and leaves the registry unchanged |
| DataclassProcessor.DataClassProcessor.PrepareDataclassSettings | src/record_convertor/dataclass_processor/__init__.py:49-52 | an unresolvable name fails and sets nothing; otherwise the type, `params` and `methods` are stored exactly as given |
| DataclassProcessor.DataClassProcessor.SetRecordConvertorArguments | src/record_convertor/dataclass_processor/__init__.py:54-57 | stores the rule's `params` entry, or `None` when it is absent |
| DataclassProcessor.DataClassProcessor.SetDataclassMethods | src/record_convertor/dataclass_processor/__init__.py:59-60 | stores the rule's `methods` entry, or `None` when it is absent |
| DataclassProcessor.DataClassProcessor.SetDataclassToUse | src/record_convertor/dataclass_processor/__init__.py:62-67 | a registered name sets the type; an unknown name raises ValueError and a non-string name TypeError, and then the type is not set |
| DataclassProcessor.DataClassProcessor.GetDataclassContent | src/record_convertor/dataclass_processor/__init__.py:69-76 | the content is the nested conversion of the stored record under the given rules |
| DataclassProcessor.DataClassProcessor.CreateReturnDict | src/record_convertor/dataclass_processor/__init__.py:78-81 | the result is the built instance as a dict, built from the conversion of the whole rule dict |
| DataclassProcessor.DataClassProcessor.GetDataclassInstance | src/record_convertor/dataclass_processor/__init__.py:83-88 | the instance is constructed from the content, then updated by the methods |
| DataclassProcessor.DataClassProcessor.UpdateDataclassWithProvidedMethods | src/record_convertor/dataclass_processor/__init__.py:90-98 | the nested loops compute the specified method application: entries in order, each method once per argument mapping in order, stopping at the first exception |
| DataclassProcessor.DataClassProcessor.GetMethodArguments | src/record_convertor/dataclass_processor/__init__.py:100-110 | the nested conversion of the entry's rules, normalised to a list of argument mappings |

## Left out

- LowerStr: `str.lower()` is modelled on ASCII letters only. Unicode case mapping, where a lowered string can change length, is not modelled.
- Input immutability: Dafny values are immutable. That the helpers return new structures and leave their input alone holds by construction, and no lemma states it.
- Inputs are assumed to be real dicts: properties that depend on it (`WithoutNonesGet`, `LowerValueFixes`) require `UniqueKeys`. The method-entry unpacking counts entries as a dict's keys.
- `class_name_in_snake_case` is not part of this model. It is a function parameter, and only the example `DataClassTest` → `data_class_test` is used (`SnakeCaseRegistration`).
- The nested record conversion `get_record_convertor_copy_with_new_rules(...).convert(...)` is not part of this model. It is a function parameter that returns a value or an exception.
- The nested conversion is assumed not to modify the record or rule dict it is given. Every conversion sees the same record and rules, which `ApplyMethodsFollowsPlan` relies on when it describes the argument lists as computed ahead of the calls.
- Reflection:
  - `getattr(self, name)` also finds the processor's own methods and attributes. The model looks names up only in the registry.
  - `is_dataclass` is the `isDataclass` flag.
  - `cls(**content)` and the mutators are functions of the type descriptor.
  - `asdict` is the identity on the instance's field dict.
- Mutation in place: a dataclass method updates the instance in place and its return value is ignored. The model threads the updated instance value from call to call. Aliasing of the instance is not modelled.
- DataclassProcessor.DataClassProcessor.DataFromDataclass: the contract states the result, the stored record and convertor, and the unchanged registry. It does not state the new values of the type, `params` and `methods` fields; `PrepareDataclassSettings` states those.
- Attribute names the tests of the Python code read (`_data_class_to_use`, `_prepare_data_class_settings`) do not exist in the code. The model follows the code's names.
- Numbers are modelled as integers (`JNum(n: int)`). Python floats have no counterpart; every scalar is only passed through, so no behaviour depends on it.
