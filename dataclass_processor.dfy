/**
 * The dataclass processor: a registry of dataclass types by name, and the
 * materializer that builds an instance of a registered type from a nested
 * record conversion, calls the configured methods on it and hands it back
 * as a dict.
 *
 * Python reflection is made explicit. A type is a `TypeDesc`: its class
 * name, whether it is a dataclass, its constructor (keyword arguments to
 * instance, or an exception) and its table of methods. An instance is its
 * field dict, so `asdict` is the dict itself. The nested record convertor is
 * a function from (rules, record) to a converted value or an exception.
 */
module DataclassProcessor {
  import opened Wrappers
  import opened JsonValues

  /** The exceptions raised by the processor or let through from the code it calls. */
  datatype Error =
    | ValueError(message: string)
    | TypeError
    | AttributeError

  /** An instance of a dataclass, seen through its fields. */
  type Instance = seq<Entry>

  /** A mutating method of a dataclass: instance and keyword arguments to the updated instance. */
  type Mutator = (Instance, seq<Entry>) -> Result<Instance, Error>

  /** What the processor needs to know of a registered class. */
  datatype TypeDesc = TypeDesc(
    className: string,
    isDataclass: bool,
    construct: seq<Entry> -> Result<Instance, Error>,
    mutators: map<string, Mutator>)

  /** `record_convertor.get_record_convertor_copy_with_new_rules(new_rules=rules).convert(record)`. */
  type Convertor = (Json, Json) -> Result<Json, Error>

  // Keys of a dataclass rule.
  const NAME := "data_class_name"
  const PARAMS := "params"
  const METHODS := "methods"

  function NotADataclassMessage(className: string): string
  {
    "class '" + className + "' is not a dataclass"
  }

  function UnknownDataclassMessage(name: string): string
  {
    "Unknown dataclass '" + name + " defines in rules"
  }

  // ---------------------------------------------------------------------
  // Registry
  // ---------------------------------------------------------------------

  /**
   * Registering the (name, type) pairs in order: each dataclass is stored
   * under its name, replacing an earlier entry; the first type that is not
   * a dataclass stops the registration, keeping what was stored before it.
   */
  function RegisterAll(registry: map<string, TypeDesc>, pairs: seq<(string, TypeDesc)>): map<string, TypeDesc>
    decreases pairs
  {
    if pairs == [] || !pairs[0].1.isDataclass then registry
    else RegisterAll(registry[pairs[0].0 := pairs[0].1], pairs[1..])
  }

  /** The first type of the pairs that is not a dataclass, if any. */
  function FirstRejected(pairs: seq<(string, TypeDesc)>): (r: Option<TypeDesc>)
    ensures r.None? <==> forall i :: 0 <= i < |pairs| ==> pairs[i].1.isDataclass
  {
    if pairs == [] then None
    else if !pairs[0].1.isDataclass then Some(pairs[0].1)
    else
      var r := FirstRejected(pairs[1..]);
      assert forall i :: 1 <= i < |pairs| ==> pairs[i] == pairs[1..][i - 1];
      r
  }

  function RegistrationOutcome(pairs: seq<(string, TypeDesc)>): Outcome<Error>
  {
    match FirstRejected(pairs)
    case None => Pass
    case Some(t) => Fail(ValueError(NotADataclassMessage(t.className)))
  }

  /** Each type paired with the snake-case form of its class name. */
  function SnakeCaseNamed(types: seq<TypeDesc>, snakeCase: string -> string): (r: seq<(string, TypeDesc)>)
    ensures |r| == |types|
    ensures forall i :: 0 <= i < |types| ==> r[i] == (snakeCase(types[i].className), types[i])
  {
    if types == [] then []
    else [(snakeCase(types[0].className), types[0])] + SnakeCaseNamed(types[1..], snakeCase)
  }

  /** After a registration with no rejected type, each name maps to the last type given for it. */
  lemma {:induction false} RegisterAllLastWins(registry: map<string, TypeDesc>, pairs: seq<(string, TypeDesc)>, i: nat)
    requires forall j :: 0 <= j < |pairs| ==> pairs[j].1.isDataclass
    requires i < |pairs|
    requires forall j :: i < j < |pairs| ==> pairs[j].0 != pairs[i].0
    ensures pairs[i].0 in RegisterAll(registry, pairs)
    ensures RegisterAll(registry, pairs)[pairs[i].0] == pairs[i].1
    decreases pairs
  {
    var rest := pairs[1..];
    var next := registry[pairs[0].0 := pairs[0].1];
    if i == 0 {
      RegisterAllOthersUntouched(next, rest, pairs[0].0);
    } else {
      RegisterAllLastWins(next, rest, i - 1);
    }
  }

  /** Names that are not registered keep their entry (or their absence). */
  lemma {:induction false} RegisterAllOthersUntouched(registry: map<string, TypeDesc>, pairs: seq<(string, TypeDesc)>, name: string)
    requires forall j :: 0 <= j < |pairs| ==> pairs[j].0 != name
    ensures name in RegisterAll(registry, pairs) <==> name in registry
    ensures name in registry ==> RegisterAll(registry, pairs)[name] == registry[name]
    decreases pairs
  {
    if pairs != [] && pairs[0].1.isDataclass {
      RegisterAllOthersUntouched(registry[pairs[0].0 := pairs[0].1], pairs[1..], name);
    }
  }

  /** A rejected type ends the registration: what follows it is never registered. */
  lemma {:induction false} RegisterAllStopsAtRejected(registry: map<string, TypeDesc>, pairs: seq<(string, TypeDesc)>, k: nat)
    requires k < |pairs| && !pairs[k].1.isDataclass
    requires forall j :: 0 <= j < k ==> pairs[j].1.isDataclass
    ensures RegisterAll(registry, pairs) == RegisterAll(registry, pairs[..k])
    ensures FirstRejected(pairs) == Some(pairs[k].1)
    decreases pairs
  {
    if k > 0 {
      RegisterAllStopsAtRejected(registry[pairs[0].0 := pairs[0].1], pairs[1..], k - 1);
      assert pairs[1..][..k - 1] == pairs[..k][1..];
    }
  }

  /**
   * Automatic registration of a single dataclass, e.g. `DataClassTest`, whose
   * snake-case name is `data_class_test`: that name then maps to the type and
   * every other name keeps its entry.
   */
  lemma SnakeCaseRegistration(registry: map<string, TypeDesc>, t: TypeDesc, snakeCase: string -> string, other: string)
    requires t.isDataclass && t.className == "DataClassTest" && snakeCase("DataClassTest") == "data_class_test"
    requires other != "data_class_test"
    ensures RegistrationOutcome(SnakeCaseNamed([t], snakeCase)) == Pass
    ensures "data_class_test" in RegisterAll(registry, SnakeCaseNamed([t], snakeCase))
    ensures RegisterAll(registry, SnakeCaseNamed([t], snakeCase))["data_class_test"] == t
    ensures other in RegisterAll(registry, SnakeCaseNamed([t], snakeCase)) <==> other in registry
    ensures other in registry ==> RegisterAll(registry, SnakeCaseNamed([t], snakeCase))[other] == registry[other]
  {
    var pairs := SnakeCaseNamed([t], snakeCase);
    assert pairs == [("data_class_test", t)];
    assert pairs[1..] == [];
  }

  // ---------------------------------------------------------------------
  // Rule settings
  // ---------------------------------------------------------------------

  /**
   * The type a rule names: `getattr(self, rules.get("data_class_name"))`.
   * A registered name gives its type, any other string a ValueError, and a
   * name that is not a string (a missing key gives None) the TypeError of
   * `getattr`, which the Python code does not catch.
   */
  function ResolveDataclass(registry: map<string, TypeDesc>, rules: seq<Entry>): Result<TypeDesc, Error>
  {
    match GetOrNull(rules, NAME)
    case JStr(name) =>
      if name in registry then Success(registry[name])
      else Failure(ValueError(UnknownDataclassMessage(name)))
    case _ => Failure(TypeError)
  }

  // ---------------------------------------------------------------------
  // Materialization
  // ---------------------------------------------------------------------

  /** `_get_method_arguments`: a list of argument mappings is kept, any other result becomes a one-element list. */
  function ArgumentMappings(converted: Json): (r: seq<Json>)
    ensures converted.JList? ==> r == converted.items
    ensures !converted.JList? ==> r == [converted]
  {
    if converted.JList? then converted.items else [converted]
  }

  /** `cls(**content)`: the content must be a mapping. */
  function Construct(t: TypeDesc, content: Json): (r: Result<Instance, Error>)
    ensures !content.JObj? ==> r == Failure(TypeError)
    ensures content.JObj? ==> r == t.construct(content.entries)
  {
    if content.JObj? then t.construct(content.entries) else Failure(TypeError)
  }

  /** `getattr(instance, name)(**argument)`: the method must exist, then the argument must be a mapping. */
  function Invoke(t: TypeDesc, inst: Instance, name: string, argument: Json): (r: Result<Instance, Error>)
    ensures name !in t.mutators ==> r == Failure(AttributeError)
    ensures name in t.mutators && !argument.JObj? ==> r == Failure(TypeError)
    ensures name in t.mutators && argument.JObj? ==> r == t.mutators[name](inst, argument.entries)
  {
    if name !in t.mutators then Failure(AttributeError)
    else if !argument.JObj? then Failure(TypeError)
    else t.mutators[name](inst, argument.entries)
  }

  /** Performing the calls one after the other, stopping at the first exception. */
  function InvokeAll(t: TypeDesc, inst: Instance, calls: seq<(string, Json)>): Result<Instance, Error>
    decreases calls
  {
    if calls == [] then Success(inst)
    else
      match Invoke(t, inst, calls[0].0, calls[0].1)
      case Failure(e) => Failure(e)
      case Success(next) => InvokeAll(t, next, calls[1..])
  }

  /** One call of the named method per argument mapping, in list order. */
  function CallsOf(name: string, arguments: seq<Json>): (r: seq<(string, Json)>)
    ensures |r| == |arguments|
    ensures forall i :: 0 <= i < |arguments| ==> r[i] == (name, arguments[i])
  {
    if arguments == [] then [] else [(name, arguments[0])] + CallsOf(name, arguments[1..])
  }

  /**
   * What `for method in self._data_class_methods` walks over: the items of a
   * list, the keys of a dict, the characters of a string; None, a number or
   * a bool is not iterable.
   */
  function Iterate(methods: Json): (r: Result<seq<Json>, Error>)
    ensures r.Success? <==> methods.JList? || methods.JObj? || methods.JStr?
    ensures r.Failure? ==> r.error == TypeError
    ensures methods.JList? ==> r == Success(methods.items)
    ensures methods.JObj? ==>
      |r.value| == |methods.entries| && forall i :: 0 <= i < |methods.entries| ==> r.value[i] == JStr(methods.entries[i].key)
    ensures methods.JStr? ==>
      |r.value| == |methods.s| && forall i :: 0 <= i < |methods.s| ==> r.value[i] == JStr([methods.s[i]])
  {
    match methods
    case JList(xs) => Success(xs)
    case JObj(es) => Success(seq(|es|, i requires 0 <= i < |es| => JStr(es[i].key)))
    case JStr(s) => Success(seq(|s|, i requires 0 <= i < |s| => JStr([s[i]])))
    case _ => Failure(TypeError)
  }

  /**
   * `[[method, method_argument_rules]] = method.items()`: only a dict has
   * `items()`, and it must hold exactly one entry.
   */
  function Unpack(m: Json): (r: Result<(string, Json), Error>)
    ensures r.Success? <==> m.JObj? && |m.entries| == 1
  {
    match m
    case JObj(es) =>
      if |es| == 0 then Failure(ValueError("not enough values to unpack (expected 1, got 0)"))
      else if |es| > 1 then Failure(ValueError("too many values to unpack (expected 1)"))
      else Success((es[0].key, es[0].value))
    case _ => Failure(AttributeError)
  }

  /** The calls one method entry asks for: its arguments come from a nested conversion of its rules. */
  function EntryCalls(m: Json, record: Json, convert: Convertor): Result<seq<(string, Json)>, Error>
  {
    var entry :- Unpack(m);
    var converted :- convert(entry.1, record);
    Success(CallsOf(entry.0, ArgumentMappings(converted)))
  }

  /** `_update_dataclass_with_provided_methods`: each entry in turn, each of its calls in turn. */
  function ApplyMethods(t: TypeDesc, inst: Instance, ms: seq<Json>, record: Json, convert: Convertor): Result<Instance, Error>
    decreases ms
  {
    if ms == [] then Success(inst)
    else
      var calls :- EntryCalls(ms[0], record, convert);
      var next :- InvokeAll(t, inst, calls);
      ApplyMethods(t, next, ms[1..], record, convert)
  }

  /** The whole sequence of method calls the entries ask for, in declaration order. */
  function Plan(ms: seq<Json>, record: Json, convert: Convertor): Result<seq<(string, Json)>, Error>
  {
    if ms == [] then Success([])
    else
      var calls :- EntryCalls(ms[0], record, convert);
      var rest :- Plan(ms[1..], record, convert);
      Success(calls + rest)
  }

  /** The number of argument mappings the entries produce, summed over the entries. */
  function ArgumentCount(ms: seq<Json>, record: Json, convert: Convertor): nat
  {
    if ms == [] then 0
    else
      var here :=
        match Unpack(ms[0])
        case Failure(_) => 0
        case Success(entry) =>
          match convert(entry.1, record)
          case Failure(_) => 0
          case Success(c) => |ArgumentMappings(c)|;
      here + ArgumentCount(ms[1..], record, convert)
  }

  /** `_get_dataclass_instance` from the constructor content on. */
  function BuildInstance(t: TypeDesc, methods: Json, content: Json, record: Json, convert: Convertor): Result<Instance, Error>
  {
    var inst :- Construct(t, content);
    var ms :- Iterate(methods);
    ApplyMethods(t, inst, ms, record, convert)
  }

  /**
   * `_create_return_dict`: the constructor content is the nested conversion
   * of the WHOLE rule dict (not of its `params` entry), and the result is the
   * instance as a dict.
   */
  function ReturnDict(t: TypeDesc, methods: Json, record: Json, rules: seq<Entry>, convert: Convertor): Result<Json, Error>
  {
    var content :- convert(JObj(rules), record);
    var inst :- BuildInstance(t, methods, content, record, convert);
    Success(JObj(inst))
  }

  /** `data_from_dataclass` as a function of the registry, the record, the rules and the convertor. */
  function Materialize(registry: map<string, TypeDesc>, record: Json, rules: seq<Entry>, convert: Convertor): Result<Json, Error>
  {
    var t :- ResolveDataclass(registry, rules);
    ReturnDict(t, GetOrNull(rules, METHODS), record, rules, convert)
  }

  // ---------------------------------------------------------------------
  // Properties of the materializer
  // ---------------------------------------------------------------------

  /** Calls split anywhere run as the first part followed by the second. */
  lemma {:induction false} InvokeAllAppend(t: TypeDesc, inst: Instance, c1: seq<(string, Json)>, c2: seq<(string, Json)>)
    ensures InvokeAll(t, inst, c1 + c2) ==
      match InvokeAll(t, inst, c1)
      case Failure(e) => Failure(e)
      case Success(mid) => InvokeAll(t, mid, c2)
    decreases c1
  {
    if c1 == [] {
      assert c1 + c2 == c2;
    } else {
      assert (c1 + c2)[0] == c1[0];
      assert (c1 + c2)[1..] == c1[1..] + c2;
      match Invoke(t, inst, c1[0].0, c1[0].1)
      case Failure(e) =>
      case Success(next) => InvokeAllAppend(t, next, c1[1..], c2);
    }
  }

  /**
   * The nested loops perform exactly the planned calls, in order: when every
   * entry yields its arguments, applying the methods is running the plan,
   * and a successful application implies the plan exists.
   */
  lemma {:induction false} ApplyMethodsFollowsPlan(t: TypeDesc, inst: Instance, ms: seq<Json>, record: Json, convert: Convertor)
    ensures ApplyMethods(t, inst, ms, record, convert).Success? ==> Plan(ms, record, convert).Success?
    ensures Plan(ms, record, convert).Success? ==>
      ApplyMethods(t, inst, ms, record, convert) == InvokeAll(t, inst, Plan(ms, record, convert).value)
    decreases ms
  {
    if ms != [] {
      match EntryCalls(ms[0], record, convert)
      case Failure(e) =>
      case Success(calls) =>
        InvokeAllAppend(t, inst, calls, if Plan(ms[1..], record, convert).Success? then Plan(ms[1..], record, convert).value else []);
        match InvokeAll(t, inst, calls)
        case Failure(e) =>
        case Success(next) => ApplyMethodsFollowsPlan(t, next, ms[1..], record, convert);
    }
  }

  /** One step of the inner loop: the first call, then the remaining ones. */
  lemma InvokeAllStep(t: TypeDesc, inst: Instance, calls: seq<(string, Json)>)
    requires calls != []
    ensures Invoke(t, inst, calls[0].0, calls[0].1).Failure? ==>
      InvokeAll(t, inst, calls) == Failure(Invoke(t, inst, calls[0].0, calls[0].1).error)
    ensures Invoke(t, inst, calls[0].0, calls[0].1).Success? ==>
      InvokeAll(t, inst, calls) == InvokeAll(t, Invoke(t, inst, calls[0].0, calls[0].1).value, calls[1..])
  {
  }

  /** One step of the outer loop: the first entry's calls, then the remaining entries. */
  lemma ApplyMethodsStep(t: TypeDesc, inst: Instance, ms: seq<Json>, record: Json, convert: Convertor)
    requires ms != []
    ensures EntryCalls(ms[0], record, convert).Failure? ==>
      ApplyMethods(t, inst, ms, record, convert) == Failure(EntryCalls(ms[0], record, convert).error)
    ensures EntryCalls(ms[0], record, convert).Success? ==>
      var calls := EntryCalls(ms[0], record, convert).value;
      (InvokeAll(t, inst, calls).Failure? ==>
        ApplyMethods(t, inst, ms, record, convert) == Failure(InvokeAll(t, inst, calls).error)) &&
      (InvokeAll(t, inst, calls).Success? ==>
        ApplyMethods(t, inst, ms, record, convert) == ApplyMethods(t, InvokeAll(t, inst, calls).value, ms[1..], record, convert))
  {
  }

  /**
   * A method entry that is not a dict with exactly one key makes the whole
   * application fail, whatever the entries before it do.
   */
  lemma {:induction false} ApplyMethodsMalformedEntry(t: TypeDesc, inst: Instance, ms: seq<Json>, record: Json, convert: Convertor, k: nat)
    requires k < |ms| && !(ms[k].JObj? && |ms[k].entries| == 1)
    ensures ApplyMethods(t, inst, ms, record, convert).Failure?
    decreases ms
  {
    if k > 0 {
      assert ms[1..][k - 1] == ms[k];
      match EntryCalls(ms[0], record, convert)
      case Failure(_) =>
      case Success(calls) =>
        match InvokeAll(t, inst, calls)
        case Failure(_) =>
        case Success(next) => ApplyMethodsMalformedEntry(t, next, ms[1..], record, convert, k - 1);
    }
  }

  /**
   * A call of a method the type does not have, or with an argument that is
   * not a mapping, makes the whole call list fail, whatever precedes it.
   */
  lemma {:induction false} InvokeAllBadCall(t: TypeDesc, inst: Instance, calls: seq<(string, Json)>, k: nat)
    requires k < |calls| && (calls[k].0 !in t.mutators || !calls[k].1.JObj?)
    ensures InvokeAll(t, inst, calls).Failure?
    decreases calls
  {
    if k > 0 {
      assert calls[1..][k - 1] == calls[k];
      match Invoke(t, inst, calls[0].0, calls[0].1)
      case Failure(_) =>
      case Success(next) => InvokeAllBadCall(t, next, calls[1..], k - 1);
    }
  }

  /**
   * When the entries yield their arguments, a planned call of a missing
   * method, or with an argument that is not a mapping, makes the update fail.
   */
  lemma ApplyMethodsBadCall(t: TypeDesc, inst: Instance, ms: seq<Json>, record: Json, convert: Convertor, k: nat)
    requires Plan(ms, record, convert).Success?
    requires k < |Plan(ms, record, convert).value|
    requires Plan(ms, record, convert).value[k].0 !in t.mutators || !Plan(ms, record, convert).value[k].1.JObj?
    ensures ApplyMethods(t, inst, ms, record, convert).Failure?
  {
    ApplyMethodsFollowsPlan(t, inst, ms, record, convert);
    InvokeAllBadCall(t, inst, Plan(ms, record, convert).value, k);
  }

  /** The plan holds one call per argument mapping: its length is the sum of the argument-list lengths. */
  lemma {:induction false} PlanLength(ms: seq<Json>, record: Json, convert: Convertor)
    requires Plan(ms, record, convert).Success?
    ensures |Plan(ms, record, convert).value| == ArgumentCount(ms, record, convert)
  {
    if ms != [] {
      PlanLength(ms[1..], record, convert);
    }
  }

  /** A rule naming an unregistered type fails with ValueError before anything is converted. */
  lemma MaterializeUnknownName(registry: map<string, TypeDesc>, record: Json, rules: seq<Entry>, convert: Convertor, name: string)
    requires Get(rules, NAME) == Some(JStr(name)) && name !in registry
    ensures Materialize(registry, record, rules, convert) == Failure(ValueError(UnknownDataclassMessage(name)))
  {
  }

  /**
   * Constructor content that is not a mapping fails with the TypeError of
   * `cls(**content)`, before any method runs.
   */
  lemma MaterializeContentNotMapping(registry: map<string, TypeDesc>, record: Json, rules: seq<Entry>, convert: Convertor)
    requires GetOrNull(rules, NAME).JStr? && GetOrNull(rules, NAME).s in registry
    requires convert(JObj(rules), record).Success? && !convert(JObj(rules), record).value.JObj?
    ensures Materialize(registry, record, rules, convert) == Failure(TypeError)
  {
  }

  /**
   * A rule without a `methods` entry never materializes: the loop over the
   * methods iterates over None. Once the type resolves and the instance is
   * built, the failure is that TypeError.
   */
  lemma MaterializeWithoutMethods(registry: map<string, TypeDesc>, record: Json, rules: seq<Entry>, convert: Convertor)
    requires Get(rules, METHODS).None?
    ensures Materialize(registry, record, rules, convert).Failure?
    ensures ResolveDataclass(registry, rules).Success? && convert(JObj(rules), record).Success? &&
            Construct(ResolveDataclass(registry, rules).value, convert(JObj(rules), record).value).Success? ==>
              Materialize(registry, record, rules, convert) == Failure(TypeError)
  {
  }

  /**
   * A successful materialization is the registered type built from the
   * converted rule dict, with the planned method calls run on it in order,
   * returned as a dict.
   */
  lemma MaterializeResult(registry: map<string, TypeDesc>, record: Json, rules: seq<Entry>, convert: Convertor)
    requires Materialize(registry, record, rules, convert).Success?
    ensures GetOrNull(rules, NAME).JStr? && GetOrNull(rules, NAME).s in registry
    ensures convert(JObj(rules), record).Success? && convert(JObj(rules), record).value.JObj?
    ensures Iterate(GetOrNull(rules, METHODS)).Success?
    ensures Plan(Iterate(GetOrNull(rules, METHODS)).value, record, convert).Success?
    ensures
      var t := registry[GetOrNull(rules, NAME).s];
      var built := t.construct(convert(JObj(rules), record).value.entries);
      built.Success? &&
      InvokeAll(t, built.value, Plan(Iterate(GetOrNull(rules, METHODS)).value, record, convert).value).Success? &&
      Materialize(registry, record, rules, convert) ==
        Success(JObj(InvokeAll(t, built.value, Plan(Iterate(GetOrNull(rules, METHODS)).value, record, convert).value).value))
  {
    var t := registry[GetOrNull(rules, NAME).s];
    var inst := t.construct(convert(JObj(rules), record).value.entries).value;
    ApplyMethodsFollowsPlan(t, inst, Iterate(GetOrNull(rules, METHODS)).value, record, convert);
  }

  // ---------------------------------------------------------------------
  // The processor object
  // ---------------------------------------------------------------------

  /**
   * `DataClassProcessor`. The registry stands for the attributes
   * `setattr` adds; the `Option` fields stand for the attributes the
   * processor sets while it works, `None` while a field has not been set.
   */
  class DataClassProcessor {
    var registry: map<string, TypeDesc>
    var record: Option<Json>
    var recordConvertor: Option<Convertor>
    var dataclassToBeUsed: Option<TypeDesc>
    var recordConvertorArgs: Option<Json>
    var dataClassMethods: Option<Json>

    constructor ()
      ensures registry == map[]
      ensures record == None && recordConvertor == None
      ensures dataclassToBeUsed == None && recordConvertorArgs == None && dataClassMethods == None
    {
      registry := map[];
      record, recordConvertor := None, None;
      dataclassToBeUsed, recordConvertorArgs, dataClassMethods := None, None, None;
    }

    /** The settings and inputs a materialization reads are all in place. */
    predicate Prepared()
      reads this
    {
      record.Some? && recordConvertor.Some? && dataclassToBeUsed.Some? && dataClassMethods.Some?
    }

    /** `data_from_dataclass`. */
    method DataFromDataclass(record: Json, rules: seq<Entry>, recordConvertor: Convertor) returns (r: Result<Json, Error>)
      modifies this
      ensures r == Materialize(old(registry), record, rules, recordConvertor)
      ensures registry == old(registry)
      ensures this.record == Some(record) && this.recordConvertor == Some(recordConvertor)
    {
      this.record := Some(record);
      this.recordConvertor := Some(recordConvertor);
      var prepared := PrepareDataclassSettings(rules);
      if prepared.Fail? {
        return Failure(prepared.error);
      }
      r := CreateReturnDict(rules);
    }

    /** `register_dict_of_data_classes`: each type under its own key, in order. */
    method RegisterDictOfDataClasses(dataclasses: seq<(string, TypeDesc)>) returns (o: Outcome<Error>)
      modifies this`registry
      ensures registry == RegisterAll(old(registry), dataclasses)
      ensures o == RegistrationOutcome(dataclasses)
    {
      var i := 0;
      while i < |dataclasses|
        invariant 0 <= i <= |dataclasses|
        invariant forall j :: 0 <= j < i ==> dataclasses[j].1.isDataclass
        invariant RegisterAll(registry, dataclasses[i..]) == RegisterAll(old(registry), dataclasses)
        invariant FirstRejected(dataclasses[i..]) == FirstRejected(dataclasses)
      {
        var name, dataclass := dataclasses[i].0, dataclasses[i].1;
        assert dataclasses[i..][1..] == dataclasses[i + 1..];
        o := RegisterDataclassNamed(name, dataclass);
        if o.Fail? {
          return;
        }
        i := i + 1;
      }
      o := Pass;
    }

    /** `register_data_classes`: each type under the snake-case form of its class name, in order. */
    method RegisterDataClasses(dataclasses: seq<TypeDesc>, snakeCase: string -> string) returns (o: Outcome<Error>)
      modifies this`registry
      ensures registry == RegisterAll(old(registry), SnakeCaseNamed(dataclasses, snakeCase))
      ensures o == RegistrationOutcome(SnakeCaseNamed(dataclasses, snakeCase))
    {
      ghost var pairs := SnakeCaseNamed(dataclasses, snakeCase);
      var i := 0;
      while i < |dataclasses|
        invariant 0 <= i <= |dataclasses|
        invariant forall j :: 0 <= j < i ==> dataclasses[j].isDataclass
        invariant RegisterAll(registry, pairs[i..]) == RegisterAll(old(registry), pairs)
        invariant FirstRejected(pairs[i..]) == FirstRejected(pairs)
      {
        assert pairs[i..][0] == pairs[i] && pairs[i..][1..] == pairs[i + 1..];
        o := RegisterDataclass(dataclasses[i], snakeCase);
        if o.Fail? {
          return;
        }
        i := i + 1;
      }
      o := Pass;
    }

    /** `register_dataclass`: registers under `class_name_in_snake_case(dataclass.__name__)`. */
    method RegisterDataclass(dataclass: TypeDesc, snakeCase: string -> string) returns (o: Outcome<Error>)
      modifies this`registry
      ensures dataclass.isDataclass ==> o == Pass && registry == old(registry)[snakeCase(dataclass.className) := dataclass]
      ensures !dataclass.isDataclass ==> o == Fail(ValueError(NotADataclassMessage(dataclass.className))) && registry == old(registry)
    {
      o := RegisterDataclassNamed(snakeCase(dataclass.className), dataclass);
    }

    /** `_register_dataclass`: a dataclass is stored under the name, replacing any earlier one; anything else raises ValueError. */
    method RegisterDataclassNamed(dataclassName: string, dataclass: TypeDesc) returns (o: Outcome<Error>)
      modifies this`registry
      ensures dataclass.isDataclass ==> o == Pass && registry == old(registry)[dataclassName := dataclass]
      ensures !dataclass.isDataclass ==> o == Fail(ValueError(NotADataclassMessage(dataclass.className))) && registry == old(registry)
    {
      if !dataclass.isDataclass {
        return Fail(ValueError(NotADataclassMessage(dataclass.className)));
      }
      registry := registry[dataclassName := dataclass];
      o := Pass;
    }

    /** `_prepare_dataclass_settings`: the type first; if it resolves, the params and methods entries as given. */
    method PrepareDataclassSettings(rules: seq<Entry>) returns (o: Outcome<Error>)
      modifies this`dataclassToBeUsed, this`recordConvertorArgs, this`dataClassMethods
      ensures ResolveDataclass(registry, rules).Failure? ==>
        o == Fail(ResolveDataclass(registry, rules).error) &&
        unchanged(this`dataclassToBeUsed, this`recordConvertorArgs, this`dataClassMethods)
      ensures ResolveDataclass(registry, rules).Success? ==>
        o == Pass &&
        dataclassToBeUsed == Some(ResolveDataclass(registry, rules).value) &&
        recordConvertorArgs == Some(GetOrNull(rules, PARAMS)) &&
        dataClassMethods == Some(GetOrNull(rules, METHODS))
    {
      o := SetDataclassToUse(rules);
      if o.Fail? {
        return;
      }
      SetRecordConvertorArguments(rules);
      SetDataclassMethods(rules);
    }

    /** `_set_record_covertor_arguments`: stores `rules.get("params")`. */
    method SetRecordConvertorArguments(rules: seq<Entry>)
      modifies this`recordConvertorArgs
      ensures recordConvertorArgs == Some(GetOrNull(rules, PARAMS))
    {
      recordConvertorArgs := Some(GetOrNull(rules, PARAMS));
    }

    /** `_set_dataclass_methods`: stores `rules.get("methods")`. */
    method SetDataclassMethods(rules: seq<Entry>)
      modifies this`dataClassMethods
      ensures dataClassMethods == Some(GetOrNull(rules, METHODS))
    {
      dataClassMethods := Some(GetOrNull(rules, METHODS));
    }

    /** `_set_dataclass_to_use`: looks the named type up; the attribute is set only when it resolves. */
    method SetDataclassToUse(rules: seq<Entry>) returns (o: Outcome<Error>)
      modifies this`dataclassToBeUsed
      ensures ResolveDataclass(registry, rules).Failure? ==>
        o == Fail(ResolveDataclass(registry, rules).error) && dataclassToBeUsed == old(dataclassToBeUsed)
      ensures ResolveDataclass(registry, rules).Success? ==>
        o == Pass && dataclassToBeUsed == Some(ResolveDataclass(registry, rules).value)
    {
      var dataClassName := GetOrNull(rules, NAME);
      if !dataClassName.JStr? {
        return Fail(TypeError);
      }
      if dataClassName.s !in registry {
        return Fail(ValueError(UnknownDataclassMessage(dataClassName.s)));
      }
      dataclassToBeUsed := Some(registry[dataClassName.s]);
      o := Pass;
    }

    /** `_get_dataclass_content`: the nested conversion of the record under the given rules. */
    method GetDataclassContent(rules: seq<Entry>) returns (r: Result<Json, Error>)
      requires record.Some? && recordConvertor.Some?
      ensures r == recordConvertor.value(JObj(rules), record.value)
    {
      r := recordConvertor.value(JObj(rules), record.value);
    }

    /** `_create_return_dict`. */
    method CreateReturnDict(rules: seq<Entry>) returns (r: Result<Json, Error>)
      requires Prepared()
      ensures r == ReturnDict(dataclassToBeUsed.value, dataClassMethods.value, record.value, rules, recordConvertor.value)
    {
      var content := GetDataclassContent(rules);
      if content.Failure? {
        return Failure(content.error);
      }
      var inst := GetDataclassInstance(content.value);
      if inst.Failure? {
        return Failure(inst.error);
      }
      r := Success(JObj(inst.value));
    }

    /** `_get_dataclass_instance`: construct from the content, then apply the methods. */
    method GetDataclassInstance(dataclassContent: Json) returns (r: Result<Instance, Error>)
      requires Prepared()
      ensures r == BuildInstance(dataclassToBeUsed.value, dataClassMethods.value, dataclassContent, record.value, recordConvertor.value)
    {
      var inst := Construct(dataclassToBeUsed.value, dataclassContent);
      if inst.Failure? {
        return Failure(inst.error);
      }
      r := UpdateDataclassWithProvidedMethods(inst.value);
    }

    /**
     * `_update_dataclass_with_provided_methods`: for each method entry in
     * order, unpack it, get its argument mappings and call the method once
     * per mapping, in order.
     */
    method UpdateDataclassWithProvidedMethods(dataclassInstance: Instance) returns (r: Result<Instance, Error>)
      requires Prepared()
      ensures r == (
        var ms :- Iterate(dataClassMethods.value);
        ApplyMethods(dataclassToBeUsed.value, dataclassInstance, ms, record.value, recordConvertor.value))
    {
      var t, rec, convert := dataclassToBeUsed.value, record.value, recordConvertor.value;
      var methods := Iterate(dataClassMethods.value);
      if methods.Failure? {
        return Failure(methods.error);
      }
      var ms := methods.value;
      var current := dataclassInstance;
      var i := 0;
      while i < |ms|
        invariant 0 <= i <= |ms|
        invariant ApplyMethods(t, current, ms[i..], rec, convert) == ApplyMethods(t, dataclassInstance, ms, rec, convert)
      {
        assert ms[i..][0] == ms[i] && ms[i..][1..] == ms[i + 1..];
        ApplyMethodsStep(t, current, ms[i..], rec, convert);
        var entry := Unpack(ms[i]);
        if entry.Failure? {
          return Failure(entry.error);
        }
        var name, argumentRules := entry.value.0, entry.value.1;
        var arguments := GetMethodArguments(argumentRules);
        if arguments.Failure? {
          return Failure(arguments.error);
        }
        ghost var calls := CallsOf(name, arguments.value);
        assert EntryCalls(ms[i], rec, convert) == Success(calls);
        ghost var before := current;
        var j := 0;
        while j < |arguments.value|
          invariant 0 <= j <= |arguments.value|
          invariant InvokeAll(t, current, calls[j..]) == InvokeAll(t, before, calls)
        {
          assert calls[j..][0] == (name, arguments.value[j]) && calls[j..][1..] == calls[j + 1..];
          InvokeAllStep(t, current, calls[j..]);
          var next := Invoke(t, current, name, arguments.value[j]);
          if next.Failure? {
            return Failure(next.error);
          }
          current := next.value;
          j := j + 1;
        }
        i := i + 1;
      }
      r := Success(current);
    }

    /** `_get_method_arguments`: a nested conversion of the entry's rules, normalised to a list. */
    method GetMethodArguments(methodArgumentRules: Json) returns (r: Result<seq<Json>, Error>)
      requires record.Some? && recordConvertor.Some?
      ensures r == (
        var converted :- recordConvertor.value(methodArgumentRules, record.value);
        Success(ArgumentMappings(converted)))
    {
      var methodArguments := recordConvertor.value(methodArgumentRules, record.value);
      if methodArguments.Failure? {
        return Failure(methodArguments.error);
      }
      r := Success(if methodArguments.value.JList? then methodArguments.value.items else [methodArguments.value]);
    }
  }
}
