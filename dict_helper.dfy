/**
 * The dict helpers of the package settings: recursive lower-casing of every
 * dict key in a nested value, and removal of the entries whose value is None.
 *
 * `LowerValue`, `LowerList` and `LowerKeys` are the specification; the
 * methods `ListInLowerCase` and `KeysInLowerCase` are the loops of the
 * helper module, proved to compute them.
 */
module DictHelper {
  import opened Wrappers
  import opened JsonValues

  // ---------------------------------------------------------------------
  // Lower case on strings (ASCII letters only)
  // ---------------------------------------------------------------------

  function LowerChar(c: char): char
  {
    if 'A' <= c <= 'Z' then (c as int + 32) as char else c
  }

  /** `s.lower()` restricted to ASCII letters. */
  function LowerStr(s: string): string
  {
    if s == [] then [] else [LowerChar(s[0])] + LowerStr(s[1..])
  }

  predicate IsLowerStr(s: string)
  {
    forall i :: 0 <= i < |s| ==> !('A' <= s[i] <= 'Z')
  }

  /** Lower-casing yields a lower-case string of the same length. */
  lemma {:induction false} LowerStrIsLower(s: string)
    ensures |LowerStr(s)| == |s| && IsLowerStr(LowerStr(s))
  {
    if s != [] {
      LowerStrIsLower(s[1..]);
      var r := LowerStr(s);
      forall i | 0 <= i < |r| ensures !('A' <= r[i] <= 'Z') {
        if i > 0 { assert r[i] == LowerStr(s[1..])[i - 1]; }
      }
    }
  }

  /** A string that is already lower case is left alone. */
  lemma {:induction false} LowerStrFixesLower(s: string)
    requires IsLowerStr(s)
    ensures LowerStr(s) == s
  {
    if s != [] {
      assert IsLowerStr(s[1..]) by {
        forall i | 0 <= i < |s[1..]| ensures !('A' <= s[1..][i] <= 'Z') {
          assert s[1..][i] == s[i + 1];
        }
      }
      LowerStrFixesLower(s[1..]);
      assert !('A' <= s[0] <= 'Z');
      assert s == [s[0]] + s[1..];
    }
  }

  // ---------------------------------------------------------------------
  // Specification of keys_in_lower_case / list_in_lower_case
  // ---------------------------------------------------------------------

  /** One item as both loops treat it: a list is recursed, a dict has its keys lowered, anything else is kept. */
  function LowerValue(v: Json): (r: Json)
    decreases v
    ensures r.JList? == v.JList? && r.JObj? == v.JObj?
    ensures !v.JList? && !v.JObj? ==> r == v
  {
    match v
    case JList(xs) => JList(LowerList(xs))
    case JObj(es) => JObj(LowerKeys(es))
    case _ => v
  }

  /** `list_in_lower_case`: the same items, in the same order, each lowered. */
  function LowerList(xs: seq<Json>): (r: seq<Json>)
    decreases xs
    ensures |r| == |xs|
    ensures forall i :: 0 <= i < |xs| ==> r[i] == LowerValue(xs[i])
  {
    if xs == [] then []
    else LowerList(xs[..|xs| - 1]) + [LowerValue(xs[|xs| - 1])]
  }

  /**
   * `keys_in_lower_case`: a fresh dict filled entry by entry, in input order,
   * with `dict_result[key.lower()] = lowered value`.
   */
  function LowerKeys(es: seq<Entry>): seq<Entry>
    decreases es
  {
    if es == [] then []
    else
      var e := es[|es| - 1];
      Assign(LowerKeys(es[..|es| - 1]), LowerStr(e.key), LowerValue(e.value))
  }

  /** Every dict key, at every depth, is lower case. */
  predicate KeysLowerCase(v: Json)
    decreases v
  {
    match v
    case JList(xs) => forall i :: 0 <= i < |xs| ==> KeysLowerCase(xs[i])
    case JObj(es) => forall i :: 0 <= i < |es| ==> IsLowerStr(es[i].key) && KeysLowerCase(es[i].value)
    case _ => true
  }

  /** Every dict, at every depth, holds each key once (as a Python dict does). */
  predicate WellFormed(v: Json)
    decreases v
  {
    match v
    case JList(xs) => forall i :: 0 <= i < |xs| ==> WellFormed(xs[i])
    case JObj(es) => UniqueKeys(es) && forall i :: 0 <= i < |es| ==> WellFormed(es[i].value)
    case _ => true
  }

  // ---------------------------------------------------------------------
  // Properties of the specification
  // ---------------------------------------------------------------------

  /** Every entry of the lowered dict comes from some input entry, key and value lowered. */
  lemma {:induction false} LowerKeysEntries(es: seq<Entry>)
    ensures forall e :: e in LowerKeys(es) ==>
      exists j :: 0 <= j < |es| && e == Entry(LowerStr(es[j].key), LowerValue(es[j].value))
  {
    if es != [] {
      var n := |es| - 1;
      var p := es[..n];
      LowerKeysEntries(p);
      AssignEntries(LowerKeys(p), LowerStr(es[n].key), LowerValue(es[n].value));
      forall e | e in LowerKeys(es)
        ensures exists j :: 0 <= j < |es| && e == Entry(LowerStr(es[j].key), LowerValue(es[j].value))
      {
        if e in LowerKeys(p) {
          var j :| 0 <= j < |p| && e == Entry(LowerStr(p[j].key), LowerValue(p[j].value));
          assert p[j] == es[j];
        }
      }
    }
  }

  /** The lowered dict never holds a key twice, however many input keys collide. */
  lemma {:induction false} LowerKeysUnique(es: seq<Entry>)
    ensures UniqueKeys(LowerKeys(es))
  {
    if es != [] {
      var n := |es| - 1;
      LowerKeysUnique(es[..n]);
      AssignUnique(LowerKeys(es[..n]), LowerStr(es[n].key), LowerValue(es[n].value));
    }
  }

  /** A key is in the result exactly when some input key lowers to it. */
  lemma {:induction false} LowerKeysKeys(es: seq<Entry>, k: string)
    ensures k in KeysOf(LowerKeys(es)) <==> exists i :: 0 <= i < |es| && LowerStr(es[i].key) == k
  {
    if es != [] {
      var n := |es| - 1;
      var p := es[..n];
      LowerKeysKeys(p, k);
      AssignKeys(LowerKeys(p), LowerStr(es[n].key), LowerValue(es[n].value));
      if exists i :: 0 <= i < |es| && LowerStr(es[i].key) == k {
        var i :| 0 <= i < |es| && LowerStr(es[i].key) == k;
        if i < n { assert p[i] == es[i]; }
      }
      if exists i :: 0 <= i < |p| && LowerStr(p[i].key) == k {
        var i :| 0 <= i < |p| && LowerStr(p[i].key) == k;
        assert p[i] == es[i];
      }
    }
  }

  /**
   * When two keys collide after lower-casing, the later one wins: the value
   * under a lowered key is the lowered value of the last input entry with
   * that lowered key.
   */
  lemma {:induction false} LowerKeysLaterWins(es: seq<Entry>, i: nat)
    requires i < |es|
    requires forall j :: i < j < |es| ==> LowerStr(es[j].key) != LowerStr(es[i].key)
    ensures Get(LowerKeys(es), LowerStr(es[i].key)) == Some(LowerValue(es[i].value))
  {
    var n := |es| - 1;
    var p := es[..n];
    AssignGet(LowerKeys(p), LowerStr(es[n].key), LowerValue(es[n].value));
    if i < n {
      assert p[i] == es[i];
      LowerKeysLaterWins(p, i);
    }
  }

  /** Lower-casing yields keys in lower case and proper dicts, at every depth. */
  lemma {:induction false} LowerValueLowerCase(v: Json)
    decreases v
    ensures KeysLowerCase(LowerValue(v)) && WellFormed(LowerValue(v))
  {
    match v
    case JList(xs) => LowerListLowerCase(xs);
    case JObj(es) => LowerKeysLowerCase(es);
    case _ =>
  }

  lemma {:induction false} LowerListLowerCase(xs: seq<Json>)
    decreases xs
    ensures forall i :: 0 <= i < |xs| ==>
      KeysLowerCase(LowerList(xs)[i]) && WellFormed(LowerList(xs)[i])
  {
    forall i | 0 <= i < |xs|
      ensures KeysLowerCase(LowerList(xs)[i]) && WellFormed(LowerList(xs)[i])
    {
      LowerValueLowerCase(xs[i]);
    }
  }

  lemma {:induction false} LowerKeysLowerCase(es: seq<Entry>)
    decreases es
    ensures KeysLowerCase(JObj(LowerKeys(es))) && WellFormed(JObj(LowerKeys(es)))
  {
    var r := LowerKeys(es);
    LowerKeysEntries(es);
    LowerKeysUnique(es);
    forall i | 0 <= i < |r|
      ensures IsLowerStr(r[i].key) && KeysLowerCase(r[i].value) && WellFormed(r[i].value)
    {
      assert r[i] in r;
      var j :| 0 <= j < |es| && r[i] == Entry(LowerStr(es[j].key), LowerValue(es[j].value));
      LowerStrIsLower(es[j].key);
      LowerValueLowerCase(es[j].value);
    }
  }

  /** A value whose keys are all lower case and unique is a fixed point of lower-casing. */
  lemma {:induction false} LowerValueFixes(v: Json)
    decreases v
    requires KeysLowerCase(v) && WellFormed(v)
    ensures LowerValue(v) == v
  {
    match v
    case JList(xs) => LowerListFixes(xs);
    case JObj(es) => LowerKeysFixes(es);
    case _ =>
  }

  lemma {:induction false} LowerListFixes(xs: seq<Json>)
    decreases xs
    requires forall i :: 0 <= i < |xs| ==> KeysLowerCase(xs[i]) && WellFormed(xs[i])
    ensures LowerList(xs) == xs
  {
    forall i | 0 <= i < |xs| ensures LowerList(xs)[i] == xs[i] {
      LowerValueFixes(xs[i]);
    }
  }

  lemma {:induction false} LowerKeysFixes(es: seq<Entry>)
    decreases es
    requires KeysLowerCase(JObj(es)) && WellFormed(JObj(es))
    ensures LowerKeys(es) == es
  {
    if es != [] {
      var n := |es| - 1;
      var p := es[..n];
      UniqueKeysIndex(es);
      UniqueKeysIndex(p);
      assert KeysLowerCase(JObj(p)) && WellFormed(JObj(p)) by {
        forall i | 0 <= i < |p| ensures p[i] == es[i] { }
      }
      LowerKeysFixes(p);
      LowerStrFixesLower(es[n].key);
      LowerValueFixes(es[n].value);
      KeysOfIndex(p, es[n].key);
      AssignOrder(p, es[n].key, es[n].value);
      assert p + [Entry(es[n].key, es[n].value)] == es;
    }
  }

  /** Applying the lower-casing twice gives the same result as applying it once. */
  lemma LowerValueIdempotent(v: Json)
    ensures LowerValue(LowerValue(v)) == LowerValue(v)
  {
    LowerValueLowerCase(v);
    LowerValueFixes(LowerValue(v));
  }

  // ---------------------------------------------------------------------
  // The loops of the helper module
  // ---------------------------------------------------------------------

  /** `list_in_lower_case`: appends one lowered item per input item to a new list. */
  method ListInLowerCase(inputRecord: seq<Json>) returns (result: seq<Json>)
    decreases inputRecord
    ensures result == LowerList(inputRecord)
  {
    result := [];
    var i := 0;
    while i < |inputRecord|
      invariant 0 <= i <= |inputRecord|
      invariant result == LowerList(inputRecord[..i])
    {
      var item := inputRecord[i];
      assert inputRecord[..i + 1][..i] == inputRecord[..i];
      match item {
        case JList(xs) =>
          var lowered := ListInLowerCase(xs);
          result := result + [JList(lowered)];
        case JObj(es) =>
          var lowered := KeysInLowerCase(es);
          result := result + [JObj(lowered)];
        case _ =>
          result := result + [item];
      }
      i := i + 1;
    }
    assert inputRecord[..i] == inputRecord;
  }

  /** `keys_in_lower_case`: assigns each entry, key lowered, into a new dict in input order. */
  method KeysInLowerCase(inputRecord: seq<Entry>) returns (dictResult: seq<Entry>)
    decreases inputRecord
    ensures dictResult == LowerKeys(inputRecord)
  {
    dictResult := [];
    var i := 0;
    while i < |inputRecord|
      invariant 0 <= i <= |inputRecord|
      invariant dictResult == LowerKeys(inputRecord[..i])
    {
      var key, value := inputRecord[i].key, inputRecord[i].value;
      assert inputRecord[..i + 1][..i] == inputRecord[..i];
      match value {
        case JList(xs) =>
          var lowered := ListInLowerCase(xs);
          dictResult := Assign(dictResult, LowerStr(key), JList(lowered));
        case JObj(es) =>
          var lowered := KeysInLowerCase(es);
          dictResult := Assign(dictResult, LowerStr(key), JObj(lowered));
        case _ =>
          dictResult := Assign(dictResult, LowerStr(key), value);
      }
      i := i + 1;
    }
    assert inputRecord[..i] == inputRecord;
  }

  // ---------------------------------------------------------------------
  // dict_without_non_values
  // ---------------------------------------------------------------------

  /** `dict_without_non_values`: a new dict holding the entries whose value is not None, in order. */
  function WithoutNones(d: seq<Entry>): (r: seq<Entry>)
    ensures forall i :: 0 <= i < |r| ==> r[i].value != JNull
    ensures KeysOf(r) <= KeysOf(d)
  {
    if d == [] then []
    else if d[0].value == JNull then WithoutNones(d[1..])
    else [d[0]] + WithoutNones(d[1..])
  }

  /** Each key of the input dict keeps its value unless that value is None, in which case it is gone. */
  lemma {:induction false} WithoutNonesGet(d: seq<Entry>, k: string)
    requires UniqueKeys(d)
    ensures Get(WithoutNones(d), k) ==
      (match Get(d, k) case Some(v) => if v == JNull then None else Some(v) case None => None)
  {
    if d != [] {
      WithoutNonesGet(d[1..], k);
      if d[0].key == k && d[0].value == JNull {
        assert k !in KeysOf(WithoutNones(d[1..]));
      }
    }
  }

  /** Removing the None values twice is the same as removing them once. */
  lemma {:induction false} WithoutNonesIdempotent(d: seq<Entry>)
    ensures WithoutNones(WithoutNones(d)) == WithoutNones(d)
  {
    if d != [] {
      WithoutNonesIdempotent(d[1..]);
      var r := WithoutNones(d);
      if d[0].value != JNull {
        assert r[1..] == WithoutNones(d[1..]);
      }
    }
  }
}
