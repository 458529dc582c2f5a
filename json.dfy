/**
 * JSON-like values as the record convertor sees them: scalars, lists and
 * dicts. A dict is an association list of entries in insertion order, the
 * way a Python dict iterates over `items()`.
 */
module JsonValues {
  import opened Wrappers

  datatype Json =
    | JNull                      // None
    | JBool(b: bool)
    | JNum(n: int)
    | JStr(s: string)
    | JList(items: seq<Json>)
    | JObj(entries: seq<Entry>)

  datatype Entry = Entry(key: string, value: Json)

  /** The keys of a dict. */
  function KeysOf(d: seq<Entry>): set<string>
  {
    if d == [] then {} else {d[0].key} + KeysOf(d[1..])
  }

  /** No key occurs twice: every Python dict has this shape. */
  predicate UniqueKeys(d: seq<Entry>)
  {
    d == [] || (d[0].key !in KeysOf(d[1..]) && UniqueKeys(d[1..]))
  }

  /** A key is in the dict exactly when some entry carries it. */
  lemma {:induction false} KeysOfIndex(d: seq<Entry>, k: string)
    ensures k in KeysOf(d) <==> exists i :: 0 <= i < |d| && d[i].key == k
  {
    if d != [] {
      KeysOfIndex(d[1..], k);
      if exists i :: 0 <= i < |d[1..]| && d[1..][i].key == k {
        var i :| 0 <= i < |d[1..]| && d[1..][i].key == k;
        assert d[i + 1].key == k;
      }
      if exists i :: 0 <= i < |d| && d[i].key == k {
        var i :| 0 <= i < |d| && d[i].key == k;
        if i > 0 { assert d[1..][i - 1].key == k; }
      }
    }
  }

  /** The position of the first entry carrying `k`. */
  function FirstIndex(d: seq<Entry>, k: string): (r: nat)
    requires k in KeysOf(d)
    ensures r < |d| && d[r].key == k
    ensures forall j :: 0 <= j < r ==> d[j].key != k
  {
    if d[0].key == k then 0
    else
      var r := FirstIndex(d[1..], k);
      assert forall j :: 0 < j <= r ==> d[j] == d[1..][j - 1];
      r + 1
  }

  /** `d.get(k)`: the value of the first entry carrying `k`, if any. */
  function Get(d: seq<Entry>, k: string): (r: Option<Json>)
    ensures r.None? <==> k !in KeysOf(d)
    ensures r.Some? ==> k in KeysOf(d) && r.value == d[FirstIndex(d, k)].value
  {
    if d == [] then None
    else if d[0].key == k then Some(d[0].value)
    else Get(d[1..], k)
  }

  /** `d.get(k)` with Python's default `None`. */
  function GetOrNull(d: seq<Entry>, k: string): Json
  {
    match Get(d, k)
    case Some(v) => v
    case None => JNull
  }

  /**
   * The item assignment `d[k] = v`: an existing key keeps its position and
   * takes the new value; a new key is appended.
   */
  function Assign(d: seq<Entry>, k: string, v: Json): seq<Entry>
  {
    if d == [] then [Entry(k, v)]
    else if d[0].key == k then [Entry(k, v)] + d[1..]
    else [d[0]] + Assign(d[1..], k, v)
  }

  /** After `d[k] = v` the keys are the old keys and `k`. */
  lemma {:induction false} AssignKeys(d: seq<Entry>, k: string, v: Json)
    ensures KeysOf(Assign(d, k, v)) == KeysOf(d) + {k}
  {
    if d != [] && d[0].key != k {
      AssignKeys(d[1..], k, v);
    } else if d != [] {
      assert Assign(d, k, v)[1..] == d[1..];
    }
  }

  /** What `d[k] = v` promises: `k` now maps to `v`, every other key is untouched. */
  lemma {:induction false} AssignGet(d: seq<Entry>, k: string, v: Json)
    ensures KeysOf(Assign(d, k, v)) == KeysOf(d) + {k}
    ensures Get(Assign(d, k, v), k) == Some(v)
    ensures forall k' :: k' != k ==> Get(Assign(d, k, v), k') == Get(d, k')
  {
    var r := Assign(d, k, v);
    if d == [] {
    } else if d[0].key == k {
      assert r[1..] == d[1..];
    } else {
      AssignGet(d[1..], k, v);
      assert r[1..] == Assign(d[1..], k, v);
    }
  }

  /** Assignment keeps a dict a dict. */
  lemma {:induction false} AssignUnique(d: seq<Entry>, k: string, v: Json)
    requires UniqueKeys(d)
    ensures UniqueKeys(Assign(d, k, v))
  {
    var r := Assign(d, k, v);
    if d == [] {
    } else if d[0].key == k {
      assert r[1..] == d[1..];
    } else {
      AssignUnique(d[1..], k, v);
      AssignKeys(d[1..], k, v);
      assert r[1..] == Assign(d[1..], k, v);
    }
  }

  /**
   * A new key is appended at the end; an existing key is overwritten in
   * place, at the position of its first occurrence, and nothing else changes.
   */
  lemma {:induction false} AssignOrder(d: seq<Entry>, k: string, v: Json)
    ensures k !in KeysOf(d) ==> Assign(d, k, v) == d + [Entry(k, v)]
    ensures k in KeysOf(d) ==> Assign(d, k, v) == d[FirstIndex(d, k) := Entry(k, v)]
  {
    if d == [] {
    } else if d[0].key == k {
      assert Assign(d, k, v) == d[0 := Entry(k, v)];
    } else {
      AssignOrder(d[1..], k, v);
      assert d == [d[0]] + d[1..];
      if k !in KeysOf(d) {
        assert [d[0]] + (d[1..] + [Entry(k, v)]) == d + [Entry(k, v)];
      } else {
        assert FirstIndex(d, k) == FirstIndex(d[1..], k) + 1;
        assert [d[0]] + d[1..][FirstIndex(d[1..], k) := Entry(k, v)] == d[FirstIndex(d, k) := Entry(k, v)];
      }
    }
  }

  /** The recursive definition of `UniqueKeys` says what its name says. */
  lemma {:induction false} UniqueKeysIndex(d: seq<Entry>)
    ensures UniqueKeys(d) <==> forall i, j :: 0 <= i < j < |d| ==> d[i].key != d[j].key
  {
    if d != [] {
      UniqueKeysIndex(d[1..]);
      KeysOfIndex(d[1..], d[0].key);
      if UniqueKeys(d) {
        forall i, j | 0 <= i < j < |d| ensures d[i].key != d[j].key {
          if i == 0 {
            assert d[1..][j - 1] == d[j];
          } else {
            assert d[1..][i - 1] == d[i] && d[1..][j - 1] == d[j];
          }
        }
      }
      if forall i, j :: 0 <= i < j < |d| ==> d[i].key != d[j].key {
        forall i, j | 0 <= i < j < |d[1..]| ensures d[1..][i].key != d[1..][j].key {
          assert d[1..][i] == d[i + 1] && d[1..][j] == d[j + 1];
        }
      }
    }
  }

  /** Every entry after `d[k] = v` is an entry of `d` or the new one. */
  lemma {:induction false} AssignEntries(d: seq<Entry>, k: string, v: Json)
    ensures forall e :: e in Assign(d, k, v) ==> e in d || e == Entry(k, v)
  {
    if d != [] && d[0].key != k {
      AssignEntries(d[1..], k, v);
      assert forall e :: e in d[1..] ==> e in d;
    } else if d != [] {
      assert forall e :: e in d[1..] ==> e in d;
    }
  }
}
