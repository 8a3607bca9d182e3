/** Loaded YAML/JSON documents (Python dicts, lists and scalars) and the
    in-place updates `d[k1][k2]...[kn] = x` that the source applies to them.
    A dict is an association list in insertion order, as in Python. */
module Yaml {
  import opened Common

  datatype Value =
    | Null
    | Bool(b: bool)
    | Int(i: int)
    | Str(s: string)
    | List(items: seq<Value>)
    | Dict(entries: seq<(string, Value)>)

  /** `key in d` and `d[key]`: the value stored under the first entry with that key. */
  function Lookup(entries: seq<(string, Value)>, key: string): Option<Value> {
    if |entries| == 0 then None
    else if entries[0].0 == key then Some(entries[0].1)
    else Lookup(entries[1..], key)
  }

  /** `d[key] = v`: overwrite the entry in place, or append a new one. */
  function Store(entries: seq<(string, Value)>, key: string, v: Value): seq<(string, Value)> {
    if |entries| == 0 then [(key, v)]
    else if entries[0].0 == key then [(key, v)] + entries[1..]
    else [entries[0]] + Store(entries[1..], key, v)
  }

  /** After a store, the key reads back the stored value and every other key
      reads what it read before. */
  lemma {:induction false} LookupStore(entries: seq<(string, Value)>, key: string, v: Value, other: string)
    ensures Lookup(Store(entries, key, v), key) == Some(v)
    ensures other != key ==> Lookup(Store(entries, key, v), other) == Lookup(entries, other)
  {
    if |entries| > 0 && entries[0].0 != key {
      LookupStore(entries[1..], key, v, other);
    }
  }

  /** One subscript of a path: a dict key or a list index. */
  datatype Step = Key(key: string) | At(index: nat)

  type Path = seq<Step>

  /** The value at `path`, if every subscript exists. */
  function Get(v: Value, path: Path): Option<Value>
    decreases |path|
  {
    if |path| == 0 then Some(v)
    else match Child(v, path[0])
      case None => None
      case Some(c) => Get(c, path[1..])
  }

  function Child(v: Value, s: Step): Option<Value> {
    match (v, s)
    case (Dict(e), Key(k)) => Lookup(e, k)
    case (List(items), At(i)) => if i < |items| then Some(items[i]) else None
    case _ => None
  }

  /** Replace or add the child at one subscript; a new key may be added to a
      dict, but a list index must already exist. */
  function SetChild(v: Value, s: Step, x: Value): Option<Value> {
    match (v, s)
    case (Dict(e), Key(k)) => Some(Dict(Store(e, k, x)))
    case (List(items), At(i)) => if i < |items| then Some(List(items[i := x])) else None
    case _ => None
  }

  /** `v[p1]...[pn] = x`: every subscript but the last must exist; `None`
      stands for the KeyError, IndexError or TypeError Python raises. */
  function Set(v: Value, path: Path, x: Value): Option<Value>
    requires |path| > 0
    decreases |path|
  {
    if |path| == 1 then SetChild(v, path[0], x)
    else match Child(v, path[0])
      case None => None
      case Some(c) =>
        match Set(c, path[1..], x)
        case None => None
        case Some(c') => SetChild(v, path[0], c')
  }

  /** Two paths that differ at some position, so neither lies inside the other. */
  predicate Diverge(p: Path, q: Path) {
    |p| > 0 && |q| > 0 && (p[0] != q[0] || Diverge(p[1..], q[1..]))
  }

  lemma {:induction false} ChildSetChild(v: Value, s: Step, x: Value, t: Step)
    requires SetChild(v, s, x).Some?
    ensures Child(SetChild(v, s, x).value, s) == Some(x)
    ensures t != s ==> Child(SetChild(v, s, x).value, t) == Child(v, t)
  {
    match (v, s)
    case (Dict(e), Key(k)) =>
      if t.Key? { LookupStore(e, k, x, t.key); } else { LookupStore(e, k, x, k); }
    case (List(items), At(i)) =>
  }

  /** A successful update reads back the stored value at its own path, and
      leaves every diverging path as it was. */
  lemma {:induction false} GetSet(v: Value, p: Path, x: Value, q: Path)
    requires |p| > 0 && Set(v, p, x).Some?
    ensures Get(Set(v, p, x).value, p) == Some(x)
    ensures Diverge(p, q) ==> Get(Set(v, p, x).value, q) == Get(v, q)
    decreases |p|
  {
    var w := Set(v, p, x).value;
    if |p| == 1 {
      ChildSetChild(v, p[0], x, p[0]);
      assert Get(w, p) == Get(x, p[1..]);
      if Diverge(p, q) {
        assert !Diverge(p[1..], q[1..]);
        assert p[0] != q[0];
        ChildSetChild(v, p[0], x, q[0]);
      }
    } else {
      var c := Child(v, p[0]).value;
      var c' := Set(c, p[1..], x).value;
      ChildSetChild(v, p[0], c', p[0]);
      GetSet(c, p[1..], x, if |q| > 0 then q[1..] else q);
      if Diverge(p, q) {
        ChildSetChild(v, p[0], c', q[0]);
      }
    }
  }

  /** When an update succeeds: the parent of the target exists and accepts
      the last subscript. */
  lemma {:induction false} SetDefined(v: Value, p: Path, x: Value)
    requires |p| > 0
    ensures Set(v, p, x).Some? <==>
      Get(v, p[..|p| - 1]).Some? && SetChild(Get(v, p[..|p| - 1]).value, p[|p| - 1], x).Some?
    decreases |p|
  {
    if |p| > 1 {
      if Child(v, p[0]).Some? {
        var c := Child(v, p[0]).value;
        SetDefined(c, p[1..], x);
        assert p[1..][..|p| - 2] == p[..|p| - 1][1..];
        if Set(c, p[1..], x).Some? {
          var c' := Set(c, p[1..], x).value;
          assert SetChild(v, p[0], c').Some? by {
            match (v, p[0])
            case (Dict(e), Key(k)) =>
            case (List(items), At(i)) =>
          }
        }
      }
    }
  }

  /** After an assignment under a key, the parent is still a dict. */
  lemma {:induction false} SetKeepsParentDict(v: Value, p: Path, x: Value)
    requires |p| > 0 && p[|p| - 1].Key? && Set(v, p, x).Some?
    ensures IsDictAt(Set(v, p, x).value, p[..|p| - 1])
    decreases |p|
  {
    var w := Set(v, p, x).value;
    if |p| == 1 {
      assert p[..0] == [];
    } else {
      var c := Child(v, p[0]).value;
      var c' := Set(c, p[1..], x).value;
      SetKeepsParentDict(c, p[1..], x);
      ChildSetChild(v, p[0], c', p[0]);
      var parent := p[..|p| - 1];
      assert parent[0] == p[0] && parent[1..] == p[1..][..|p| - 2];
      assert Get(w, parent) == Get(c', parent[1..]);
    }
  }

  /** The value at `p` exists and is a dict. */
  predicate IsDictAt(v: Value, p: Path) {
    Get(v, p).Some? && Get(v, p).value.Dict?
  }

  /** Assigning under a key succeeds exactly when the parent is a dict. */
  lemma SetKeyDefined(v: Value, p: Path, x: Value)
    requires |p| > 0 && p[|p| - 1].Key?
    ensures Set(v, p, x).Some? <==> IsDictAt(v, p[..|p| - 1])
  {
    SetDefined(v, p, x);
  }
}
