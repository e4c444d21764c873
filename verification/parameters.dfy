/**
 * `g4fire::Parameters` (include/g4fire/Parameters.h): a `std::map` from
 * parameter name to a `std::any` value, with existence-checked `set`,
 * duplicate-checked `add` and type-checked `get`.
 *
 * `std::any` is modelled by `Value`, a tagged union of the value types the
 * configuration carries; `std::any_cast<T>` succeeds exactly when the stored
 * tag is `T`'s tag (no conversions, so an `int` is not a `double`).
 */
module Parameters {
  import opened Wrappers
  import opened Strings

  /** The C++ types a parameter can be read back as. */
  datatype Type =
    | IntType | DoubleType | BoolType | StringType
    | IntsType | DoublesType | StringsType | ParametersType | ParametersListType

  datatype Value =
    | IntValue(i: int)
    | DoubleValue(d: real)
    | BoolValue(b: bool)
    | StringValue(s: string)
    | IntsValue(ints: seq<int>)
    | DoublesValue(ds: seq<real>)
    | StringsValue(ss: seq<string>)
    | ParametersValue(p: Parameters)
    | ParametersListValue(ps: seq<Parameters>)

  datatype Parameters = Parameters(entries: map<string, Value>)

  function TypeOf(v: Value): Type {
    match v
    case IntValue(_) => IntType
    case DoubleValue(_) => DoubleType
    case BoolValue(_) => BoolType
    case StringValue(_) => StringType
    case IntsValue(_) => IntsType
    case DoublesValue(_) => DoublesType
    case StringsValue(_) => StringsType
    case ParametersValue(_) => ParametersType
    case ParametersListValue(_) => ParametersListType
  }

  const Empty: Parameters := Parameters(map[])

  /** `exists(name)`. */
  predicate Exists(p: Parameters, name: string) {
    name in p.entries
  }

  /** `set(map)`: replaces the whole mapping. */
  function SetAll(entries: map<string, Value>): (r: Parameters)
    ensures forall name :: Exists(r, name) <==> name in entries
  {
    Parameters(entries)
  }

  /** `set(name, value)`: only an existing parameter may be overwritten. */
  function Set(p: Parameters, name: string, v: Value): (r: Result<Parameters>)
    ensures r.Err? <==> !Exists(p, name)
    ensures r.Err? ==> r.error == "NonExistParam"
    ensures r.Ok? ==> r.value.entries.Keys == p.entries.Keys
    ensures r.Ok? ==> r.value.entries[name] == v
    ensures r.Ok? ==> forall k :: k in p.entries && k != name ==> r.value.entries[k] == p.entries[k]
  {
    if !Exists(p, name) then Err("NonExistParam")
    else Ok(Parameters(p.entries[name := v]))
  }

  /** `add(name, value)`: only a new parameter may be added. */
  function Add(p: Parameters, name: string, v: Value): (r: Result<Parameters>)
    ensures r.Err? <==> Exists(p, name)
    ensures r.Err? ==> r.error == "ParameterExist"
    ensures r.Ok? ==> r.value.entries.Keys == p.entries.Keys + {name}
    ensures r.Ok? ==> r.value.entries[name] == v
    ensures r.Ok? ==> forall k :: k in p.entries ==> r.value.entries[k] == p.entries[k]
  {
    if Exists(p, name) then Err("ParameterExist")
    else Ok(Parameters(p.entries[name := v]))
  }

  /** `get<T>(name)`: the stored value, if present and stored as exactly `T`. */
  function Get(p: Parameters, name: string, t: Type): (r: Result<Value>)
    ensures r.Ok? <==> Exists(p, name) && TypeOf(p.entries[name]) == t
    ensures r.Ok? ==> r.value == p.entries[name] && TypeOf(r.value) == t
    ensures !Exists(p, name) ==> r == Err("NonExistParam")
    ensures Exists(p, name) && TypeOf(p.entries[name]) != t ==> r == Err("BadTypeParam")
  {
    if !Exists(p, name) then Err("NonExistParam")
    else if TypeOf(p.entries[name]) != t then Err("BadTypeParam")
    else Ok(p.entries[name])
  }

  /** `get<T>(name, def)`: the default for an absent name, `get<T>` otherwise. */
  function GetOr(p: Parameters, name: string, t: Type, def: Value): (r: Result<Value>)
    requires TypeOf(def) == t
    ensures !Exists(p, name) ==> r == Ok(def)
    ensures Exists(p, name) ==> r == Get(p, name, t)
  {
    if !Exists(p, name) then Ok(def) else Get(p, name, t)
  }

  function GetString(p: Parameters, name: string): (r: Result<string>)
    ensures r.Ok? <==> Get(p, name, StringType).Ok?
    ensures r.Ok? ==> p.entries[name] == StringValue(r.value)
    ensures r.Err? ==> r.error == Get(p, name, StringType).error
  {
    var v :- Get(p, name, StringType);
    Ok(v.s)
  }

  function GetDouble(p: Parameters, name: string): (r: Result<real>)
    ensures r.Ok? <==> Get(p, name, DoubleType).Ok?
    ensures r.Ok? ==> p.entries[name] == DoubleValue(r.value)
    ensures r.Err? ==> r.error == Get(p, name, DoubleType).error
  {
    var v :- Get(p, name, DoubleType);
    Ok(v.d)
  }

  function GetInt(p: Parameters, name: string): (r: Result<int>)
    ensures r.Ok? <==> Get(p, name, IntType).Ok?
    ensures r.Ok? ==> p.entries[name] == IntValue(r.value)
    ensures r.Err? ==> r.error == Get(p, name, IntType).error
  {
    var v :- Get(p, name, IntType);
    Ok(v.i)
  }

  function GetBool(p: Parameters, name: string): (r: Result<bool>)
    ensures r.Ok? <==> Get(p, name, BoolType).Ok?
    ensures r.Ok? ==> p.entries[name] == BoolValue(r.value)
    ensures r.Err? ==> r.error == Get(p, name, BoolType).error
  {
    var v :- Get(p, name, BoolType);
    Ok(v.b)
  }

  function GetStrings(p: Parameters, name: string): (r: Result<seq<string>>)
    ensures r.Ok? <==> Get(p, name, StringsType).Ok?
    ensures r.Ok? ==> p.entries[name] == StringsValue(r.value)
    ensures r.Err? ==> r.error == Get(p, name, StringsType).error
  {
    var v :- Get(p, name, StringsType);
    Ok(v.ss)
  }

  function GetDoubles(p: Parameters, name: string): (r: Result<seq<real>>)
    ensures r.Ok? <==> Get(p, name, DoublesType).Ok?
    ensures r.Ok? ==> p.entries[name] == DoublesValue(r.value)
    ensures r.Err? ==> r.error == Get(p, name, DoublesType).error
  {
    var v :- Get(p, name, DoublesType);
    Ok(v.ds)
  }

  function GetParameters(p: Parameters, name: string): (r: Result<Parameters>)
    ensures r.Ok? <==> Get(p, name, ParametersType).Ok?
    ensures r.Ok? ==> p.entries[name] == ParametersValue(r.value)
    ensures r.Err? ==> r.error == Get(p, name, ParametersType).error
  {
    var v :- Get(p, name, ParametersType);
    Ok(v.p)
  }

  function GetParametersList(p: Parameters, name: string): (r: Result<seq<Parameters>>)
    ensures r.Ok? <==> Get(p, name, ParametersListType).Ok?
    ensures r.Ok? ==> p.entries[name] == ParametersListValue(r.value)
    ensures r.Err? ==> r.error == Get(p, name, ParametersListType).error
  {
    var v :- Get(p, name, ParametersListType);
    Ok(v.ps)
  }

  /**
   * The typed readers with a default: the default when the name is absent,
   * the typed reader otherwise.
   */
  function Defaulted<T>(p: Parameters, name: string, read: Result<T>, def: T): (r: Result<T>)
    ensures !Exists(p, name) ==> r == Ok(def)
    ensures Exists(p, name) ==> r == read
  {
    if Exists(p, name) then read else Ok(def)
  }

  /** Writing then reading a parameter gives back what was written. */
  lemma GetAfterSet(p: Parameters, name: string, v: Value, other: string, t: Type)
    requires Exists(p, name)
    ensures Set(p, name, v).Ok?
    ensures Get(Set(p, name, v).value, name, TypeOf(v)) == Ok(v)
    ensures other != name ==> Get(Set(p, name, v).value, other, t) == Get(p, other, t)
  {
  }

  /** Adding then reading a parameter gives back what was added; others are untouched. */
  lemma GetAfterAdd(p: Parameters, name: string, v: Value, other: string, t: Type)
    requires !Exists(p, name)
    ensures Add(p, name, v).Ok?
    ensures Get(Add(p, name, v).value, name, TypeOf(v)) == Ok(v)
    ensures other != name ==> Get(Add(p, name, v).value, other, t) == Get(p, other, t)
  {
  }

  /** `set` and `add` succeed on complementary sets of names. */
  lemma SetAddComplementary(p: Parameters, name: string, v: Value)
    ensures Set(p, name, v).Ok? != Add(p, name, v).Ok?
    ensures Set(p, name, v).Ok? ==> Set(p, name, v) == Ok(Parameters(p.entries[name := v]))
    ensures Add(p, name, v).Ok? ==> Add(p, name, v) == Ok(Parameters(p.entries[name := v]))
  {
  }

  predicate StrictlySorted(ks: seq<string>) {
    forall i, j :: 0 <= i < j < |ks| ==> LexLess(ks[i], ks[j])
  }

  /** `keys()`: every name once, in the map's (lexicographic) order. */
  method Keys(p: Parameters) returns (ks: seq<string>)
    ensures StrictlySorted(ks)
    ensures forall k :: k in ks <==> Exists(p, k)
  {
    var rest := p.entries.Keys;
    ks := [];
    while rest != {}
      invariant StrictlySorted(ks)
      invariant forall k :: k in ks || k in rest <==> Exists(p, k)
      invariant forall i, k :: 0 <= i < |ks| && k in rest ==> LexLess(ks[i], k)
      decreases |rest|
    {
      ghost var least := Least(rest);
      var m :| IsLeast(m, rest);
      assert IsLeast(m, rest);
      assert m in rest;
      forall i, k | 0 <= i < |ks| + 1 && k in rest - {m}
        ensures LexLess((ks + [m])[i], k)
      {
        if i == |ks| {
          assert (ks + [m])[i] == m;
        } else {
          assert (ks + [m])[i] == ks[i];
        }
      }
      ks := ks + [m];
      rest := rest - {m};
    }
  }

  /** A strictly sorted listing holds every name only once. */
  lemma StrictlySortedDistinct(ks: seq<string>, i: int, j: int)
    requires StrictlySorted(ks)
    requires 0 <= i < |ks| && 0 <= j < |ks| && i != j
    ensures ks[i] != ks[j]
  {
    if i < j {
      if ks[i] == ks[j] { LexLessIrreflexive(ks[i]); }
    } else {
      if ks[i] == ks[j] { LexLessIrreflexive(ks[i]); }
    }
  }

  lemma HeadIsMember(s: seq<string>)
    requires |s| > 0
    ensures s[0] in s
  {
  }

  /** The map order fixes the listing: two sorted listings of one key set are equal. */
  lemma {:induction false} StrictlySortedUnique(a: seq<string>, b: seq<string>)
    requires StrictlySorted(a) && StrictlySorted(b)
    requires forall k :: k in a <==> k in b
    ensures a == b
    decreases |a| + |b|
  {
    if |a| > 0 && |b| > 0 {
      if a[0] != b[0] {
        assert a[0] in b && b[0] in a;
        var i :| 0 <= i < |b| && b[i] == a[0];
        var j :| 0 <= j < |a| && a[j] == b[0];
        assert i > 0 && j > 0;
        assert LexLess(b[0], a[0]) && LexLess(a[0], b[0]);
        LexLessAsymmetric(a[0], b[0]);
      }
      forall k
        ensures k in a[1..] <==> k in b[1..]
      {
        if k in a[1..] {
          var i :| 1 <= i < |a| && a[i] == k;
          assert LexLess(a[0], k);
          LexLessIrreflexive(k);
          assert k in b && k != b[0];
        }
        if k in b[1..] {
          var i :| 1 <= i < |b| && b[i] == k;
          assert LexLess(b[0], k);
          LexLessIrreflexive(k);
          assert k in a && k != a[0];
        }
      }
      StrictlySortedUnique(a[1..], b[1..]);
      assert a == [a[0]] + a[1..] && b == [b[0]] + b[1..];
    } else if |a| > 0 {
      HeadIsMember(a);
      assert false;
    } else if |b| > 0 {
      HeadIsMember(b);
      assert false;
    }
  }
}
