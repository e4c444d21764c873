/**
 * The Python configuration base class `Parameters`
 * (python/g4fire/cfg/_parameters.py): attributes are fixed at construction,
 * and a later assignment must name an existing attribute and pass an
 * `isinstance` check against the type of the attribute's current value
 * (any value replaces `None`).
 *
 * Python values are modelled by `PyValue`; a class is identified by its
 * name, and `isinstance(v, C)` holds when `C` is on `v`'s method resolution
 * order, which is how `bool` passes for `int`.
 */
module PyParameters {
  import opened Wrappers

  datatype PyValue =
    | PyNone
    | PyBool(b: bool)
    | PyInt(i: int)
    | PyFloat(f: real)
    | PyStr(s: string)
    | PyList(items: seq<PyValue>)
      /** An instance of a user class; `bases` is its MRO before `object`. */
    | PyObject(bases: seq<string>)

  /** `type(v).__mro__`, as class names. */
  function Mro(v: PyValue): (r: seq<string>)
    ensures |r| > 0 && r[|r| - 1] == "object"
  {
    match v
    case PyNone => ["NoneType", "object"]
    case PyBool(_) => ["bool", "int", "object"]
    case PyInt(_) => ["int", "object"]
    case PyFloat(_) => ["float", "object"]
    case PyStr(_) => ["str", "object"]
    case PyList(_) => ["list", "object"]
    case PyObject(bases) => bases + ["object"]
  }

  /** `isinstance(v, type(cur))`. */
  predicate IsInstanceOfTypeOf(v: PyValue, cur: PyValue) {
    Mro(cur)[0] in Mro(v)
  }

  /** A `Parameters` object: its `__dict__`. */
  datatype Instance = Instance(attrs: map<string, PyValue>)

  /** `__init__(class_name, **kwargs)`. */
  function Init(className: PyValue, kwargs: map<string, PyValue>): (r: Instance)
    ensures r.attrs.Keys == kwargs.Keys + {"class_name"}
    ensures r.attrs["class_name"] == className
    ensures forall k :: k in kwargs && k != "class_name" ==> r.attrs[k] == kwargs[k]
  {
    Instance(kwargs["class_name" := className])
  }

  /** `__setattr__(name, value)`. */
  function SetAttr(p: Instance, name: string, value: PyValue): (r: Result<Instance>)
    ensures r.Ok? <==> name in p.attrs && (p.attrs[name] == PyNone || IsInstanceOfTypeOf(value, p.attrs[name]))
    ensures r.Err? ==> r.error == "AttributeError"
    ensures r.Ok? ==> r.value.attrs.Keys == p.attrs.Keys && r.value.attrs[name] == value
    ensures r.Ok? ==> forall k :: k in p.attrs && k != name ==> r.value.attrs[k] == p.attrs[k]
  {
    if name !in p.attrs then Err("AttributeError")
    else if p.attrs[name] == PyNone || IsInstanceOfTypeOf(value, p.attrs[name]) then
      Ok(Instance(p.attrs[name := value]))
    else Err("AttributeError")
  }

  /** A value of the attribute's own type is always accepted. */
  lemma SameTypeAccepted(p: Instance, name: string, value: PyValue)
    requires name in p.attrs
    requires Mro(value) == Mro(p.attrs[name])
    ensures SetAttr(p, name, value).Ok?
  {
  }

  /** A string `class_name` can be reassigned only to a `str` instance. */
  lemma ClassNameStaysString(className: string, kwargs: map<string, PyValue>, v: PyValue)
    ensures SetAttr(Init(PyStr(className), kwargs), "class_name", v).Ok? <==> "str" in Mro(v)
    ensures !v.PyObject? ==> (SetAttr(Init(PyStr(className), kwargs), "class_name", v).Ok? <==> v.PyStr?)
  {
  }

  /** The set of attribute names never changes after construction. */
  lemma {:induction false} NamesFixed(p: Instance, sets: seq<(string, PyValue)>)
    ensures Apply(p, sets).Ok? ==> Apply(p, sets).value.attrs.Keys == p.attrs.Keys
    decreases |sets|
  {
    if |sets| > 0 {
      var q := SetAttr(p, sets[0].0, sets[0].1);
      if q.Ok? {
        NamesFixed(q.value, sets[1..]);
      }
    }
  }

  /** A run of assignments, stopping at the first that raises. */
  function Apply(p: Instance, sets: seq<(string, PyValue)>): Result<Instance>
    decreases |sets|
  {
    if |sets| == 0 then Ok(p)
    else
      var q :- SetAttr(p, sets[0].0, sets[0].1);
      Apply(q, sets[1..])
  }

  /**
   * The check is against the CURRENT value's type: an `int` attribute accepts
   * a `bool` (a subclass), after which it rejects a plain `int`.
   */
  lemma CheckFollowsCurrentType()
    ensures var p := Init(PyStr("Gun"), map["n" := PyInt(1)]);
      && SetAttr(p, "n", PyBool(true)).Ok?
      && SetAttr(SetAttr(p, "n", PyBool(true)).value, "n", PyInt(2)).Err?
      && SetAttr(p, "n", PyFloat(2.0)).Err?
      && SetAttr(p, "m", PyInt(2)).Err?
  {
  }
}
