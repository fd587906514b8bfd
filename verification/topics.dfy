/**
 * Topics: the stable string that names an aggregate class
 * (`<module>#<qualified name>`) and its resolution back to the class.
 *
 * Python's import machinery and `getattr` are replaced by an explicit
 * registry: a table of loaded modules and a table of attributes.
 */
module Topics {
  import opened Results

  /** A class as `get_topic` sees it: its `__module__` and `__qualname__`. */
  datatype TypeRef = TypeRef(moduleName: string, qualname: string)

  /** The objects a topic can resolve to. */
  datatype PyObject = ModuleObject(name: string) | ClassObject(cls: TypeRef)

  /** Why a topic could not be resolved. */
  datatype ResolveError =
    | ModuleNotFound(moduleName: string)    // importlib.import_module fails
    | AttributeNotFound(attribute: string)  // getattr fails

  /**
   * The loaded program: `modules` plays `importlib.import_module`,
   * `attributes` plays `getattr(obj, name)`.
   */
  datatype Registry = Registry(
    modules: map<string, PyObject>,
    attributes: map<(PyObject, string), PyObject>)

  /**
   * Python's `s.partition(sep)` for a one-character separator: split at the
   * FIRST occurrence, or return `(s, "", "")` when there is none.
   */
  function Partition(s: string, sep: char): (r: (string, string, string))
    ensures sep in s ==> r.0 + [sep] + r.2 == s && r.1 == [sep] && sep !in r.0
    ensures sep !in s ==> r == (s, "", "")
    ensures s != "" ==> |r.2| < |s|
  {
    if s == [] then ("", "", "")
    else if s[0] == sep then ("", [sep], s[1..])
    else
      var rest := Partition(s[1..], sep);
      assert s == [s[0]] + s[1..];
      ([s[0]] + rest.0, rest.1, rest.2)
  }

  /** `get_topic(cls)`: the module name, a `#`, then the qualified name. */
  function GetTopic(cls: TypeRef): (r: string)
    ensures |r| == |cls.moduleName| + 1 + |cls.qualname|
    ensures r[|cls.moduleName|] == '#'
  {
    cls.moduleName + "#" + cls.qualname
  }

  /** `importlib.import_module(name)` against the registry. */
  function ImportModule(reg: Registry, name: string): (r: Result<PyObject, ResolveError>)
    ensures r.Ok? <==> name in reg.modules
    ensures r.Ok? ==> r.value == reg.modules[name]
    ensures r.Err? ==> r.error == ModuleNotFound(name)
  {
    if name in reg.modules then Ok(reg.modules[name]) else Err(ModuleNotFound(name))
  }

  /**
   * `resolve_attr(obj, path)`: the empty path yields `obj`; otherwise the
   * first dotted segment is looked up and the rest resolved from there.
   */
  function ResolveAttr(reg: Registry, obj: PyObject, path: string): (r: Result<PyObject, ResolveError>)
    ensures path == "" ==> r == Ok(obj)
    ensures path != "" && (obj, Partition(path, '.').0) !in reg.attributes ==>
              r == Err(AttributeNotFound(Partition(path, '.').0))
    decreases |path|
  {
    if path == "" then Ok(obj)
    else
      var (head, _, tail) := Partition(path, '.');
      if (obj, head) in reg.attributes then ResolveAttr(reg, reg.attributes[(obj, head)], tail)
      else Err(AttributeNotFound(head))
  }

  /**
   * `resolve_topic(topic)`: split at the first `#`, import the module
   * named by the left part, resolve the right part inside it. A topic with
   * no `#` names the module itself.
   */
  function ResolveTopic(reg: Registry, topic: string): (r: Result<PyObject, ResolveError>)
    ensures '#' !in topic ==> r == ImportModule(reg, topic)
    ensures Partition(topic, '#').0 !in reg.modules ==> r == Err(ModuleNotFound(Partition(topic, '#').0))
  {
    var (moduleName, _, className) := Partition(topic, '#');
    match ImportModule(reg, moduleName)
    case Err(e) => Err(e)
    case Ok(m) => ResolveAttr(reg, m, className)
  }

  /** `cls` is reachable: its module is loaded and its qualified name resolves to it. */
  ghost predicate Registered(reg: Registry, cls: TypeRef) {
    && cls.moduleName in reg.modules
    && ResolveAttr(reg, reg.modules[cls.moduleName], cls.qualname) == Ok(ClassObject(cls))
  }

  /** Partition splits at the first separator, whatever follows it. */
  lemma {:induction false} PartitionAt(a: string, sep: char, b: string)
    requires sep !in a
    ensures Partition(a + [sep] + b, sep) == (a, [sep], b)
  {
    if a != [] {
      var s := a + [sep] + b;
      assert s[0] == a[0] && s[1..] == a[1..] + [sep] + b;
      PartitionAt(a[1..], sep, b);
      assert a == [a[0]] + a[1..];
    } else {
      assert a + [sep] + b == [sep] + b;
    }
  }

  /** `resolve_topic` splits a topic back into the module and the qualified name. */
  lemma TopicSplit(cls: TypeRef)
    requires '#' !in cls.moduleName
    ensures Partition(GetTopic(cls), '#') == (cls.moduleName, "#", cls.qualname)
  {
    PartitionAt(cls.moduleName, '#', cls.qualname);
  }

  /** Round trip: the topic of a registered class resolves to that class. */
  lemma TopicRoundTrip(reg: Registry, cls: TypeRef)
    requires Registered(reg, cls)
    requires '#' !in cls.moduleName
    ensures ResolveTopic(reg, GetTopic(cls)) == Ok(ClassObject(cls))
  {
    TopicSplit(cls);
  }

  /** Distinct classes (with `#`-free module names) have distinct topics. */
  lemma TopicInjective(c1: TypeRef, c2: TypeRef)
    requires '#' !in c1.moduleName && '#' !in c2.moduleName
    requires GetTopic(c1) == GetTopic(c2)
    ensures c1 == c2
  {
    TopicSplit(c1);
    TopicSplit(c2);
  }

  /** Dotted path made of the given segments: `a.b.c`. */
  function JoinDotted(segments: seq<string>): (r: string) {
    if segments == [] then ""
    else if |segments| == 1 then segments[0]
    else segments[0] + "." + JoinDotted(segments[1..])
  }

  /** Chained `getattr`, one segment per step. */
  function Walk(reg: Registry, obj: PyObject, segments: seq<string>): (r: Result<PyObject, ResolveError>)
    decreases |segments|
  {
    if segments == [] then Ok(obj)
    else if (obj, segments[0]) in reg.attributes then Walk(reg, reg.attributes[(obj, segments[0])], segments[1..])
    else Err(AttributeNotFound(segments[0]))
  }

  /** `resolve_attr` consumes exactly one non-empty, dot-free segment per step. */
  lemma {:induction false} ResolveAttrWalk(reg: Registry, obj: PyObject, segments: seq<string>)
    requires forall i :: 0 <= i < |segments| ==> segments[i] != "" && '.' !in segments[i]
    ensures ResolveAttr(reg, obj, JoinDotted(segments)) == Walk(reg, obj, segments)
    decreases |segments|
  {
    if segments == [] {
    } else if |segments| == 1 {
      assert Partition(segments[0], '.') == (segments[0], "", "");
    } else {
      var rest := JoinDotted(segments[1..]);
      PartitionAt(segments[0], '.', rest);
      assert JoinDotted(segments) == segments[0] + ['.'] + rest;
      if (obj, segments[0]) in reg.attributes {
        ResolveAttrWalk(reg, reg.attributes[(obj, segments[0])], segments[1..]);
      }
    }
  }
}
