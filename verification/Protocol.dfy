/** Message types, and the checks of a response or event against the types a request class
    declares (`protocol.py`, with `_flatten_event_types` of `client.py`). */
module Protocol {
  import opened Prelude

  type Id = string

  /** A class, as far as `isinstance` sees it: a name and the classes it inherits from. */
  datatype Class = Class(name: string, bases: seq<Class>)

  predicate IsSubclass(c: Class, d: Class) {
    c == d || exists i :: 0 <= i < |c.bases| && IsSubclass(c.bases[i], d)
  }

  /** A declared response or event type. `Foreign` is any type expression that is neither a
      class nor a union, such as a subscripted generic. */
  datatype Type = Never | Single(class_: Class) | Union(args: seq<Type>) | Foreign

  function Flatten(t: Type): seq<Class> {
    match t
    case Never => []
    case Foreign => []
    case Single(c) => [c]
    case Union(args) => FlattenAll(args)
  }

  function FlattenAll(args: seq<Type>): seq<Class> {
    if args == [] then [] else Flatten(args[0]) + FlattenAll(args[1..])
  }

  /** `isinstance(x, t)` for an `x` of class `c`; `None` when the check itself raises. Unions
      are tried from left to right. */
  function IsInstance(c: Class, t: Type): Option<bool> {
    match t
    case Never => None
    case Foreign => None
    case Single(d) => Some(IsSubclass(c, d))
    case Union(args) => IsInstanceOfAny(c, args)
  }

  function IsInstanceOfAny(c: Class, args: seq<Type>): Option<bool> {
    if args == [] then Some(false)
    else
      var first := IsInstance(c, args[0]);
      if first == Some(false) then IsInstanceOfAny(c, args[1..]) else first
  }

  datatype Declared = Declared(response: Type, event: Type)

  /** `declared` is `None` for a request class that does not name its type parameters. */
  datatype RequestClass = RequestClass(name: string, declared: Option<Declared>)

  datatype Request = Request(id: Id, class_: RequestClass)

  predicate ValidResponse(request: Request, c: Class) {
    request.class_.declared.Some? && IsInstance(c, request.class_.declared.value.response) == Some(true)
  }

  predicate ValidEvent(request: Request, c: Class) {
    request.class_.declared.Some? && IsInstance(c, request.class_.declared.value.event) == Some(true)
  }

  function EventClasses(request: Request): seq<Class> {
    if request.class_.declared.None? then [] else Flatten(request.class_.declared.value.event)
  }

  // ------------------------------------------------------------------ what the checks mean

  /** `path` leads from a class upwards, base by base. */
  ghost predicate Lineage(path: seq<Class>) {
    path != [] && forall i :: 0 <= i < |path| - 1 ==> path[i + 1] in path[i].bases
  }

  ghost predicate HasLineage(c: Class, d: Class) {
    exists path :: Lineage(path) && path[0] == c && path[|path| - 1] == d
  }

  lemma LongerLineage(c: Class, path: seq<Class>)
    requires Lineage(path) && path[0] in c.bases
    ensures Lineage([c] + path)
  {
    var longer := [c] + path;
    forall i | 0 <= i < |longer| - 1 ensures longer[i + 1] in longer[i].bases {
      if i > 0 {
        assert path[i] in path[i - 1].bases;
      }
    }
  }

  lemma {:induction false} SubclassHasLineage(c: Class, d: Class) returns (path: seq<Class>)
    requires IsSubclass(c, d)
    ensures Lineage(path) && path[0] == c && path[|path| - 1] == d
    decreases c
  {
    if c == d {
      return [c];
    }
    var i :| 0 <= i < |c.bases| && IsSubclass(c.bases[i], d);
    path := SubclassHasLineage(c.bases[i], d);
    LongerLineage(c, path);
    path := [c] + path;
  }

  lemma {:induction false} LineageMakesSubclass(path: seq<Class>)
    requires Lineage(path)
    ensures IsSubclass(path[0], path[|path| - 1])
    decreases |path|
  {
    if |path| > 1 {
      var i :| 0 <= i < |path[0].bases| && path[0].bases[i] == path[1];
      forall j | 0 <= j < |path[1..]| - 1 ensures path[1..][j + 1] in path[1..][j].bases {
        assert path[j + 2] in path[j + 1].bases;
      }
      LineageMakesSubclass(path[1..]);
    }
  }

  lemma SubclassIffLineage(c: Class, d: Class)
    ensures IsSubclass(c, d) <==> HasLineage(c, d)
  {
    if IsSubclass(c, d) {
      var path := SubclassHasLineage(c, d);
    }
    if path :| Lineage(path) && path[0] == c && path[|path| - 1] == d {
      LineageMakesSubclass(path);
    }
  }

  /** The classes a type names, at whatever depth of its unions. */
  predicate Leaf(t: Type, d: Class) {
    match t
    case Single(c) => c == d
    case Union(args) => exists i :: 0 <= i < |args| && Leaf(args[i], d)
    case _ => false
  }

  predicate Plain(t: Type) {
    match t
    case Single(_) => true
    case Union(args) => forall i :: 0 <= i < |args| ==> Plain(args[i])
    case _ => false
  }

  /** A union is decided by its first member that is not a plain no: accepted if that one
      accepts, an exception if the check of that one raises. */
  lemma {:induction false} UnionTakesFirst(c: Class, args: seq<Type>)
    ensures IsInstance(c, Union(args)) == Some(false) <==> forall i :: 0 <= i < |args| ==> IsInstance(c, args[i]) == Some(false)
    ensures IsInstance(c, Union(args)) != Some(false) <==>
              exists i :: 0 <= i < |args| && IsInstance(c, args[i]) == IsInstance(c, Union(args)) != Some(false)
                          && forall j :: 0 <= j < i ==> IsInstance(c, args[j]) == Some(false)
    decreases args
  {
    if args != [] {
      var rest := args[1..];
      assert IsInstance(c, Union(rest)) == IsInstanceOfAny(c, rest);
      if IsInstance(c, args[0]) == Some(false) {
        UnionTakesFirst(c, rest);
        assert forall i :: 0 <= i < |rest| ==> rest[i] == args[i + 1];
        if i :| 0 <= i < |rest| && IsInstance(c, rest[i]) == IsInstance(c, Union(rest)) != Some(false)
                && forall j :: 0 <= j < i ==> IsInstance(c, rest[j]) == Some(false) {
          assert IsInstance(c, args[i + 1]) == IsInstance(c, Union(args));
          assert forall j :: 0 < j < i + 1 ==> args[j] == rest[j - 1];
        }
      } else {
        assert IsInstance(c, args[0]) == IsInstance(c, Union(args));
      }
    }
  }

  /** For types built of classes and unions alone, the check never raises, and it accepts exactly
      the subclasses of the classes that the type names. */
  lemma {:induction false} InstanceIffLeaf(c: Class, t: Type)
    requires Plain(t)
    ensures IsInstance(c, t) == Some(exists d :: Leaf(t, d) && IsSubclass(c, d))
    decreases t
  {
    match t
    case Single(d) => assert Leaf(t, d);
    case Union(args) =>
      forall i | 0 <= i < |args| ensures IsInstance(c, args[i]) == Some(exists d :: Leaf(args[i], d) && IsSubclass(c, d)) {
        InstanceIffLeaf(c, args[i]);
      }
      UnionTakesFirst(c, args);
      if d :| Leaf(t, d) && IsSubclass(c, d) {
        var i :| 0 <= i < |args| && Leaf(args[i], d);
        assert IsInstance(c, args[i]) == Some(true);
      }
      if i :| 0 <= i < |args| && IsInstance(c, args[i]) == Some(true) {
        var d :| Leaf(args[i], d) && IsSubclass(c, d);
        assert Leaf(t, d);
      }
  }

  /** What passes the check is an instance of a class that the type names, whatever else it holds. */
  lemma {:induction false} InstanceOfLeaf(c: Class, t: Type)
    requires IsInstance(c, t) == Some(true)
    ensures exists d :: Leaf(t, d) && IsSubclass(c, d)
    decreases t
  {
    match t
    case Single(d) => assert Leaf(t, d);
    case Union(args) =>
      UnionTakesFirst(c, args);
      var i :| 0 <= i < |args| && IsInstance(c, args[i]) == Some(true);
      InstanceOfLeaf(c, args[i]);
      var d :| Leaf(args[i], d) && IsSubclass(c, d);
      assert Leaf(t, d);
  }

  lemma {:induction false} FlattenedAreLeaves(t: Type, d: Class)
    ensures d in Flatten(t) <==> Leaf(t, d)
    decreases t
  {
    if t.Union? {
      FlattenedAllAreLeaves(t.args, d);
    }
  }

  lemma {:induction false} FlattenedAllAreLeaves(args: seq<Type>, d: Class)
    ensures d in FlattenAll(args) <==> exists i :: 0 <= i < |args| && Leaf(args[i], d)
    decreases args
  {
    if args != [] {
      FlattenedAreLeaves(args[0], d);
      FlattenedAllAreLeaves(args[1..], d);
      if i :| 0 <= i < |args| && Leaf(args[i], d) {
        assert i > 0 ==> Leaf(args[1..][i - 1], d);
      }
      if i :| 0 <= i < |args[1..]| && Leaf(args[1..][i], d) {
        assert Leaf(args[i + 1], d);
      }
    }
  }

  /** So what passes the check is an instance of one of the flattened classes. */
  lemma InstanceOfFlattened(c: Class, t: Type)
    requires IsInstance(c, t) == Some(true)
    ensures exists d :: d in Flatten(t) && IsSubclass(c, d)
  {
    InstanceOfLeaf(c, t);
    var d :| Leaf(t, d) && IsSubclass(c, d);
    FlattenedAreLeaves(t, d);
  }

  /** The classes come in the order of the members of the union. */
  lemma {:induction false} FlattenJoins(a: seq<Type>, b: seq<Type>)
    ensures Flatten(Union(a + b)) == Flatten(Union(a)) + Flatten(Union(b))
    ensures forall t :: Flatten(Union([t])) == Flatten(t)
  {
    if a == [] {
      assert a + b == b;
    } else {
      assert (a + b)[1..] == a[1..] + b;
      FlattenJoins(a[1..], b);
    }
    forall t: Type ensures Flatten(Union([t])) == Flatten(t) {
      assert [t][1..] == [] && FlattenAll([]) == [];
    }
  }

  /** What the two validations of a message accept, and the classes that events are routed by. */
  lemma DeclaredDecides(request: Request, c: Class)
    ensures request.class_.declared.None? ==> !ValidResponse(request, c) && !ValidEvent(request, c) && EventClasses(request) == []
    ensures request.class_.declared.Some? ==>
              var declared := request.class_.declared.value;
              && (Plain(declared.response) ==>
                    (ValidResponse(request, c) <==> exists d :: Leaf(declared.response, d) && IsSubclass(c, d)))
              && (Plain(declared.event) ==>
                    (ValidEvent(request, c) <==> exists d :: Leaf(declared.event, d) && IsSubclass(c, d)))
              && (c in EventClasses(request) <==> Leaf(declared.event, c))
  {
    if request.class_.declared.Some? {
      var declared := request.class_.declared.value;
      assert ValidResponse(request, c) <==> IsInstance(c, declared.response) == Some(true);
      assert ValidEvent(request, c) <==> IsInstance(c, declared.event) == Some(true);
      assert EventClasses(request) == Flatten(declared.event);
      if Plain(declared.response) { InstanceIffLeaf(c, declared.response); }
      if Plain(declared.event) { InstanceIffLeaf(c, declared.event); }
      FlattenedAreLeaves(declared.event, c);
    }
  }

  /** Flattening by extending a list, union member by union member. */
  method FlattenEventTypes(t: Type) returns (result: seq<Class>)
    ensures result == Flatten(t)
    decreases t
  {
    match t
    case Never => return [];
    case Foreign => return [];
    case Single(c) => return [c];
    case Union(args) =>
      result := [];
      for i := 0 to |args|
        invariant FlattenAll(args) == result + FlattenAll(args[i..])
      {
        var more := FlattenEventTypes(args[i]);
        result := result + more;
      }
      assert args[|args|..] == [];
  }
}
