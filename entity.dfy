/**
 * The Brezel entity record (`Brezel\Client\Entity`): a PHP object with four declared
 * properties (`id`, `module_id`, `created_at`, `updated_at`, plus whatever a subclass
 * declares) and an open set of dynamic properties, read and written through
 * `ArrayAccess`.
 *
 * PHP reflection is replaced by a static class table: for every entity class, the
 * declared properties in declaration order, each with the kind of its declared type
 * and its default value.
 */
module Entities {
  import opened Wrappers
  import opened PhpScalars
  import opened PhpArrays

  /** A PHP value as it appears in entity attributes and in decoded JSON. */
  datatype Value =
    | Null
    | Bool(b: bool)
    | Int(i: int)
    | Str(str: string)
    | Arr(entries: PhpArray<Value>)
    | Obj(e: Entity)

  /**
   * What reflection reports about a declared property's type:
   * `Nested(cls)` is a named type that is `Entity` or one of its subclasses,
   * `Plain` is any other named type (scalars, nullable scalars, other classes),
   * `Untyped` is a property declared without a type (reflection gives no type object).
   */
  datatype Kind = Plain | Nested(cls: string) | Untyped

  /** A declared property; `initial` is its default value (`None`: no default). */
  datatype Field = Field(name: string, kind: Kind, initial: Option<Value>)

  /** The declared properties of one class, in declaration order. */
  type Schema = seq<Field>

  /** Class name to declared properties: the part of reflection the code relies on. */
  type ClassTable = map<string, Schema>

  /** The errors construction and property access can throw. */
  datatype Error =
    | UnknownClass(cls: string)          // `new $class` on a class that is not declared
    | InvalidIdentifier(key: string)     // `id` or `module_id` missing or not an int
    | UntypedProperty(key: string)       // `getName()` called on a missing type
    | NotAnArray(key: string)            // a nested entity built from a non-array
    | InvalidName(key: string)           // a non-empty property name starting with NUL
    | Uninitialized(key: string)         // a typed property read before it is assigned

  const BaseClass: string := "Brezel\\Client\\Entity"

  /** The declared properties of `Entity` itself (src/Entity.php:12-15). */
  const BaseSchema: Schema := [
    Field("id", Plain, None),
    Field("module_id", Plain, None),
    Field("created_at", Plain, Some(Null)),
    Field("updated_at", Plain, Some(Null))
  ]

  /**
   * PHP refuses a non-empty property name that starts with a NUL byte; the empty name is
   * an ordinary dynamic property.
   */
  predicate ValidName(k: string) {
    k == "" || k[0] != '\0'
  }

  function Names(s: Schema): set<string> {
    if s == [] then {} else {s[0].name} + Names(s[1..])
  }

  /** The declared property called `k`, as `ReflectionProperty` finds it. */
  function Lookup(s: Schema, k: string): (r: Option<Field>)
    ensures r.Some? <==> k in Names(s)
    ensures r.Some? ==> r.value.name == k && r.value in s
  {
    if s == [] then None else if s[0].name == k then Some(s[0]) else Lookup(s[1..], k)
  }

  /** The declared properties that are initialised before the constructor runs. */
  function Defaults(s: Schema): map<string, Value> {
    if s == [] then map[]
    else
      var m := Defaults(s[1..]);
      if s[0].initial.Some? then m[s[0].name := s[0].initial.value] else m - {s[0].name}
  }

  /** The defaults are exactly the initial values of the declared properties that have one. */
  lemma {:induction false} DefaultsLookup(s: Schema)
    ensures forall k :: k in Defaults(s) <==> Lookup(s, k).Some? && Lookup(s, k).value.initial.Some?
    ensures forall k | k in Defaults(s) :: Defaults(s)[k] == Lookup(s, k).value.initial.value
  {
    if s != [] {
      DefaultsLookup(s[1..]);
    }
  }

  predicate ValidField(f: Field) {
    && ValidName(f.name)
    && (f.kind.Untyped? ==> f.initial.Some?)
    && (f.kind.Nested? ==> f.initial == None || f.initial == Some(Null))
  }

  /**
   * What PHP guarantees about a class's declared properties: valid names, an untyped
   * property is null unless it says otherwise, an object-typed default can only be
   * null, and `id` and `module_id` are the inherited `int` properties.
   */
  predicate ValidSchema(s: Schema) {
    && (forall f | f in s :: ValidField(f))
    && Lookup(s, "id").Some? && Lookup(s, "id").value.kind == Plain
    && Lookup(s, "module_id").Some? && Lookup(s, "module_id").value.kind == Plain
  }

  /** What PHP guarantees of every class it can instantiate. */
  predicate SchemasValid(t: ClassTable) {
    forall c | c in t :: ValidSchema(t[c])
  }

  /**
   * A class table of a running program: `Entity` itself is declared with its own
   * properties, and every entity type a property names is a declared class.
   */
  predicate ValidTable(t: ClassTable) {
    && SchemasValid(t)
    && BaseDeclared(t)
    && NestedKnown(t)
  }

  /** `Entity` itself is in the table, with its own declared properties. */
  predicate BaseDeclared(t: ClassTable) {
    BaseClass in t && t[BaseClass] == BaseSchema
  }

  /** Every entity type a declared property names is a declared class. */
  predicate NestedKnown(t: ClassTable) {
    forall c | c in t :: FieldsKnown(t, t[c])
  }

  predicate FieldsKnown(t: ClassTable, s: Schema) {
    forall f | f in s :: f.kind.Nested? ==> f.kind.cls in t
  }

  /** What `parseProperty` does with one attribute. */
  datatype Decision =
    | Keep                                                // return the value unchanged
    | Instantiate(cls: string, entries: PhpArray<Value>)  // `$class->newInstance($value)`
    | Reject(err: Error)                                  // throw

  /**
   * `parseProperty(k, v)` for an object whose declared properties are `s`, where
   * `present` is the answer of `property_exists($this, k)`.
   */
  function Decide(s: Schema, present: bool, k: string, v: Value): (d: Decision)
    ensures d.Instantiate? ==> v == Arr(d.entries)
  {
    if v.Obj? || !present then Keep
    else
      match Lookup(s, k)
      case None => Reject(UntypedProperty(k))
      case Some(f) =>
        match f.kind
        case Untyped => Reject(UntypedProperty(k))
        case Plain => Keep
        case Nested(c) =>
          if v.Null? then Keep else if v.Arr? then Instantiate(c, v.entries) else Reject(NotAnArray(k))
  }

  /** `parseProperty` as the constructor sees it: only declared properties exist yet. */
  function DecideAt(s: Schema, k: string, v: Value): (d: Decision)
    ensures d.Instantiate? ==> v == Arr(d.entries)
  {
    Decide(s, k in Names(s), k, v)
  }

  predicate IsInt(o: Option<Value>) {
    o.Some? && o.value.Int?
  }

  /** The inputs' `id` and `module_id`, when both are integers. */
  function Identifiers(attrs: PhpArray<Value>): (r: Option<(int, int)>)
    ensures r.Some? <==> IsInt(Get(attrs, "id")) && IsInt(Get(attrs, "module_id"))
    ensures r.Some? ==> Get(attrs, "id") == Some(Int(r.value.0)) && Get(attrs, "module_id") == Some(Int(r.value.1))
  {
    if IsInt(Get(attrs, "id")) && IsInt(Get(attrs, "module_id")) then
      Some((Get(attrs, "id").value.i, Get(attrs, "module_id").value.i))
    else None
  }

  /**
   * The identifier checks of construction: a declared class gets past them exactly when
   * `Identifiers` finds both, and otherwise throws for the first of `id`, `module_id`
   * that is missing or not an integer.
   */
  lemma IdentifiersGate(t: ClassTable, cls: string, attrs: PhpArray<Value>)
    ensures cls !in t ==> Failure(t, cls, attrs) == Some(UnknownClass(cls))
    ensures cls in t && Identifiers(attrs).None? ==>
      Failure(t, cls, attrs) == Some(InvalidIdentifier(if IsInt(Get(attrs, "id")) then "module_id" else "id"))
    ensures cls in t && Identifiers(attrs).Some? ==> Failure(t, cls, attrs) == EntriesFailure(t, t[cls], attrs, 0)
  {
  }

  /** The error `new cls(attrs)` throws, if any. */
  function Failure(t: ClassTable, cls: string, attrs: PhpArray<Value>): Option<Error>
    decreases Arr(attrs), 2, 0
  {
    if cls !in t then Some(UnknownClass(cls))
    else if !IsInt(Get(attrs, "id")) then Some(InvalidIdentifier("id"))
    else if !IsInt(Get(attrs, "module_id")) then Some(InvalidIdentifier("module_id"))
    else EntriesFailure(t, t[cls], attrs, 0)
  }

  /** The error the constructor's loop throws from entry `i` on, if any. */
  function EntriesFailure(t: ClassTable, s: Schema, attrs: PhpArray<Value>, i: nat): Option<Error>
    requires i <= |attrs|
    decreases Arr(attrs), 1, |attrs| - i
  {
    if i == |attrs| then None
    else
      var o := EntryFailure(t, s, attrs[i].0 in Names(s), attrs[i].0, attrs[i].1);
      if o.Some? then o else EntriesFailure(t, s, attrs, i + 1)
  }

  /**
   * The error `parseProperty(k, v)` throws, if any, where `present` is the answer of
   * `property_exists($this, $k)`.
   */
  function ParseFailure(t: ClassTable, s: Schema, present: bool, k: string, v: Value): Option<Error>
    decreases v, 3, 0
  {
    match Decide(s, present, k, v)
    case Reject(err) => Some(err)
    case Instantiate(c, en) => Failure(t, c, en)
    case Keep => None
  }

  /** The error `$this->$k = $this->parseProperty($k, $v)` throws, if any. */
  function EntryFailure(t: ClassTable, s: Schema, present: bool, k: string, v: Value): Option<Error>
    decreases v, 3, 1
  {
    if ParseFailure(t, s, present, k, v).Some? then ParseFailure(t, s, present, k, v)
    else if ValidName(k) then None
    else Some(InvalidName(k))
  }

  /** What ends up stored under a key: a value as given, or a freshly built entity. */
  datatype Slot = Put(v: Value) | Child(cls: string, entries: PhpArray<Value>)

  /**
   * The slot of `k => v` when `parseProperty` does not throw: an entity exactly when `k`
   * is declared with an entity type and `v` is an array.
   */
  function SlotOf(s: Schema, k: string, v: Value): (r: Slot)
    ensures r == if k in Names(s) && Lookup(s, k).value.kind.Nested? && v.Arr?
                 then Child(Lookup(s, k).value.kind.cls, v.entries) else Put(v)
  {
    match DecideAt(s, k, v)
    case Instantiate(c, en) => Child(c, en)
    case _ => Put(v)
  }

  /** The properties that hold a value before the loop: defaults, then `id` and `module_id`. */
  function Initial(s: Schema, ids: (int, int)): map<string, Slot> {
    (map k | k in Defaults(s) :: Put(Defaults(s)[k]))["id" := Put(Int(ids.0))]["module_id" := Put(Int(ids.1))]
  }

  /** The constructor's loop: `$this->$key = parseProperty($key, $value)`, entry by entry. */
  function Fold(s: Schema, m: map<string, Slot>, entries: seq<(string, Value)>): map<string, Slot>
    decreases |entries|
  {
    if entries == [] then m
    else
      var n := |entries| - 1;
      Fold(s, m, entries[..n])[entries[n].0 := SlotOf(s, entries[n].0, entries[n].1)]
  }

  /** The properties a successful `new cls(attrs)` ends with (what its `toArray` shows). */
  function Plan(s: Schema, attrs: PhpArray<Value>): map<string, Slot>
    requires Identifiers(attrs).Some?
  {
    Fold(s, Initial(s, Identifiers(attrs).value), attrs)
  }

  /** `store` holds what `plan` says, with an entity object wherever a child is planned. */
  predicate Realizes(store: map<string, Value>, plan: map<string, Slot>) {
    && store.Keys == plan.Keys
    && forall k | k in plan ::
         (plan[k].Put? ==> store[k] == plan[k].v) && (plan[k].Child? ==> store[k].Obj?)
  }

  /** The property state of one entity object. */
  datatype Node = Node(declared: map<string, Value>, open: map<string, Value>) {
    /** `get_object_vars`: the declared properties that hold a value and the dynamic ones. */
    function Props(): map<string, Value> {
      declared + open
    }
  }

  /** Declared properties only under declared names; dynamic ones under other, valid names. */
  predicate ValidNode(s: Schema, n: Node) {
    && n.declared.Keys <= Names(s)
    && forall k | k in n.open :: k !in Names(s) && ValidName(k)
  }

  /** A view of some entity objects: what each of them currently holds. */
  type View = map<Entity, Node>

  ghost predicate Mirrors(view: View)
    reads view.Keys
  {
    forall o | o in view :: view[o] == Node(o.declared, o.open)
  }

  /** Everything `a` knows about an object, `b` knows too. */
  ghost predicate SubView(a: View, b: View) {
    forall o | o in a :: o in b && b[o] == a[o]
  }

  /** In the view, `e` is what `new cls(attrs)` builds, down to every nested entity. */
  ghost predicate Built(t: ClassTable, cls: string, attrs: PhpArray<Value>, e: Entity, view: View)
    decreases Arr(attrs), 1
  {
    && e in view
    && cls in t && e.cls == cls && e.schema == t[cls] && ValidNode(t[cls], view[e])
    && Identifiers(attrs).Some?
    && Realizes(view[e].Props(), Plan(t[cls], attrs))
    && view[e].open.Keys == Keys(attrs) - Names(t[cls])
    && ChildrenBuilt(t, t[cls], attrs, |attrs|, view[e].Props(), view)
  }

  /** Each of the first `n` entries that asks for a nested entity got one, built from it. */
  ghost predicate ChildrenBuilt(t: ClassTable, s: Schema, attrs: PhpArray<Value>, n: nat,
                                store: map<string, Value>, view: View)
    requires n <= |attrs|
    decreases Arr(attrs), 0
  {
    forall j | 0 <= j < n :: DecideAt(s, attrs[j].0, attrs[j].1).Instantiate? ==>
      && attrs[j].0 in store && store[attrs[j].0].Obj?
      && Built(t, DecideAt(s, attrs[j].0, attrs[j].1).cls, DecideAt(s, attrs[j].0, attrs[j].1).entries,
               store[attrs[j].0].e, view)
  }

  /**
   * `w` is what `parseProperty(k, v)` returns when it does not throw: `v` itself, or an
   * entity built from it (described by `view`).
   */
  ghost predicate Parsed(t: ClassTable, s: Schema, present: bool, k: string, v: Value, w: Value, view: View) {
    match Decide(s, present, k, v)
    case Keep => w == v
    case Instantiate(c, en) => w.Obj? && Built(t, c, en, w.e, view)
    case Reject(_) => false
  }

  /** An entity object: a class with its declared properties, and the current property values. */
  class Entity {
    const cls: string
    const schema: Schema
    /** The declared properties that are initialised, with their values. */
    var declared: map<string, Value>
    /** The dynamic properties, with their values. */
    var open: map<string, Value>

    ghost predicate Valid()
      reads this
    {
      ValidSchema(schema) && ValidNode(schema, Node(declared, open))
    }

    /** A new object before its constructor body runs: only the defaults are set. */
    constructor Instantiate(cls: string, schema: Schema)
      requires ValidSchema(schema)
      ensures this.cls == cls && this.schema == schema
      ensures declared == Defaults(schema) && open == map[]
      ensures Valid()
    {
      DefaultsLookup(schema);
      this.cls := cls;
      this.schema := schema;
      declared := Defaults(schema);
      open := map[];
    }

    /** `toArray()`: `get_object_vars`, every property that holds a value; not recursive. */
    function ToArray(): (r: map<string, Value>)
      reads this
      ensures r.Keys == declared.Keys + open.Keys
    {
      Node(declared, open).Props()
    }

    /** `offsetExists(k)`: `property_exists`, true for declared properties even when unset. */
    function OffsetExists(k: string): (r: bool)
      reads this
      ensures Valid() ==> (r <==> k in Names(schema) || k in ToArray())
    {
      k in Names(schema) || k in open
    }

    /**
     * `offsetGet(k)`: `$this->$k`. An unset typed property throws; an unset untyped
     * or undefined dynamic property reads as null (PHP only warns).
     */
    function OffsetGet(k: string): (r: Result<Value, Error>)
      reads this
      requires Valid()
      ensures k in ToArray() ==> r == Ok(ToArray()[k])
      ensures r.Err? <==> !ValidName(k) || (k !in ToArray() && k in Names(schema) && !Lookup(schema, k).value.kind.Untyped?)
      ensures r.Ok? && k !in ToArray() ==> r.value == Null
    {
      NamesValid(schema);
      if !ValidName(k) then Err(InvalidName(k))
      else if k in declared then Ok(declared[k])
      else if k in Names(schema) then
        if Lookup(schema, k).value.kind.Untyped? then Ok(Null) else Err(Uninitialized(k))
      else if k in open then Ok(open[k])
      else Ok(Null)
    }

    /** `offsetSet(k, v)`: `$this->$k = v`, a declared property or a dynamic one. */
    method OffsetSet(k: string, v: Value) returns (o: Outcome<Error>)
      requires Valid()
      modifies this
      ensures Valid()
      ensures o == if ValidName(k) then Pass else Fail(InvalidName(k))
      ensures o.Pass? && k in Names(schema) ==> declared == old(declared)[k := v] && open == old(open)
      ensures o.Pass? && k !in Names(schema) ==> declared == old(declared) && open == old(open)[k := v]
      ensures o.Fail? ==> declared == old(declared) && open == old(open)
      ensures o.Pass? ==> ToArray() == old(ToArray())[k := v] && OffsetExists(k)
      ensures o.Pass? ==> open.Keys == old(open.Keys) + (if k in Names(schema) then {} else {k})
    {
      if !ValidName(k) {
        return Fail(InvalidName(k));
      }
      if k in Names(schema) {
        UpdateLeft(declared, open, k, v);
        declared := declared[k := v];
      } else {
        UpdateRight(declared, open, k, v);
        open := open[k := v];
      }
      o := Pass;
    }

    /**
     * `offsetUnset(k)`: `unset($this->$k)`. A declared property becomes uninitialised but
     * still exists; a dynamic property is gone.
     */
    method OffsetUnset(k: string) returns (o: Outcome<Error>)
      requires Valid()
      modifies this
      ensures Valid()
      ensures o == if ValidName(k) then Pass else Fail(InvalidName(k))
      ensures declared == old(declared) - {k} && open == old(open) - {k}
      ensures ToArray() == old(ToArray()) - {k}
      ensures o.Pass? ==> (OffsetExists(k) <==> k in Names(schema))
    {
      NamesValid(schema);
      if !ValidName(k) {
        return Fail(InvalidName(k));
      }
      RemoveBoth(declared, open, k);
      declared := declared - {k};
      open := open - {k};
      o := Pass;
    }

    /**
     * `$this->$k = $this->parseProperty($k, $v)`, one step of the constructor's loop.
     * `view` describes the entities built for a nested entity.
     */
    method Assign(t: ClassTable, k: string, v: Value) returns (err: Option<Error>, ghost view: View)
      requires SchemasValid(t) && Valid()
      modifies this
      ensures Valid() && fresh(view.Keys) && Mirrors(view)
      ensures err == EntryFailure(t, schema, old(OffsetExists(k)), k, v)
      ensures err.Some? ==> declared == old(declared) && open == old(open)
      ensures err.None? ==> k in ToArray() && ToArray() == old(ToArray())[k := ToArray()[k]]
      ensures err.None? ==> open.Keys == old(open.Keys) + (if k in Names(schema) then {} else {k})
      ensures err.None? ==> Parsed(t, schema, old(OffsetExists(k)), k, v, ToArray()[k], view)
      decreases v, 6
    {
      var p;
      p, view := ParseProperty(t, k, v);
      if p.Err? {
        return Some(p.error), view;
      }
      var o := OffsetSet(k, p.value);
      if o.Fail? {
        return Some(o.error), view;
      }
      err := None;
    }

    /** `parseProperty(k, v)` on this object. */
    method ParseProperty(t: ClassTable, k: string, v: Value) returns (r: Result<Value, Error>, ghost view: View)
      requires SchemasValid(t)
      ensures fresh(view.Keys) && Mirrors(view)
      ensures r.Err? <==> ParseFailure(t, schema, OffsetExists(k), k, v).Some?
      ensures r.Err? ==> r.error == ParseFailure(t, schema, OffsetExists(k), k, v).value
      ensures r.Ok? ==> Parsed(t, schema, OffsetExists(k), k, v, r.value, view)
      decreases v, 5
    {
      view := map[];
      var d := Decide(schema, OffsetExists(k), k, v);
      match d
      case Keep =>
        r := Ok(v);
      case Reject(err) =>
        r := Err(err);
      case Instantiate(c, en) =>
        var child;
        child, view := Construct(t, c, en);
        if child.Ok? {
          r := Ok(Obj(child.value));
        } else {
          r := Err(child.error);
        }
    }

    /**
     * `new cls(attrs)`: assign `id` and `module_id`, then store `parseProperty(key, value)`
     * under every key of `attrs`, in order. On success `view` describes every entity built.
     */
    static method Construct(t: ClassTable, cls: string, attrs: PhpArray<Value>)
      returns (r: Result<Entity, Error>, ghost view: View)
      requires SchemasValid(t)
      ensures fresh(view.Keys) && Mirrors(view)
      ensures r.Err? <==> Failure(t, cls, attrs).Some?
      ensures r.Err? ==> r.error == Failure(t, cls, attrs).value
      ensures r.Ok? ==> Built(t, cls, attrs, r.value, view)
      decreases Arr(attrs), 4
    {
      view := map[];
      if cls !in t {
        return Err(UnknownClass(cls)), view;
      }
      var id := Get(attrs, "id");
      if !IsInt(id) {
        return Err(InvalidIdentifier("id")), view;
      }
      var mid := Get(attrs, "module_id");
      if !IsInt(mid) {
        return Err(InvalidIdentifier("module_id")), view;
      }
      r, view := Build(t, cls, (id.value.i, mid.value.i), attrs);
    }

    /** The constructor body once `id` and `module_id` are known to be integers. */
    static method Build(t: ClassTable, cls: string, ids: (int, int), attrs: PhpArray<Value>)
      returns (r: Result<Entity, Error>, ghost view: View)
      requires SchemasValid(t) && cls in t && Identifiers(attrs) == Some(ids)
      ensures fresh(view.Keys) && Mirrors(view)
      ensures r.Err? <==> EntriesFailure(t, t[cls], attrs, 0).Some?
      ensures r.Err? ==> r.error == EntriesFailure(t, t[cls], attrs, 0).value
      ensures r.Ok? ==> Built(t, cls, attrs, r.value, view)
      decreases Arr(attrs), 3
    {
      var e := new Entity.Instantiate(cls, t[cls]);
      e.declared := e.declared["id" := Int(ids.0)]["module_id" := Int(ids.1)];
      InitialRealized(t, t[cls], ids, attrs, e.declared, e.open);
      var err, kids := e.Fill(t, ids, attrs);
      if err.Some? {
        return Err(err.value), map[];
      }
      view := kids[e := Node(e.declared, e.open)];
      MirrorsAdd(kids, e);
      StageBuilt(t, cls, ids, attrs, e, Node(e.declared, e.open), kids);
      return Ok(e), view;
    }

    /** The constructor's loop over `attrs`; `kids` describes the nested entities built. */
    method Fill(t: ClassTable, ids: (int, int), attrs: PhpArray<Value>)
      returns (err: Option<Error>, ghost kids: View)
      requires SchemasValid(t) && Valid() && cls in t && schema == t[cls]
      requires Stage(t, schema, ids, attrs, 0, ToArray(), open.Keys, map[])
      modifies this
      ensures Valid() && fresh(kids.Keys) && this !in kids && Mirrors(kids)
      ensures err == EntriesFailure(t, schema, attrs, 0)
      ensures err.None? ==> Stage(t, schema, ids, attrs, |attrs|, ToArray(), open.Keys, kids)
      decreases Arr(attrs), 2
    {
      kids := map[];
      var i := 0;
      while i < |attrs|
        invariant 0 <= i <= |attrs|
        invariant Valid() && fresh(kids.Keys) && this !in kids && Mirrors(kids)
        invariant Stage(t, schema, ids, attrs, i, ToArray(), open.Keys, kids)
        decreases |attrs| - i
      {
        ghost var pv;
        err, pv := Step(t, ids, attrs, i, kids);
        if err.Some? {
          return err, kids;
        }
        JoinKeys(kids, pv);
        assert this !in pv;
        kids := kids + pv;
        i := i + 1;
      }
      StageDone(t, schema, ids, attrs, ToArray(), open.Keys, kids);
      err := None;
    }

    /** One pass of the loop: `$this->$key = $this->parseProperty($key, $value)` for entry `i`. */
    method Step(t: ClassTable, ids: (int, int), attrs: PhpArray<Value>, i: nat, ghost kids: View)
      returns (err: Option<Error>, ghost pv: View)
      requires SchemasValid(t) && Valid() && i < |attrs|
      requires Stage(t, schema, ids, attrs, i, ToArray(), open.Keys, kids)
      requires Mirrors(kids) && this !in kids
      modifies this
      ensures Valid() && fresh(pv.Keys)
      ensures err.Some? ==> err == EntriesFailure(t, schema, attrs, 0)
      ensures err.None? ==> Mirrors(kids + pv) && Stage(t, schema, ids, attrs, i + 1, ToArray(), open.Keys, kids + pv)
      decreases Arr(attrs), 1
    {
      var k := attrs[i].0;
      var v := attrs[i].1;
      FreshKeyAt(attrs, i);
      ghost var before := ToArray();
      ghost var openBefore := open.Keys;
      assert OffsetExists(k) == (k in Names(schema));
      err, pv := Assign(t, k, v);
      if err.Some? {
        StageFailure(t, schema, ids, attrs, i, before, openBefore, kids);
        return;
      }
      MirrorsJoin(kids, pv);
      StageStep(t, schema, ids, attrs, i, before, openBefore, kids, ToArray()[k], pv);
    }
  }

  /** Every property `toArray` shows exists and has a name PHP accepts. */
  lemma ArrayKeysExist(e: Entity)
    requires e.Valid()
    ensures forall k | k in e.ToArray() :: e.OffsetExists(k) && ValidName(k)
  {
    NamesValid(e.schema);
  }

  lemma UpdateLeft<K, W>(a: map<K, W>, b: map<K, W>, k: K, w: W)
    requires k !in b
    ensures a[k := w] + b == (a + b)[k := w]
  {
  }

  lemma UpdateRight<K, W>(a: map<K, W>, b: map<K, W>, k: K, w: W)
    ensures a + b[k := w] == (a + b)[k := w]
  {
  }

  lemma RemoveBoth<K, W>(a: map<K, W>, b: map<K, W>, k: K)
    ensures (a - {k}) + (b - {k}) == (a + b) - {k}
  {
  }

  /** Every declared property of a valid schema has a name PHP accepts. */
  lemma NamesValid(s: Schema)
    requires ValidSchema(s)
    ensures forall k | k in Names(s) :: ValidName(k)
  {
    forall k | k in Names(s)
      ensures ValidName(k)
    {
      assert ValidField(Lookup(s, k).value);
    }
  }

  /** Two views of the same heap agree, so their union is a view of it extending both. */
  lemma JoinKeys(a: View, b: View)
    ensures (a + b).Keys == a.Keys + b.Keys
  {
  }

  lemma MirrorsJoin(a: View, b: View)
    requires Mirrors(a) && Mirrors(b)
    ensures Mirrors(a + b) && SubView(a, a + b) && SubView(b, a + b)
  {
  }

  /**
   * The constructor after `i` entries: the properties hold what the first `i` entries
   * plan, the dynamic ones are exactly the undeclared keys among them, nothing has failed
   * yet, and every nested entity so far is built.
   */
  ghost predicate Stage(t: ClassTable, s: Schema, ids: (int, int), attrs: PhpArray<Value>, i: nat,
                        store: map<string, Value>, openKeys: set<string>, kids: View)
  {
    && i <= |attrs|
    && openKeys == Keys(attrs[..i]) - Names(s)
    && Realizes(store, Fold(s, Initial(s, ids), attrs[..i]))
    && EntriesFailure(t, s, attrs, i) == EntriesFailure(t, s, attrs, 0)
    && ChildrenBuilt(t, s, attrs, i, store, kids)
  }

  lemma InitialRealized(t: ClassTable, s: Schema, ids: (int, int), attrs: PhpArray<Value>,
                        declared: map<string, Value>, open: map<string, Value>)
    requires declared == Defaults(s)["id" := Int(ids.0)]["module_id" := Int(ids.1)] && open == map[]
    ensures Stage(t, s, ids, attrs, 0, declared + open, open.Keys, map[])
  {
    assert declared + open == declared;
    assert attrs[..0] == [];
  }

  /** A completed loop over `attrs` builds the entity, with the children built on the way. */
  lemma StageBuilt(t: ClassTable, cls: string, ids: (int, int), attrs: PhpArray<Value>, e: Entity,
                   n: Node, kids: View)
    requires cls in t && e.cls == cls && e.schema == t[cls] && ValidNode(t[cls], n)
    requires Identifiers(attrs) == Some(ids) && e !in kids
    requires Stage(t, t[cls], ids, attrs, |attrs|, n.Props(), n.open.Keys, kids)
    ensures Built(t, cls, attrs, e, kids[e := n])
  {
    StageFinal(t, t[cls], ids, attrs, n.Props(), n.open.Keys, kids);
    SubViewAdd(kids, e, n);
    ChildrenGrow(t, t[cls], attrs, |attrs|, n.Props(), kids, kids[e := n]);
  }

  lemma SubViewAdd(m: View, o: Entity, n: Node)
    requires o !in m
    ensures SubView(m, m[o := n])
  {
  }

  lemma MirrorsAdd(m: View, o: Entity)
    requires Mirrors(m)
    ensures Mirrors(m[o := Node(o.declared, o.open)])
  {
  }

  /** One more entry of the loop is one more map update. */
  lemma FoldStep(s: Schema, m: map<string, Slot>, attrs: seq<(string, Value)>, i: nat)
    requires i < |attrs|
    ensures Fold(s, m, attrs[..i + 1]) == Fold(s, m, attrs[..i])[attrs[i].0 := SlotOf(s, attrs[i].0, attrs[i].1)]
  {
    assert attrs[..i + 1][..i] == attrs[..i];
  }

  lemma RealizesStep(store: map<string, Value>, plan: map<string, Slot>, k: string, w: Value, slot: Slot)
    requires Realizes(store, plan)
    requires (slot.Put? ==> w == slot.v) && (slot.Child? ==> w.Obj?)
    ensures Realizes(store[k := w], plan[k := slot])
  {
  }

  lemma StageStep(t: ClassTable, s: Schema, ids: (int, int), attrs: PhpArray<Value>, i: nat,
                  store: map<string, Value>, openKeys: set<string>, kids: View,
                  w: Value, pv: View)
    requires Stage(t, s, ids, attrs, i, store, openKeys, kids) && i < |attrs|
    requires SubView(kids, kids + pv) && SubView(pv, kids + pv)
    requires EntryFailure(t, s, attrs[i].0 in Names(s), attrs[i].0, attrs[i].1).None?
    requires Parsed(t, s, attrs[i].0 in Names(s), attrs[i].0, attrs[i].1, w, pv)
    ensures Stage(t, s, ids, attrs, i + 1, store[attrs[i].0 := w],
                  openKeys + (if attrs[i].0 in Names(s) then {} else {attrs[i].0}), kids + pv)
  {
    var (k, v) := attrs[i];
    FreshKeyAt(attrs, i);
    RealizesStep(store, Fold(s, Initial(s, ids), attrs[..i]), k, w, SlotOf(s, k, v));
    FoldStep(s, Initial(s, ids), attrs, i);
    ChildrenStep(t, s, attrs, i, store, w, kids, pv);
  }

  lemma StageFailure(t: ClassTable, s: Schema, ids: (int, int), attrs: PhpArray<Value>, i: nat,
                     store: map<string, Value>, openKeys: set<string>, kids: View)
    requires Stage(t, s, ids, attrs, i, store, openKeys, kids) && i < |attrs|
    requires EntryFailure(t, s, attrs[i].0 in Names(s), attrs[i].0, attrs[i].1).Some?
    ensures EntriesFailure(t, s, attrs, 0) == EntryFailure(t, s, attrs[i].0 in Names(s), attrs[i].0, attrs[i].1)
  {
  }

  /** The loop ran to its end without failing. */
  lemma StageDone(t: ClassTable, s: Schema, ids: (int, int), attrs: PhpArray<Value>,
                  store: map<string, Value>, openKeys: set<string>, kids: View)
    requires Stage(t, s, ids, attrs, |attrs|, store, openKeys, kids)
    ensures EntriesFailure(t, s, attrs, 0).None?
  {
  }

  lemma StageFinal(t: ClassTable, s: Schema, ids: (int, int), attrs: PhpArray<Value>,
                   store: map<string, Value>, openKeys: set<string>, kids: View)
    requires Stage(t, s, ids, attrs, |attrs|, store, openKeys, kids)
    ensures openKeys == Keys(attrs) - Names(s)
    ensures Realizes(store, Fold(s, Initial(s, ids), attrs))
    ensures EntriesFailure(t, s, attrs, 0).None?
    ensures ChildrenBuilt(t, s, attrs, |attrs|, store, kids)
  {
    assert attrs[..|attrs|] == attrs;
  }

  /** One more entry of the loop: earlier children are untouched, the new one joins. */
  lemma ChildrenStep(t: ClassTable, s: Schema, attrs: PhpArray<Value>, i: nat,
                     before: map<string, Value>, w: Value, kids: View, pv: View)
    requires i < |attrs|
    requires attrs[i].0 !in Keys(attrs[..i])
    requires ChildrenBuilt(t, s, attrs, i, before, kids)
    requires SubView(kids, kids + pv) && SubView(pv, kids + pv)
    requires DecideAt(s, attrs[i].0, attrs[i].1).Instantiate? ==>
      w.Obj? && Built(t, DecideAt(s, attrs[i].0, attrs[i].1).cls, DecideAt(s, attrs[i].0, attrs[i].1).entries, w.e, pv)
    ensures ChildrenBuilt(t, s, attrs, i + 1, before[attrs[i].0 := w], kids + pv)
  {
    var after := before[attrs[i].0 := w];
    forall j | 0 <= j < i + 1 && DecideAt(s, attrs[j].0, attrs[j].1).Instantiate?
      ensures && attrs[j].0 in after && after[attrs[j].0].Obj?
              && Built(t, DecideAt(s, attrs[j].0, attrs[j].1).cls, DecideAt(s, attrs[j].0, attrs[j].1).entries,
                       after[attrs[j].0].e, kids + pv)
    {
      var d := DecideAt(s, attrs[j].0, attrs[j].1);
      if j < i {
        KeysAt(attrs[..i], j);
        BuiltGrows(t, d.cls, d.entries, before[attrs[j].0].e, kids, kids + pv);
      } else {
        BuiltGrows(t, d.cls, d.entries, w.e, pv, kids + pv);
      }
    }
  }

  /** `Built` only looks at the objects of its view: a larger view keeps it. */
  lemma {:induction false} BuiltGrows(t: ClassTable, cls: string, attrs: PhpArray<Value>, e: Entity,
                                      a: View, b: View)
    requires Built(t, cls, attrs, e, a) && SubView(a, b)
    ensures Built(t, cls, attrs, e, b)
    decreases Arr(attrs), 1
  {
    ChildrenGrow(t, t[cls], attrs, |attrs|, a[e].Props(), a, b);
  }

  lemma {:induction false} ChildrenGrow(t: ClassTable, s: Schema, attrs: PhpArray<Value>, n: nat,
                                        store: map<string, Value>, a: View, b: View)
    requires n <= |attrs|
    requires ChildrenBuilt(t, s, attrs, n, store, a) && SubView(a, b)
    ensures ChildrenBuilt(t, s, attrs, n, store, b)
    decreases Arr(attrs), 0
  {
    forall j | 0 <= j < n && DecideAt(s, attrs[j].0, attrs[j].1).Instantiate?
      ensures Built(t, DecideAt(s, attrs[j].0, attrs[j].1).cls, DecideAt(s, attrs[j].0, attrs[j].1).entries,
                    store[attrs[j].0].e, b)
    {
      var d := DecideAt(s, attrs[j].0, attrs[j].1);
      BuiltGrows(t, d.cls, d.entries, store[attrs[j].0].e, a, b);
    }
  }

  /** The keys `Fold` ends with: the initial ones and every key of the entries. */
  lemma {:induction false} FoldKeys(s: Schema, m: map<string, Slot>, entries: seq<(string, Value)>)
    ensures Fold(s, m, entries).Keys == m.Keys + Keys(entries)
    decreases |entries|
  {
    if entries != [] {
      var n := |entries| - 1;
      FoldKeys(s, m, entries[..n]);
      assert entries[..n] + [(entries[n].0, entries[n].1)] == entries;
      KeysAppend(entries[..n], entries[n].0, entries[n].1);
    }
  }

  /** A key that no entry mentions keeps its initial slot. */
  lemma {:induction false} FoldOutside(s: Schema, m: map<string, Slot>, entries: seq<(string, Value)>, k: string)
    requires k !in Keys(entries)
    ensures k in Fold(s, m, entries) <==> k in m
    ensures k in m ==> Fold(s, m, entries)[k] == m[k]
    decreases |entries|
  {
    if entries != [] {
      var n := |entries| - 1;
      assert entries[..n] + [(entries[n].0, entries[n].1)] == entries;
      KeysAppend(entries[..n], entries[n].0, entries[n].1);
      FoldOutside(s, m, entries[..n], k);
    }
  }

  /** With distinct keys, the key of each entry ends with that entry's slot. */
  lemma {:induction false} FoldAt(s: Schema, m: map<string, Slot>, entries: PhpArray<Value>, i: nat)
    requires i < |entries|
    ensures entries[i].0 in Fold(s, m, entries)
    ensures Fold(s, m, entries)[entries[i].0] == SlotOf(s, entries[i].0, entries[i].1)
    decreases |entries|
  {
    var n := |entries| - 1;
    if i < n {
      DistinctPrefix(entries, n);
      var prefix: PhpArray<Value> := entries[..n];
      FoldAt(s, m, prefix, i);
      DistinctAt(entries, i, n);
    }
  }

  /** The properties of a built entity: every default and every key of the attributes. */
  lemma PlanKeys(s: Schema, attrs: PhpArray<Value>)
    requires Identifiers(attrs).Some?
    ensures Plan(s, attrs).Keys == Defaults(s).Keys + Keys(attrs)
  {
    FoldKeys(s, Initial(s, Identifiers(attrs).value), attrs);
  }

  /** Each attribute ends in its own slot: later entries never overwrite earlier ones. */
  lemma PlanEntry(s: Schema, attrs: PhpArray<Value>, i: nat)
    requires Identifiers(attrs).Some? && i < |attrs|
    ensures attrs[i].0 in Plan(s, attrs)
    ensures Plan(s, attrs)[attrs[i].0] == SlotOf(s, attrs[i].0, attrs[i].1)
  {
    FoldAt(s, Initial(s, Identifiers(attrs).value), attrs, i);
  }

  /** A property the attributes do not mention keeps its default, or stays unset. */
  lemma PlanDefault(s: Schema, attrs: PhpArray<Value>, k: string)
    requires Identifiers(attrs).Some? && k !in Keys(attrs)
    ensures k in Plan(s, attrs) <==> k in Defaults(s)
    ensures k in Defaults(s) ==> Plan(s, attrs)[k] == Put(Defaults(s)[k])
  {
    FoldOutside(s, Initial(s, Identifiers(attrs).value), attrs, k);
  }

  /** After `new cls(attrs)`, the entity's properties are its defaults and the attributes. */
  lemma BuiltKeys(t: ClassTable, cls: string, attrs: PhpArray<Value>, e: Entity, view: View)
    requires Built(t, cls, attrs, e, view)
    ensures view[e].Props().Keys == Defaults(t[cls]).Keys + Keys(attrs)
    ensures forall k | k in Defaults(t[cls]) && k !in Keys(attrs) :: view[e].Props()[k] == Defaults(t[cls])[k]
  {
    PlanKeys(t[cls], attrs);
    forall k | k in Defaults(t[cls]) && k !in Keys(attrs)
      ensures view[e].Props()[k] == Defaults(t[cls])[k]
    {
      PlanDefault(t[cls], attrs, k);
    }
  }

  /**
   * After `new cls(attrs)`, every attribute is stored under its key: as given, or as an
   * entity built from it when its property is declared with an entity type.
   */
  lemma BuiltEntry(t: ClassTable, cls: string, attrs: PhpArray<Value>, e: Entity, view: View, i: nat)
    requires Built(t, cls, attrs, e, view) && i < |attrs|
    ensures attrs[i].0 in view[e].Props()
    ensures SlotOf(t[cls], attrs[i].0, attrs[i].1).Put? ==> view[e].Props()[attrs[i].0] == attrs[i].1
    ensures SlotOf(t[cls], attrs[i].0, attrs[i].1).Child? ==>
      var c := SlotOf(t[cls], attrs[i].0, attrs[i].1);
      view[e].Props()[attrs[i].0].Obj? && Built(t, c.cls, c.entries, view[e].Props()[attrs[i].0].e, view)
  {
    PlanEntry(t[cls], attrs, i);
  }

  /** The new entity's `id` and `module_id` are the integers it was given. */
  lemma BuiltIdentifiers(t: ClassTable, cls: string, attrs: PhpArray<Value>, e: Entity, view: View)
    requires SchemasValid(t) && Built(t, cls, attrs, e, view)
    ensures "id" in view[e].Props() && Some(view[e].Props()["id"]) == Get(attrs, "id")
    ensures "module_id" in view[e].Props() && Some(view[e].Props()["module_id"]) == Get(attrs, "module_id")
  {
    var id := KeyIndex(attrs, "id");
    GetAt(attrs, id);
    PlanEntry(t[cls], attrs, id);
    var mid := KeyIndex(attrs, "module_id");
    GetAt(attrs, mid);
    PlanEntry(t[cls], attrs, mid);
  }

  /** `Entity` itself starts with `created_at` and `updated_at` null and no identifiers. */
  lemma BaseDefaults()
    ensures Defaults(BaseSchema) == map["created_at" := Null, "updated_at" := Null]
  {
    assert "created_at"[0] != "updated_at"[0] && "module_id"[0] !in {"created_at"[0], "updated_at"[0]};
    assert "id"[0] !in {"created_at"[0], "updated_at"[0]};
    DefaultsOfFour(BaseSchema);
  }

  /** The defaults of a schema of two properties without and two with a default. */
  lemma DefaultsOfFour(s: Schema)
    requires |s| == 4 && s[0].initial == None && s[1].initial == None
    requires s[2].initial.Some? && s[3].initial.Some?
    requires s[2].name != s[3].name && s[0].name !in {s[2].name, s[3].name} && s[1].name !in {s[2].name, s[3].name}
    ensures Defaults(s) == map[s[2].name := s[2].initial.value, s[3].name := s[3].initial.value]
  {
    var m := map[s[2].name := s[2].initial.value, s[3].name := s[3].initial.value];
    var s1 := s[1..];
    var s2 := s1[1..];
    var s3 := s2[1..];
    assert s3[1..] == [];
    assert Defaults(s3) == map[s[3].name := s[3].initial.value];
    assert Defaults(s2) == map[s[3].name := s[3].initial.value][s[2].name := s[2].initial.value];
    assert Defaults(s2) == m;
    assert Defaults(s1) == m - {s[1].name} == m;
  }

  // Rebuilding an entity from its own export

  /** `out` lists exactly the properties of `p`, each with its value. */
  predicate Lists(out: PhpArray<Value>, p: map<string, Value>) {
    && Keys(out) == p.Keys
    && forall i | 0 <= i < |out| :: out[i].0 in p && out[i].1 == p[out[i].0]
  }

  /** Every untyped declared property of `s` that `p` holds is an entity object. */
  predicate UntypedHoldObjects(s: Schema, p: map<string, Value>) {
    forall k | k in p && k in Names(s) && Lookup(s, k).value.kind.Untyped? :: p[k].Obj?
  }

  /** The constructor's loop passes from entry `j` on exactly when every such entry passes. */
  lemma {:induction false} EntriesNone(t: ClassTable, s: Schema, attrs: PhpArray<Value>, j: nat)
    requires j <= |attrs|
    ensures EntriesFailure(t, s, attrs, j).None? <==>
      forall i | j <= i < |attrs| :: EntryFailure(t, s, attrs[i].0 in Names(s), attrs[i].0, attrs[i].1).None?
    decreases |attrs| - j
  {
    if j < |attrs| {
      EntriesNone(t, s, attrs, j + 1);
    }
  }

  /**
   * In an entity built without error, an entity-typed property holds null or an entity
   * object: an array became an entity, and anything else would have thrown.
   */
  lemma BuiltNestedValue(t: ClassTable, cls: string, attrs: PhpArray<Value>, e: Entity, view: View, k: string)
    requires SchemasValid(t) && Failure(t, cls, attrs) == None && Built(t, cls, attrs, e, view)
    requires k in view[e].Props() && k in Names(t[cls]) && Lookup(t[cls], k).value.kind.Nested?
    ensures view[e].Props()[k].Null? || view[e].Props()[k].Obj?
  {
    var s := t[cls];
    BuiltKeys(t, cls, attrs, e, view);
    if k in Keys(attrs) {
      var i := KeyIndex(attrs, k);
      BuiltEntry(t, cls, attrs, e, view, i);
      EntriesNone(t, s, attrs, 0);
      assert EntryFailure(t, s, attrs[i].0 in Names(s), attrs[i].0, attrs[i].1).None?;
    } else {
      DefaultsLookup(s);
      assert ValidField(Lookup(s, k).value);
    }
  }

  /**
   * Parsing a property of a built entity again keeps its value: it is an object, not
   * declared, declared with a named non-entity type, or entity-typed and null or an object.
   */
  lemma ReparseKeeps(t: ClassTable, s: Schema, n: Node, k: string)
    requires ValidSchema(s) && ValidNode(s, n) && k in n.Props() && UntypedHoldObjects(s, n.Props())
    requires k in Names(s) && Lookup(s, k).value.kind.Nested? ==> n.Props()[k].Null? || n.Props()[k].Obj?
    ensures EntryFailure(t, s, k in Names(s), k, n.Props()[k]) == None
    ensures SlotOf(s, k, n.Props()[k]) == Put(n.Props()[k])
  {
    NamesValid(s);
    assert Decide(s, k in Names(s), k, n.Props()[k]) == Keep;
  }

  /**
   * Rebuilding an entity from an array listing exactly its `toArray` succeeds when its
   * untyped declared properties hold objects, and plans to store every property as it is:
   * a nested entity comes back as the same object.
   */
  lemma RebuildSucceeds(t: ClassTable, cls: string, attrs: PhpArray<Value>, e: Entity, view: View,
                        out: PhpArray<Value>)
    requires SchemasValid(t) && Failure(t, cls, attrs) == None && Built(t, cls, attrs, e, view)
    requires UntypedHoldObjects(t[cls], view[e].Props()) && Lists(out, view[e].Props())
    ensures Failure(t, cls, out) == None
    ensures Identifiers(out).Some?
    ensures Plan(t[cls], out) == map k | k in view[e].Props() :: Put(view[e].Props()[k])
  {
    BuiltIdentifiers(t, cls, attrs, e, view);
    ListedIdentifiers(view[e].Props(), out);
    RebuildEntries(t, cls, attrs, e, view, out);
    EntriesNone(t, t[cls], out, 0);
    BuiltKeys(t, cls, attrs, e, view);
    RebuildPlan(t[cls], view[e].Props(), out);
  }

  /** An array listing integer `id` and `module_id` passes the identifier checks. */
  lemma ListedIdentifiers(p: map<string, Value>, out: PhpArray<Value>)
    requires Lists(out, p) && "id" in p && p["id"].Int? && "module_id" in p && p["module_id"].Int?
    ensures Identifiers(out).Some?
  {
    var id := KeyIndex(out, "id");
    GetAt(out, id);
    var mid := KeyIndex(out, "module_id");
    GetAt(out, mid);
  }

  /** Each entry of the export passes `parseProperty` and is kept as it is. */
  lemma RebuildEntries(t: ClassTable, cls: string, attrs: PhpArray<Value>, e: Entity, view: View,
                       out: PhpArray<Value>)
    requires SchemasValid(t) && Failure(t, cls, attrs) == None && Built(t, cls, attrs, e, view)
    requires UntypedHoldObjects(t[cls], view[e].Props()) && Lists(out, view[e].Props())
    ensures forall i | 0 <= i < |out| ::
      && EntryFailure(t, t[cls], out[i].0 in Names(t[cls]), out[i].0, out[i].1).None?
      && SlotOf(t[cls], out[i].0, out[i].1) == Put(out[i].1)
  {
    var s := t[cls];
    forall i | 0 <= i < |out|
      ensures EntryFailure(t, s, out[i].0 in Names(s), out[i].0, out[i].1).None?
      ensures SlotOf(s, out[i].0, out[i].1) == Put(out[i].1)
    {
      var k := out[i].0;
      if k in Names(s) && Lookup(s, k).value.kind.Nested? {
        BuiltNestedValue(t, cls, attrs, e, view, k);
      }
      ReparseKeeps(t, s, view[e], k);
    }
  }

  /** When every entry is kept as it is, the plan stores exactly the listed properties. */
  lemma RebuildPlan(s: Schema, p: map<string, Value>, out: PhpArray<Value>)
    requires Lists(out, p) && Defaults(s).Keys <= p.Keys && Identifiers(out).Some?
    requires forall i | 0 <= i < |out| :: SlotOf(s, out[i].0, out[i].1) == Put(out[i].1)
    ensures Plan(s, out) == map k | k in p :: Put(p[k])
  {
    PlanKeys(s, out);
    forall k | k in p
      ensures k in Plan(s, out) && Plan(s, out)[k] == Put(p[k])
    {
      var i := KeyIndex(out, k);
      PlanEntry(s, out, i);
    }
  }

  /** What an entity rebuilt from its own export holds: the same properties, with the same values. */
  lemma RebuildSame(t: ClassTable, cls: string, attrs: PhpArray<Value>, e: Entity, view: View,
                    out: PhpArray<Value>, e2: Entity, view2: View)
    requires SchemasValid(t) && Failure(t, cls, attrs) == None && Built(t, cls, attrs, e, view)
    requires UntypedHoldObjects(t[cls], view[e].Props()) && Lists(out, view[e].Props())
    requires Built(t, cls, out, e2, view2)
    ensures view2[e2].Props() == view[e].Props()
  {
    RebuildSucceeds(t, cls, attrs, e, view, out);
    RealizesPuts(view2[e2].Props(), view[e].Props());
  }

  /** A store that realises a plan of plain values holds exactly those values. */
  lemma RealizesPuts(q: map<string, Value>, p: map<string, Value>)
    requires Realizes(q, map k | k in p :: Put(p[k]))
    ensures q == p
  {
    forall k | k in p
      ensures q[k] == p[k]
    {
      assert (map k | k in p :: Put(p[k]))[k] == Put(p[k]);
    }
  }

  /**
   * Rebuilding fails when an untyped declared property holds anything but an entity
   * object (the only kind of object a value can hold): `parseProperty` asks the missing
   * type for its name.
   */
  lemma RebuildUntyped(t: ClassTable, cls: string, attrs: PhpArray<Value>, e: Entity, view: View,
                       out: PhpArray<Value>)
    requires SchemasValid(t) && Built(t, cls, attrs, e, view)
    requires !UntypedHoldObjects(t[cls], view[e].Props()) && Lists(out, view[e].Props())
    ensures Failure(t, cls, out).Some?
  {
    UntypedEntryFails(t, t[cls], view[e].Props(), out);
  }

  lemma UntypedEntryFails(t: ClassTable, s: Schema, p: map<string, Value>, out: PhpArray<Value>)
    requires !UntypedHoldObjects(s, p) && Lists(out, p)
    ensures EntriesFailure(t, s, out, 0).Some?
  {
    var k :| k in p && k in Names(s) && Lookup(s, k).value.kind.Untyped? && !p[k].Obj?;
    var i := KeyIndex(out, k);
    assert EntryFailure(t, s, out[i].0 in Names(s), out[i].0, out[i].1) == Some(UntypedProperty(k));
    EntriesNone(t, s, out, 0);
  }

  // Constructions under a valid class table

  /** A plain `Entity` built from attributes without timestamps has both timestamps null. */
  lemma BaseTimestamps(t: ClassTable, attrs: PhpArray<Value>, e: Entity, view: View)
    requires ValidTable(t) && Built(t, BaseClass, attrs, e, view)
    ensures "created_at" !in Keys(attrs) ==> "created_at" in view[e].Props() && view[e].Props()["created_at"] == Null
    ensures "updated_at" !in Keys(attrs) ==> "updated_at" in view[e].Props() && view[e].Props()["updated_at"] == Null
  {
    BaseDefaults();
    BuiltKeys(t, BaseClass, attrs, e, view);
  }

  /**
   * Under a valid class table, constructing a declared class never fails for want of a
   * class, however deeply its entries nest entities.
   */
  lemma {:induction false} KnownClassesOnly(t: ClassTable, cls: string, attrs: PhpArray<Value>)
    requires NestedKnown(t) && cls in t
    ensures Failure(t, cls, attrs).Some? ==> !Failure(t, cls, attrs).value.UnknownClass?
    decreases Arr(attrs), 1
  {
    if IsInt(Get(attrs, "id")) && IsInt(Get(attrs, "module_id")) {
      KnownFromEntries(t, t[cls], attrs, 0);
    }
  }

  lemma {:induction false} KnownFromEntries(t: ClassTable, s: Schema, attrs: PhpArray<Value>, i: nat)
    requires NestedKnown(t) && FieldsKnown(t, s) && i <= |attrs|
    ensures EntriesFailure(t, s, attrs, i).Some? ==> !EntriesFailure(t, s, attrs, i).value.UnknownClass?
    decreases Arr(attrs), 0, |attrs| - i
  {
    if i < |attrs| {
      KnownEntry(t, s, attrs[i].0 in Names(s), attrs[i].0, attrs[i].1);
      KnownFromEntries(t, s, attrs, i + 1);
    }
  }

  lemma {:induction false} KnownEntry(t: ClassTable, s: Schema, present: bool, k: string, v: Value)
    requires NestedKnown(t) && FieldsKnown(t, s)
    ensures EntryFailure(t, s, present, k, v).Some? ==> !EntryFailure(t, s, present, k, v).value.UnknownClass?
    decreases v, 2
  {
    var d := Decide(s, present, k, v);
    if d.Instantiate? {
      assert Lookup(s, k).value in s;
      KnownClassesOnly(t, d.cls, d.entries);
    }
  }
}
