/** Resolving a documented attribute name to a dataclass field or an
    init-only parameter (`resolve_field`, `resolve_init_var`). Every failure
    is the single "not a field" outcome, `None`. */
module Resolve {
  import opened Wrappers
  import opened Reflection
  import Names

  /** What a successful resolution produces: a stored field, or the
      annotation of an init-only parameter together with its default. */
  datatype Resolved =
    | FieldOf(field: Field)
    | InitVarOf(annotation: TypeRef, default: Option<Value>)

  /** The registry after observing `obj` under `name`: a dataclass is
      recorded (last write wins), anything else leaves it as it was. */
  function Registered(registry: map<string, DataClass>, name: string, obj: DocObject): (r: map<string, DataClass>)
    ensures IsDataClass(obj) ==> name in r && r[name] == obj.cls
    ensures forall k :: k != name ==> (k in r <==> k in registry)
    ensures forall k :: k != name && k in registry ==> r[k] == registry[k]
    ensures !IsDataClass(obj) ==> r == registry
  {
    if IsDataClass(obj) then registry[name := obj.cls] else registry
  }

  /** True when `leaf` is annotated in `cls` with an init-only marker class. */
  predicate IsInitVarAnnotated(leaf: string, cls: DataClass)
  {
    leaf in cls.annotations && cls.annotations[leaf].isInitVarClass
  }

  /** `resolve_init_var`: the annotation of `leaf` and the class-level
      default looked up by the same name (`None` when there is none). */
  function ResolveInitVar(leaf: string, cls: DataClass): (r: Option<(TypeRef, Option<Value>)>)
    ensures r.Some? <==> IsInitVarAnnotated(leaf, cls)
    ensures r.Some? ==> r.value.0 == cls.annotations[leaf]
    ensures r.Some? ==> (r.value.1.Some? <==> leaf in cls.attributes)
    ensures r.Some? && leaf in cls.attributes ==> r.value.1 == Some(cls.attributes[leaf])
  {
    if leaf !in cls.annotations then None
    else
      var annotation := cls.annotations[leaf];
      if !annotation.isInitVarClass then None
      else
        var default := if leaf in cls.attributes then Some(cls.attributes[leaf]) else None;
        Some((annotation, default))
  }

  /** The position of the first field, in declaration order, whose name is
      exactly `leaf` (`next(f for f in fields if f.name == leaf)`). */
  function FirstFieldNamed(fields: seq<Field>, leaf: string): (r: Option<nat>)
    ensures r.Some? ==> r.value < |fields| && fields[r.value].name == leaf
    ensures r.Some? ==> forall j :: 0 <= j < r.value ==> fields[j].name != leaf
    ensures r.None? <==> forall j :: 0 <= j < |fields| ==> fields[j].name != leaf
  {
    if |fields| == 0 then None
    else if fields[0].name == leaf then Some(0)
    else
      match FirstFieldNamed(fields[1..], leaf)
      case None => None
      case Some(i) => Some(i + 1)
  }

  /** What `resolve_field` returns against the registry as it was before
      the call; `None` is the "not a field" signal. */
  function Resolution(registry: map<string, DataClass>, what: string, name: string, obj: DocObject): Option<Resolved>
  {
    if IsDataClass(obj) then None
    else if what != "attribute" then None
    else
      var (owner, leaf) := Names.SplitName(name);
      if owner !in registry then None
      else
        var cls := registry[owner];
        match ResolveInitVar(leaf, cls)
        case Some((annotation, default)) => Some(InitVarOf(annotation, default))
        case None =>
          match FirstFieldNamed(cls.fields, leaf)
          case Some(i) => Some(FieldOf(cls.fields[i]))
          case None => None
  }

  /** Observing a dataclass records it and is never itself a field; nor is
      anything documented under a category other than "attribute". */
  lemma NotAttributeIsNotAField(registry: map<string, DataClass>, what: string, name: string, obj: DocObject)
    requires IsDataClass(obj) || what != "attribute"
    ensures Resolution(registry, what, name, obj) == None
  {
  }

  /** An attribute whose owner was never registered is not a field. */
  lemma UnregisteredOwnerIsNotAField(registry: map<string, DataClass>, name: string, obj: DocObject)
    requires Names.SplitName(name).0 !in registry
    ensures Resolution(registry, "attribute", name, obj) == None
  {
  }

  /** A leaf that is neither init-only annotated nor the name of any field
      of a registered owner is not a field. */
  lemma UnknownLeafIsNotAField(registry: map<string, DataClass>, name: string, owner: string, leaf: string)
    requires Names.SplitName(name) == (owner, leaf) && owner in registry
    requires !IsInitVarAnnotated(leaf, registry[owner])
    requires forall j :: 0 <= j < |registry[owner].fields| ==> registry[owner].fields[j].name != leaf
    ensures Resolution(registry, "attribute", name, OtherObject) == None
  {
  }

  /** The init-only parameter is tried first: an init-only annotated leaf
      resolves to its annotation and class default, whatever the fields. */
  lemma InitVarWins(registry: map<string, DataClass>, name: string, owner: string, leaf: string)
    requires Names.SplitName(name) == (owner, leaf) && owner in registry
    requires IsInitVarAnnotated(leaf, registry[owner])
    ensures var cls := registry[owner];
      Resolution(registry, "attribute", name, OtherObject)
        == Some(InitVarOf(cls.annotations[leaf],
                          if leaf in cls.attributes then Some(cls.attributes[leaf]) else None))
  {
  }

  /** Otherwise the leaf resolves to the first field of that exact name. */
  lemma FirstMatchingFieldWins(registry: map<string, DataClass>, name: string, owner: string, leaf: string,
                                i: nat)
    requires Names.SplitName(name) == (owner, leaf) && owner in registry
    requires !IsInitVarAnnotated(leaf, registry[owner])
    requires i < |registry[owner].fields| && registry[owner].fields[i].name == leaf
    requires forall j :: 0 <= j < i ==> registry[owner].fields[j].name != leaf
    ensures Resolution(registry, "attribute", name, OtherObject)
      == Some(FieldOf(registry[owner].fields[i]))
  {
  }

  /** A resolved field always belongs to the owner and carries exactly the
      leaf's name: there are no partial or case-insensitive matches. */
  lemma ResolvedFieldIsExact(registry: map<string, DataClass>, what: string, name: string, obj: DocObject)
    requires Resolution(registry, what, name, obj).Some?
    requires Resolution(registry, what, name, obj).value.FieldOf?
    ensures var (owner, leaf) := Names.SplitName(name);
      owner in registry
      && Resolution(registry, what, name, obj).value.field in registry[owner].fields
      && Resolution(registry, what, name, obj).value.field.name == leaf
      && !IsInitVarAnnotated(leaf, registry[owner])
  {
  }

  /** Observing the same dataclass under the same name twice leaves the
      registry, and so every later resolution, as after the first time. */
  lemma ReRegistrationIsIdempotent(registry: map<string, DataClass>, name: string, cls: DataClass,
                                   what: string, query: string, obj: DocObject)
    ensures var once := Registered(registry, name, DataClassObject(cls));
      Registered(once, name, DataClassObject(cls)) == once
      && Resolution(Registered(once, name, DataClassObject(cls)), what, query, obj)
         == Resolution(once, what, query, obj)
  {
  }
}
