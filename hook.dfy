/** The entry point `process_docstring` and the module-level registry
    `DATA_CLASSES` it consults. */
module Hook {
  import opened Wrappers
  import opened Reflection
  import opened Resolve
  import opened Format
  import Names

  /** The outcome and the lines after one call of the hook, given the
      registry before the call. "Not a field" returns normally and leaves
      the lines alone; so does every failure of resolution. */
  function Processed(registry: map<string, DataClass>, what: string, name: string, obj: DocObject,
                     lines: seq<string>, render: TypeRef -> string): (Outcome, seq<string>)
  {
    match Resolution(registry, what, name, obj)
    case None => (Completed, lines)
    case Some(FieldOf(f)) =>
      if |lines| == 0 then (IndexError, lines) else (Completed, FormattedField(f, lines, render))
    case Some(InitVarOf(annotation, default)) =>
      (Completed, FormattedInitVar(annotation, default, lines, render))
  }

  /** The state of the Python module: its `DATA_CLASSES` registry, which
      lives for the whole documentation build. */
  class DocstringHook {
    var dataClasses: map<string, DataClass>

    constructor ()
      ensures dataClasses == map[]
    {
      dataClasses := map[];
    }

    /** `resolve_field`: a dataclass is recorded under its name and is not
      a field; an attribute is looked up in the registry as it stood. */
    method ResolveField(what: string, name: string, obj: DocObject) returns (r: Option<Resolved>)
      modifies this
      ensures dataClasses == Registered(old(dataClasses), name, obj)
      ensures r == Resolution(old(dataClasses), what, name, obj)
    {
      if IsDataClass(obj) {
        dataClasses := dataClasses[name := obj.cls];
        return None;
      }
      if what != "attribute" {
        return None;
      }
      var (owner, leaf) := Names.SplitName(name);
      if owner !in dataClasses {
        return None;
      }
      var cls := dataClasses[owner];
      var initVar := ResolveInitVar(leaf, cls);
      if initVar.Some? {
        return Some(InitVarOf(initVar.value.0, initVar.value.1));
      }
      var i := FirstFieldNamed(cls.fields, leaf);
      if i.None? {
        return None;
      }
      return Some(FieldOf(cls.fields[i.value]));
    }

    /** `process_docstring`: the lines change only after a successful
      resolution, through the formatter for the kind of thing resolved. */
    method ProcessDocstring(what: string, name: string, obj: DocObject, lines: DocLines,
                            render: TypeRef -> string) returns (outcome: Outcome)
      modifies this, lines
      ensures dataClasses == Registered(old(dataClasses), name, obj)
      ensures (outcome, lines.items) == Processed(old(dataClasses), what, name, obj, old(lines.items), render)
    {
      var result := ResolveField(what, name, obj);
      if result.None? {
        return Completed;
      }
      match result.value {
        case FieldOf(f) =>
          outcome := FormatDataclassField(f, lines, render);
        case InitVarOf(annotation, default) =>
          FormatInitVar(annotation, default, lines, render);
          outcome := Completed;
      }
    }
  }

  /** Observing a dataclass, or anything documented under a category other
      than "attribute", leaves the lines exactly as they were. */
  lemma NotAttributeLeavesLines(registry: map<string, DataClass>, what: string, name: string,
                                obj: DocObject, lines: seq<string>, render: TypeRef -> string)
    requires IsDataClass(obj) || what != "attribute"
    ensures Processed(registry, what, name, obj, lines, render) == (Completed, lines)
  {

  }

  /** An attribute of an owner that was never registered leaves the lines
      exactly as they were. */
  lemma UnregisteredOwnerLeavesLines(registry: map<string, DataClass>, name: string, obj: DocObject,
                                     lines: seq<string>, render: TypeRef -> string)
    requires Names.SplitName(name).0 !in registry
    ensures Processed(registry, "attribute", name, obj, lines, render) == (Completed, lines)
  {

  }

  /** A leaf that names neither an init-only parameter nor a field of its
      registered owner leaves the lines exactly as they were. */
  lemma UnknownLeafLeavesLines(registry: map<string, DataClass>, name: string, owner: string, leaf: string,
                               lines: seq<string>, render: TypeRef -> string)
    requires Names.SplitName(name) == (owner, leaf) && owner in registry
    requires !IsInitVarAnnotated(leaf, registry[owner])
    requires forall j :: 0 <= j < |registry[owner].fields| ==> registry[owner].fields[j].name != leaf
    ensures Processed(registry, "attribute", name, OtherObject, lines, render) == (Completed, lines)
  {
    UnknownLeafIsNotAField(registry, name, owner, leaf);
  }

  /** The two calls a build makes: once the owner has been observed, its
      field's docstring is formatted from the first field of that name. */
  lemma RegisterThenDocumentField(registry: map<string, DataClass>, name: string, owner: string, cls: DataClass,
                                  leaf: string, i: nat, lines: seq<string>, render: TypeRef -> string)
    requires Names.SplitName(name) == (owner, leaf) && |lines| > 0
    requires !IsInitVarAnnotated(leaf, cls)
    requires i < |cls.fields| && cls.fields[i].name == leaf
    requires forall j :: 0 <= j < i ==> cls.fields[j].name != leaf
    ensures Processed(registry, "class", owner, DataClassObject(cls), lines, render) == (Completed, lines)
    ensures Processed(Registered(registry, owner, DataClassObject(cls)), "attribute",
                      name, OtherObject, lines, render)
      == (Completed, FormattedField(cls.fields[i], lines, render))
  {
    FirstMatchingFieldWins(Registered(registry, owner, DataClassObject(cls)), name, owner, leaf, i);
  }

  /** Once the owner has been observed, an init-only parameter's docstring
      is formatted from its annotation and class default. */
  lemma RegisterThenDocumentInitVar(registry: map<string, DataClass>, name: string, owner: string,
                                    cls: DataClass, leaf: string, lines: seq<string>, render: TypeRef -> string)
    requires Names.SplitName(name) == (owner, leaf)
    requires IsInitVarAnnotated(leaf, cls)
    ensures Processed(Registered(registry, owner, DataClassObject(cls)), "attribute",
                      name, OtherObject, lines, render)
      == (Completed, FormattedInitVar(cls.annotations[leaf],
                                      if leaf in cls.attributes then Some(cls.attributes[leaf]) else None,
                                      lines, render))
  {
    InitVarWins(Registered(registry, owner, DataClassObject(cls)), name, owner, leaf);
  }

  /** A resolved field on an empty list raises `IndexError` and leaves the
      list empty; no other path raises. */
  lemma OnlyFieldOnEmptyRaises(registry: map<string, DataClass>, what: string, name: string,
                               obj: DocObject, lines: seq<string>, render: TypeRef -> string)
    ensures Processed(registry, what, name, obj, lines, render).0 == IndexError
      <==> |lines| == 0 && Resolution(registry, what, name, obj).Some?
           && Resolution(registry, what, name, obj).value.FieldOf?
    ensures Processed(registry, what, name, obj, lines, render).0 == IndexError
      ==> Processed(registry, what, name, obj, lines, render).1 == lines
  {
  }
}
