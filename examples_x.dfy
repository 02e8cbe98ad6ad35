/** The dataclass `X` of the repository's tests and what the hook does
    with its attributes, for any renderer of type annotations. `X`'s
    `InitVar[str]` annotations are taken to pass the init-only check, as
    on the Python versions those tests expect. */
module ExamplesX {
  import opened Wrappers
  import opened Reflection
  import opened Resolve
  import opened Format
  import opened Hook
  import Names

  const StrType := TypeRef("str", false)
  const IntType := TypeRef("int", false)
  const ListIntType := TypeRef("typing.List[int]", false)
  const InitVarStrType := TypeRef("dataclasses.InitVar", true)

  const Key1 := Field("key1", StrType, None, None, true)
  const Key2 := Field("key2", StrType, Some(Value("default", StrType)), None, true)
  const Key3 := Field("key3", IntType, Some(Value("10", IntType)), None, true)
  const Key4 := Field("key4", ListIntType, None, Some(Factory("builtins", "list")), true)
  const Key5 := Field("key5", StrType, None, None, false)

  const X := DataClass(
    [Key1, Key2, Key3, Key4, Key5],
    map["key1" := StrType, "key6" := InitVarStrType, "key2" := StrType, "key3" := IntType,
        "key4" := ListIntType, "key5" := StrType, "key7" := InitVarStrType],
    map["key2" := Value("default", StrType), "key3" := Value("10", IntType),
        "key7" := Value("10", IntType)])

  /** The registry once `module.X` has been documented as a class. */
  function RegistryWithX(): (r: map<string, DataClass>)
    ensures r == map["module.X" := X]
  {
    Registered(map[], "module.X", DataClassObject(X))
  }

  const Description: seq<string> := ["Key Description", ""]

  /** `key1: str` resolves to the first stored field. */
  lemma Key1Resolution()
    ensures Resolution(RegistryWithX(), "attribute", "module.X.key1", OtherObject) == Some(FieldOf(Key1))
  {
    assert "module.X.key1" == "module.X" + [Names.Dot] + "key1";
    Names.SplitNameUnique("module.X", "key1");
    FirstMatchingFieldWins(RegistryWithX(), "module.X" + [Names.Dot] + "key1", "module.X", "key1", 0);
  }

  /** `key2: str = "default"` resolves to the second stored field. */
  lemma Key2Resolution()
    ensures Resolution(RegistryWithX(), "attribute", "module.X.key2", OtherObject) == Some(FieldOf(Key2))
  {
    assert "module.X.key2" == "module.X" + [Names.Dot] + "key2";
    Names.SplitNameUnique("module.X", "key2");
    FirstMatchingFieldWins(RegistryWithX(), "module.X" + [Names.Dot] + "key2", "module.X", "key2", 1);
  }

  /** `key3: int = field(default=10)` resolves to the third stored field. */
  lemma Key3Resolution()
    ensures Resolution(RegistryWithX(), "attribute", "module.X.key3", OtherObject) == Some(FieldOf(Key3))
  {
    assert "module.X.key3" == "module.X" + [Names.Dot] + "key3";
    Names.SplitNameUnique("module.X", "key3");
    FirstMatchingFieldWins(RegistryWithX(), "module.X" + [Names.Dot] + "key3", "module.X", "key3", 2);
  }

  /** `key4: List[int] = field(default_factory=list)` resolves to the fourth. */
  lemma Key4Resolution()
    ensures Resolution(RegistryWithX(), "attribute", "module.X.key4", OtherObject) == Some(FieldOf(Key4))
  {
    assert "module.X.key4" == "module.X" + [Names.Dot] + "key4";
    Names.SplitNameUnique("module.X", "key4");
    FirstMatchingFieldWins(RegistryWithX(), "module.X" + [Names.Dot] + "key4", "module.X", "key4", 3);
  }

  /** `key5: str = field(init=False)` resolves to the fifth. */
  lemma Key5Resolution()
    ensures Resolution(RegistryWithX(), "attribute", "module.X.key5", OtherObject) == Some(FieldOf(Key5))
  {
    assert "module.X.key5" == "module.X" + [Names.Dot] + "key5";
    Names.SplitNameUnique("module.X", "key5");
    FirstMatchingFieldWins(RegistryWithX(), "module.X" + [Names.Dot] + "key5", "module.X", "key5", 4);
  }

  /** `key6: InitVar[str]` resolves as init-only, without a default. */
  lemma Key6Resolution()
    ensures Resolution(RegistryWithX(), "attribute", "module.X.key6", OtherObject) == Some(InitVarOf(InitVarStrType, None))
  {
    assert "module.X.key6" == "module.X" + [Names.Dot] + "key6";
    Names.SplitNameUnique("module.X", "key6");
    InitVarWins(RegistryWithX(), "module.X" + [Names.Dot] + "key6", "module.X", "key6");
  }

  /** `key7: InitVar[str] = 10` resolves as init-only, with the default 10. */
  lemma Key7Resolution()
    ensures Resolution(RegistryWithX(), "attribute", "module.X.key7", OtherObject)
      == Some(InitVarOf(InitVarStrType, Some(Value("10", IntType))))
  {
    assert "module.X.key7" == "module.X" + [Names.Dot] + "key7";
    Names.SplitNameUnique("module.X", "key7");
    InitVarWins(RegistryWithX(), "module.X" + [Names.Dot] + "key7", "module.X", "key7");
  }

  /** A leaf that differs from every name `X` declares is neither an
      annotation nor a field of `X`. */
  lemma NotDeclaredByX(leaf: string)
    requires leaf !in {"key1", "key2", "key3", "key4", "key5", "key6", "key7"}
    ensures leaf !in X.annotations
    ensures forall j :: 0 <= j < |X.fields| ==> X.fields[j].name != leaf
  {
    assert X.fields == [Key1, Key2, Key3, Key4, Key5];
  }

  /** `not_a_field1` is a name `X` never declares (its `__post_init__`
      sets `not_a_field`), so it is not a field. */
  lemma PostInitAttributeResolution()
    ensures Resolution(RegistryWithX(), "attribute", "module.X.not_a_field1", OtherObject) == None
  {
    assert "module.X.not_a_field1" == "module.X" + [Names.Dot] + "not_a_field1";
    Names.SplitNameUnique("module.X", "not_a_field1");
    NotDeclaredByX("not_a_field1");
    UnknownLeafIsNotAField(RegistryWithX(), "module.X" + [Names.Dot] + "not_a_field1", "module.X", "not_a_field1");
  }

  /** An attribute set in `__post_init__` from the init-only `key7` is not
      a field either, although `key7` itself is. */
  lemma PostInitAttribute2Resolution()
    ensures Resolution(RegistryWithX(), "attribute", "module.X.not_a_field2", OtherObject) == None
  {
    assert "module.X.not_a_field2" == "module.X" + [Names.Dot] + "not_a_field2";
    Names.SplitNameUnique("module.X", "not_a_field2");
    NotDeclaredByX("not_a_field2");
    UnknownLeafIsNotAField(RegistryWithX(), "module.X" + [Names.Dot] + "not_a_field2", "module.X", "not_a_field2");
  }

  /** A name `X` does not declare at all is not a field. */
  lemma UnknownAttributeResolution()
    ensures Resolution(RegistryWithX(), "attribute", "module.X.not_a_anything", OtherObject) == None
  {
    assert "module.X.not_a_anything" == "module.X" + [Names.Dot] + "not_a_anything";
    Names.SplitNameUnique("module.X", "not_a_anything");
    NotDeclaredByX("not_a_anything");
    UnknownLeafIsNotAField(RegistryWithX(), "module.X" + [Names.Dot] + "not_a_anything", "module.X", "not_a_anything");
  }

  /** A name under the unregistered `module.X.Y` is not a field. */
  lemma UnregisteredOwnerResolution()
    ensures Resolution(RegistryWithX(), "attribute", "module.X.Y.not_a_anything", OtherObject) == None
  {
    assert "module.X.Y.not_a_anything" == "module.X.Y" + [Names.Dot] + "not_a_anything";
    Names.SplitNameUnique("module.X.Y", "not_a_anything");
  }

  /** The default bullet the tests look for, for the default `10`. */
  lemma TenDefaultBullet()
    ensures DefaultBullet(Value("10", IntType)) == "* **default:** ``10``"
  {
  }

  /** The default bullet the tests look for, for the default `"default"`. */
  lemma StringDefaultBullet()
    ensures DefaultBullet(Value("default", StrType)) == "* **default:** ``default``"
  {
  }

  /** The factory bullet the tests look for, for the factory `list`. */
  lemma ListFactoryBullet()
    ensures FactoryBullet(Factory("builtins", "list")) == "* **default factory:** ``builtins.list``"
  {
  }

  /** The lines for `key1`: only the `str` header, nothing appended. */
  lemma Key1Lines(render: TypeRef -> string)
    ensures FormattedField(Key1, Description, render) == [render(StrType) + ": Key Description", ""]
  {
    var header := render(StrType) + ": Key Description";
    PlainFieldGetsOnlyHeader(Key1, Description, render);
    assert render(Key1.fieldType) + ": " + Description[0] == header;
    assert Description[1..] == [""];
    assert [header] + [""] == [header, ""];
  }

  /** The lines for `key2`: the `str` header and the default bullet. */
  lemma Key2Lines(render: TypeRef -> string)
    ensures FormattedField(Key2, Description, render)
      == [render(StrType) + ": Key Description", "", "* **default:** ``default``", ""]
  {
    var header := render(StrType) + ": Key Description";
    var dflt := DefaultBullet(Value("default", StrType));
    StringDefaultBullet();
    assert Header(render(Key2.fieldType), Description[0]) == header;
    assert Description[1..] == [""];
    assert FieldBullets(Key2) == [dflt, ""];
    assert [header] + [""] + [dflt, ""] == [header, "", dflt, ""];
  }

  /** The lines for `key3`: the `int` header and the default bullet. */
  lemma Key3Lines(render: TypeRef -> string)
    ensures FormattedField(Key3, Description, render)
      == [render(IntType) + ": Key Description", "", "* **default:** ``10``", ""]
  {
    var header := render(IntType) + ": Key Description";
    var ten := DefaultBullet(Value("10", IntType));
    TenDefaultBullet();
    assert Header(render(Key3.fieldType), Description[0]) == header;
    assert Description[1..] == [""];
    assert FieldBullets(Key3) == [ten, ""];
    assert [header] + [""] + [ten, ""] == [header, "", ten, ""];
  }

  /** The lines for `key4`: the `List[int]` header and the factory bullet. */
  lemma Key4Lines(render: TypeRef -> string)
    ensures FormattedField(Key4, Description, render)
      == [render(ListIntType) + ": Key Description", "", "* **default factory:** ``builtins.list``", ""]
  {
    var header := render(ListIntType) + ": Key Description";
    var list := FactoryBullet(Factory("builtins", "list"));
    ListFactoryBullet();
    assert Header(render(Key4.fieldType), Description[0]) == header;
    assert Description[1..] == [""];
    assert FieldBullets(Key4) == [list, ""];
    assert [header] + [""] + [list, ""] == [header, "", list, ""];
  }

  /** The lines for `key5`: the `str` header and the field-only bullet. */
  lemma Key5Lines(render: TypeRef -> string)
    ensures FormattedField(Key5, Description, render)
      == [render(StrType) + ": Key Description", "", "* **field-only**", ""]
  {
    var header := render(StrType) + ": Key Description";
    assert Header(render(Key5.fieldType), Description[0]) == header;
    assert Description[1..] == [""];
    assert FieldBullets(Key5) == [FieldOnlyBullet, ""];
    assert [header] + [""] + [FieldOnlyBullet, ""] == [header, "", "* **field-only**", ""];
  }

  /** The lines for `key6`: the annotation as header and the init-only bullet. */
  lemma Key6Lines(render: TypeRef -> string)
    ensures FormattedInitVar(InitVarStrType, None, Description, render)
      == [render(InitVarStrType) + ": Key Description", "", "* **init-only**", ""]
  {
    assert Header(render(InitVarHeaderType(InitVarStrType, None)), Description[0])
      == render(InitVarStrType) + ": Key Description";
    assert (Description + InitVarBullets(None))[1..] == ["", "* **init-only**", ""];
  }

  /** The lines for `key7`: the default's type `int` as header, then the
      init-only and the default bullets. */
  lemma Key7Lines(render: TypeRef -> string)
    ensures FormattedInitVar(InitVarStrType, Some(Value("10", IntType)), Description, render)
      == [render(IntType) + ": Key Description", "", "* **init-only**", "", "* **default:** ``10``", ""]
  {
    var ten := DefaultBullet(Value("10", IntType));
    TenDefaultBullet();
    assert Header(render(InitVarHeaderType(InitVarStrType, Some(Value("10", IntType)))), Description[0])
      == render(IntType) + ": Key Description";
    assert (Description + InitVarBullets(Some(Value("10", IntType))))[1..]
      == ["", "* **init-only**", "", ten, ""];
  }

  /** The test expectations for the stored fields of `X`, end to end. */
  lemma FieldDocstringsOfX(render: TypeRef -> string)
    ensures Processed(RegistryWithX(), "attribute", "module.X.key1", OtherObject, Description, render)
      == (Completed, [render(StrType) + ": Key Description", ""])
    ensures Processed(RegistryWithX(), "attribute", "module.X.key2", OtherObject, Description, render)
      == (Completed, [render(StrType) + ": Key Description", "", "* **default:** ``default``", ""])
    ensures Processed(RegistryWithX(), "attribute", "module.X.key3", OtherObject, Description, render)
      == (Completed, [render(IntType) + ": Key Description", "", "* **default:** ``10``", ""])
    ensures Processed(RegistryWithX(), "attribute", "module.X.key4", OtherObject, Description, render)
      == (Completed, [render(ListIntType) + ": Key Description", "", "* **default factory:** ``builtins.list``", ""])
    ensures Processed(RegistryWithX(), "attribute", "module.X.key5", OtherObject, Description, render)
      == (Completed, [render(StrType) + ": Key Description", "", "* **field-only**", ""])
  {
    Key1Resolution();
    Key1Lines(render);
    Key2Resolution();
    Key2Lines(render);
    Key3Resolution();
    Key3Lines(render);
    Key4Resolution();
    Key4Lines(render);
    Key5Resolution();
    Key5Lines(render);
  }

  /** The test expectations for the init-only parameters of `X`, end to end. */
  lemma InitVarDocstringsOfX(render: TypeRef -> string)
    ensures Processed(RegistryWithX(), "attribute", "module.X.key6", OtherObject, Description, render)
      == (Completed, [render(InitVarStrType) + ": Key Description", "", "* **init-only**", ""])
    ensures Processed(RegistryWithX(), "attribute", "module.X.key7", OtherObject, Description, render)
      == (Completed, [render(IntType) + ": Key Description", "", "* **init-only**", "", "* **default:** ``10``", ""])
  {
    Key6Resolution();
    Key6Lines(render);
    Key7Resolution();
    Key7Lines(render);
  }

  /** The test expectations for non-fields of `X`: whatever the lines,
      they stay as they were. */
  lemma NonFieldDocstringsOfX(lines: seq<string>, render: TypeRef -> string)
    ensures Processed(RegistryWithX(), "attribute", "module.X.not_a_field1", OtherObject, lines, render)
      == (Completed, lines)
    ensures Processed(RegistryWithX(), "attribute", "module.X.not_a_field2", OtherObject, lines, render)
      == (Completed, lines)
    ensures Processed(RegistryWithX(), "method", "module.X.method", OtherObject, lines, render)
      == (Completed, lines)
    ensures Processed(RegistryWithX(), "attribute", "module.X.not_a_anything", OtherObject, lines, render)
      == (Completed, lines)
    ensures Processed(RegistryWithX(), "attribute", "module.X.Y.not_a_anything", OtherObject, lines, render)
      == (Completed, lines)
  {
    PostInitAttributeResolution();
    PostInitAttribute2Resolution();
    UnknownAttributeResolution();
    UnregisteredOwnerResolution();
  }
}
