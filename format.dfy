/** The two formatters, `format_dataclass_field` and `format_init_var`,
    which rewrite line 0 of the caller's docstring lines and append bullet
    lines, each followed by a blank line. */
module Format {
  import opened Wrappers
  import opened Reflection

  /** How a call into the hook ends: normally, or with the `IndexError`
      that reading `lines[0]` of an empty list raises. */
  datatype Outcome = Completed | IndexError

  /** The caller's mutable list of docstring lines. */
  class DocLines {
    var items: seq<string>

    constructor (lines: seq<string>)
      ensures items == lines
    {
      items := lines;
    }

    /** `lines.append(line)`. */
    method Append(line: string)
      modifies this
      ensures items == old(items) + [line]
    {
      items := items + [line];
    }

    /** A bullet line and the blank line that follows it, appended one
        after the other. */
    method AppendBlock(bullet: string)
      modifies this
      ensures items == old(items) + [bullet, ""]
    {
      Append(bullet);
      Append("");
    }

    /** `lines[i] = line` on an index the list has. */
    method Assign(i: nat, line: string)
      requires i < |items|
      modifies this
      ensures items == old(items)[i := line]
    {
      items := items[i := line];
    }
  }

  const FieldOnlyBullet: string := "* **field-only**"
  const InitOnlyBullet: string := "* **init-only**"

  /** The bullet for a default value, the value shown as a literal. */
  function DefaultBullet(v: Value): (line: string)
    ensures line != FieldOnlyBullet && line != InitOnlyBullet && line != ""
  {
    var line := "* **default:** ``" + v.text + "``";
    assert line[4] == 'd';
    line
  }

  /** The bullet naming a default factory by module and function name. */
  function FactoryBullet(f: Factory): (line: string)
    ensures line != FieldOnlyBullet && line != InitOnlyBullet && line != ""
  {
    var line := "* **default factory:** ``" + f.moduleName + "." + f.name + "``";
    assert line[4] == 'd';
    line
  }

  /** The new line 0: the rendered type, a colon, then the old line 0. */
  function Header(typeText: string, line: string): string
  {
    typeText + ": " + line
  }

  /** How many optional blocks a field's bullets have. */
  function BlockCount(f: Field): nat
  {
    (if f.init then 0 else 1)
    + (if f.default.Some? then 1 else 0)
    + (if f.defaultFactory.Some? then 1 else 0)
  }

  /** The field-only block: present when the field is not an `__init__`
      parameter. */
  function FieldOnlyBlock(f: Field): seq<string>
  {
    if f.init then [] else [FieldOnlyBullet, ""]
  }

  /** The default block: present when the field has a default. */
  function DefaultBlock(f: Field): seq<string>
  {
    if f.default.Some? then [DefaultBullet(f.default.value), ""] else []
  }

  /** The default-factory block: present when the field has a factory. */
  function FactoryBlock(f: Field): seq<string>
  {
    if f.defaultFactory.Some? then [FactoryBullet(f.defaultFactory.value), ""] else []
  }

  /** The lines `format_dataclass_field` appends. Each block is a bullet and
      a blank line; the blocks come field-only, default, factory. */
  function FieldBullets(f: Field): (b: seq<string>)
    ensures |b| == 2 * BlockCount(f)
    ensures forall i :: 0 <= i < |b| && i % 2 == 1 ==> b[i] == ""
    ensures (FieldOnlyBullet in b) <==> !f.init
    ensures !f.init ==> b[0] == FieldOnlyBullet
    ensures f.default.Some? ==> b[if f.init then 0 else 2] == DefaultBullet(f.default.value)
    ensures f.defaultFactory.Some? ==> b[|b| - 2] == FactoryBullet(f.defaultFactory.value)
  {
    FieldOnlyBlock(f) + DefaultBlock(f) + FactoryBlock(f)
  }

  /** The lines after `format_dataclass_field` on a non-empty list. */
  function FormattedField(f: Field, lines: seq<string>, render: TypeRef -> string): seq<string>
    requires |lines| > 0
  {
    [Header(render(f.fieldType), lines[0])] + lines[1..] + FieldBullets(f)
  }

  /** `format_dataclass_field`. Line 0 is read before anything is appended,
      so an empty list raises and is left as it was. */
  method FormatDataclassField(f: Field, lines: DocLines, render: TypeRef -> string) returns (outcome: Outcome)
    modifies lines
    ensures outcome == IndexError <==> |old(lines.items)| == 0
    ensures lines.items == if |old(lines.items)| == 0 then old(lines.items)
                           else FormattedField(f, old(lines.items), render)
  {
    if |lines.items| == 0 {
      return IndexError;
    }
    ghost var header := [Header(render(f.fieldType), lines.items[0])] + lines.items[1..];
    lines.Assign(0, Header(render(f.fieldType), lines.items[0]));
    assert lines.items == header;
    if !f.init {
      lines.AppendBlock(FieldOnlyBullet);
    }
    assert lines.items == header + FieldOnlyBlock(f);
    if f.default.Some? {
      lines.AppendBlock(DefaultBullet(f.default.value));
    }
    assert lines.items == header + FieldOnlyBlock(f) + DefaultBlock(f);
    if f.defaultFactory.Some? {
      lines.AppendBlock(FactoryBullet(f.defaultFactory.value));
    }
    assert lines.items == header + FieldOnlyBlock(f) + DefaultBlock(f) + FactoryBlock(f);
    assert lines.items == header + FieldBullets(f);
    outcome := Completed;
  }

  /** The type an init-only parameter's header shows: the runtime type of
      its default when it has one, its annotation otherwise. */
  function InitVarHeaderType(annotation: TypeRef, default: Option<Value>): TypeRef
  {
    match default
    case Some(v) => v.runtimeType
    case None => annotation
  }

  /** The lines `format_init_var` appends: always the init-only block, then
      the default block when there is a default. */
  function InitVarBullets(default: Option<Value>): seq<string>
  {
    [InitOnlyBullet, ""] + (if default.Some? then [DefaultBullet(default.value), ""] else [])
  }

  /** The lines after `format_init_var`. The bullets are appended first and
      line 0 is rewritten last, so on an empty list the header is put in
      front of the init-only bullet. */
  function FormattedInitVar(annotation: TypeRef, default: Option<Value>, lines: seq<string>,
                            render: TypeRef -> string): seq<string>
  {
    var grown := lines + InitVarBullets(default);
    [Header(render(InitVarHeaderType(annotation, default)), grown[0])] + grown[1..]
  }

  /** `format_init_var`. It never raises: line 0 exists once the init-only
      bullet has been appended. */
  method FormatInitVar(annotation: TypeRef, default: Option<Value>, lines: DocLines,
                       render: TypeRef -> string)
    modifies lines
    ensures lines.items == FormattedInitVar(annotation, default, old(lines.items), render)
  {
    lines.AppendBlock(InitOnlyBullet);
    var fieldType: TypeRef;
    if default.Some? {
      lines.AppendBlock(DefaultBullet(default.value));
      fieldType := default.value.runtimeType;
    } else {
      fieldType := annotation;
    }
    lines.Assign(0, Header(render(fieldType), lines.items[0]));
  }

  /** The shape of a formatted field: line 0 gains the rendered type, the
      other old lines stay in place, and the list grows by two lines per
      block, each bullet followed by a blank line. */
  lemma FormattedFieldShape(f: Field, lines: seq<string>, render: TypeRef -> string)
    requires |lines| > 0
    ensures var r := FormattedField(f, lines, render);
      && |r| == |lines| + 2 * BlockCount(f)
      && r[0] == render(f.fieldType) + ": " + lines[0]
      && r[1..|lines|] == lines[1..]
      && (forall i :: |lines| <= i < |r| && (i - |lines|) % 2 == 1 ==> r[i] == "")
      && (!f.init ==> r[|lines|] == FieldOnlyBullet)
      && (f.default.Some? ==> r[|lines| + (if f.init then 0 else 2)] == DefaultBullet(f.default.value))
      && (f.defaultFactory.Some? ==> r[|r| - 2] == FactoryBullet(f.defaultFactory.value))
  {

  }

  /** A constructor field with neither default nor factory gets only the
      header: no line is appended. */
  lemma PlainFieldGetsOnlyHeader(f: Field, lines: seq<string>, render: TypeRef -> string)
    requires |lines| > 0 && f.init && f.default.None? && f.defaultFactory.None?
    ensures FormattedField(f, lines, render) == [render(f.fieldType) + ": " + lines[0]] + lines[1..]
  {
  }

  /** The field-only bullet appears exactly when the field is not a
      constructor parameter, whatever its default. */
  lemma FieldOnlyBulletIffNotInit(f: Field, lines: seq<string>, render: TypeRef -> string)
    requires |lines| > 0 && forall i :: 1 <= i < |lines| ==> lines[i] != FieldOnlyBullet
    requires !f.init || render(f.fieldType) + ": " + lines[0] != FieldOnlyBullet
    ensures FieldOnlyBullet in FormattedField(f, lines, render) <==> !f.init
  {

  }

  /** The shape of a formatted init-only parameter on a non-empty list:
      line 0 shows the default's runtime type when there is a default and
      the annotation otherwise; the init-only block is always appended and
      the default block only with a default. */
  lemma FormattedInitVarShape(annotation: TypeRef, default: Option<Value>, lines: seq<string>,
                              render: TypeRef -> string)
    requires |lines| > 0
    ensures var r := FormattedInitVar(annotation, default, lines, render);
      && |r| == |lines| + (if default.Some? then 4 else 2)
      && r[0] == render(if default.Some? then default.value.runtimeType else annotation) + ": " + lines[0]
      && r[1..|lines|] == lines[1..]
      && r[|lines|] == InitOnlyBullet && r[|lines| + 1] == ""
      && (default.Some? ==> r[|lines| + 2] == DefaultBullet(default.value) && r[|lines| + 3] == "")
  {
    var r := FormattedInitVar(annotation, default, lines, render);
    var grown := lines + InitVarBullets(default);
    assert r[1..] == grown[1..];
    assert r[1..|lines|] == grown[1..|lines|];

  }

  /** On an empty list the init-only header is prefixed to the init-only
      bullet itself: the list becomes that line, a blank line and, with a
      default, the default block. */
  lemma FormattedInitVarOnEmpty(annotation: TypeRef, default: Option<Value>, render: TypeRef -> string)
    ensures FormattedInitVar(annotation, default, [], render)
      == [render(InitVarHeaderType(annotation, default)) + ": " + InitOnlyBullet, ""]
         + (if default.Some? then [DefaultBullet(default.value), ""] else [])
  {
  }
}
