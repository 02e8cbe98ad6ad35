# sphinx_data_fields: a Dafny model of the docstring hook

`sphinx_data_fields` is a Sphinx autodoc extension. For every documented
object, autodoc calls its `process_docstring` hook. When the object is a
dataclass or a dataclass instance, the hook records it under its name in a
module-level registry. When it is an
attribute of a recorded dataclass, the hook rewrites the attribute's first
docstring line to `"<rendered type>: <old text>"` and appends bullet
lines: field-only, default, default factory, init-only. Anything else is
"not a field" and the docstring lines stay exactly as they were.

This project models that hook and proves its behaviour:

- `names.dfy` (module `Names`): `split_name`. Python's `str.split` and
  `str.join` are written out. Lemmas prove that the leaf is the text after
  the last dot, that `owner + "." + leaf` gives back the name, and that a
  name without a dot has the owner `""`.
- `reflection.dfy` (module `Reflection`): what dataclass reflection
  supplies, as values. A field is its name, type, optional default,
  optional factory and `init` flag. A dataclass is its ordered fields, its
  `__annotations__` and its class attributes. The documented `obj` is
  either a dataclass (a class or an instance) or something else.
- `resolve.dfy` (module `Resolve`): `resolve_init_var` and `resolve_field`
  as functions over the registry's contents. "Not a field" is `None`.
  Lemmas cover every path that ends in "not a field", the init-only-first
  priority, and exact first-match field lookup.
- `format.dfy` (module `Format`): the caller's list of lines is the class
  `DocLines`. `format_dataclass_field` and `format_init_var` are methods
  that change that list in place. Each method is proved equal to a
  specification function, and lemmas give the shape of the result.
- `hook.dfy` (module `Hook`): the class `DocstringHook` holds the
  `DATA_CLASSES` registry as a field. Its methods `ResolveField` and
  `ProcessDocstring` update the registry and the lines. They are proved
  against the function `Processed`, and lemmas about `Processed` state when
  the lines stay unchanged.
- `examples_x.dfy` (module `ExamplesX`): the dataclass `X` from the
  repository's tests. Lemmas prove, for any renderer, the expected lines
  for all seven parametrised attributes `key1` to `key7`. They also prove
  that all five non-field cases leave the lines unchanged: `not_a_field1`,
  `not_a_field2`, `method`, `not_a_anything` and `Y.not_a_anything`.

Outside collaborators are parameters or data:

- `sphinx_autodoc_typehints.format_annotation` is the parameter
  `render: TypeRef -> string`.
- The text an f-string gives a value (`format(value, "")`) and the
  value's `type()` are the fields `text` and `runtimeType` of `Value`.
- A factory's `__module__` and `__name__` are the fields of `Factory`.
- The check `isinstance(annotation, type) and issubclass(annotation,
  InitVar)` is the flag `TypeRef.isInitVarClass`. Whether it holds for a
  given annotation depends on the Python version, and the model leaves
  that open.

The hook treats line 0 as the short description line. Two behaviours of
the code on an empty list of lines are modelled as written:

- `format_dataclass_field` reads `lines[0]` before it appends anything.
  On an empty list it raises `IndexError`, which `process_docstring` does
  not catch. The list stays empty (`Outcome.IndexError`).
- `format_init_var` appends its bullets first and rewrites `lines[0]`
  last. On an empty list the header therefore goes in front of the
  `* **init-only**` bullet.

## Model

| member | source | states |
|---|---|---|
| Names.Split | sphinx_data_fields/_process_docstring.py:16 | `str.split`: there is at least one part and no part holds the separator. Without a separator the result is the whole string; with one there are at least two parts. |
| Names.JoinSplit | sphinx_data_fields/_process_docstring.py:16-17 | Joining the parts of a split with the same separator gives back the original string. |
| Names.Join | sphinx_data_fields/_process_docstring.py:17 | `str.join` as a definition, with no contract of its own. Its properties are the lemmas `Names.JoinSplit` and `Names.SplitNameUnique`. |
| Names.SplitName | sphinx_data_fields/_process_docstring.py:14-20 | The leaf has no dot. A name without a dot gives `("", name)`. A name with a dot equals `owner + "." + leaf`. |
| Names.SplitNameUnique | sphinx_data_fields/_process_docstring.py:14-20 | For any owner and any dot-free leaf, splitting `owner + "." + leaf` gives back exactly that owner and leaf. So the leaf is the last segment and the owner is all the segments before it. |
| Reflection.IsDataClass | sphinx_data_fields/_process_docstring.py:26 | `is_dataclass(obj)` as a definition, with no contract of its own. Its properties are stated by `Resolve.Registered` and `Resolve.NotAttributeIsNotAField`. |
| Resolve.Registered | sphinx_data_fields/_process_docstring.py:26-27 | After a dataclass is observed, its name maps to it (last write wins). Every other key is unchanged. A non-dataclass leaves the registry as it was. |
| Resolve.ResolveInitVar | sphinx_data_fields/_process_docstring.py:52-66 | It succeeds exactly when the leaf is annotated with an init-only marker class. It then returns that annotation and the class attribute of the same name, and no default when there is no such attribute. |
| Resolve.FirstFieldNamed | sphinx_data_fields/_process_docstring.py:47-49 | It returns the first field, in declaration order, whose name equals the leaf exactly. It returns none exactly when no field has that name. |
| Resolve.Resolution | sphinx_data_fields/_process_docstring.py:23-49 | `resolve_field` as a definition, with no contract of its own. It is the specification that `Hook.DocstringHook.ResolveField` is proved equal to. Its properties are the lemmas `Resolve.NotAttributeIsNotAField`, `Resolve.UnregisteredOwnerIsNotAField`, `Resolve.UnknownLeafIsNotAField`, `Resolve.InitVarWins`, `Resolve.FirstMatchingFieldWins`, `Resolve.ResolvedFieldIsExact` and `Resolve.ReRegistrationIsIdempotent`. |
| Resolve.NotAttributeIsNotAField | sphinx_data_fields/_process_docstring.py:26-31 | A dataclass object, or any category other than `"attribute"`, resolves to "not a field". |
| Resolve.UnregisteredOwnerIsNotAField | sphinx_data_fields/_process_docstring.py:33-38 | An attribute whose owner path is not in the registry is "not a field". |
| Resolve.UnknownLeafIsNotAField | sphinx_data_fields/_process_docstring.py:33-49 | The name can be any name, with or without a dot. Its split owner is registered, and its leaf is neither init-only annotated nor the name of any field. Then the attribute is "not a field". |
| Resolve.InitVarWins | sphinx_data_fields/_process_docstring.py:33-43 | The name can be any name. If its split owner is registered and its leaf is init-only annotated, it resolves to the annotation and the class default, whatever the stored fields are. |
| Resolve.FirstMatchingFieldWins | sphinx_data_fields/_process_docstring.py:33-47 | The name can be any name, whose split owner is registered. When the leaf is not init-only, it resolves to the first field with exactly that name. |
| Resolve.ResolvedFieldIsExact | sphinx_data_fields/_process_docstring.py:33-47 | Any resolved field belongs to the registered owner and has exactly the leaf's name, and the leaf is not init-only annotated. |
| Resolve.ReRegistrationIsIdempotent | sphinx_data_fields/_process_docstring.py:26-27 | Registering the same dataclass under the same name twice gives the same registry as once, so every resolution is the same too. |
| Format.DocLines.Append | sphinx_data_fields/_process_docstring.py:74-75 | `lines.append(x)`: the list becomes the old list followed by `x`. |
| Format.DocLines.AppendBlock | sphinx_data_fields/_process_docstring.py:74-75 | Two appends in a row: the list becomes the old list, then the bullet, then `""`. |
| Format.DocLines.Assign | sphinx_data_fields/_process_docstring.py:71 | `lines[i] = x`: only position `i` changes. |
| Format.FieldBullets | sphinx_data_fields/_process_docstring.py:73-87 | There are two lines per applicable block, and every second line is blank. The field-only bullet appears exactly when `init` is false and then comes first. The default bullet follows it. The factory bullet is the last block. |
| Format.FormattedField | sphinx_data_fields/_process_docstring.py:69-87 | `format_dataclass_field` on a non-empty list, as a definition with no contract of its own. It is the specification that `Format.FormatDataclassField` is proved equal to. Its properties are the lemmas `Format.FormattedFieldShape`, `Format.PlainFieldGetsOnlyHeader` and `Format.FieldOnlyBulletIffNotInit`. |
| Format.FormatDataclassField | sphinx_data_fields/_process_docstring.py:69-87 | An empty list raises `IndexError` and stays unchanged. Otherwise the list becomes the header line, the other old lines, then the field bullets. |
| Format.FormattedFieldShape | sphinx_data_fields/_process_docstring.py:69-87 | Line 0 becomes `render(type) + ": " + old line 0` and lines 1 onwards stay in place. The list grows by exactly 2 per present block, each bullet followed by `""`. The order is field-only, default, factory. |
| Format.PlainFieldGetsOnlyHeader | sphinx_data_fields/_process_docstring.py:71-87 | A constructor field with no default and no factory gets only the header; no line is appended. |
| Format.FieldOnlyBulletIffNotInit | sphinx_data_fields/_process_docstring.py:73-75 | The docstring does not already hold the bullet text. Then `* **field-only**` appears exactly when `init` is false, whatever the default. |
| Format.FormattedInitVar | sphinx_data_fields/_process_docstring.py:90-102 | `format_init_var` as a definition, with no contract of its own. It is the specification that `Format.FormatInitVar` is proved equal to. Its properties are the lemmas `Format.FormattedInitVarShape` and `Format.FormattedInitVarOnEmpty`. |
| Format.FormatInitVar | sphinx_data_fields/_process_docstring.py:90-102 | The list becomes `FormattedInitVar` of the old list: bullets appended, then line 0 rewritten. |
| Format.FormattedInitVarShape | sphinx_data_fields/_process_docstring.py:90-102 | On a non-empty list, line 0 becomes `render(t) + ": " + old line 0`. Here `t` is the default's runtime type when there is a default, and the annotation otherwise. The other old lines stay. `* **init-only**` and `""` always come next. The default bullet and `""` follow only when there is a default, so the list grows by 2 or by 4. |
| Format.FormattedInitVarOnEmpty | sphinx_data_fields/_process_docstring.py:92-102 | On an empty list the header goes in front of the init-only bullet itself. |
| Hook.DocstringHook.constructor | sphinx_data_fields/_process_docstring.py:7 | The registry starts empty. |
| Hook.DocstringHook.ResolveField | sphinx_data_fields/_process_docstring.py:23-49 | The registry becomes `Registered(old registry, name, obj)`. The result is `Resolution` against the registry as it was before the call. |
| Hook.DocstringHook.ProcessDocstring | sphinx_data_fields/_process_docstring.py:105-122 | The registry is updated as by `resolve_field`. The outcome and lines are `Processed(...)`: unchanged on "not a field", otherwise produced by the formatter for the kind of thing resolved. |
| Hook.Processed | sphinx_data_fields/_process_docstring.py:105-122 | `process_docstring` as a definition, with no contract of its own. It is the specification that `Hook.DocstringHook.ProcessDocstring` is proved equal to. Its properties are the lemmas `Hook.NotAttributeLeavesLines`, `Hook.UnregisteredOwnerLeavesLines`, `Hook.UnknownLeafLeavesLines`, `Hook.RegisterThenDocumentField`, `Hook.RegisterThenDocumentInitVar` and `Hook.OnlyFieldOnEmptyRaises`. |
| Hook.NotAttributeLeavesLines | sphinx_data_fields/_process_docstring.py:26-31 | Observing a dataclass, or any category other than `"attribute"`, returns normally and leaves the lines exactly as they were. |
| Hook.UnregisteredOwnerLeavesLines | sphinx_data_fields/_process_docstring.py:33-38 | An attribute of an unregistered owner leaves the lines exactly as they were. |
| Hook.UnknownLeafLeavesLines | sphinx_data_fields/_process_docstring.py:40-49 | The name can be any name with a registered split owner. A leaf that matches neither an init-only annotation nor a field name leaves the lines exactly as they were. |
| Hook.RegisterThenDocumentField | sphinx_data_fields/_process_docstring.py:114-120 | Registering leaves the lines alone. After that, any name that splits into that owner and a leaf is formatted from the first field with that exact name. |
| Hook.RegisterThenDocumentInitVar | sphinx_data_fields/_process_docstring.py:114-122 | After registering, any name that splits into that owner and an init-only annotated leaf is formatted from its annotation and class default. |
| Hook.OnlyFieldOnEmptyRaises | sphinx_data_fields/_process_docstring.py:69-71 | The hook raises `IndexError` exactly when a stored field resolves and the list is empty, and then the list stays unchanged. |
| ExamplesX.RegistryWithX | zdevelop/tests/test_example.py:66 | Documenting `module.X` as a class gives the registry `{"module.X": X}`. |
| ExamplesX.Key1Resolution | zdevelop/tests/test_example.py:53 | `module.X.key1` resolves to the stored field `key1`. |
| ExamplesX.Key2Resolution | zdevelop/tests/test_example.py:54 | `module.X.key2` resolves to the stored field `key2`. |
| ExamplesX.Key3Resolution | zdevelop/tests/test_example.py:55 | `module.X.key3` resolves to the stored field `key3`. |
| ExamplesX.Key4Resolution | zdevelop/tests/test_example.py:56 | `module.X.key4` resolves to the stored field `key4`. |
| ExamplesX.Key5Resolution | zdevelop/tests/test_example.py:57 | `module.X.key5` resolves to the stored field `key5`. |
| ExamplesX.Key6Resolution | zdevelop/tests/test_example.py:58 | `module.X.key6` resolves as init-only with no default. |
| ExamplesX.Key7Resolution | zdevelop/tests/test_example.py:59 | `module.X.key7` resolves as init-only with the default `10` of type `int`. |
| ExamplesX.PostInitAttributeResolution | zdevelop/tests/test_example.py:95 | `module.X.not_a_field1`, a name `X` never declares (its `__post_init__` sets `not_a_field`), is not a field. |
| ExamplesX.NotDeclaredByX | zdevelop/tests/test_example.py:13-34 | A leaf other than `key1` to `key7` is neither an annotation nor a field of `X`. |
| ExamplesX.PostInitAttribute2Resolution | zdevelop/tests/test_example.py:96 | `module.X.not_a_field2`, assigned only in `__post_init__`, is not a field. |
| ExamplesX.UnknownAttributeResolution | zdevelop/tests/test_example.py:98 | `module.X.not_a_anything`, which `X` never declares, is not a field. |
| ExamplesX.UnregisteredOwnerResolution | zdevelop/tests/test_example.py:99 | `module.X.Y.not_a_anything` has the unregistered owner `module.X.Y`, so it is not a field. |
| ExamplesX.TenDefaultBullet | zdevelop/tests/test_example.py:77-78 | The default bullet for the value `10` is exactly `* **default:** ``10```. |
| ExamplesX.StringDefaultBullet | zdevelop/tests/test_example.py:77-78 | The default bullet for the value `"default"` is exactly `* **default:** ``default```. |
| ExamplesX.ListFactoryBullet | zdevelop/tests/test_example.py:79-85 | The factory bullet for `list` is exactly `* **default factory:** ``builtins.list```. |
| ExamplesX.Key1Lines | zdevelop/tests/test_example.py:53 | The lines for `key1`: only the `str` header, with nothing appended. |
| ExamplesX.Key2Lines | zdevelop/tests/test_example.py:54 | The lines for `key2`: the `str` header, then the default bullet for `"default"` and a blank line. |
| ExamplesX.Key3Lines | zdevelop/tests/test_example.py:55 | The lines for `key3`: the `int` header, then the default bullet for `10` and a blank line. |
| ExamplesX.Key4Lines | zdevelop/tests/test_example.py:56 | The lines for `key4`: the `List[int]` header, then the `builtins.list` factory bullet and a blank line. |
| ExamplesX.Key5Lines | zdevelop/tests/test_example.py:57 | The lines for `key5`: the `str` header, then the field-only bullet and a blank line. |
| ExamplesX.Key6Lines | zdevelop/tests/test_example.py:58 | The lines for `key6`: the annotation's header, then the init-only bullet and a blank line. |
| ExamplesX.Key7Lines | zdevelop/tests/test_example.py:59 | The lines for `key7`: the `int` header, then the init-only bullet, then the default bullet for `10`, each followed by a blank line. |
| ExamplesX.FieldDocstringsOfX | zdevelop/tests/test_example.py:62-87 | End to end, after `X` is registered: the exact lines for `key1`, `key2`, `key3`, `key4` and `key5`. |
| ExamplesX.InitVarDocstringsOfX | zdevelop/tests/test_example.py:62-89 | End to end: the exact lines for `key6` and `key7`. |
| ExamplesX.NonFieldDocstringsOfX | zdevelop/tests/test_example.py:92-115 | End to end, for any lines: the lines stay the same for one `__post_init__` attribute (`not_a_field2`), for two names `X` never declares (`not_a_field1`, `not_a_anything`), for a method documented as `"method"` and for an attribute of an unregistered owner. |

## Left out

- The Sphinx `app` argument and the `options` dictionary: the hook never reads them.
- `format_annotation` from `sphinx_autodoc_typehints` is not part of this model. It is the `render` parameter, so every statement holds for any renderer.
- The text an f-string gives a default is opaque data (`Value.text`). That text is `format(default, "")`, which calls `__format__`, not `str()`. The same goes for a default's `type()` and a factory's `__module__` and `__name__` (`Value`, `Factory`). The model does not capture how these are computed, `__format__` or `__str__` overrides, or exceptions they could raise.
- On Python before 3.10, reading `data_class.__annotations__` raises an uncaught `AttributeError` for a dataclass whose class and bases declare no annotations. The model reads that case as an empty annotation map. It then resolves the leaf by the field lookup instead of raising.
- Python reflection: `is_dataclass`, `fields`, `__annotations__` and `getattr` are the data of `DataClass` and `DocObject`. Which attributes `fields()` reports (InitVar and ClassVar pseudo-fields are excluded) is up to whoever builds that data.
- The `issubclass(annotation, InitVar)` check is the flag `TypeRef.isInitVarClass`. The Python-version-dependent answer for `InitVar[str]` is not modelled. The examples take it to pass, as the repository's tests expect.
- `NotFieldError` becomes the value `None`, and only `IndexError` from an empty list is modelled as an exception. Other exceptions could come from the opaque collaborators; they are not modelled.
- Format.DocLines.Assign: requires an index the list has, unlike Python's `__setitem__`, which raises. Its only callers check the length first (`FormatDataclassField`), or have just appended to the list (`FormatInitVar`).
- The list of lines is one `DocLines` object. Other Python references to the same list are not modelled. Updates made through them would show up the same way.
- The registry is one `DocstringHook` object. Several Sphinx builds, or concurrent builds, sharing the process-wide dictionary are not modelled.
- The test harness itself (pytest parametrisation, `print`, `copy.copy`) is represented only by the lemmas in `ExamplesX`.
