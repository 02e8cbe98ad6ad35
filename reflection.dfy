/** What Python's dataclass reflection tells the hook about a documented
    object. The hook only reads these values; it never builds them. */
module Reflection {
  import opened Wrappers

  /** A type or annotation object. `isInitVarClass` is the outcome of the
      check `isinstance(annotation, type) and issubclass(annotation, InitVar)`,
      which depends on the Python version and is decided outside the hook. */
  datatype TypeRef = TypeRef(name: string, isInitVarClass: bool)

  /** A runtime value: the text an f-string replacement field gives it
      (`format(value, "")`) and its runtime `type()`. */
  datatype Value = Value(text: string, runtimeType: TypeRef)

  /** A default factory, identified by its `__module__` and `__name__`. */
  datatype Factory = Factory(moduleName: string, name: string)

  /** One entry of `dataclasses.fields(cls)`. `None` stands for `MISSING`. */
  datatype Field = Field(
    name: string,
    fieldType: TypeRef,
    default: Option<Value>,
    defaultFactory: Option<Factory>,
    init: bool)

  /** A dataclass: its stored fields in declaration order, its raw
      `__annotations__` and the class attributes `getattr` can find. */
  datatype DataClass = DataClass(
    fields: seq<Field>,
    annotations: map<string, TypeRef>,
    attributes: map<string, Value>)

  /** The `obj` handed to the hook: something `is_dataclass` accepts
      (a dataclass, or an instance of one, such as an attribute's value),
      or anything else. An attribute whose value is a dataclass instance is
      therefore recorded under its own name and never formatted. */
  datatype DocObject = DataClassObject(cls: DataClass) | OtherObject

  /** `is_dataclass(obj)`. */
  predicate IsDataClass(obj: DocObject)
  {
    obj.DataClassObject?
  }
}
