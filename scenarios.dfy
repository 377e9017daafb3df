/**
 * Client programs that build the forms of the repository's test suite
 * against the model and check, by verification, what each test observes.
 * Member sequences are listed in the order member enumeration gives them
 * (sorted by attribute name).
 */
module Scenarios {
  import opened Wrappers
  import opened FieldMarkers
  import opened Assembly
  import opened BaseForms
  import opened Forms

  /** The values passed around: strings, booleans, a form instance with an `arg` attribute, a form class. */
  datatype Value =
    | Str(s: string)
    | Bool(b: bool)
    | Instance(arg: Value)
    | Class(name: string, enabled: bool)

  /** A text field of the framework, reduced to its label. */
  datatype StringField = StringField(labelText: string)

  /** Python truthiness of the values used here. */
  predicate Truthy(v: Value)
  {
    match v
    case Str(s) => s != ""
    case Bool(b) => b
    case Instance(_) => true
    case Class(_, _) => true
  }

  /** A factory `def f(self): return StringField(label=text)`, whatever its arguments. */
  function ConstLabel(text: string): (Args<Value>, Kwargs<Value>) -> StringField
  {
    (args: Args<Value>, kwargs: Kwargs<Value>) => StringField(text)
  }

  /** The mapping built from a single entry. */
  lemma SingleFieldMap(name: string, field: StringField)
    ensures FieldMap([(name, field)]) == map[name := field]
  {
  }

  /** A data attribute and an unmarked bound method (such as `set_factory_args`) contribute nothing. */
  lemma SkippedMembers(self: Value, unmarked: FunctionObject<Value, StringField>)
    requires unmarked.marker == None
    ensures GenFields([Data(Bool(false)), Bound(self, unmarked)], [], map[]) == []
  {
    var m0, m1 := Data(Bool(false)), Bound(self, unmarked);
    GenFieldsOfMember(m0, [], map[]);
    GenFieldsOfMember(m1, [], map[]);
    GenFieldsAppend([m0], [m1], [], map[]);
    assert [m0] + [m1] == [m0, m1];
  }

  /** Two always-enabled bound factories contribute their fields in enumeration order. */
  lemma MarkedPair(self: Value, f2: FunctionObject<Value, StringField>, f: FunctionObject<Value, StringField>)
    requires f2.marker == Some(MarkerFor("test2", None)) && f.marker == Some(MarkerFor("test", None))
    requires f2.code == ConstLabel("test2") && f.code == ConstLabel("test")
    ensures GenFields([Bound(self, f2), Bound(self, f)], [], map[])
      == [("test2", StringField("test2")), ("test", StringField("test"))]
  {
    var m2, m3 := Bound(self, f2), Bound(self, f);
    GenFieldsOfMember(m2, [], map[]);
    GenFieldsOfMember(m3, [], map[]);
    assert [self] + [] == [self];
    GenFieldsAppend([m2], [m3], [], map[]);
    assert [m2] + [m3] == [m2, m3];
  }

  /**
   * The members of the first test form: a data attribute, an unmarked bound
   * method, and two marked instance methods. Only the marked ones contribute.
   */
  lemma CollectionFields(self: Value, unmarked: FunctionObject<Value, StringField>,
                         f2: FunctionObject<Value, StringField>, f: FunctionObject<Value, StringField>)
    requires unmarked.marker == None
    requires f2.marker == Some(MarkerFor("test2", None)) && f.marker == Some(MarkerFor("test", None))
    requires f2.code == ConstLabel("test2") && f.code == ConstLabel("test")
    ensures FieldMap(GenFields([Data(Bool(false)), Bound(self, unmarked), Bound(self, f2), Bound(self, f)], [], map[]))
      == map["test2" := StringField("test2"), "test" := StringField("test")]
  {
    var front, back := [Data(Bool(false)), Bound(self, unmarked)], [Bound(self, f2), Bound(self, f)];
    SkippedMembers(self, unmarked);
    MarkedPair(self, f2, f);
    GenFieldsAppend(front, back, [], map[]);
    assert front + back == [Data(Bool(false)), Bound(self, unmarked), Bound(self, f2), Bound(self, f)];
    CollectionFieldMap();
  }

  /** The mapping built from the two entries of the first test form. */
  lemma CollectionFieldMap()
    ensures FieldMap([("test2", StringField("test2")), ("test", StringField("test"))])
      == map["test2" := StringField("test2"), "test" := StringField("test")]
  {
  }

  /** The first test: two always-enabled factories give two fields labelled by their names. */
  method FactoryCollection()
  {
    assert "test2" != "test" by { assert |"test2"| == 5 && |"test"| == 4; }
    var self := Instance(Bool(false));
    var f := new FunctionObject(ConstLabel("test"));
    f := MarkField("test", None, f);
    var f2 := new FunctionObject(ConstLabel("test2"));
    f2 := MarkField("test2", None, f2);
    var unmarked := new FunctionObject(ConstLabel("other"));
    var form := new Form<Value, StringField>();
    CollectionFields(self, unmarked, f2, f);
    form.Init([Data(Bool(false)), Bound(self, unmarked), Bound(self, f2), Bound(self, f)], map[]);
    assert form.fields == map["test2" := StringField("test2"), "test" := StringField("test")];
    assert form.attrs == map[] + form.fields;
    assert form.attrs["test"] == form.fields["test"];
    assert form.attrs["test2"] == form.fields["test2"];
    assert form.attrs["test"].labelText == "test";
    assert form.attrs["test2"].labelText == "test2";
  }

  /** `def test_field(self, arg): return StringField(label=arg)`. */
  function ArgLabel(): (Args<Value>, Kwargs<Value>) -> StringField
  {
    (args: Args<Value>, kwargs: Kwargs<Value>) =>
      if |args| == 2 && args[1].Str? then StringField(args[1].s) else StringField("")
  }

  /** The stored argument reaches a bound factory behind its receiver. */
  lemma ArgumentFields(self: Value, f: FunctionObject<Value, StringField>, text: string)
    requires f.marker == Some(MarkerFor("test", None))
    requires f.code == ArgLabel()
    ensures FieldMap(GenFields([Bound(self, f)], [Str(text)], map[])) == map["test" := StringField(text)]
  {
  }

  /** The second test, for any stored string (it uses `"test1"` and `"test2"`): the factory labels its field with it. */
  method FactoryArguments(text: string)
  {
    var self := Instance(Bool(false));
    var f := new FunctionObject(ArgLabel());
    f := MarkField("test", None, f);
    var form := new Form<Value, StringField>();
    form.SetFactoryArgs([Str(text)], map[]);
    ArgumentFields(self, f, text);
    form.Init([Bound(self, f)], map[]);
    assert form.fields == map["test" := StringField(text)];
    assert form.attrs == map[] + form.fields;
    assert form.attrs["test"].labelText == text;
    // Arguments stored after construction leave the built fields alone.
    form.SetFactoryArgs([Str("later")], map[]);
    assert form.attrs["test"].labelText == text;
  }

  /** `def test_field(self): return StringField(self.arg)`. */
  function InstanceArgLabel(): (Args<Value>, Kwargs<Value>) -> StringField
  {
    (args: Args<Value>, kwargs: Kwargs<Value>) =>
      if |args| == 1 && args[0].Instance? && args[0].arg.Str? then StringField(args[0].arg.s) else StringField("")
  }

  /** An instance method's factory receives the instance as its receiver. */
  lemma InstanceMethodFields(self: Value, f: FunctionObject<Value, StringField>)
    requires self.Instance? && self.arg.Str?
    requires f.marker == Some(MarkerFor("test", None))
    requires f.code == InstanceArgLabel()
    ensures FieldMap(GenFields([Bound(self, f)], [], map[])) == map["test" := StringField(self.arg.s)]
  {
  }

  /** The fourth test: a factory reads state the instance set before construction. */
  method InstanceMethodArgument()
  {
    var self := Instance(Str("test"));
    var f := new FunctionObject(InstanceArgLabel());
    f := MarkField("test", None, f);
    var form := new Form<Value, StringField>();
    InstanceMethodFields(self, f);
    form.Init([Bound(self, f)], map[]);
    assert form.attrs["test"].labelText == "test";
  }

  /** `def test_field(cls): return StringField(cls.__name__)`. */
  function ClassNameLabel(): (Args<Value>, Kwargs<Value>) -> StringField
  {
    (args: Args<Value>, kwargs: Kwargs<Value>) =>
      if |args| == 1 && args[0].Class? then StringField(args[0].name) else StringField("")
  }

  /** A factory bound to the class receives the class as its receiver. */
  lemma ClassMethodFields(cls: Value, f: FunctionObject<Value, StringField>)
    requires cls.Class?
    requires f.marker == Some(MarkerFor("test", None))
    requires f.code == ClassNameLabel()
    ensures FieldMap(GenFields([Bound(cls, f)], [], map[])) == map["test" := StringField(cls.name)]
  {
  }

  /** The third test: a class method's factory reads the class name through its receiver. */
  method ClassMethodArgument()
  {
    var cls := Class("TestForm", false);
    var f := new FunctionObject(ClassNameLabel());
    f := MarkField("test", None, f);
    var form := new Form<Value, StringField>();
    ClassMethodFields(cls, f);
    form.Init([Bound(cls, f)], map[]);
    assert form.attrs["test"].labelText == "TestForm";
  }

  /** `enable_if=lambda self: self.arg`. */
  function InstanceArgTruthy(): Predicate<Value>
  {
    (args: Args<Value>, kwargs: Kwargs<Value>) => |args| == 1 && args[0].Instance? && Truthy(args[0].arg)
  }

  /** `enable_if=lambda cls: cls.enabled`. */
  function ClassEnabled(): Predicate<Value>
  {
    (args: Args<Value>, kwargs: Kwargs<Value>) => |args| == 1 && args[0].Class? && args[0].enabled
  }

  /** Whether the two marked members of the last test form contribute. */
  lemma PredicateGatedPair(arg: bool, f2: FunctionObject<Value, StringField>, f: FunctionObject<Value, StringField>)
    requires f2.marker == Some(MarkerFor("test2", Some(ClassEnabled())))
    requires f.marker == Some(MarkerFor("test", Some(InstanceArgTruthy())))
    requires f.code == ConstLabel("")
    ensures GenFields([Bound(Class("TestForm", false), f2), Bound(Instance(Bool(arg)), f)], [], map[])
      == if arg then [("test", StringField(""))] else []
  {
    var self, cls := Instance(Bool(arg)), Class("TestForm", false);
    var m2, m3 := Bound(cls, f2), Bound(self, f);
    GenFieldsOfMember(m2, [], map[]);
    GenFieldsOfMember(m3, [], map[]);
    assert [cls] + [] == [cls] && [self] + [] == [self];
    GenFieldsAppend([m2], [m3], [], map[]);
    assert [m2] + [m3] == [m2, m3];
  }

  /** Two data attributes contribute nothing. */
  lemma DataMembers(arg: bool)
    ensures GenFields<Value, StringField>([Data(Bool(arg)), Data(Bool(false))], [], map[]) == []
  {
    var m0: Member<Value, StringField> := Data(Bool(arg));
    var m1: Member<Value, StringField> := Data(Bool(false));
    GenFieldsOfMember(m0, [], map[]);
    GenFieldsOfMember(m1, [], map[]);
    GenFieldsAppend([m0], [m1], [], map[]);
    assert [m0] + [m1] == [m0, m1];
  }

  /**
   * The members of the last test form: the `arg` and `enabled` attributes,
   * a class method whose predicate reads the class, and an instance method
   * whose predicate reads the instance.
   */
  lemma DisabledFields(arg: bool, f2: FunctionObject<Value, StringField>, f: FunctionObject<Value, StringField>)
    requires f2.marker == Some(MarkerFor("test2", Some(ClassEnabled())))
    requires f.marker == Some(MarkerFor("test", Some(InstanceArgTruthy())))
    requires f.code == ConstLabel("")
    ensures FieldMap(GenFields([Data(Bool(arg)), Data(Bool(false)), Bound(Class("TestForm", false), f2),
                                Bound(Instance(Bool(arg)), f)], [], map[]))
      == if arg then map["test" := StringField("")] else map[]
  {
    var front: seq<Member<Value, StringField>> := [Data(Bool(arg)), Data(Bool(false))];
    var back := [Bound(Class("TestForm", false), f2), Bound(Instance(Bool(arg)), f)];
    DataMembers(arg);
    PredicateGatedPair(arg, f2, f);
    GenFieldsAppend(front, back, [], map[]);
    assert front + back == [Data(Bool(arg)), Data(Bool(false)), Bound(Class("TestForm", false), f2),
                            Bound(Instance(Bool(arg)), f)];
    assert GenFields(front + back, [], map[]) == if arg then [("test", StringField(""))] else [];
    SingleFieldMap("test", StringField(""));
  }

  /** The last test: predicates see the receiver, so instance or class state decides inclusion. */
  method DisabledField(arg: bool)
  {
    var self, cls := Instance(Bool(arg)), Class("TestForm", false);
    var f := new FunctionObject(ConstLabel(""));
    f := MarkField("test", Some(InstanceArgTruthy()), f);
    var f2 := new FunctionObject(ConstLabel(""));
    f2 := MarkField("test2", Some(ClassEnabled()), f2);
    var form := new Form<Value, StringField>();
    DisabledFields(arg, f2, f);
    form.Init([Data(Bool(arg)), Data(Bool(false)), Bound(cls, f2), Bound(self, f)], map[]);
    assert "test2" !in form.attrs;
    assert "test" in form.attrs <==> arg;
  }
}
