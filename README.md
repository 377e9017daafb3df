# wtforms-field-factory, modelled in Dafny

This project models the core of `wtforms_field_factory`, a small library that builds form fields
when a form is instantiated instead of when its class is defined. It has two parts:

- **The factory marker** (`field(name, enable_if)`). It attaches a field name and an enablement
  predicate to a callable, in place. When no predicate is given, it attaches one that accepts
  everything.
- **The form base class** (`Form`). At construction time it does the following:
  1. It enumerates the instance's members and keeps the callables whose underlying function
     carries the marker.
  2. It calls each predicate, and then each enabled factory, with the stored factory arguments.
  3. It hands the ordered (name, field) pairs to the framework's base constructor.
  4. It exposes every resulting field as an attribute of the instance.
  5. It processes the input data.

The model is split into modules that follow the source:

- `FieldMarkers` (`field_markers.dfy`): function objects, the marker and the decorator.
- `Assembly` (`assembly.dfy`): members, discovery (`_get_underlying_func`, `_gen_factories`) and
  field generation (`_gen_fields`). These are pure functions over sequences that read the
  function objects' markers.
- `BaseForms` (`base_forms.dfy`): a stand-in for the framework's base constructor. It builds the
  name-to-field mapping from the ordered pairs.
- `Forms` (`forms.dfy`): the `Form` class. It has the stored arguments, the field mapping, the
  field attributes and the construction steps.
- `Scenarios` (`scenarios.dfy`): client programs that rebuild the forms of the repository's tests
  and check what each test observes.
- `Wrappers` (`wrappers.dfy`): `Option`.

Representation choices:

- A Python callable is a `FunctionObject`. It has an immutable `code` (what a call computes from
  the argument list) and a mutable `marker`. The marker is one optional value, so `field_name` and
  `is_enabled` are always set together.
- A member of a form instance is already bound, the way attribute access binds it:
  - `Plain(fn)` is a callable without `__func__`.
  - `Bound(receiver, fn)` is a bound method. Its receiver is the instance for an instance method
    and the class for a class method.
  - `Data(value)` is an attribute that is not callable.
- Argument values and field objects are type parameters. Predicates and factories are function
  values.

One call-convention rule is easy to get wrong, and the model states it exactly:

- A bound method's predicate gets the receiver explicitly, in front of the stored arguments.
- The bound method itself is called with only the stored arguments.
- So the underlying function sees the receiver exactly once, just as the predicate does.

## Model

| member | source | states |
|---|---|---|
| `FieldMarkers.MarkerFor` | wtforms_field_factory.py:30-36 | The attached marker has the given name. Its predicate is `enable_if` when one is given; otherwise it accepts every argument list. |
| `FieldMarkers.AlwaysEnabled` | wtforms_field_factory.py:35 | The default predicate accepts every argument list. |
| `FieldMarkers.MarkField` | wtforms_field_factory.py:33-36 | Decorating returns the very same function object. Afterwards it carries exactly that marker. Its calling behaviour is unchanged. |
| `Assembly.GenFactories` | wtforms_field_factory.py:73-78 | There are no more yielded pairs than members. |
| `Assembly.GenFactoriesSound` | wtforms_field_factory.py:73-78 | Every yielded pair is a callable member of the input with its marked underlying function (`__func__` of a bound method, the callable itself otherwise). |
| `Assembly.GenFactoriesSelects` | wtforms_field_factory.py:73-78 | A member is yielded if and only if it is in the sequence, is callable, and its underlying function carries the marker. Every other member (data, unmarked callables) is skipped. |
| `Assembly.GenFactoriesAppend` | wtforms_field_factory.py:74-78 | Discovery over a concatenation is the concatenation of the discoveries, so enumeration order is kept. |
| `Assembly.Enabled` | wtforms_field_factory.py:83 | A plain callable's predicate is asked with exactly the stored arguments. A bound method's predicate is asked with the receiver followed by the stored arguments. |
| `Assembly.Invoke` | wtforms_field_factory.py:82-84 | Calling a member runs its underlying function (`Underlying`, which models `_get_underlying_func` at lines 41-45: `__func__` of a bound method, the callable itself otherwise) on exactly the argument list its predicate gets (`ExtraArgs`, the receiver for a bound method and nothing otherwise, followed by the stored arguments). So the receiver reaches the underlying function exactly once. |
| `Assembly.Entry` | wtforms_field_factory.py:84 | The yielded pair is the marker's `field_name` with the result of calling the member: the underlying code on the stored arguments, with the receiver in front for a bound method. |
| `Assembly.FieldsFrom` | wtforms_field_factory.py:81-84 | At most one entry per discovered factory. |
| `Assembly.FieldsFromPositions` | wtforms_field_factory.py:81-84 | There are as many entries as enabled factories. The entry of the enabled factory at index j is its (declared name, factory result) and sits at the position given by the number of enabled factories before it. So exactly one entry per enabled factory, in discovery order, and none for disabled ones. |
| `Assembly.FieldsFromMembership` | wtforms_field_factory.py:83-84 | A (name, field) entry is generated if and only if some enabled factory produces exactly that entry. |
| `Assembly.FieldsFromAppend` | wtforms_field_factory.py:81-84 | Field generation over a concatenated factory sequence is the concatenation of the two generations. |
| `Assembly.GenFields` | wtforms_field_factory.py:80-84 | At most one entry per member. |
| `Assembly.GenFieldsMembership` | wtforms_field_factory.py:80-84 | A (name, field) entry is generated from the members if and only if some enabled discovered factory produces exactly that entry. |
| `Assembly.GenFieldsAppend` | wtforms_field_factory.py:80-84 | Field generation over members distributes over concatenation, so a member's contribution does not depend on its neighbours and order is kept. |
| `Assembly.GenFieldsOfMember` | wtforms_field_factory.py:82-84 | The call convention, by kind of member. Data contributes nothing. A plain callable's predicate and function both get exactly the stored arguments. A bound method's predicate gets the receiver followed by the stored arguments. Its underlying function gets the same list, because the receiver comes from binding and not from the call. The entry is (field_name, result) when the predicate accepts, and nothing otherwise. |
| `BaseForms.FieldMap` | wtforms_field_factory.py:62 | The stand-in for the base constructor's mapping: no pairs give an empty mapping, and there are never more names than pairs. |
| `BaseForms.FieldMapLastWins` | wtforms_field_factory.py:62 | The stand-in assigns the pairs in order: a pair whose name no later pair repeats is what its name maps to. So for a repeated name, the last pair wins. |
| `BaseForms.FieldMapSound` | wtforms_field_factory.py:62 | The mapping built from the ordered pairs has exactly the pairs' names as keys. Each name maps to the field of some pair with that name. |
| `BaseForms.FieldMapDistinct` | wtforms_field_factory.py:62 | When names are pairwise distinct, every pair's name is a key and maps to that pair's own field. |
| `Forms.Form.constructor` | wtforms_field_factory.py:57-58 | Before construction, the stored arguments are the class defaults: the empty tuple and the empty dict. No field or field attribute exists yet. |
| `Forms.Form.SetFactoryArgs` | wtforms_field_factory.py:68-71 | Both stored argument parts are replaced. The frame allows nothing else to change. |
| `Forms.Form.MakeFieldAttributes` | wtforms_field_factory.py:86-88 | Every key of `_fields` becomes an attribute bound to that same field object. Attributes for other names are unchanged. |
| `Forms.Form.Process` | wtforms_field_factory.py:66 | The opaque data-processing step receives the input data and acts on the fields bound at that moment. |
| `Forms.Form.Init` | wtforms_field_factory.py:60-66 | The fields are generated from the arguments stored when construction starts and handed to the base constructor. Then they are exposed as attributes (`attrs == old(attrs) + fields`, so every field name is an attribute bound to that field). Last, the data is processed over exactly those fields. The stored arguments are unchanged. |
| `Forms.ConstructedFields` | wtforms_field_factory.py:62-64 | After construction, a name is present if and only if an enabled discovered factory declares it. Its field is what such a factory returned. A name whose only factories are disabled is absent, so accessing that attribute fails. |
| `Scenarios.CollectionFields` | tests.py:9-21 | Two always-enabled instance-method factories named `test2` and `test` give exactly those two fields, each labelled by its name. A data attribute and an unmarked method are skipped. |
| `Scenarios.ArgumentFields` | tests.py:24-35 | The stored argument reaches the factory behind its receiver: storing `"test1"` or `"test2"` gives a field with that label. |
| `Scenarios.ClassMethodFields` | tests.py:38-45 | A class-method factory gets the class as its receiver and can label its field with the class name. |
| `Scenarios.InstanceMethodFields` | tests.py:48-58 | An instance-method factory reads state the instance set before construction. |
| `Scenarios.DisabledFields` | tests.py:61-84 | `test` exists exactly when the instance's `arg` is truthy. `test2` never exists, because its predicate reads the class attribute `enabled`, which is false. |

## Left out

- Member enumeration (`inspect.getmembers`) is not modelled. `Form.Init` receives the instance's members as a sequence. It is assumed to be in the order Python gives, sorted by attribute name.
- The framework's base constructor is reduced to `BaseForms.FieldMap`, which assigns the pairs in order. The framework's code is not part of this model. Its binding of unbound fields (`meta.bind_field`), the `prefix` and `meta` arguments, CSRF and locale options are left out. The stand-in keeps the last pair of a repeated name and never fails (`BaseForms.FieldMapLastWins`), so `Forms.Form.Init`'s contract fixes the duplicate case to that policy. Whether the framework itself keeps the last pair, or rejects the duplicate, is not modelled. `BaseForms.FieldMapSound`, `BaseForms.FieldMapDistinct` and `Forms.ConstructedFields` do not rely on the policy.
- `process` is opaque. `Forms.Form.Process` only records the data it was given and the fields it acted on.
- Exceptions raised by factories or predicates are not modelled. In the source they only propagate. Predicates and factories are total function values here, so all-or-nothing construction on failure is not represented.
- Truthiness of a predicate's result is taken to be a `bool` directly. Likewise, `Some(p)` for `enable_if` stands for a truthy `enable_if`. A given but falsy `enable_if` would be replaced by the default in the source, and is not represented.
- The `Protocol` classes `_FieldFactory` and `EnableIfFunction` are not modelled, because they are type hints without behaviour.
- Python's descriptor mechanics are not modelled. The result of binding (`Plain` or `Bound`) is given directly.
- Side effects of factories and predicates are not modelled, because both are pure function values here. The source runs each member's predicate and then its factory, one member at a time. So a factory that sets an instance attribute, or one that changes a marker, could change what a later predicate or factory sees. The model cannot express that.
- Instance attributes other than the field attributes, and an attribute that a field name shadows (such as a method of the same name), are outside `Form.attrs`.
- The framework's `_fields` keeps insertion order, but `BaseForms.FieldMap` returns an unordered `map`. So the order of the form's field collection is represented only by the ordered pairs that `GenFields` hands over.
- `Forms.Form.MakeFieldAttributes` visits the keys of `_fields` in an unspecified order rather than insertion order. Its result does not depend on that order.
- `Assembly.FieldsFrom`: its own contract states only the bound on the number of entries. The full filter-map behaviour is stated by `FieldsFromPositions`, `FieldsFromMembership` and `FieldsFromAppend`.
- `Assembly.GenFactories`: its own contract states only the bound on the number of pairs. What each pair is, is stated by `GenFactoriesSound`. Which members are selected, and in what order, is stated by `GenFactoriesSelects` and `GenFactoriesAppend`.
- `Assembly.GenFields`: its own contract states only the bound on the number of entries. The full behaviour is stated by `GenFieldsAppend`, `GenFieldsOfMember` and `GenFieldsMembership`.
- `setup.py` (packaging) is not part of this model.
