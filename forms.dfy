/**
 * The form base class: the stored factory arguments, the framework's field
 * mapping, the field attributes exposed on the instance, and the fixed order
 * of the construction steps.
 */
module Forms {
  import opened Wrappers
  import opened FieldMarkers
  import opened Assembly
  import opened BaseForms

  /**
   * What the framework's data-processing step was handed: the names of the
   * fields bound at that moment and the keyword input data.
   */
  datatype Processing<A> = Processing(fieldNames: set<string>, data: Kwargs<A>)

  class Form<A, F> {
    /** `_factory_args` and `_factory_kwargs`. */
    var factoryArgs: Args<A>
    var factoryKwargs: Kwargs<A>
    /** `_fields`, the framework's name-to-field mapping. */
    var fields: map<string, F>
    /** The instance attributes that hold fields (`form.<field_name>`). */
    var attrs: map<string, F>
    /** The last call of the framework's `process`, if any. */
    var processed: Option<Processing<A>>

    /**
     * A fresh instance before `__init__` runs: the factory arguments are the
     * class defaults, the empty tuple and the empty dict, and no field exists.
     */
    constructor ()
      ensures factoryArgs == [] && factoryKwargs == map[]
      ensures fields == map[] && attrs == map[] && processed == None
    {
      factoryArgs, factoryKwargs := [], map[];
      fields, attrs, processed := map[], map[], None;
    }

    /** `set_factory_args(*args, **kwargs)`: replaces both stored argument parts, nothing else. */
    method SetFactoryArgs(args: Args<A>, kwargs: Kwargs<A>)
      modifies this`factoryArgs, this`factoryKwargs
      ensures factoryArgs == args && factoryKwargs == kwargs
    {
      factoryArgs := args;
      factoryKwargs := kwargs;
    }

    /**
     * `_make_field_attributes`: every field of the mapping becomes an attribute
     * of the same name bound to the same field object; no other attribute changes.
     */
    method MakeFieldAttributes()
      modifies this`attrs
      ensures attrs == old(attrs) + fields
      ensures forall name | name in fields :: name in attrs && attrs[name] == fields[name]
      ensures forall name | name !in fields :: name in attrs <==> name in old(attrs)
    {
      var pending := fields.Keys;
      while pending != {}
        invariant pending <= fields.Keys
        invariant attrs == old(attrs) + (map name | name in fields.Keys - pending :: fields[name])
        decreases pending
      {
        var name :| name in pending;
        attrs := attrs[name := fields[name]];
        pending := pending - {name};
      }
      assert fields == map name | name in fields.Keys - pending :: fields[name];
    }

    /** The framework's `process(**kwargs)`, opaque here: it acts on the bound fields. */
    method Process(data: Kwargs<A>)
      modifies this`processed
      ensures processed == Some(Processing(fields.Keys, data))
    {
      processed := Some(Processing(fields.Keys, data));
    }

    /**
     * `Form.__init__`, given the instance's members as member enumeration
     * lists them. The fields are generated from the arguments stored when it
     * starts and handed to the base constructor; then they are exposed as
     * attributes; the input data is processed last, over those fields.
     */
    method Init(members: seq<Member<A, F>>, data: Kwargs<A>)
      modifies this`fields, this`attrs, this`processed
      ensures factoryArgs == old(factoryArgs) && factoryKwargs == old(factoryKwargs)
      ensures fields == old(FieldMap(GenFields(members, factoryArgs, factoryKwargs)))
      ensures attrs == old(attrs) + fields
      ensures forall name | name in fields :: name in attrs && attrs[name] == fields[name]
      ensures processed == Some(Processing(fields.Keys, data))
    {
      var built := FieldMap(GenFields(members, factoryArgs, factoryKwargs));
      fields := built;
      MakeFieldAttributes();
      assert fields == built;
      Process(data);
    }
  }

  /**
   * The fields a construction with these stored arguments exposes: a name is
   * present exactly when an enabled discovered factory declares it, and its
   * field is what such a factory returned for the stored arguments. A name
   * whose only factories are disabled is absent.
   */
  lemma ConstructedFields<A, F>(ms: seq<Member<A, F>>, args: Args<A>, kwargs: Kwargs<A>, name: string)
    ensures name in FieldMap(GenFields(ms, args, kwargs)) <==>
      exists f :: f in GenFactories(ms) && Discovered(f) && Enabled(f, args, kwargs) && Entry(f, args, kwargs).0 == name
    ensures name in FieldMap(GenFields(ms, args, kwargs)) ==>
      exists f :: f in GenFactories(ms) && Discovered(f) && Enabled(f, args, kwargs) &&
        Entry(f, args, kwargs) == (name, FieldMap(GenFields(ms, args, kwargs))[name])
  {
    var entries := GenFields(ms, args, kwargs);
    var m := FieldMap(entries);
    FieldMapSound(entries);
    if name in m {
      GenFieldsMembership(ms, args, kwargs, (name, m[name]));
    }
    if exists f :: f in GenFactories(ms) && Discovered(f) && Enabled(f, args, kwargs) && Entry(f, args, kwargs).0 == name {
      var f :| f in GenFactories(ms) && Discovered(f) && Enabled(f, args, kwargs) && Entry(f, args, kwargs).0 == name;
      GenFieldsMembership(ms, args, kwargs, Entry(f, args, kwargs));
    }
  }
}
