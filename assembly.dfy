/**
 * The field-assembly engine of the form base class: discovery of marked
 * factories among a form's members (`_get_underlying_func`, `_gen_factories`)
 * and generation of the (name, field) entries (`_gen_fields`), with the call
 * convention that gives a bound method's predicate its receiver explicitly.
 */
module Assembly {
  import opened Wrappers
  import opened FieldMarkers

  /**
   * One member of a form instance, as member enumeration yields it, already
   * bound the way attribute access binds it:
   * - `Plain(fn)`: a callable without `__func__` (a static method, a function
   *   stored on the instance, any other callable object);
   * - `Bound(receiver, fn)`: a bound method, `__self__` being the instance for
   *   an instance method or the class for a class method, `__func__` being `fn`;
   * - `Data(value)`: an attribute that is not callable.
   */
  datatype Member<A, F> =
    | Plain(fn: FunctionObject<A, F>)
    | Bound(receiver: A, fn: FunctionObject<A, F>)
    | Data(value: A)

  /** `callable(member)`. */
  predicate IsCallable<A, F>(m: Member<A, F>)
  {
    !m.Data?
  }

  /** `_get_underlying_func`: `__func__` for a bound method, the callable itself otherwise. */
  function Underlying<A, F>(m: Member<A, F>): FunctionObject<A, F>
    requires IsCallable(m)
  {
    m.fn
  }

  /** The function objects whose attributes discovery may look at. */
  ghost function Referents<A, F>(ms: seq<Member<A, F>>): set<FunctionObject<A, F>>
  {
    set m | m in ms && IsCallable(m) :: m.fn
  }

  /** A member is a factory when it is callable and its underlying function carries the marker. */
  predicate IsFactory<A, F>(m: Member<A, F>)
    reads if IsCallable(m) then {m.fn} else {}
  {
    IsCallable(m) && Underlying(m).marker.Some?
  }

  /** What `_gen_factories` yields: the underlying marked function and the invokable member. */
  datatype Factory<A, F> = Factory(underlying: FunctionObject<A, F>, bound: Member<A, F>)

  /** A pair as `_gen_factories` yields it: a callable member with its marked underlying function. */
  predicate Discovered<A, F>(f: Factory<A, F>)
    reads f.underlying
  {
    IsCallable(f.bound) && f.underlying == Underlying(f.bound) && f.underlying.marker.Some?
  }

  /** `_gen_factories`: the marked callables among `ms`, in enumeration order. */
  function GenFactories<A, F>(ms: seq<Member<A, F>>): (r: seq<Factory<A, F>>)
    reads Referents(ms)
    ensures |r| <= |ms|
  {
    if ms == [] then []
    else
      var m := ms[0];
      (if IsFactory(m) then [Factory(Underlying(m), m)] else []) + GenFactories(ms[1..])
  }

  /** Every yielded pair is a callable member of `ms` with its marked underlying function. */
  lemma {:induction false} GenFactoriesSound<A, F>(ms: seq<Member<A, F>>)
    ensures forall f | f in GenFactories(ms) :: f.bound in ms && IsCallable(f.bound) && f.underlying == f.bound.fn
    ensures forall f | f in GenFactories(ms) :: Discovered(f)
  {
    if ms != [] {
      GenFactoriesSound(ms[1..]);
    }
  }

  /** `extra_args`: the bound receiver for a bound method, nothing otherwise. */
  function ExtraArgs<A, F>(m: Member<A, F>): Args<A>
  {
    if m.Bound? then [m.receiver] else []
  }

  /**
   * Calling a callable member with `args` and `kwargs`: a bound method passes
   * its receiver to the underlying function ahead of `args`, so the underlying
   * function runs on exactly the argument list its predicate is given.
   */
  function Invoke<A, F>(m: Member<A, F>, args: Args<A>, kwargs: Kwargs<A>): (result: F)
    requires IsCallable(m)
    ensures result == Underlying(m).code(ExtraArgs(m) + args, kwargs)
  {
    assert m.Plain? ==> ExtraArgs(m) + args == args;
    match m
    case Plain(fn) => fn.code(args, kwargs)
    case Bound(receiver, fn) => fn.code([receiver] + args, kwargs)
  }

  /** `underlying.is_enabled(*(extra_args + args), **kwargs)`. */
  predicate Enabled<A, F>(f: Factory<A, F>, args: Args<A>, kwargs: Kwargs<A>): (enabled: bool)
    reads f.underlying
    requires Discovered(f)
    ensures f.bound.Plain? ==> (enabled <==> f.underlying.marker.value.isEnabled(args, kwargs))
    ensures f.bound.Bound? ==> (enabled <==> f.underlying.marker.value.isEnabled([f.bound.receiver] + args, kwargs))
  {
    assert f.bound.Plain? ==> ExtraArgs(f.bound) + args == args;
    f.underlying.marker.value.isEnabled(ExtraArgs(f.bound) + args, kwargs)
  }

  /** `(underlying.field_name, factory(*args, **kwargs))`. */
  function Entry<A, F>(f: Factory<A, F>, args: Args<A>, kwargs: Kwargs<A>): (e: (string, F))
    reads f.underlying
    requires Discovered(f)
    ensures e.0 == f.underlying.marker.value.fieldName
    ensures f.bound.Plain? ==> e.1 == f.underlying.code(args, kwargs)
    ensures f.bound.Bound? ==> e.1 == f.underlying.code([f.bound.receiver] + args, kwargs)
  {
    (f.underlying.marker.value.fieldName, Invoke(f.bound, args, kwargs))
  }

  /** The loop of `_gen_fields` over discovered factories: one entry per enabled factory. */
  function FieldsFrom<A, F>(fs: seq<Factory<A, F>>, args: Args<A>, kwargs: Kwargs<A>): (r: seq<(string, F)>)
    reads set f | f in fs :: f.underlying
    requires forall f | f in fs :: Discovered(f)
    ensures |r| <= |fs|
  {
    if fs == [] then []
    else
      var f := fs[0];
      (if Enabled(f, args, kwargs) then [Entry(f, args, kwargs)] else []) + FieldsFrom(fs[1..], args, kwargs)
  }

  /** `_gen_fields`: the entries generated from `ms` with the stored arguments. */
  function GenFields<A, F>(ms: seq<Member<A, F>>, args: Args<A>, kwargs: Kwargs<A>): (r: seq<(string, F)>)
    reads Referents(ms)
    ensures |r| <= |ms|
  {
    var fs := GenFactories(ms);
    GenFactoriesSound(ms);
    assert (set f | f in fs :: f.underlying) <= Referents(ms);
    FieldsFrom(fs, args, kwargs)
  }

  /** The number of factories in `fs` whose predicate accepts the arguments. */
  function CountEnabled<A, F>(fs: seq<Factory<A, F>>, args: Args<A>, kwargs: Kwargs<A>): nat
    reads set f | f in fs :: f.underlying
    requires forall f | f in fs :: Discovered(f)
  {
    if fs == [] then 0
    else CountEnabled(fs[..|fs| - 1], args, kwargs) + (if Enabled(fs[|fs| - 1], args, kwargs) then 1 else 0)
  }

  /** Discovery distributes over concatenation of the member sequence: order is kept. */
  lemma {:induction false} GenFactoriesAppend<A, F>(a: seq<Member<A, F>>, b: seq<Member<A, F>>)
    ensures GenFactories(a + b) == GenFactories(a) + GenFactories(b)
  {
    if a == [] {
      assert a + b == b;
    } else {
      assert (a + b)[0] == a[0];
      assert (a + b)[1..] == a[1..] + b;
      GenFactoriesAppend(a[1..], b);
    }
  }

  /** A member is yielded by discovery exactly when it is in the sequence and is a factory. */
  lemma {:induction false} GenFactoriesSelects<A, F>(ms: seq<Member<A, F>>, m: Member<A, F>)
    ensures (exists f :: f in GenFactories(ms) && f.bound == m) <==> m in ms && IsFactory(m)
  {
    if ms != [] {
      GenFactoriesSelects(ms[1..], m);
      var head := if IsFactory(ms[0]) then [Factory(Underlying(ms[0]), ms[0])] else [];
      assert GenFactories(ms) == head + GenFactories(ms[1..]);
      if m in ms && IsFactory(m) {
        if m == ms[0] {
          assert head[0] in GenFactories(ms);
        } else {
          assert m in ms[1..];
          var f :| f in GenFactories(ms[1..]) && f.bound == m;
          assert f in GenFactories(ms);
        }
      }
    }
  }

  /** Field generation distributes over concatenation of the factory sequence. */
  lemma {:induction false} FieldsFromAppend<A, F>(a: seq<Factory<A, F>>, b: seq<Factory<A, F>>, args: Args<A>, kwargs: Kwargs<A>)
    requires forall f | f in a + b :: Discovered(f)
    ensures FieldsFrom(a + b, args, kwargs) == FieldsFrom(a, args, kwargs) + FieldsFrom(b, args, kwargs)
  {
    if a == [] {
      assert a + b == b;
    } else {
      assert (a + b)[0] == a[0];
      assert (a + b)[1..] == a[1..] + b;
      FieldsFromAppend(a[1..], b, args, kwargs);
    }
  }

  /**
   * Exactly one entry per enabled factory, in discovery order: there are as
   * many entries as enabled factories, and the entry of the enabled factory at
   * index j sits behind the entries of the enabled factories before it.
   */
  lemma {:induction false} FieldsFromPositions<A, F>(fs: seq<Factory<A, F>>, args: Args<A>, kwargs: Kwargs<A>)
    requires forall f | f in fs :: Discovered(f)
    ensures |FieldsFrom(fs, args, kwargs)| == CountEnabled(fs, args, kwargs)
    ensures forall j | 0 <= j < |fs| && Enabled(fs[j], args, kwargs) ::
      CountEnabled(fs[..j], args, kwargs) < |FieldsFrom(fs, args, kwargs)| &&
      FieldsFrom(fs, args, kwargs)[CountEnabled(fs[..j], args, kwargs)] == Entry(fs[j], args, kwargs)
  {
    if fs != [] {
      var n := |fs| - 1;
      var front, last := fs[..n], fs[n];
      assert fs == front + [last];
      FieldsFromPositions(front, args, kwargs);
      FieldsFromAppend(front, [last], args, kwargs);
      var r := FieldsFrom(fs, args, kwargs);
      assert FieldsFrom([last], args, kwargs) == (if Enabled(last, args, kwargs) then [Entry(last, args, kwargs)] else []);
      forall j | 0 <= j < |fs| && Enabled(fs[j], args, kwargs)
        ensures CountEnabled(fs[..j], args, kwargs) < |r| && r[CountEnabled(fs[..j], args, kwargs)] == Entry(fs[j], args, kwargs)
      {
        if j < n {
          assert fs[..j] == front[..j];
          assert fs[j] == front[j];
        } else {
          assert fs[..j] == front;
        }
      }
    }
  }

  /** An entry is generated exactly when some enabled factory produces it. */
  lemma {:induction false} FieldsFromMembership<A, F>(fs: seq<Factory<A, F>>, args: Args<A>, kwargs: Kwargs<A>, e: (string, F))
    requires forall f | f in fs :: Discovered(f)
    ensures e in FieldsFrom(fs, args, kwargs) <==>
      exists j :: 0 <= j < |fs| && Enabled(fs[j], args, kwargs) && Entry(fs[j], args, kwargs) == e
  {
    if fs != [] {
      FieldsFromMembership(fs[1..], args, kwargs, e);
      if e in FieldsFrom(fs[1..], args, kwargs) {
        var j :| 0 <= j < |fs[1..]| && Enabled(fs[1..][j], args, kwargs) && Entry(fs[1..][j], args, kwargs) == e;
        assert fs[j + 1] == fs[1..][j];
      }
      if exists j :: 0 <= j < |fs| && Enabled(fs[j], args, kwargs) && Entry(fs[j], args, kwargs) == e {
        var j :| 0 <= j < |fs| && Enabled(fs[j], args, kwargs) && Entry(fs[j], args, kwargs) == e;
        if j > 0 {
          assert fs[1..][j - 1] == fs[j];
        }
      }
    }
  }

  /** Field generation over members distributes over concatenation: order is kept. */
  lemma GenFieldsAppend<A, F>(a: seq<Member<A, F>>, b: seq<Member<A, F>>, args: Args<A>, kwargs: Kwargs<A>)
    ensures GenFields(a + b, args, kwargs) == GenFields(a, args, kwargs) + GenFields(b, args, kwargs)
  {
    GenFactoriesAppend(a, b);
    GenFactoriesSound(a);
    GenFactoriesSound(b);
    FieldsFromAppend(GenFactories(a), GenFactories(b), args, kwargs);
  }

  /** An entry is generated from the members exactly when some enabled discovered factory produces it. */
  lemma GenFieldsMembership<A, F>(ms: seq<Member<A, F>>, args: Args<A>, kwargs: Kwargs<A>, e: (string, F))
    ensures e in GenFields(ms, args, kwargs) <==>
      exists f :: f in GenFactories(ms) && Discovered(f) && Enabled(f, args, kwargs) && Entry(f, args, kwargs) == e
  {
    var fs := GenFactories(ms);
    GenFactoriesSound(ms);
    FieldsFromMembership(fs, args, kwargs, e);
    if e in GenFields(ms, args, kwargs) {
      var j :| 0 <= j < |fs| && Enabled(fs[j], args, kwargs) && Entry(fs[j], args, kwargs) == e;
      assert fs[j] in fs;
    }
    if exists f :: f in fs && Discovered(f) && Enabled(f, args, kwargs) && Entry(f, args, kwargs) == e {
      var f :| f in fs && Discovered(f) && Enabled(f, args, kwargs) && Entry(f, args, kwargs) == e;
      var j :| 0 <= j < |fs| && fs[j] == f;
    }
  }

  /**
   * What one member contributes, by the kind of member. The predicate of a
   * bound method receives the receiver ahead of the stored arguments; calling
   * the bound method passes the stored arguments only, so its underlying
   * function sees the receiver once, like the predicate. A plain callable and
   * its predicate both see exactly the stored arguments.
   */
  lemma GenFieldsOfMember<A, F>(m: Member<A, F>, args: Args<A>, kwargs: Kwargs<A>)
    ensures m.Data? ==> GenFields([m], args, kwargs) == []
    ensures m.Plain? ==> (
      GenFields([m], args, kwargs) ==
        if m.fn.marker.Some? && m.fn.marker.value.isEnabled(args, kwargs)
        then [(m.fn.marker.value.fieldName, m.fn.code(args, kwargs))] else [])
    ensures m.Bound? ==> (
      GenFields([m], args, kwargs) ==
        if m.fn.marker.Some? && m.fn.marker.value.isEnabled([m.receiver] + args, kwargs)
        then [(m.fn.marker.value.fieldName, m.fn.code([m.receiver] + args, kwargs))] else [])
  {
  }
}
