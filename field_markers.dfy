/**
 * The factory marker: `field(name, enable_if)` attaches a field name and an
 * enablement predicate to a callable, in place, and hands the same callable back.
 */
module FieldMarkers {
  import opened Wrappers

  /** Positional arguments of a call (a Python tuple). */
  type Args<A> = seq<A>

  /** Keyword arguments of a call (a Python dict keyed by parameter name). */
  type Kwargs<A> = map<string, A>

  /** An `enable_if` callable: it sees a call's arguments and decides inclusion. */
  type Predicate<!A> = (Args<A>, Kwargs<A>) -> bool

  /**
   * The two attributes the marker attaches, `field_name` and `is_enabled`.
   * They live in one value so that a callable carries both or neither.
   */
  datatype Marker<!A> = Marker(fieldName: string, isEnabled: Predicate<A>)

  /**
   * A raw Python callable (a function, or any other callable object): what it
   * computes when called with an argument list, and the marker attributes it
   * currently carries (none until it is decorated).
   */
  class FunctionObject<A, F> {
    const code: (Args<A>, Kwargs<A>) -> F
    var marker: Option<Marker<A>>

    constructor (code: (Args<A>, Kwargs<A>) -> F)
      ensures this.code == code && marker == None
    {
      this.code := code;
      marker := None;
    }
  }

  /** The default predicate, `lambda *args, **kwargs: True`. */
  function AlwaysEnabled<A(!new)>(): (p: Predicate<A>)
    ensures forall args: Args<A>, kwargs: Kwargs<A> :: p(args, kwargs)
  {
    (args: Args<A>, kwargs: Kwargs<A>) => true
  }

  /**
   * The attributes `field(name, enable_if)` attaches: `enable_if` when one is
   * given, otherwise a predicate that accepts every argument list.
   */
  function MarkerFor<A(!new)>(name: string, enableIf: Option<Predicate<A>>): (m: Marker<A>)
    ensures m.fieldName == name
    ensures enableIf.Some? ==> m.isEnabled == enableIf.value
    ensures enableIf.None? ==> forall args: Args<A>, kwargs: Kwargs<A> :: m.isEnabled(args, kwargs)
  {
    Marker(name, if enableIf.Some? then enableIf.value else AlwaysEnabled())
  }

  /**
   * `field(name, enable_if)(function)`: marks `fn` as a field factory by
   * attribute assignment and returns that very object, whose calling
   * behaviour (`code`) is untouched.
   */
  method MarkField<A(!new), F>(name: string, enableIf: Option<Predicate<A>>, fn: FunctionObject<A, F>)
    returns (r: FunctionObject<A, F>)
    modifies fn
    ensures r == fn
    ensures fn.marker == Some(MarkerFor(name, enableIf))
  {
    fn.marker := Some(MarkerFor(name, enableIf));
    r := fn;
  }
}
