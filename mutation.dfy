/**
 * The `mutable(stage)` decorator. A wrapped handler first asks the
 * session's mutation source for the stage's bytes; a non-empty answer is
 * returned in place of the handler's own result and the handler does not
 * run. Otherwise the handler runs and its result, or its exception, is
 * what the caller sees.
 */
module Mutation {
  import opened Common

  /** The mutation source: a stage name answered with replacement bytes, or None. */
  type Source = string -> Option<Bytes>

  /** The value of a wrapped handler: None or a byte string. */
  type Reply = Option<Bytes>

  /** Python truthiness of the mutation source's answer. */
  predicate Truthy(m: Option<Bytes>)
  {
    m.Some? && |m.value| > 0
  }

  /**
   * A Python function as the decorator sees it: the number of positional
   * parameters it declares after `self`, and what it returns when called
   * with that many arguments.
   */
  datatype Func<!A> = Func(arity: nat, body: seq<A> -> Res<Reply>)

  /** Calling a function with a positional argument list; a count that does not match its parameters is a TypeError. */
  function Call<A>(f: Func<A>, args: seq<A>): Res<Reply>
  {
    if |args| == f.arity then f.body(args) else Raise(TypeError)
  }

  /** The positional arguments the decorator forwards: `args[1:]`. */
  function Forwarded<A>(args: seq<A>): (r: seq<A>)
    ensures |args| > 0 ==> |r| == |args| - 1
  {
    if |args| == 0 then [] else args[1..]
  }

  /** The decorator as written: the handler receives every argument but the first. */
  function MutableAsWritten<A>(source: Source, stage: string, f: Func<A>, args: seq<A>): Res<Reply>
  {
    var m := source(stage);
    if Truthy(m) then Ok(Some(m.value)) else Call(f, Forwarded(args))
  }

  /** The decorator applied to a handler whose own result is `computed`. */
  function Mutable(source: Source, stage: string, computed: Res<Reply>): Res<Reply>
  {
    var m := source(stage);
    if Truthy(m) then Ok(Some(m.value)) else computed
  }

  /** The decorator with the arguments forwarded unchanged. */
  function MutableCall<A>(source: Source, stage: string, f: Func<A>, args: seq<A>): Res<Reply>
  {
    Mutable(source, stage, Call(f, args))
  }

  /** Exceptions pass through; a byte string is a (non-None) reply. */
  function Lift(r: Res<Bytes>): Res<Reply>
  {
    if r.Raise? then Raise(r.exc) else Ok(Some(r.value))
  }

  /** The decorator applied to a producer whose own result is always a byte string or an exception. */
  function MutableRes(source: Source, stage: string, computed: Res<Bytes>): (r: Res<Bytes>)
    ensures Lift(r) == Mutable(source, stage, Lift(computed))
  {
    var m := source(stage);
    if Truthy(m) then Ok(m.value) else computed
  }

  /** A non-empty mutation is the reply whatever the handler and its arguments are: the handler is not consulted. */
  lemma MutationReplacesHandler<A>(source: Source, stage: string, f: Func<A>, g: Func<A>, args: seq<A>, other: seq<A>)
    requires Truthy(source(stage))
    ensures MutableAsWritten(source, stage, f, args) == MutableAsWritten(source, stage, g, other)
    ensures MutableCall(source, stage, f, args) == MutableCall(source, stage, g, other)
    ensures MutableAsWritten(source, stage, f, args) == MutableCall(source, stage, g, other) == Ok(Some(source(stage).value))
  {
  }

  /** Without a mutation the reply is exactly the handler's own outcome, a value or an exception. */
  lemma NoMutationPassesThrough(source: Source, stage: string, computed: Res<Reply>)
    requires !Truthy(source(stage))
    ensures Mutable(source, stage, computed) == computed
  {
  }

  /** An empty mutation (b'') is treated as no mutation. */
  lemma EmptyMutationIgnored(source: Source, stage: string, computed: Res<Reply>)
    requires source(stage) == Some([])
    ensures Mutable(source, stage, computed) == computed
  {
  }

  /**
   * The decorator as written drops the handler's first positional
   * argument: a handler declaring k >= 1 parameters after `self`, called
   * with k arguments and no mutation, raises TypeError.
   */
  lemma AsWrittenDropsFirstArgument<A>(source: Source, stage: string, f: Func<A>, args: seq<A>)
    requires !Truthy(source(stage))
    requires f.arity >= 1 && |args| == f.arity
    ensures MutableAsWritten(source, stage, f, args) == Raise(TypeError)
  {
  }

  /**
   * The decorator as the callers need it: the handler receives the
   * arguments it declares, the first `arity` of those its caller passed.
   * A caller passing fewer is a TypeError, as in Python.
   */
  function MutableDeclared<A>(source: Source, stage: string, f: Func<A>, args: seq<A>): Res<Reply>
  {
    Mutable(source, stage, if |args| >= f.arity then f.body(args[..f.arity]) else Raise(TypeError))
  }

  /**
   * The corrected decorator is `Mutable` over the handler's own result on
   * the arguments it declares, so a caller may pass more, as
   * `response(dindex)` does for descriptor getters declaring none.
   */
  lemma CorrectedForwardsDeclared<A>(source: Source, stage: string, f: Func<A>, args: seq<A>)
    requires |args| >= f.arity
    ensures MutableDeclared(source, stage, f, args) == Mutable(source, stage, f.body(args[..f.arity]))
    ensures !Truthy(source(stage)) ==> MutableDeclared(source, stage, f, args) == f.body(args[..f.arity])
  {
  }

  /** As written, a handler declaring one parameter fewer than its caller passes does run, on all but the first argument. */
  lemma AsWrittenServesExtraArgument<A>(source: Source, stage: string, f: Func<A>, args: seq<A>)
    requires !Truthy(source(stage))
    requires |args| == f.arity + 1
    ensures MutableAsWritten(source, stage, f, args) == f.body(args[1..])
  {
  }

  /** Forwarding every argument would make that same call a TypeError. */
  lemma ForwardAllBreaksExtraArgument<A>(source: Source, stage: string, f: Func<A>, args: seq<A>)
    requires !Truthy(source(stage))
    requires |args| == f.arity + 1
    ensures MutableCall(source, stage, f, args) == Raise(TypeError)
  {
  }

  /** The corrected decorator gives the handler exactly the arguments its caller passed. */
  lemma CorrectedForwardsArguments<A>(source: Source, stage: string, f: Func<A>, args: seq<A>)
    requires !Truthy(source(stage))
    requires |args| == f.arity
    ensures MutableCall(source, stage, f, args) == f.body(args)
  {
  }
}
