/** A map-based processor selector with an optional default processor.

    A ProcessorMap is the mutable builder: it accumulates key-to-processor
    bindings and a default processor, and GetProcessor freezes them into a
    Mapper. The Mapper derives a key from each input with the function f,
    runs the processor bound to that key, falls back to the default
    processor, and otherwise fails with NoSuitableProcessor carrying the key.

    Java's null is None. A processor is an opaque value P; running it is the
    function `run` a caller passes to Process, whose result (value or
    exception) the Mapper hands back unchanged. */
module ProcessorMaps {
  import opened Outcomes
  import opened Registrations

  /** The message of a ProcessorBuildError: the unchecked exception that
      reports a misconfigured builder. */
  datatype BuildError = NullKey | NullProcessor | NullFunction

  /** A ProcessingException: the checked exception of processors. The
      Mapper raises NoSuitableProcessor with the derived key; every other
      message, of type M, comes from a processor and is not interpreted. */
  datatype ProcessingException<K, M> = NoSuitableProcessor(key: Option<K>) | Failed(message: M)

  /** The immutable processor GetProcessor produces: its own copy of the
      binding table, the key function and the default processor. */
  datatype Mapper<K(==), P, !IN> = Mapper(processors: map<K, P>, f: IN -> Option<K>, defaultProcessor: Option<P>)
  {
    /** The key derived from input has a binding. A null key never has one. */
    predicate Bound(input: IN) {
      f(input).Some? && f(input).value in processors
    }

    /** The processor chosen for input: its key's binding, else the default,
        else none. */
    function Select(input: IN): Option<P> {
      var key := f(input);
      if key.Some? && key.value in processors then Some(processors[key.value]) else defaultProcessor
    }

    /** Process the input: run the chosen processor on the same report and
        input and return what it returns, or fail with NoSuitableProcessor
        when there is neither a binding nor a default. */
    function Process<R, OUT, M>(report: R, input: IN, run: (P, R, IN) -> Result<OUT, ProcessingException<K, M>>)
      : (r: Result<OUT, ProcessingException<K, M>>)
      ensures Bound(input) ==> r == run(processors[f(input).value], report, input)
      ensures !Bound(input) && defaultProcessor.Some? ==> r == run(defaultProcessor.value, report, input)
      ensures !Bound(input) && defaultProcessor.None? ==> r == Err(NoSuitableProcessor(f(input)))
    {
      match Select(input)
      case Some(p) => run(p, report, input)
      case None => Err(NoSuitableProcessor(f(input)))
    }
  }

  /** The Mapper constructor: it refuses a null key function and otherwise
      takes a copy of the table together with the function and the default. */
  function NewMapper<K(==), P, IN>(processors: map<K, P>, f: Option<IN -> Option<K>>, defaultProcessor: Option<P>)
    : (r: Result<Mapper<K, P, IN>, BuildError>)
    ensures r.Err? <==> f.None?
    ensures r.Err? ==> r.error == NullFunction
    ensures r.Ok? ==> r.value.processors == processors && r.value.defaultProcessor == defaultProcessor
    ensures r.Ok? ==> r.value.f == f.value
  {
    match f
    case None => Err(NullFunction)
    case Some(g) => Ok(Mapper(processors, g, defaultProcessor))
  }

  /** Registering key k only reroutes the inputs whose derived key is k, and
      those go to the new processor whatever was bound before. */
  lemma EntryReroutesOnlyItsKey<K, P, IN>(m: Mapper<K, P, IN>, k: K, p: P, input: IN)
    ensures m.(processors := m.processors[k := p]).Select(input)
            == if m.f(input) == Some(k) then Some(p) else m.Select(input)
  {
  }

  /** Replacing the default only reroutes the inputs whose key is unbound;
      a bound key never falls through to the default. */
  lemma DefaultReroutesOnlyUnbound<K, P, IN>(m: Mapper<K, P, IN>, p: P, input: IN)
    ensures m.(defaultProcessor := Some(p)).Select(input)
            == if m.Bound(input) then m.Select(input) else Some(p)
  {
  }

  /** When nothing is selected, no processor runs: the outcome is the same
      NoSuitableProcessor error whatever the processors would do. */
  lemma UnroutableRunsNothing<K, P, IN, R, OUT, M>(
    m: Mapper<K, P, IN>, report: R, input: IN,
    run1: (P, R, IN) -> Result<OUT, ProcessingException<K, M>>,
    run2: (P, R, IN) -> Result<OUT, ProcessingException<K, M>>)
    requires m.Select(input).None?
    ensures m.Process(report, input, run1) == m.Process(report, input, run2)
    ensures m.Process(report, input, run1) == Err(NoSuitableProcessor(m.f(input)))
  {
  }

  /** A Mapper built from the state that a history of registrations leaves
      routes every input as the reference routing of that history says. */
  lemma SnapshotRoutes<K, P, IN>(h: seq<Registration<K, P>>, f: IN -> Option<K>, input: IN)
    ensures Routes(h, f(input), Mapper(TableOf(h), f, DefaultOf(h)).Select(input))
  {
    ReplayRoutes(h, f(input));
  }

  /** The builder. `processors` and `defaultProcessor` are the Java fields;
      `f` is what the subclass's f() returns; the ghost `registrations`
      records every successful registration call, in order. */
  class ProcessorMap<K(==), P, IN> {
    var processors: map<K, P>
    var defaultProcessor: Option<P>
    const f: Option<IN -> Option<K>>
    ghost var registrations: seq<Registration<K, P>>

    /** The fields hold what replaying the registrations gives. */
    ghost predicate Valid()
      reads this
    {
      processors == TableOf(registrations) && defaultProcessor == DefaultOf(registrations)
    }

    /** A fresh builder: an empty table and no default processor. */
    constructor (f: Option<IN -> Option<K>>)
      ensures Valid() && registrations == []
      ensures processors == map[] && defaultProcessor == None && this.f == f
    {
      this.f := f;
      processors := map[];
      defaultProcessor := None;
      registrations := [];
    }

    /** addEntry: bind key to processor, or fail on a null key (checked
        first) or a null processor, leaving the builder as it was. */
    method AddEntry(key: Option<K>, processor: Option<P>) returns (r: Result<ProcessorMap<K, P, IN>, BuildError>)
      requires Valid()
      modifies this
      ensures Valid()
      ensures key.None? ==> r == Err(NullKey)
      ensures key.Some? && processor.None? ==> r == Err(NullProcessor)
      ensures r.Err? ==> unchanged(this)
      ensures key.Some? && processor.Some? ==>
        && r == Ok(this)
        && processors == old(processors)[key.value := processor.value]
        && defaultProcessor == old(defaultProcessor)
        && registrations == old(registrations) + [Entry(key.value, processor.value)]
    {
      if key.None? {
        return Err(NullKey);
      }
      if processor.None? {
        return Err(NullProcessor);
      }
      processors := processors[key.value := processor.value];
      registrations := registrations + [Entry(key.value, processor.value)];
      assert registrations[..|registrations| - 1] == old(registrations);
      r := Ok(this);
    }

    /** setDefaultProcessor: replace the default processor, or fail on a
        null processor, leaving the builder as it was. */
    method SetDefaultProcessor(processor: Option<P>) returns (r: Result<ProcessorMap<K, P, IN>, BuildError>)
      requires Valid()
      modifies this
      ensures Valid()
      ensures processor.None? ==> r == Err(NullProcessor) && unchanged(this)
      ensures processor.Some? ==>
        && r == Ok(this)
        && defaultProcessor == processor
        && processors == old(processors)
        && registrations == old(registrations) + [Default(processor.value)]
    {
      if processor.None? {
        return Err(NullProcessor);
      }
      defaultProcessor := processor;
      registrations := registrations + [Default(processor.value)];
      assert registrations[..|registrations| - 1] == old(registrations);
      r := Ok(this);
    }

    /** getProcessor: a Mapper over a copy of the current table and default,
        or NullFunction when f() gives null. The Mapper routes each input as
        the registrations so far prescribe: last entry for its key, else last
        default, else nowhere. */
    method GetProcessor() returns (r: Result<Mapper<K, P, IN>, BuildError>)
      requires Valid()
      ensures r.Err? <==> f.None?
      ensures r.Err? ==> r.error == NullFunction
      ensures r.Ok? ==> r.value.processors == processors && r.value.defaultProcessor == defaultProcessor
      ensures r.Ok? ==> r.value.f == f.value
      ensures r.Ok? ==> forall input :: Routes(registrations, r.value.f(input), r.value.Select(input))
    {
      r := NewMapper(processors, f, defaultProcessor);
      if r.Ok? {
        forall input
          ensures Routes(registrations, r.value.f(input), r.value.Select(input))
        {
          SnapshotRoutes(registrations, r.value.f, input);
        }
      }
    }
  }

  /** Snapshot isolation: a Mapper taken before further registrations keeps
      routing as the builder's state at the time it was taken prescribes,
      while a Mapper taken afterwards follows the new registrations. */
  method RebuildAfterRegistering<K(==), P, IN>(b: ProcessorMap<K, P, IN>, key: Option<K>, processor: Option<P>, fallback: Option<P>)
    returns (before: Result<Mapper<K, P, IN>, BuildError>, after: Result<Mapper<K, P, IN>, BuildError>)
    requires b.Valid()
    modifies b
    ensures b.Valid()
    ensures before.Ok? <==> b.f.Some?
    ensures after.Ok? <==> b.f.Some?
    ensures before.Ok? ==> before.value.processors == old(b.processors) && before.value.defaultProcessor == old(b.defaultProcessor)
    ensures before.Ok? ==> forall input :: Routes(old(b.registrations), before.value.f(input), before.value.Select(input))
    ensures before.Ok? ==> before.value.f == b.f.value
    ensures after.Ok? ==> after.value.f == b.f.value
    ensures b.registrations == old(b.registrations)
      + (if key.Some? && processor.Some? then [Entry(key.value, processor.value)] else [])
      + (if fallback.Some? then [Default(fallback.value)] else [])
    ensures after.Ok? ==> forall input :: Routes(b.registrations, after.value.f(input), after.value.Select(input))
    ensures after.Ok? && key.Some? && processor.Some? ==>
      forall input :: after.value.f(input) == key ==> after.value.Select(input) == processor
  {
    ghost var registered := b.registrations;
    before := b.GetProcessor();
    assert before.Ok? ==> before.value.processors == TableOf(registered) && before.value.defaultProcessor == DefaultOf(registered);
    var _ := b.AddEntry(key, processor);
    var _ := b.SetDefaultProcessor(fallback);
    after := b.GetProcessor();
    if before.Ok? {
      forall input
        ensures Routes(registered, before.value.f(input), before.value.Select(input))
      {
        SnapshotRoutes(registered, before.value.f, input);
      }
    }
  }

  /** Selection where the key of an input is the input itself: "draft4" goes to A, "draft3" to B and anything else to the
      default C. Running a processor here just answers its name. */
  method DraftSelection() returns (
    draft4: Result<string, ProcessingException<string, string>>,
    draft3: Result<string, ProcessingException<string, string>>,
    unknown: Result<string, ProcessingException<string, string>>)
    ensures draft4 == Ok("A") && draft3 == Ok("B") && unknown == Ok("C")
  {
    var b := new ProcessorMap(Some((input: string) => Some(input)));
    var _ := b.AddEntry(Some("draft4"), Some("A"));
    var _ := b.AddEntry(Some("draft3"), Some("B"));
    var _ := b.SetDefaultProcessor(Some("C"));
    var m := b.GetProcessor();
    var run := (p: string, report: (), input: string) => Ok(p);
    draft4 := m.value.Process((), "draft4", run);
    draft3 := m.value.Process((), "draft3", run);
    unknown := m.value.Process((), "unknown", run);
  }

  /** The same selection rebuilt without a default: "unknown" is refused
      with its key, and "draft4" still goes to A. */
  method DraftSelectionWithoutDefault() returns (
    draft4: Result<string, ProcessingException<string, string>>,
    unknown: Result<string, ProcessingException<string, string>>)
    ensures draft4 == Ok("A")
    ensures unknown == Err(NoSuitableProcessor(Some("unknown")))
  {
    var b := new ProcessorMap(Some((input: string) => Some(input)));
    var _ := b.AddEntry(Some("draft4"), Some("A"));
    var _ := b.AddEntry(Some("draft3"), Some("B"));
    var m := b.GetProcessor();
    var run := (p: string, report: (), input: string) => Ok(p);
    draft4 := m.value.Process((), "draft4", run);
    unknown := m.value.Process((), "unknown", run);
  }
}
