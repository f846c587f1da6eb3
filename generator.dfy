/** The composable data generator: a `generator` calls a stored callable and
    post-processes the result; a `composite` evaluates an ordered list of
    callables, generators and static values and hands the list to a composer.

    Python values are modelled as `Value<A>`: an opaque atom of type `A`, or a
    list (what `composite` builds). Python callables are total functions from
    positional and keyword arguments to a value; `getattr(value, name)` is the
    parameter `attrs`, which says whether the value has no such attribute, an
    attribute that cannot be called, or a bound method. */
module Generator {

  datatype Value<A> = Atom(a: A) | List(items: seq<Value<A>>)

  type Args<A> = seq<Value<A>>
  type KwArgs<A> = map<string, Value<A>>

  /** A Python callable, called as `f(*args, **kwargs)`. */
  type Callable<!A> = (Args<A>, KwArgs<A>) -> Value<A>

  /** What `getattr(value, name)` finds. */
  datatype Attr<!A> = NoAttribute | NotCallable | Method(call: Callable<A>)

  /** `getattr` over every value and attribute name. */
  type Attrs<!A> = (Value<A>, string) -> Attr<A>

  /** The exceptions the generator code itself raises. */
  datatype Error = AttributeError(name: string) | TypeError(name: string) | NameError(name: string)

  datatype Result<T> = Ok(value: T) | Fail(error: Error)

  // ---------------------------------------------------------------------
  // processor and composer

  /** What a `processor` was constructed with as its callable: a method name
      (a `str`) or a function. */
  datatype Target<!A> = MethodName(name: string) | Function(f: Callable<A>)

  /** `processor(callable, *args, **kwargs)`. */
  datatype Processor<!A> = Processor(callable: Target<A>, args: Args<A>, kwargs: KwArgs<A>)

  /** `getattr(data, name)(*args, **kwargs)`: an AttributeError when the data
      has no such attribute, a TypeError when the attribute is not callable,
      and otherwise the method's result. */
  function CallMethod<A>(data: Value<A>, name: string, args: Args<A>, kwargs: KwArgs<A>, attrs: Attrs<A>): (r: Result<Value<A>>)
    ensures r == Fail(AttributeError(name)) <==> attrs(data, name).NoAttribute?
    ensures r == Fail(TypeError(name)) <==> attrs(data, name).NotCallable?
    ensures r.Ok? <==> attrs(data, name).Method?
    ensures r.Ok? ==> r.value == attrs(data, name).call(args, kwargs)
  {
    match attrs(data, name)
    case NoAttribute => Fail(AttributeError(name))
    case NotCallable => Fail(TypeError(name))
    case Method(bound) => Ok(bound(args, kwargs))
  }

  /** `processor.process(data)` as the source has it: the function branch
      names the undefined variable `data_iterator` and raises a NameError, so
      only a method name can succeed. */
  function ProcessAsWritten<A>(p: Processor<A>, data: Value<A>, attrs: Attrs<A>): (r: Result<Value<A>>)
    ensures r.Ok? ==> p.callable.MethodName? && attrs(data, p.callable.name).Method?
    ensures p.callable.Function? ==> r.Fail? && r.error.NameError?
  {
    match p.callable
    case MethodName(name) => CallMethod(data, name, p.args, p.kwargs, attrs)
    case Function(_) => Fail(NameError("data_iterator"))
  }

  /** `processor.process(data)` as intended: a method name is looked up on
      the data and called with the stored arguments; a function is called
      with the data first, then the stored arguments. */
  function Process<A>(p: Processor<A>, data: Value<A>, attrs: Attrs<A>): (r: Result<Value<A>>)
    ensures r.Fail? <==> p.callable.MethodName? && !attrs(data, p.callable.name).Method?
    ensures p.callable.MethodName? && attrs(data, p.callable.name).Method? ==>
      r == Ok(attrs(data, p.callable.name).call(p.args, p.kwargs))
    ensures p.callable.Function? ==> r == Ok(p.callable.f([data] + p.args, p.kwargs))
  {
    match p.callable
    case MethodName(name) => CallMethod(data, name, p.args, p.kwargs, attrs)
    case Function(f) => Ok(f([data] + p.args, p.kwargs))
  }

  /** `composer(callable, *args, **kwargs)`. */
  datatype Composer<!A> = Composer(callable: Callable<A>, args: Args<A>, kwargs: KwArgs<A>)

  /** `composer.compose(data_iter)`: the callable with the data first, then
      the stored arguments. */
  function Compose<A>(c: Composer<A>, dataIter: Value<A>): Value<A>
  {
    c.callable([dataIter] + c.args, c.kwargs)
  }

  /** `_same`: the default processor and composer. */
  function Same<A>(v: Value<A>): Value<A>
  {
    v
  }

  // ---------------------------------------------------------------------
  // generator

  /** The `processor=` argument of a generator, told apart the way
      `generate` tells it apart: a `str`, a `processor` object, or anything
      else (called with the data). */
  datatype PostProcessor<!A> =
    | NamedMethod(name: string)
    | ProcessorObject(p: Processor<A>)
    | PlainFunction(f: Value<A> -> Value<A>)

  function DefaultProcessor<A>(): PostProcessor<A>
  {
    PlainFunction(Same)
  }

  /** `generator(callable, *args, processor=..., **kwargs)`. */
  datatype Gen<!A> = Gen(callable: Callable<A>, args: Args<A>, kwargs: KwArgs<A>, processor: PostProcessor<A>)

  /** The data a generator produces before post-processing. */
  function RawData<A>(g: Gen<A>): Value<A>
  {
    g.callable(g.args, g.kwargs)
  }

  /** `generator.generate()`, with the intended `processor.process`. It
      fails only where an attribute lookup on the generated data fails. */
  function Generate<A>(g: Gen<A>, attrs: Attrs<A>): (r: Result<Value<A>>)
    ensures r.Fail? <==>
      || (g.processor.NamedMethod? && !attrs(RawData(g), g.processor.name).Method?)
      || (g.processor.ProcessorObject? && g.processor.p.callable.MethodName?
          && !attrs(RawData(g), g.processor.p.callable.name).Method?)
    ensures g.processor.NamedMethod? && attrs(RawData(g), g.processor.name).Method? ==>
      r == Ok(attrs(RawData(g), g.processor.name).call([], map[]))
    ensures g.processor.ProcessorObject? ==> r == Process(g.processor.p, RawData(g), attrs)
    ensures g.processor.PlainFunction? ==> r == Ok(g.processor.f(RawData(g)))
  {
    var data := g.callable(g.args, g.kwargs);
    match g.processor
    case NamedMethod(name) => CallMethod(data, name, [], map[], attrs)
    case ProcessorObject(p) => Process(p, data, attrs)
    case PlainFunction(f) => Ok(f(data))
  }

  /** `generator.generate()` exactly as the source has it, with
      `processor.process` as written. */
  function GenerateAsWritten<A>(g: Gen<A>, attrs: Attrs<A>): (r: Result<Value<A>>)
    ensures g.processor.ProcessorObject? && g.processor.p.callable.Function? ==>
      r == Fail(NameError("data_iterator"))
    ensures !(g.processor.ProcessorObject? && g.processor.p.callable.Function?) ==>
      r == Generate(g, attrs)
  {
    var data := g.callable(g.args, g.kwargs);
    match g.processor
    case NamedMethod(name) => CallMethod(data, name, [], map[], attrs)
    case ProcessorObject(p) => ProcessAsWritten(p, data, attrs)
    case PlainFunction(f) => Ok(f(data))
  }

  // ---------------------------------------------------------------------
  // composite

  /** One of the `*generators_or_data` of a composite. A nested `composite`
      is neither callable nor a `generator`, so it is a static item. */
  datatype Item<!A> =
    | CallableItem(call: () -> Value<A>)
    | GeneratorItem(gen: Gen<A>)
    | StaticItem(v: Value<A>)

  /** The `composer=` argument of a composite. */
  datatype CompositeComposer<!A> = ComposerObject(c: Composer<A>) | PlainComposer(f: Value<A> -> Value<A>)

  function DefaultComposer<A>(): CompositeComposer<A>
  {
    PlainComposer(Same)
  }

  /** `composite(*generators_or_data, composer=...)`. */
  datatype Composite<!A> = Composite(items: seq<Item<A>>, composer: CompositeComposer<A>)

  /** What the loop of `composite.generate` appends for one item. */
  function EvalItem<A>(item: Item<A>, attrs: Attrs<A>): Result<Value<A>>
  {
    match item
    case CallableItem(call) => Ok(call())
    case GeneratorItem(gen) => Generate(gen, attrs)
    case StaticItem(v) => Ok(v)
  }

  /** The list the loop builds from `items`, or the first exception raised. */
  function EvalAll<A>(items: seq<Item<A>>, attrs: Attrs<A>): (r: Result<seq<Value<A>>>)
    ensures r.Ok? ==> |r.value| == |items|
  {
    if items == [] then Ok([])
    else
      match EvalAll(items[..|items| - 1], attrs)
      case Fail(e) => Fail(e)
      case Ok(out) =>
        match EvalItem(items[|items| - 1], attrs)
        case Fail(e) => Fail(e)
        case Ok(v) => Ok(out + [v])
  }

  function ApplyComposer<A>(c: CompositeComposer<A>, data: Value<A>): Value<A>
  {
    match c
    case ComposerObject(obj) => Compose(obj, data)
    case PlainComposer(f) => f(data)
  }

  /** What `composite.generate()` returns: it succeeds exactly when every
      item does. */
  function CompositeResult<A>(c: Composite<A>, attrs: Attrs<A>): (r: Result<Value<A>>)
    ensures r.Ok? <==> forall i :: 0 <= i < |c.items| ==> EvalItem(c.items[i], attrs).Ok?
  {
    EvalAllSucceeds(c.items, attrs);
    match EvalAll(c.items, attrs)
    case Fail(e) => Fail(e)
    case Ok(out) => Ok(ApplyComposer(c.composer, List(out)))
  }

  /** `composite.generate()`: evaluates the items in order into a list, then
      applies the composer once to the whole list. */
  method GenerateComposite<A>(c: Composite<A>, attrs: Attrs<A>) returns (r: Result<Value<A>>)
    ensures r == CompositeResult(c, attrs)
  {
    var out: seq<Value<A>> := [];
    var i := 0;
    while i < |c.items|
      invariant 0 <= i <= |c.items|
      invariant EvalAll(c.items[..i], attrs) == Ok(out)
    {
      var item := c.items[i];
      var v: Value<A>;
      match item {
        case CallableItem(call) =>
          v := call();
        case GeneratorItem(gen) =>
          var generated := Generate(gen, attrs);
          if generated.Fail? {
            assert c.items[..i + 1][..i] == c.items[..i];
            EvalAllPrefixFails(c.items, i + 1, attrs);
            return Fail(generated.error);
          }
          v := generated.value;
        case StaticItem(x) =>
          v := x;
      }
      assert c.items[..i + 1][..i] == c.items[..i];
      out := out + [v];
      i := i + 1;
    }
    assert c.items[..i] == c.items;
    r := Ok(ApplyComposer(c.composer, List(out)));
  }

  // ---------------------------------------------------------------------
  // Properties of the list evaluation

  /** Once a prefix of the items fails, the whole evaluation fails with the
      same exception: later items are never evaluated. */
  lemma {:induction false} EvalAllPrefixFails<A>(items: seq<Item<A>>, k: nat, attrs: Attrs<A>)
    requires k <= |items| && EvalAll(items[..k], attrs).Fail?
    ensures EvalAll(items, attrs) == EvalAll(items[..k], attrs)
    decreases |items| - k
  {
    if k < |items| {
      assert items[..k + 1][..k] == items[..k];
      EvalAllPrefixFails(items, k + 1, attrs);
    } else {
      assert items[..k] == items;
    }
  }

  /** A successful evaluation yields one value per item, in item order:
      a callable's result, a generator's generated value, a static item
      unchanged. */
  lemma {:induction false} EvalAllOk<A>(items: seq<Item<A>>, attrs: Attrs<A>, out: seq<Value<A>>)
    requires EvalAll(items, attrs) == Ok(out)
    ensures |out| == |items|
    ensures forall i :: 0 <= i < |items| ==> EvalItem(items[i], attrs) == Ok(out[i])
  {
    if items != [] {
      var front := items[..|items| - 1];
      var prev := EvalAll(front, attrs).value;
      EvalAllOk(front, attrs, prev);
      assert out == prev + [EvalItem(items[|items| - 1], attrs).value];
    }
  }

  /** The evaluation succeeds exactly when every item does. */
  lemma {:induction false} EvalAllSucceeds<A>(items: seq<Item<A>>, attrs: Attrs<A>)
    ensures EvalAll(items, attrs).Ok? <==> forall i :: 0 <= i < |items| ==> EvalItem(items[i], attrs).Ok?
  {
    if items != [] {
      var front := items[..|items| - 1];
      EvalAllSucceeds(front, attrs);
      assert forall i :: 0 <= i < |front| ==> front[i] == items[i];
    }
  }

  /** A failed evaluation reports the exception of the first failing item. */
  lemma {:induction false} EvalAllFailsFirst<A>(items: seq<Item<A>>, attrs: Attrs<A>)
    requires EvalAll(items, attrs).Fail?
    ensures exists k :: 0 <= k < |items| && EvalItem(items[k], attrs) == Fail(EvalAll(items, attrs).error)
                      && (forall j :: 0 <= j < k ==> EvalItem(items[j], attrs).Ok?)
  {
    var front := items[..|items| - 1];
    var last := |items| - 1;
    match EvalAll(front, attrs)
    case Fail(e) =>
      EvalAllFailsFirst(front, attrs);
      var k :| 0 <= k < |front| && EvalItem(front[k], attrs) == Fail(e)
        && forall j :: 0 <= j < k ==> EvalItem(front[j], attrs).Ok?;
      assert items[k] == front[k];
      assert forall j :: 0 <= j < k ==> items[j] == front[j];
    case Ok(out) =>
      EvalAllSucceeds(front, attrs);
      assert forall j :: 0 <= j < last ==> items[j] == front[j];
  }

  /** Evaluating one more item extends the list by that item's value. */
  lemma EvalAllSnoc<A>(front: seq<Item<A>>, item: Item<A>, attrs: Attrs<A>)
    ensures EvalAll(front + [item], attrs) ==
      match EvalAll(front, attrs)
      case Fail(e) => Fail(e)
      case Ok(out) =>
        match EvalItem(item, attrs)
        case Fail(e) => Fail(e)
        case Ok(v) => Ok(out + [v])
  {
    assert (front + [item])[..|front|] == front;
  }

  // ---------------------------------------------------------------------
  // Properties of generators and composites

  /** With the default processor `_same`, a generator returns exactly what its
      callable returns on the stored arguments. */
  lemma GenerateWithDefaultProcessor<A>(callable: Callable<A>, args: Args<A>, kwargs: KwArgs<A>, attrs: Attrs<A>)
    ensures Generate(Gen(callable, args, kwargs, DefaultProcessor()), attrs) == Ok(callable(args, kwargs))
  {
  }

  /** A `str` processor is a `processor` object with that method name and no
      arguments: both call the named zero-argument method on the data. */
  lemma NamedMethodIsBareProcessor<A>(g: Gen<A>, name: string, attrs: Attrs<A>)
    ensures Generate(g.(processor := NamedMethod(name)), attrs)
         == Generate(g.(processor := ProcessorObject(Processor(MethodName(name), [], map[]))), attrs)
    ensures Generate(g.(processor := NamedMethod(name)), attrs)
         == CallMethod(RawData(g), name, [], map[], attrs)
  {
  }

  /** The function branch of `processor.process` as written raises a
      NameError whatever the data and the arguments: the function is never
      called. On method names it is the intended behaviour. */
  lemma ProcessAsWrittenRaises<A>(p: Processor<A>, data: Value<A>, attrs: Attrs<A>)
    ensures p.callable.Function? ==> ProcessAsWritten(p, data, attrs) == Fail(NameError("data_iterator"))
    ensures p.callable.MethodName? ==> ProcessAsWritten(p, data, attrs) == Process(p, data, attrs)
  {
  }

  /** Intended `processor.process`: a function is called on the generated
      data, then the stored arguments, and never fails; so a generator with a
      `processor` object around a function returns the same as with a plain
      function that binds those arguments after the data. */
  lemma ProcessCallsFunction<A>(g: Gen<A>, f: Callable<A>, args: Args<A>, kwargs: KwArgs<A>, attrs: Attrs<A>)
    ensures Process(Processor(Function(f), args, kwargs), RawData(g), attrs) == Ok(f([RawData(g)] + args, kwargs))
    ensures Generate(g.(processor := ProcessorObject(Processor(Function(f), args, kwargs))), attrs)
         == Generate(g.(processor := PlainFunction(x => f([x] + args, kwargs))), attrs)
  {
  }

  /** `generator(f, processor=processor(h, *args, **kwargs)).generate()`
      raises NameError as written, while the intended version returns
      `h(f(), *args, **kwargs)`. */
  lemma GenerateAsWrittenRaises<A>(g: Gen<A>, h: Callable<A>, args: Args<A>, kwargs: KwArgs<A>, attrs: Attrs<A>)
    ensures GenerateAsWritten(g.(processor := ProcessorObject(Processor(Function(h), args, kwargs))), attrs)
         == Fail(NameError("data_iterator"))
    ensures Generate(g.(processor := ProcessorObject(Processor(Function(h), args, kwargs))), attrs)
         == Ok(h([RawData(g)] + args, kwargs))
  {
  }

  /** The composer is applied once, to the whole list: the result under any
      composer is that composer applied to the result under the default
      `_same`, which is the evaluated list itself. */
  lemma ComposerAppliedOnce<A>(items: seq<Item<A>>, c: CompositeComposer<A>, attrs: Attrs<A>)
    ensures CompositeResult(Composite(items, DefaultComposer()), attrs).Ok?
        <==> EvalAll(items, attrs).Ok?
    ensures EvalAll(items, attrs).Ok? ==>
      && CompositeResult(Composite(items, DefaultComposer()), attrs) == Ok(List(EvalAll(items, attrs).value))
      && CompositeResult(Composite(items, c), attrs)
         == Ok(ApplyComposer(c, CompositeResult(Composite(items, DefaultComposer()), attrs).value))
    ensures EvalAll(items, attrs).Fail? ==>
      CompositeResult(Composite(items, c), attrs) == Fail(EvalAll(items, attrs).error)
  {
  }

  /** A `composer` object calls its callable with the list first, then its
      stored arguments. */
  lemma ComposerObjectCall<A>(items: seq<Item<A>>, obj: Composer<A>, attrs: Attrs<A>)
    requires EvalAll(items, attrs).Ok?
    ensures CompositeResult(Composite(items, ComposerObject(obj)), attrs)
         == Ok(obj.callable([List(EvalAll(items, attrs).value)] + obj.args, obj.kwargs))
  {
  }

  function ReturnsTwo(): Value<int> { Atom(2) }
  function ReturnsThree(args: Args<int>, kwargs: KwArgs<int>): Value<int> { Atom(3) }

  /** `composite(1, lambda: 2, generator(lambda: 3))` generates `[1, 2, 3]`. */
  lemma CompositeExample(attrs: Attrs<int>)
    ensures CompositeResult(
        Composite([StaticItem(Atom(1)), CallableItem(ReturnsTwo), GeneratorItem(Gen(ReturnsThree, [], map[], DefaultProcessor()))],
                  DefaultComposer()),
        attrs)
      == Ok(List([Atom(1), Atom(2), Atom(3)]))
  {
    var items := [StaticItem(Atom(1)), CallableItem(ReturnsTwo), GeneratorItem(Gen(ReturnsThree, [], map[], DefaultProcessor()))];
    GenerateWithDefaultProcessor(ReturnsThree, [], map[], attrs);
    assert EvalItem(items[0], attrs) == Ok(Atom(1));
    assert EvalItem(items[1], attrs) == Ok(Atom(2));
    assert EvalItem(items[2], attrs) == Ok(Atom(3));
    assert EvalAll([], attrs) == Ok([]);
    var noItems: seq<Item<int>> := [];
    var noValues: seq<Value<int>> := [];
    EvalAllSnoc(noItems, items[0], attrs);
    assert noItems + [items[0]] == items[..1];
    assert noValues + [Atom(1)] == [Atom(1)];
    EvalAllSnoc(items[..1], items[1], attrs);
    assert items[..1] + [items[1]] == items[..2];
    EvalAllSnoc(items[..2], items[2], attrs);
    assert items[..2] + [items[2]] == items;
    assert [Atom(1)] + [Atom(2)] + [Atom(3)] == [Atom(1), Atom(2), Atom(3)];
  }
}
