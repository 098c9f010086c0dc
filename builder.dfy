/**
 * builder.go: the fluent network builder.
 *
 * The builder's fields are updated in place by its setters and by `Build`,
 * so `Builder` is a class. `newNet` is not part of this model: a successful
 * `Build` yields the `Config` it would hand to `newNet`. The weight and bias
 * generators (`func() float64`, random numbers) are opaque handles `Gen`;
 * the package defaults set by `init` (sigmoid, `random`, `random`) are the
 * parameter `Defaults`.
 */
module NetBuilder {
  import opened Wrappers

  /** An opaque handle for a `func() float64` generator. */
  datatype Gen = Gen(handle: nat)

  /** The package-level defaults: activation, weight generator, bias generator. */
  datatype Defaults = Defaults(activation: real -> real, weight: Gen, bias: Gen)

  /** The builder's fields at one moment; `None` is a nil func. */
  datatype Settings = Settings(
    activationFunc: Option<real -> real>,
    weightFunc: Option<Gen>,
    biasFunc: Option<Gen>,
    inSize: int,
    outSize: int,
    hiddenSize: int,
    dna: seq<real>)

  /** What a successful `Build` hands to `newNet`: every func set, every size at least 1. */
  datatype Config = Config(
    activation: real -> real,
    weight: Gen,
    bias: Gen,
    inSize: int,
    outSize: int,
    hiddenSize: int,
    dna: seq<real>)

  /** defaultBuilder: sizes 2, 2, 2 and the package default funcs. */
  function DefaultSettings(d: Defaults): Settings
  {
    Settings(Some(d.activation), Some(d.weight), Some(d.bias), 2, 2, 2, [])
  }

  /** The set func, or the default when it is nil. */
  function OrDefault<T>(f: Option<T>, dflt: T): T
  {
    if f.Some? then f.value else dflt
  }

  /**
   * The first size check of `Build` that fails, in the order input, output,
   * hidden, with its message. The messages say "> 1" but a size of 1 passes.
   */
  function SizeError(inSize: int, outSize: int, hiddenSize: int): (e: Option<string>)
    ensures e.None? <==> inSize >= 1 && outSize >= 1 && hiddenSize >= 1
    ensures e == Some("inputSize should be > 1") <==> inSize < 1
    ensures e == Some("outputSize should be > 1") <==> inSize >= 1 && outSize < 1
    ensures e == Some("amountOfHiddenNeurons should be > 1") <==> inSize >= 1 && outSize >= 1 && hiddenSize < 1
  {
    if inSize < 1 then Some("inputSize should be > 1")
    else if outSize < 1 then Some("outputSize should be > 1")
    else if hiddenSize < 1 then Some("amountOfHiddenNeurons should be > 1")
    else None
  }

  /** Settings with every nil func replaced by its default (what `Build` and `BuildFromDNA` store). */
  function Filled(s: Settings, d: Defaults): Settings
  {
    s.(activationFunc := Some(OrDefault(s.activationFunc, d.activation)),
       weightFunc := Some(OrDefault(s.weightFunc, d.weight)),
       biasFunc := Some(OrDefault(s.biasFunc, d.bias)))
  }

  /** What `Build` returns for a builder with settings `s`. */
  function Configure(s: Settings, d: Defaults): Result<Config>
  {
    var e := SizeError(s.inSize, s.outSize, s.hiddenSize);
    if e.Some? then Err(e.value)
    else
      var f := Filled(s, d);
      Ok(Config(f.activationFunc.value, f.weightFunc.value, f.biasFunc.value, s.inSize, s.outSize, s.hiddenSize, s.dna))
  }

  class Builder {
    var activationFunc: Option<real -> real>
    var weightFunc: Option<Gen>
    var biasFunc: Option<Gen>
    var inSize: int
    var outSize: int
    var hiddenSize: int
    var dna: seq<real>

    function Current(): Settings
      reads this
    {
      Settings(activationFunc, weightFunc, biasFunc, inSize, outSize, hiddenSize, dna)
    }

    /** defaultBuilder (also NewBuilder). */
    constructor Default(d: Defaults)
      ensures Current() == DefaultSettings(d)
    {
      activationFunc, weightFunc, biasFunc := Some(d.activation), Some(d.weight), Some(d.bias);
      inSize, outSize, hiddenSize := 2, 2, 2;
      dna := [];
    }

    /** Size: sets the three sizes (note the argument order input, hidden, output) and returns the receiver. */
    method Size(inputSize: int, hidden: int, outputSize: int) returns (self: Builder)
      modifies this
      ensures self == this
      ensures Current() == old(Current()).(inSize := inputSize, hiddenSize := hidden, outSize := outputSize)
    {
      inSize := inputSize;
      hiddenSize := hidden;
      outSize := outputSize;
      return this;
    }

    /** ActivationFunc: sets the activation func (nil allowed) and returns the receiver. */
    method ActivationFunc(f: Option<real -> real>) returns (self: Builder)
      modifies this
      ensures self == this
      ensures Current() == old(Current()).(activationFunc := f)
    {
      activationFunc := f;
      return this;
    }

    /** WeightFunc: sets the weight generator (nil allowed) and returns the receiver. */
    method WeightFunc(f: Option<Gen>) returns (self: Builder)
      modifies this
      ensures self == this
      ensures Current() == old(Current()).(weightFunc := f)
    {
      weightFunc := f;
      return this;
    }

    /** BiasFunc: sets the bias generator (nil allowed) and returns the receiver. */
    method BiasFunc(f: Option<Gen>) returns (self: Builder)
      modifies this
      ensures self == this
      ensures Current() == old(Current()).(biasFunc := f)
    {
      biasFunc := f;
      return this;
    }

    /** Build on a non-nil receiver: size checks first, then nil funcs become the defaults in place. */
    method Build(d: Defaults) returns (r: Result<Config>)
      modifies this
      ensures r == Configure(old(Current()), d)
      ensures r.Err? ==> Current() == old(Current())
      ensures r.Ok? ==> Current() == Filled(old(Current()), d)
    {
      if inSize < 1 {
        return Err("inputSize should be > 1");
      }
      if outSize < 1 {
        return Err("outputSize should be > 1");
      }
      if hiddenSize < 1 {
        return Err("amountOfHiddenNeurons should be > 1");
      }
      if activationFunc.None? {
        activationFunc := Some(d.activation);
      }
      if weightFunc.None? {
        weightFunc := Some(d.weight);
      }
      if biasFunc.None? {
        biasFunc := Some(d.bias);
      }
      r := Ok(Config(activationFunc.value, weightFunc.value, biasFunc.value, inSize, outSize, hiddenSize, dna));
    }

    /** BuildFromDNA on a non-nil receiver: stores the genome, fills nil funcs, and reports that it is not implemented. */
    method BuildFromDNA(genome: seq<real>, d: Defaults) returns (r: Result<Config>)
      modifies this
      ensures r == Err("not implemented")
      ensures Current() == Filled(old(Current()).(dna := genome), d)
    {
      dna := genome;
      if activationFunc.None? {
        activationFunc := Some(d.activation);
      }
      if weightFunc.None? {
        weightFunc := Some(d.weight);
      }
      if biasFunc.None? {
        biasFunc := Some(d.bias);
      }
      r := Err("not implemented");
    }
  }

  /** `(*Builder).Build` called through a possibly nil pointer: nil stands for a fresh default builder. */
  method Build(b: Builder?, d: Defaults) returns (r: Result<Config>)
    modifies b
    ensures b == null ==> r == Configure(DefaultSettings(d), d)
    ensures b != null ==> r == Configure(old(b.Current()), d)
    ensures b != null && r.Err? ==> b.Current() == old(b.Current())
    ensures b != null && r.Ok? ==> b.Current() == Filled(old(b.Current()), d)
  {
    var target := b;
    if target == null {
      target := new Builder.Default(d);
    }
    r := target.Build(d);
  }

  /** `(*Builder).BuildFromDNA` through a possibly nil pointer; it never succeeds. */
  method BuildFromDNA(b: Builder?, genome: seq<real>, d: Defaults) returns (r: Result<Config>)
    modifies b
    ensures r == Err("not implemented")
    ensures b != null ==> b.Current() == Filled(old(b.Current()).(dna := genome), d)
  {
    var target := b;
    if target == null {
      target := new Builder.Default(d);
    }
    r := target.BuildFromDNA(genome, d);
  }

  /** Build fails exactly on a size below 1, with the message of the first failing check (input, then output, then hidden). */
  lemma BuildErrors(s: Settings, d: Defaults)
    ensures Configure(s, d).Err? <==> s.inSize < 1 || s.outSize < 1 || s.hiddenSize < 1
    ensures s.inSize < 1 ==> Configure(s, d) == Err("inputSize should be > 1")
    ensures s.inSize >= 1 && s.outSize < 1 ==> Configure(s, d) == Err("outputSize should be > 1")
    ensures s.inSize >= 1 && s.outSize >= 1 && s.hiddenSize < 1 ==> Configure(s, d) == Err("amountOfHiddenNeurons should be > 1")
  {
  }

  /** With valid sizes, every nil func is replaced by its default and every set func is kept. */
  lemma BuildDefaults(s: Settings, d: Defaults)
    requires s.inSize >= 1 && s.outSize >= 1 && s.hiddenSize >= 1
    ensures Configure(s, d).Ok?
    ensures var c := Configure(s, d).value;
            && (s.activationFunc.Some? ==> c.activation == s.activationFunc.value)
            && (s.activationFunc.None? ==> c.activation == d.activation)
            && (s.weightFunc.Some? ==> c.weight == s.weightFunc.value)
            && (s.weightFunc.None? ==> c.weight == d.weight)
            && (s.biasFunc.Some? ==> c.bias == s.biasFunc.value)
            && (s.biasFunc.None? ==> c.bias == d.bias)
            && c.inSize == s.inSize && c.outSize == s.outSize && c.hiddenSize == s.hiddenSize
  {
  }

  /** A nil builder builds the default 2/2/2 network with the default funcs. */
  lemma NilBuilder(d: Defaults)
    ensures Configure(DefaultSettings(d), d) == Ok(Config(d.activation, d.weight, d.bias, 2, 2, 2, []))
  {
  }
}
