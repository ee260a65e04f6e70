/**
 * Name-driven construction of optimizers (OptimizerFactory.java).
 *
 * A user-supplied optimizer name is canonicalised (upper case, punctuation and
 * spaces removed) and matched against seventeen fixed names; each name selects a
 * `create*` routine that reads its hyper-parameters from the argument map, with a
 * default for some keys and none for others. The optimizers themselves are not
 * part of this model: the result records which constructor is chosen and with
 * which argument values.
 */
module OptimizerFactory {
  import opened Wrappers

  /** The command-line arguments: key to raw text. */
  type Arguments = map<string, string>

  /** Why a construction fails. */
  datatype FactoryError =
    | UnknownOptimizer(name: string)   // IllegalArgumentException("Unknown optimizer: " + name)
    | MissingKey(key: string)          // a key without default is absent
    | Malformed(key: string)           // the text under a key does not parse as a number

  type Outcome<T> = Result<T, FactoryError>

  /**
   * The text-to-number conversions behind Arguments.getDbl, getInt, getLong and
   * Double.valueOf. They are not part of this model, so they are given as
   * parameters; None stands for text that does not parse.
   */
  datatype Parsers = Parsers(
    dbl: string -> Option<real>,
    integer: string -> Option<int>,
    long: string -> Option<int>)

  /** Integer.MAX_VALUE, the batch size of the "…BATCH" variants. */
  const IntMaxValue: int := 0x7fff_ffff

  /** The constructor chosen, with the values it receives, in the Java argument order. */
  datatype Optimizer =
    | BGD(rate: real, epsilon: real, tmax: int, nsmax: int)
    | SGD(seed: int, rate: real, epsilon: real, tmax: int, nsmax: int)
    | WA_SGD(seed: int, rate: real, hist: int, loss: real, gain: real, epsilon: real, tmax: int, nsmax: int)
    | WA_BGD(rate: real, hist: int, loss: real, gain: real, epsilon: real, tmax: int, nsmax: int)
    | VSGD(seed: int, batchSize: int, epsilon: real, tmax: int, nsmax: int)
    | Adadelta(seed: int, batchSize: int, rho: real, epsilon: real, tmax: int, nsmax: int)
    | Adam(seed: int, batchSize: int, alpha: real, beta1: real, beta2: real, epsilon: real, tmax: int, nsmax: int)
    | Rprop(initDelta: real, maxDelta: real, minDelta: real, loss: real, gain: real, epsilon: real, tmax: int, nsmax: int)
    | RMSprop(seed: int, batchSize: int, rate: real, rho: real, epsilon: real, tmax: int, nsmax: int)
    | SlowStartSGD(rates: seq<real>, seed: int, epsilon: real, tmax: int, nsmax: int)
    | WaypointAverage(base: Optimizer, hist: int, epsilon: real, tmax: int, nsmax: int)
    | ControlledBGD(rate: real, loss: real, gain: real, epsilon: real, tmax: int, nsmax: int)
    | ControlledSGD(seed: int, rate: real, loss: real, gain: real, epsilon: real, tmax: int, nsmax: int)

  // ---------------------------------------------------------------------------
  // Canonical names: opt.toUpperCase().replaceAll("[\\p{Punct} ]+", "")
  // ---------------------------------------------------------------------------

  /** ASCII punctuation, the POSIX class \p{Punct} of Java regular expressions. */
  predicate IsPunct(c: char) {
    ('!' <= c <= '/') || (':' <= c <= '@') || ('[' <= c <= '`') || ('{' <= c <= '~')
  }

  /** A character that the canonicalising regular expression deletes. */
  predicate IsSeparator(c: char) {
    c == ' ' || IsPunct(c)
  }

  predicate IsLower(c: char) {
    'a' <= c <= 'z'
  }

  function ToUpper(c: char): char {
    if IsLower(c) then (c as int - 32) as char else c
  }

  function UpperCase(s: string): string {
    seq(|s|, i requires 0 <= i < |s| => ToUpper(s[i]))
  }

  /**
   * Deleting every maximal run of separators leaves the same string as deleting
   * every separator, which is what this function does.
   */
  function DeleteSeparators(s: string): string {
    if s == [] then []
    else if IsSeparator(s[0]) then DeleteSeparators(s[1..])
    else [s[0]] + DeleteSeparators(s[1..])
  }

  /** What is left holds no separator, and every character of it comes from s. */
  lemma {:induction false} DeleteSeparatorsChars(s: string)
    ensures |DeleteSeparators(s)| <= |s|
    ensures forall i :: 0 <= i < |DeleteSeparators(s)| ==>
      !IsSeparator(DeleteSeparators(s)[i]) && DeleteSeparators(s)[i] in s
  {
    if s != [] {
      DeleteSeparatorsChars(s[1..]);
    }
  }

  /** The name createFromName compares against its table. */
  function Canonical(opt: string): (name: string)
    ensures |name| <= |opt|
    ensures forall i :: 0 <= i < |name| ==> !IsLower(name[i]) && !IsSeparator(name[i])
  {
    DeleteSeparatorsChars(UpperCase(opt));
    DeleteSeparators(UpperCase(opt))
  }

  lemma {:induction false} DeleteSeparatorsAppend(s: string, t: string)
    ensures DeleteSeparators(s + t) == DeleteSeparators(s) + DeleteSeparators(t)
  {
    if s == [] {
      assert s + t == t;
    } else {
      assert (s + t)[0] == s[0];
      assert (s + t)[1..] == s[1..] + t;
      DeleteSeparatorsAppend(s[1..], t);
    }
  }

  lemma {:induction false} DeleteSeparatorsKeeps(s: string)
    requires forall i :: 0 <= i < |s| ==> !IsSeparator(s[i])
    ensures DeleteSeparators(s) == s
  {
    if s != [] {
      DeleteSeparatorsKeeps(s[1..]);
    }
  }

  /** Canonicalising works character by character, so it distributes over concatenation. */
  lemma CanonicalAppend(s: string, t: string)
    ensures Canonical(s + t) == Canonical(s) + Canonical(t)
  {
    assert UpperCase(s + t) == UpperCase(s) + UpperCase(t) by {
      forall i | 0 <= i < |s + t|
        ensures UpperCase(s + t)[i] == (UpperCase(s) + UpperCase(t))[i]
      {
        if i < |s| {
          assert (s + t)[i] == s[i];
        } else {
          assert (s + t)[i] == t[i - |s|];
        }
      }
    }
    DeleteSeparatorsAppend(UpperCase(s), UpperCase(t));
  }

  /** One character: a space or punctuation disappears, anything else is upper-cased. */
  lemma CanonicalChar(c: char)
    ensures Canonical([c]) == if IsSeparator(c) then [] else [ToUpper(c)]
  {
    var u := ToUpper(c);
    assert UpperCase([c]) == [u];
    assert [u][1..] == [];
    assert IsSeparator(u) == IsSeparator(c);
    assert DeleteSeparators([u]) == if IsSeparator(u) then [] else [u] + DeleteSeparators([]);
  }

  /** A name already in upper case and without separators is its own canonical name. */
  lemma CanonicalFixed(s: string)
    requires forall i :: 0 <= i < |s| ==> !IsLower(s[i]) && !IsSeparator(s[i])
    ensures Canonical(s) == s
  {
    assert UpperCase(s) == s;
    DeleteSeparatorsKeeps(s);
  }

  /** Canonicalising a canonical name changes nothing. */
  lemma CanonicalIdempotent(opt: string)
    ensures Canonical(Canonical(opt)) == Canonical(opt)
  {
    CanonicalFixed(Canonical(opt));
  }

  /** Inserting a space or a punctuation character anywhere leaves the canonical name unchanged. */
  lemma CanonicalIgnoresSeparator(u: string, c: char, v: string)
    requires IsSeparator(c)
    ensures Canonical(u + [c] + v) == Canonical(u + v)
  {
    CanonicalAppend(u + [c], v);
    CanonicalAppend(u, [c]);
    CanonicalAppend(u, v);
    assert UpperCase([c]) == [c];
    assert [c][1..] == [];
    assert DeleteSeparators([c]) == DeleteSeparators([]);
    assert Canonical([c]) == [];
  }

  /** Replacing a character by one that upper-cases to the same leaves the canonical name unchanged. */
  lemma CanonicalIgnoresCase(u: string, c: char, c': char, v: string)
    requires ToUpper(c) == ToUpper(c')
    ensures Canonical(u + [c] + v) == Canonical(u + [c'] + v)
  {
    CanonicalAppend(u + [c], v);
    CanonicalAppend(u, [c]);
    CanonicalAppend(u + [c'], v);
    CanonicalAppend(u, [c']);
    assert UpperCase([c]) == UpperCase([c']);
  }

  // ---------------------------------------------------------------------------
  // Reading the argument map (Arguments.get / getDbl / getInt / getLong)
  // ---------------------------------------------------------------------------

  /**
   * The value v a constructor receives for key: the text under key, parsed, or
   * the default d when the key is absent. A key without default has d == None.
   */
  predicate Reads<T(==)>(a: Arguments, parse: string -> Option<T>, key: string, d: Option<T>, v: T) {
    if key in a then parse(a[key]) == Some(v) else d == Some(v)
  }

  /** Reading key succeeds: its text parses, or it is absent and has a default. */
  predicate Readable<T>(a: Arguments, parse: string -> Option<T>, key: string, d: Option<T>) {
    if key in a then parse(a[key]).Some? else d.Some?
  }

  /** Reading epsilon, tmax and nsmax succeeds; each has a default. */
  predicate StoppingReadable(a: Arguments, p: Parsers) {
    && Readable(a, p.dbl, "epsilon", Some(-1.0))
    && Readable(a, p.integer, "tmax", Some(200))
    && Readable(a, p.long, "nsmax", Some(-1))
  }

  /** A key without default: absent is a failure, and so is text that does not parse. */
  function Required<T>(a: Arguments, parse: string -> Option<T>, key: string): (r: Outcome<T>)
    ensures r.Ok? <==> key in a && parse(a[key]).Some?
    ensures r.Ok? ==> Some(r.value) == parse(a[key])
    ensures key !in a ==> r == Err(MissingKey(key))
    ensures key in a && parse(a[key]).None? ==> r == Err(Malformed(key))
    ensures r.Ok? <==> Readable(a, parse, key, None)
  {
    if key !in a then Err(MissingKey(key))
    else match parse(a[key])
      case Some(x) => Ok(x)
      case None => Err(Malformed(key))
  }

  /** A key with default: absent gives the default, present text must parse. */
  function Defaulted<T>(a: Arguments, parse: string -> Option<T>, key: string, default: T): (r: Outcome<T>)
    ensures r.Ok? <==> key !in a || parse(a[key]).Some?
    ensures r.Ok? ==> r.value == if key in a then parse(a[key]).value else default
    ensures key in a && parse(a[key]).None? ==> r == Err(Malformed(key))
    ensures r.Ok? <==> Readable(a, parse, key, Some(default))
  {
    if key !in a then Ok(default) else Required(a, parse, key)
  }

  // ---------------------------------------------------------------------------
  // The create* routines
  // ---------------------------------------------------------------------------

  function CreateBGD(a: Arguments, p: Parsers): (r: Outcome<Optimizer>)
    ensures NotUnknown(r)
    ensures r.Ok? <==>
      && Readable(a, p.dbl, "rate", None)
      && StoppingReadable(a, p)
    ensures r.Ok? ==>
      && r.value.BGD?
      && Reads(a, p.dbl, "rate", None, r.value.rate)
      && StoppingArguments(r.value, a, p)
  {
    var rate :- Required(a, p.dbl, "rate");
    var epsilon :- Defaulted(a, p.dbl, "epsilon", -1.0);
    var tmax :- Defaulted(a, p.integer, "tmax", 200);
    var nsmax :- Defaulted(a, p.long, "nsmax", -1);
    Ok(BGD(rate, epsilon, tmax, nsmax))
  }

  function CreateSGD(a: Arguments, p: Parsers): (r: Outcome<Optimizer>)
    ensures NotUnknown(r)
    ensures r.Ok? <==>
      && Readable(a, p.long, "seed", Some(1))
      && Readable(a, p.dbl, "rate", None)
      && StoppingReadable(a, p)
    ensures r.Ok? ==>
      && r.value.SGD?
      && Reads(a, p.long, "seed", Some(1), r.value.seed)
      && Reads(a, p.dbl, "rate", None, r.value.rate)
      && StoppingArguments(r.value, a, p)
  {
    var seed :- Defaulted(a, p.long, "seed", 1);
    var rate :- Required(a, p.dbl, "rate");
    var epsilon :- Defaulted(a, p.dbl, "epsilon", -1.0);
    var tmax :- Defaulted(a, p.integer, "tmax", 200);
    var nsmax :- Defaulted(a, p.long, "nsmax", -1);
    Ok(SGD(seed, rate, epsilon, tmax, nsmax))
  }

  function CreateWASGD(a: Arguments, p: Parsers): (r: Outcome<Optimizer>)
    ensures NotUnknown(r)
    ensures r.Ok? <==>
      && Readable(a, p.long, "seed", Some(1))
      && Readable(a, p.dbl, "rate", None)
      && Readable(a, p.integer, "hist", None)
      && Readable(a, p.dbl, "loss", Some(1.0))
      && Readable(a, p.dbl, "gain", Some(1.0))
      && StoppingReadable(a, p)
    ensures r.Ok? ==>
      && r.value.WA_SGD?
      && Reads(a, p.long, "seed", Some(1), r.value.seed)
      && Reads(a, p.dbl, "rate", None, r.value.rate)
      && Reads(a, p.integer, "hist", None, r.value.hist)
      && Reads(a, p.dbl, "loss", Some(1.0), r.value.loss)
      && Reads(a, p.dbl, "gain", Some(1.0), r.value.gain)
      && StoppingArguments(r.value, a, p)
  {
    var seed :- Defaulted(a, p.long, "seed", 1);
    var rate :- Required(a, p.dbl, "rate");
    var hist :- Required(a, p.integer, "hist");
    var loss :- Defaulted(a, p.dbl, "loss", 1.0);
    var gain :- Defaulted(a, p.dbl, "gain", 1.0);
    var epsilon :- Defaulted(a, p.dbl, "epsilon", -1.0);
    var tmax :- Defaulted(a, p.integer, "tmax", 200);
    var nsmax :- Defaulted(a, p.long, "nsmax", -1);
    Ok(WA_SGD(seed, rate, hist, loss, gain, epsilon, tmax, nsmax))
  }

  function CreateWABGD(a: Arguments, p: Parsers): (r: Outcome<Optimizer>)
    ensures NotUnknown(r)
    ensures r.Ok? <==>
      && Readable(a, p.dbl, "rate", Some(1.0))
      && Readable(a, p.integer, "hist", Some(5))
      && Readable(a, p.dbl, "loss", Some(1.5))
      && Readable(a, p.dbl, "gain", Some(1.1))
      && StoppingReadable(a, p)
    ensures r.Ok? ==>
      && r.value.WA_BGD?
      && Reads(a, p.dbl, "rate", Some(1.0), r.value.rate)
      && Reads(a, p.integer, "hist", Some(5), r.value.hist)
      && Reads(a, p.dbl, "loss", Some(1.5), r.value.loss)
      && Reads(a, p.dbl, "gain", Some(1.1), r.value.gain)
      && StoppingArguments(r.value, a, p)
  {
    var rate :- Defaulted(a, p.dbl, "rate", 1.0);
    var hist :- Defaulted(a, p.integer, "hist", 5);
    var loss :- Defaulted(a, p.dbl, "loss", 1.5);
    var gain :- Defaulted(a, p.dbl, "gain", 1.1);
    var epsilon :- Defaulted(a, p.dbl, "epsilon", -1.0);
    var tmax :- Defaulted(a, p.integer, "tmax", 200);
    var nsmax :- Defaulted(a, p.long, "nsmax", -1);
    Ok(WA_BGD(rate, hist, loss, gain, epsilon, tmax, nsmax))
  }

  /** VSGD with a given default batch size: 32 for "VSGD", Integer.MAX_VALUE for "VSGDBATCH". */
  function VSGDWithBatch(a: Arguments, p: Parsers, batch: int): (r: Outcome<Optimizer>)
    ensures NotUnknown(r)
    ensures r.Ok? <==>
      && Readable(a, p.long, "seed", Some(1))
      && Readable(a, p.integer, "batchSize", Some(batch))
      && StoppingReadable(a, p)
    ensures r.Ok? ==>
      && r.value.VSGD?
      && Reads(a, p.long, "seed", Some(1), r.value.seed)
      && Reads(a, p.integer, "batchSize", Some(batch), r.value.batchSize)
      && StoppingArguments(r.value, a, p)
  {
    var seed :- Defaulted(a, p.long, "seed", 1);
    var batchSize :- Defaulted(a, p.integer, "batchSize", batch);
    var epsilon :- Defaulted(a, p.dbl, "epsilon", -1.0);
    var tmax :- Defaulted(a, p.integer, "tmax", 200);
    var nsmax :- Defaulted(a, p.long, "nsmax", -1);
    Ok(VSGD(seed, batchSize, epsilon, tmax, nsmax))
  }

  function CreateVSGD(a: Arguments, p: Parsers): (r: Outcome<Optimizer>)
    ensures NotUnknown(r)
    ensures r.Ok? <==>
      && Readable(a, p.long, "seed", Some(1))
      && Readable(a, p.integer, "batchSize", Some(32))
      && StoppingReadable(a, p)
    ensures r.Ok? ==>
      && r.value.VSGD?
      && Reads(a, p.long, "seed", Some(1), r.value.seed)
      && Reads(a, p.integer, "batchSize", Some(32), r.value.batchSize)
      && StoppingArguments(r.value, a, p)
  {
    VSGDWithBatch(a, p, 32)
  }

  function CreateVSGDBatch(a: Arguments, p: Parsers): (r: Outcome<Optimizer>)
    ensures NotUnknown(r)
    ensures r.Ok? <==>
      && Readable(a, p.long, "seed", Some(1))
      && Readable(a, p.integer, "batchSize", Some(IntMaxValue))
      && StoppingReadable(a, p)
    ensures r.Ok? ==>
      && r.value.VSGD?
      && Reads(a, p.long, "seed", Some(1), r.value.seed)
      && Reads(a, p.integer, "batchSize", Some(IntMaxValue), r.value.batchSize)
      && StoppingArguments(r.value, a, p)
  {
    VSGDWithBatch(a, p, IntMaxValue)
  }

  function AdadeltaWithBatch(a: Arguments, p: Parsers, batch: int): (r: Outcome<Optimizer>)
    ensures NotUnknown(r)
    ensures r.Ok? <==>
      && Readable(a, p.long, "seed", None)
      && Readable(a, p.integer, "batchSize", Some(batch))
      && Readable(a, p.dbl, "rho", Some(0.95))
      && StoppingReadable(a, p)
    ensures r.Ok? ==>
      && r.value.Adadelta?
      && Reads(a, p.long, "seed", None, r.value.seed)
      && Reads(a, p.integer, "batchSize", Some(batch), r.value.batchSize)
      && Reads(a, p.dbl, "rho", Some(0.95), r.value.rho)
      && StoppingArguments(r.value, a, p)
  {
    var seed :- Required(a, p.long, "seed");
    var batchSize :- Defaulted(a, p.integer, "batchSize", batch);
    var rho :- Defaulted(a, p.dbl, "rho", 0.95);
    var epsilon :- Defaulted(a, p.dbl, "epsilon", -1.0);
    var tmax :- Defaulted(a, p.integer, "tmax", 200);
    var nsmax :- Defaulted(a, p.long, "nsmax", -1);
    Ok(Adadelta(seed, batchSize, rho, epsilon, tmax, nsmax))
  }

  function CreateAdadelta(a: Arguments, p: Parsers): (r: Outcome<Optimizer>)
    ensures NotUnknown(r)
    ensures r.Ok? <==>
      && Readable(a, p.long, "seed", None)
      && Readable(a, p.integer, "batchSize", Some(32))
      && Readable(a, p.dbl, "rho", Some(0.95))
      && StoppingReadable(a, p)
    ensures r.Ok? ==>
      && r.value.Adadelta?
      && Reads(a, p.long, "seed", None, r.value.seed)
      && Reads(a, p.integer, "batchSize", Some(32), r.value.batchSize)
      && Reads(a, p.dbl, "rho", Some(0.95), r.value.rho)
      && StoppingArguments(r.value, a, p)
  {
    AdadeltaWithBatch(a, p, 32)
  }

  function CreateAdadeltaBatch(a: Arguments, p: Parsers): (r: Outcome<Optimizer>)
    ensures NotUnknown(r)
    ensures r.Ok? <==>
      && Readable(a, p.long, "seed", None)
      && Readable(a, p.integer, "batchSize", Some(IntMaxValue))
      && Readable(a, p.dbl, "rho", Some(0.95))
      && StoppingReadable(a, p)
    ensures r.Ok? ==>
      && r.value.Adadelta?
      && Reads(a, p.long, "seed", None, r.value.seed)
      && Reads(a, p.integer, "batchSize", Some(IntMaxValue), r.value.batchSize)
      && Reads(a, p.dbl, "rho", Some(0.95), r.value.rho)
      && StoppingArguments(r.value, a, p)
  {
    AdadeltaWithBatch(a, p, IntMaxValue)
  }

  function AdamWithBatch(a: Arguments, p: Parsers, batch: int): (r: Outcome<Optimizer>)
    ensures NotUnknown(r)
    ensures r.Ok? <==>
      && Readable(a, p.long, "seed", None)
      && Readable(a, p.integer, "batchSize", Some(batch))
      && Readable(a, p.dbl, "alpha", Some(0.001))
      && Readable(a, p.dbl, "beta1", Some(0.9))
      && Readable(a, p.dbl, "beta2", Some(0.999))
      && StoppingReadable(a, p)
    ensures r.Ok? ==>
      && r.value.Adam?
      && Reads(a, p.long, "seed", None, r.value.seed)
      && Reads(a, p.integer, "batchSize", Some(batch), r.value.batchSize)
      && Reads(a, p.dbl, "alpha", Some(0.001), r.value.alpha)
      && Reads(a, p.dbl, "beta1", Some(0.9), r.value.beta1)
      && Reads(a, p.dbl, "beta2", Some(0.999), r.value.beta2)
      && StoppingArguments(r.value, a, p)
  {
    var seed :- Required(a, p.long, "seed");
    var batchSize :- Defaulted(a, p.integer, "batchSize", batch);
    var alpha :- Defaulted(a, p.dbl, "alpha", 0.001);
    var beta1 :- Defaulted(a, p.dbl, "beta1", 0.9);
    var beta2 :- Defaulted(a, p.dbl, "beta2", 0.999);
    var epsilon :- Defaulted(a, p.dbl, "epsilon", -1.0);
    var tmax :- Defaulted(a, p.integer, "tmax", 200);
    var nsmax :- Defaulted(a, p.long, "nsmax", -1);
    Ok(Adam(seed, batchSize, alpha, beta1, beta2, epsilon, tmax, nsmax))
  }

  function CreateAdam(a: Arguments, p: Parsers): (r: Outcome<Optimizer>)
    ensures NotUnknown(r)
    ensures r.Ok? <==>
      && Readable(a, p.long, "seed", None)
      && Readable(a, p.integer, "batchSize", Some(32))
      && Readable(a, p.dbl, "alpha", Some(0.001))
      && Readable(a, p.dbl, "beta1", Some(0.9))
      && Readable(a, p.dbl, "beta2", Some(0.999))
      && StoppingReadable(a, p)
    ensures r.Ok? ==>
      && r.value.Adam?
      && Reads(a, p.long, "seed", None, r.value.seed)
      && Reads(a, p.integer, "batchSize", Some(32), r.value.batchSize)
      && Reads(a, p.dbl, "alpha", Some(0.001), r.value.alpha)
      && Reads(a, p.dbl, "beta1", Some(0.9), r.value.beta1)
      && Reads(a, p.dbl, "beta2", Some(0.999), r.value.beta2)
      && StoppingArguments(r.value, a, p)
  {
    AdamWithBatch(a, p, 32)
  }

  function CreateAdamBatch(a: Arguments, p: Parsers): (r: Outcome<Optimizer>)
    ensures NotUnknown(r)
    ensures r.Ok? <==>
      && Readable(a, p.long, "seed", None)
      && Readable(a, p.integer, "batchSize", Some(IntMaxValue))
      && Readable(a, p.dbl, "alpha", Some(0.001))
      && Readable(a, p.dbl, "beta1", Some(0.9))
      && Readable(a, p.dbl, "beta2", Some(0.999))
      && StoppingReadable(a, p)
    ensures r.Ok? ==>
      && r.value.Adam?
      && Reads(a, p.long, "seed", None, r.value.seed)
      && Reads(a, p.integer, "batchSize", Some(IntMaxValue), r.value.batchSize)
      && Reads(a, p.dbl, "alpha", Some(0.001), r.value.alpha)
      && Reads(a, p.dbl, "beta1", Some(0.9), r.value.beta1)
      && Reads(a, p.dbl, "beta2", Some(0.999), r.value.beta2)
      && StoppingArguments(r.value, a, p)
  {
    AdamWithBatch(a, p, IntMaxValue)
  }

  function CreateRprop(a: Arguments, p: Parsers): (r: Outcome<Optimizer>)
    ensures NotUnknown(r)
    ensures r.Ok? <==>
      && Readable(a, p.dbl, "initDelta", Some(0.1))
      && Readable(a, p.dbl, "maxDelta", Some(50.0))
      && Readable(a, p.dbl, "minDelta", Some(0.000001))
      && Readable(a, p.dbl, "loss", Some(0.5))
      && Readable(a, p.dbl, "gain", Some(1.2))
      && StoppingReadable(a, p)
    ensures r.Ok? ==>
      && r.value.Rprop?
      && Reads(a, p.dbl, "initDelta", Some(0.1), r.value.initDelta)
      && Reads(a, p.dbl, "maxDelta", Some(50.0), r.value.maxDelta)
      && Reads(a, p.dbl, "minDelta", Some(0.000001), r.value.minDelta)
      && Reads(a, p.dbl, "loss", Some(0.5), r.value.loss)
      && Reads(a, p.dbl, "gain", Some(1.2), r.value.gain)
      && StoppingArguments(r.value, a, p)
  {
    var initDelta :- Defaulted(a, p.dbl, "initDelta", 0.1);
    var maxDelta :- Defaulted(a, p.dbl, "maxDelta", 50.0);
    var minDelta :- Defaulted(a, p.dbl, "minDelta", 0.000001);
    var loss :- Defaulted(a, p.dbl, "loss", 0.5);
    var gain :- Defaulted(a, p.dbl, "gain", 1.2);
    var epsilon :- Defaulted(a, p.dbl, "epsilon", -1.0);
    var tmax :- Defaulted(a, p.integer, "tmax", 200);
    var nsmax :- Defaulted(a, p.long, "nsmax", -1);
    Ok(Rprop(initDelta, maxDelta, minDelta, loss, gain, epsilon, tmax, nsmax))
  }

  function RMSpropWithBatch(a: Arguments, p: Parsers, batch: int): (r: Outcome<Optimizer>)
    ensures NotUnknown(r)
    ensures r.Ok? <==>
      && Readable(a, p.long, "seed", None)
      && Readable(a, p.integer, "batchSize", Some(batch))
      && Readable(a, p.dbl, "rate", Some(0.001))
      && Readable(a, p.dbl, "rho", Some(0.9))
      && StoppingReadable(a, p)
    ensures r.Ok? ==>
      && r.value.RMSprop?
      && Reads(a, p.long, "seed", None, r.value.seed)
      && Reads(a, p.integer, "batchSize", Some(batch), r.value.batchSize)
      && Reads(a, p.dbl, "rate", Some(0.001), r.value.rate)
      && Reads(a, p.dbl, "rho", Some(0.9), r.value.rho)
      && StoppingArguments(r.value, a, p)
  {
    var seed :- Required(a, p.long, "seed");
    var batchSize :- Defaulted(a, p.integer, "batchSize", batch);
    var rate :- Defaulted(a, p.dbl, "rate", 0.001);
    var rho :- Defaulted(a, p.dbl, "rho", 0.9);
    var epsilon :- Defaulted(a, p.dbl, "epsilon", -1.0);
    var tmax :- Defaulted(a, p.integer, "tmax", 200);
    var nsmax :- Defaulted(a, p.long, "nsmax", -1);
    Ok(RMSprop(seed, batchSize, rate, rho, epsilon, tmax, nsmax))
  }

  function CreateRMSprop(a: Arguments, p: Parsers): (r: Outcome<Optimizer>)
    ensures NotUnknown(r)
    ensures r.Ok? <==>
      && Readable(a, p.long, "seed", None)
      && Readable(a, p.integer, "batchSize", Some(32))
      && Readable(a, p.dbl, "rate", Some(0.001))
      && Readable(a, p.dbl, "rho", Some(0.9))
      && StoppingReadable(a, p)
    ensures r.Ok? ==>
      && r.value.RMSprop?
      && Reads(a, p.long, "seed", None, r.value.seed)
      && Reads(a, p.integer, "batchSize", Some(32), r.value.batchSize)
      && Reads(a, p.dbl, "rate", Some(0.001), r.value.rate)
      && Reads(a, p.dbl, "rho", Some(0.9), r.value.rho)
      && StoppingArguments(r.value, a, p)
  {
    RMSpropWithBatch(a, p, 32)
  }

  function CreateRMSpropBatch(a: Arguments, p: Parsers): (r: Outcome<Optimizer>)
    ensures NotUnknown(r)
    ensures r.Ok? <==>
      && Readable(a, p.long, "seed", None)
      && Readable(a, p.integer, "batchSize", Some(IntMaxValue))
      && Readable(a, p.dbl, "rate", Some(0.001))
      && Readable(a, p.dbl, "rho", Some(0.9))
      && StoppingReadable(a, p)
    ensures r.Ok? ==>
      && r.value.RMSprop?
      && Reads(a, p.long, "seed", None, r.value.seed)
      && Reads(a, p.integer, "batchSize", Some(IntMaxValue), r.value.batchSize)
      && Reads(a, p.dbl, "rate", Some(0.001), r.value.rate)
      && Reads(a, p.dbl, "rho", Some(0.9), r.value.rho)
      && StoppingArguments(r.value, a, p)
  {
    RMSpropWithBatch(a, p, IntMaxValue)
  }

  function CreateControlledBGD(a: Arguments, p: Parsers): (r: Outcome<Optimizer>)
    ensures NotUnknown(r)
    ensures r.Ok? <==>
      && Readable(a, p.dbl, "rate", None)
      && Readable(a, p.dbl, "loss", None)
      && Readable(a, p.dbl, "gain", None)
      && StoppingReadable(a, p)
    ensures r.Ok? ==>
      && r.value.ControlledBGD?
      && Reads(a, p.dbl, "rate", None, r.value.rate)
      && Reads(a, p.dbl, "loss", None, r.value.loss)
      && Reads(a, p.dbl, "gain", None, r.value.gain)
      && StoppingArguments(r.value, a, p)
  {
    var rate :- Required(a, p.dbl, "rate");
    var loss :- Required(a, p.dbl, "loss");
    var gain :- Required(a, p.dbl, "gain");
    var epsilon :- Defaulted(a, p.dbl, "epsilon", -1.0);
    var tmax :- Defaulted(a, p.integer, "tmax", 200);
    var nsmax :- Defaulted(a, p.long, "nsmax", -1);
    Ok(ControlledBGD(rate, loss, gain, epsilon, tmax, nsmax))
  }

  function CreateControlledSGD(a: Arguments, p: Parsers): (r: Outcome<Optimizer>)
    ensures NotUnknown(r)
    ensures r.Ok? <==>
      && Readable(a, p.long, "seed", Some(1))
      && Readable(a, p.dbl, "rate", None)
      && Readable(a, p.dbl, "loss", None)
      && Readable(a, p.dbl, "gain", None)
      && StoppingReadable(a, p)
    ensures r.Ok? ==>
      && r.value.ControlledSGD?
      && Reads(a, p.long, "seed", Some(1), r.value.seed)
      && Reads(a, p.dbl, "rate", None, r.value.rate)
      && Reads(a, p.dbl, "loss", None, r.value.loss)
      && Reads(a, p.dbl, "gain", None, r.value.gain)
      && StoppingArguments(r.value, a, p)
  {
    var seed :- Defaulted(a, p.long, "seed", 1);
    var rate :- Required(a, p.dbl, "rate");
    var loss :- Required(a, p.dbl, "loss");
    var gain :- Required(a, p.dbl, "gain");
    var epsilon :- Defaulted(a, p.dbl, "epsilon", -1.0);
    var tmax :- Defaulted(a, p.integer, "tmax", 200);
    var nsmax :- Defaulted(a, p.long, "nsmax", -1);
    Ok(ControlledSGD(seed, rate, loss, gain, epsilon, tmax, nsmax))
  }

  // ---------------------------------------------------------------------------
  // createSlowStartSGD: the learning-rate schedule
  // ---------------------------------------------------------------------------

  /** The schedule used when no "rates" key is given. */
  const DefaultRates: seq<real> :=
    [100.0, 10.0, 5.0, 1.0, 0.1, 0.05, 0.01, 0.005, 0.001, 0.0005, 0.0001]

  /** Every comma-separated field of s, empty ones included. */
  function Fields(s: string): (r: seq<string>)
    ensures 1 <= |r| <= |s| + 1
    ensures forall i :: 0 <= i < |r| ==> ',' !in r[i]
  {
    if s == [] then [""]
    else if s[0] == ',' then [""] + Fields(s[1..])
    else
      var rest := Fields(s[1..]);
      [[s[0]] + rest[0]] + rest[1..]
  }

  /** The fields separated by commas again. */
  function Join(fields: seq<string>): string
    requires |fields| >= 1
  {
    if |fields| == 1 then fields[0] else fields[0] + [','] + Join(fields[1..])
  }

  function DropTrailingEmpty(fields: seq<string>): (r: seq<string>)
    ensures |r| <= |fields| && r == fields[..|r|]
    ensures forall i :: |r| <= i < |fields| ==> fields[i] == ""
    ensures r != [] ==> r[|r| - 1] != ""
  {
    if fields == [] then []
    else if fields[|fields| - 1] == "" then DropTrailingEmpty(fields[..|fields| - 1])
    else fields
  }

  /**
   * String.split(","): a string without a comma gives itself as the only field;
   * otherwise the fields, with trailing empty ones removed.
   */
  function JavaSplit(s: string): (r: seq<string>)
    ensures forall i :: 0 <= i < |r| ==> ',' !in r[i]
    ensures ',' in s && r != [] ==> r[|r| - 1] != ""
    ensures |r| <= |s| + 1
  {
    if ',' !in s then [s] else DropTrailingEmpty(Fields(s))
  }

  /** Splitting into fields and joining them again gives back the original text. */
  lemma {:induction false} JoinFields(s: string)
    ensures Join(Fields(s)) == s
  {
    if s == [] {
    } else if s[0] == ',' {
      JoinFields(s[1..]);
      assert Fields(s)[1..] == Fields(s[1..]);
    } else {
      var rest := Fields(s[1..]);
      JoinFields(s[1..]);
      if |rest| == 1 {
        assert Fields(s) == [[s[0]] + rest[0]];
      } else {
        assert Fields(s)[1..] == rest[1..];
        assert Join(rest) == rest[0] + [','] + Join(rest[1..]);
      }
    }
  }

  /**
   * The fields String.split(",") returns: a prefix of all fields, what is cut off
   * is empty, and the last field kept is non-empty unless there is no comma at all.
   */
  lemma JavaSplitFields(s: string)
    ensures var r := JavaSplit(s);
      && |r| <= |Fields(s)| && r == Fields(s)[..|r|]
      && (forall i :: |r| <= i < |Fields(s)| ==> Fields(s)[i] == "")
      && (',' !in s ==> r == [s])
      && (',' in s && r != [] ==> r[|r| - 1] != "")
  {
    if ',' !in s {
      NoCommaOneField(s);
    }
  }

  lemma {:induction false} NoCommaOneField(s: string)
    requires ',' !in s
    ensures Fields(s) == [s]
  {
    if s != [] {
      assert ',' !in s[1..] by {
        forall i | 0 <= i < |s[1..]| ensures s[1..][i] != ',' {
          assert s[1..][i] == s[i + 1];
        }
      }
      NoCommaOneField(s[1..]);
      assert [s[0]] + s[1..] == s;
    }
  }

  /** Double.valueOf applied to every field, failing at the first field that does not parse. */
  function ParseAll(fields: seq<string>, parse: string -> Option<real>): (r: Option<seq<real>>)
    ensures r.Some? ==> |r.value| == |fields| && forall i :: 0 <= i < |fields| ==> parse(fields[i]) == Some(r.value[i])
    ensures r.None? <==> exists i :: 0 <= i < |fields| && parse(fields[i]).None?
  {
    if fields == [] then Some([])
    else match parse(fields[0])
      case None => None
      case Some(x) =>
        match ParseAll(fields[1..], parse)
        case None => None
        case Some(rest) => Some([x] + rest)
  }

  /** The rate schedule createSlowStartSGD passes on. */
  function SlowStartRates(a: Arguments, p: Parsers): (r: Outcome<seq<real>>)
    ensures "rates" !in a ==> r == Ok(DefaultRates)
    ensures r.Err? ==> r == Err(Malformed("rates"))
    ensures "rates" in a ==>
      (r.Err? <==> exists i :: 0 <= i < |JavaSplit(a["rates"])| && p.dbl(JavaSplit(a["rates"])[i]).None?)
    ensures "rates" in a && r.Ok? ==>
      |r.value| == |JavaSplit(a["rates"])| &&
      forall i :: 0 <= i < |r.value| ==> p.dbl(JavaSplit(a["rates"])[i]) == Some(r.value[i])
  {
    if "rates" in a then
      match ParseAll(JavaSplit(a["rates"]), p.dbl)
      case Some(rates) => Ok(rates)
      case None => Err(Malformed("rates"))
    else Ok(DefaultRates)
  }

  /** The loop of createSlowStartSGD, filling the rates array one field at a time. */
  method ParseRates(a: Arguments, p: Parsers) returns (r: Outcome<seq<real>>)
    ensures r == SlowStartRates(a, p)
    ensures r.Ok? && "rates" in a ==>
      && |r.value| == |JavaSplit(a["rates"])|
      && forall i :: 0 <= i < |r.value| ==> p.dbl(JavaSplit(a["rates"])[i]) == Some(r.value[i])
  {
    var rates: array<real>;
    if "rates" in a {
      var split := JavaSplit(a["rates"]);
      rates := new real[|split|];
      for i := 0 to |split|
        invariant forall m :: 0 <= m < i ==> p.dbl(split[m]) == Some(rates[m])
      {
        var x := p.dbl(split[i]);
        if x.None? {
          return Err(Malformed("rates"));
        }
        rates[i] := x.value;
      }
      var parsed := ParseAll(split, p.dbl);
      assert parsed.Some?;
      assert |parsed.value| == rates.Length;
      assert forall m :: 0 <= m < rates.Length ==> parsed.value[m] == rates[m];
      assert parsed.value == rates[..];
      assert SlowStartRates(a, p) == Ok(parsed.value);
      return Ok(rates[..]);
    } else {
      rates := new real[] [100.0, 10.0, 5.0, 1.0, 0.1, 0.05, 0.01, 0.005, 0.001, 0.0005, 0.0001];
      assert rates[..] == DefaultRates;
      return Ok(rates[..]);
    }
  }

  /** Without a "rates" key the schedule has eleven entries, strictly decreasing from 100 to 1e-4. */
  lemma DefaultRatesDecreasing()
    ensures |DefaultRates| == 11 && DefaultRates[0] == 100.0 && DefaultRates[10] == 0.0001
    ensures forall i, j :: 0 <= i < j < |DefaultRates| ==> DefaultRates[i] > DefaultRates[j]
  {
  }

  function CreateSlowStartSGD(a: Arguments, p: Parsers): (r: Outcome<Optimizer>)
    ensures NotUnknown(r)
    ensures r.Ok? <==>
      && SlowStartRates(a, p).Ok?
      && Readable(a, p.long, "seed", None)
      && StoppingReadable(a, p)
    ensures r.Ok? ==>
      && r.value.SlowStartSGD?
      && Ok(r.value.rates) == SlowStartRates(a, p)
      && Reads(a, p.long, "seed", None, r.value.seed)
      && StoppingArguments(r.value, a, p)
  {
    var rates :- SlowStartRates(a, p);
    var seed :- Required(a, p.long, "seed");
    var epsilon :- Defaulted(a, p.dbl, "epsilon", -1.0);
    var tmax :- Defaulted(a, p.integer, "tmax", 200);
    var nsmax :- Defaulted(a, p.long, "nsmax", -1);
    Ok(SlowStartSGD(rates, seed, epsilon, tmax, nsmax))
  }

  // ---------------------------------------------------------------------------
  // Dispatch
  // ---------------------------------------------------------------------------

  /** The canonical name selects the constructor of o: each name its own, a "…BATCH" name its twin's. */
  predicate Selects(name: string, o: Optimizer) {
    match o
    case BGD(_, _, _, _) => name == "BGD"
    case SGD(_, _, _, _, _) => name == "SGD"
    case WA_SGD(_, _, _, _, _, _, _, _) => name == "WASGD"
    case WA_BGD(_, _, _, _, _, _, _) => name == "WABGD"
    case VSGD(_, _, _, _, _) => name == "VSGD" || name == "VSGDBATCH"
    case Adadelta(_, _, _, _, _, _) => name == "ADADELTA" || name == "ADADELTABATCH"
    case Adam(_, _, _, _, _, _, _, _) => name == "ADAM" || name == "ADAMBATCH"
    case Rprop(_, _, _, _, _, _, _, _) => name == "RPROP"
    case RMSprop(_, _, _, _, _, _, _) => name == "RMSPROP" || name == "RMSPROPBATCH"
    case SlowStartSGD(_, _, _, _, _) => name == "SLOWSTARTSGD"
    case WaypointAverage(_, _, _, _, _) => name == "WA"
    case ControlledBGD(_, _, _, _, _, _) => name == "CONTROLLEDBGD"
    case ControlledSGD(_, _, _, _, _, _, _) => name == "CONTROLLEDSGD"
  }

  /** The canonical names createFromName accepts, in the order it tests them. */
  const KnownNames: seq<string> := [
    "BGD", "SGD", "WABGD", "WASGD", "WA", "CONTROLLEDBGD", "CONTROLLEDSGD",
    "SLOWSTARTSGD", "VSGD", "VSGDBATCH", "ADADELTA", "ADADELTABATCH", "ADAM",
    "ADAMBATCH", "RPROP", "RMSPROP", "RMSPROPBATCH"
  ]

  /**
   * createWA re-dispatches on "base" with the same arguments; if that name is
   * again "WA" the Java recursion never ends, so the model leaves that call out.
   */
  predicate BaseIsNotWA(a: Arguments) {
    "base" in a ==> Canonical(a["base"]) != "WA"
  }

  predicate Dispatchable(opt: string, a: Arguments) {
    Canonical(opt) == "WA" ==> BaseIsNotWA(a)
  }

  function CreateFromName(opt: string, a: Arguments, p: Parsers): (r: Outcome<Optimizer>)
    requires Dispatchable(opt, a)
    ensures Canonical(opt) !in KnownNames ==> r == Err(UnknownOptimizer(Canonical(opt)))
    ensures r.Ok? ==> Selects(Canonical(opt), r.value) && StoppingArguments(r.value, a, p)
    decreases if Canonical(opt) == "WA" then 2 else 0
  {
    var name := Canonical(opt);
    if name == "BGD" then CreateBGD(a, p)
    else if name == "SGD" then CreateSGD(a, p)
    else if name == "WABGD" then CreateWABGD(a, p)
    else if name == "WASGD" then CreateWASGD(a, p)
    else if name == "WA" then CreateWA(a, p)
    else if name == "CONTROLLEDBGD" then CreateControlledBGD(a, p)
    else if name == "CONTROLLEDSGD" then CreateControlledSGD(a, p)
    else if name == "SLOWSTARTSGD" then CreateSlowStartSGD(a, p)
    else if name == "VSGD" then CreateVSGD(a, p)
    else if name == "VSGDBATCH" then CreateVSGDBatch(a, p)
    else if name == "ADADELTA" then CreateAdadelta(a, p)
    else if name == "ADADELTABATCH" then CreateAdadeltaBatch(a, p)
    else if name == "ADAM" then CreateAdam(a, p)
    else if name == "ADAMBATCH" then CreateAdamBatch(a, p)
    else if name == "RPROP" then CreateRprop(a, p)
    else if name == "RMSPROP" then CreateRMSprop(a, p)
    else if name == "RMSPROPBATCH" then CreateRMSpropBatch(a, p)
    else Err(UnknownOptimizer(name))
  }

  function CreateWA(a: Arguments, p: Parsers): (r: Outcome<Optimizer>)
    requires BaseIsNotWA(a)
    ensures "base" !in a ==> r == Err(MissingKey("base"))
    ensures "base" in a && CreateFromName(a["base"], a, p).Err? ==> r == CreateFromName(a["base"], a, p)
    ensures r.Ok? <==>
      && "base" in a
      && CreateFromName(a["base"], a, p).Ok?
      && Readable(a, p.integer, "hist", None)
      && StoppingReadable(a, p)
    ensures r.Ok? ==>
      && "base" in a
      && r.value.WaypointAverage?
      && CreateFromName(a["base"], a, p) == Ok(r.value.base)
      && Reads(a, p.integer, "hist", None, r.value.hist)
      && StoppingArguments(r.value, a, p)
    decreases 1
  {
    if "base" !in a then Err(MissingKey("base"))
    else
      match CreateFromName(a["base"], a, p)
      case Err(e) => Err(e)
      case Ok(base) => WrapBase(base, a, p)
  }

  /** The rest of createWA once its base optimizer is built: hist and the stopping arguments. */
  function WrapBase(base: Optimizer, a: Arguments, p: Parsers): (r: Outcome<Optimizer>)
    ensures NotUnknown(r)
    ensures r.Ok? <==> Readable(a, p.integer, "hist", None) && StoppingReadable(a, p)
    ensures r.Ok? ==>
      && r.value.WaypointAverage?
      && r.value.base == base
      && Reads(a, p.integer, "hist", None, r.value.hist)
      && StoppingArguments(r.value, a, p)
  {
    var hist :- Required(a, p.integer, "hist");
    var epsilon :- Defaulted(a, p.dbl, "epsilon", -1.0);
    var tmax :- Defaulted(a, p.integer, "tmax", 200);
    var nsmax :- Defaulted(a, p.long, "nsmax", -1);
    Ok(WaypointAverage(base, hist, epsilon, tmax, nsmax))
  }

  /** createOptimizer: dispatch on the "opt" argument. */
  function CreateOptimizer(a: Arguments, p: Parsers): (r: Outcome<Optimizer>)
    requires "opt" in a ==> Dispatchable(a["opt"], a)
    ensures "opt" !in a ==> r == Err(MissingKey("opt"))
    ensures "opt" in a ==> r == CreateFromName(a["opt"], a, p)
    ensures "opt" in a ==> (r == Err(UnknownOptimizer(Canonical(a["opt"]))) <==> Canonical(a["opt"]) !in KnownNames)
    ensures r.Ok? ==> StoppingArguments(r.value, a, p)
  {
    if "opt" !in a then Err(MissingKey("opt"))
    else
      UnknownNamesRejected(a["opt"], a, p);
      CreateFromName(a["opt"], a, p)
  }

  // ---------------------------------------------------------------------------
  // Properties of the dispatch
  // ---------------------------------------------------------------------------

  /** A sequence without repetitions has as many distinct elements as entries. */
  lemma {:induction false} DistinctCount<T>(s: seq<T>)
    requires forall i, j :: 0 <= i < j < |s| ==> s[i] != s[j]
    ensures |set x | x in s| == |s|
  {
    if s != [] {
      DistinctCount(s[1..]);
      assert (set x | x in s) == {s[0]} + (set x | x in s[1..]);
      assert s[0] !in s[1..];
    }
  }

  /** Exactly seventeen canonical names are accepted. */
  lemma SeventeenNames()
    ensures |set n | n in KnownNames| == 17
  {
    DistinctCount(KnownNames);
  }

  /** The result is not an unknown-name failure. */
  predicate NotUnknown(r: Outcome<Optimizer>) {
    r.Ok? || !r.error.UnknownOptimizer?
  }

  /** Dispatch reports an unknown optimizer exactly for names outside the list, and names the culprit. */
  lemma UnknownNamesRejected(opt: string, a: Arguments, p: Parsers)
    requires Dispatchable(opt, a)
    ensures Canonical(opt) !in KnownNames <==> CreateFromName(opt, a, p) == Err(UnknownOptimizer(Canonical(opt)))
  {
    if Canonical(opt) == "WA" {
      if "base" in a {
        SingleDispatch(a["base"], a, p);
      }
    } else {
      SingleDispatch(opt, a, p);
    }
  }

  /** Below WA, the unknown-optimizer failure arises exactly on names outside the list. */
  lemma SingleDispatch(opt: string, a: Arguments, p: Parsers)
    requires Canonical(opt) != "WA"
    ensures NotUnknown(CreateFromName(opt, a, p)) <==> Canonical(opt) in KnownNames
  {
    if Canonical(opt) in KnownNames {
      KnownNamesDispatch(opt, a, p);
    }
  }

  /** Every name of the list other than WA reaches a create routine, which fails on keys only. */
  lemma KnownNamesDispatch(opt: string, a: Arguments, p: Parsers)
    requires Canonical(opt) != "WA" && Canonical(opt) in KnownNames
    ensures NotUnknown(CreateFromName(opt, a, p))
  {
  }

  /**
   * The dispatch table: each of the seventeen names runs its own create routine
   * on the same arguments, so it succeeds exactly when that routine does.
   */
  lemma NamesSelectRoutines(opt: string, a: Arguments, p: Parsers)
    requires Dispatchable(opt, a)
    ensures Canonical(opt) == "BGD" ==> CreateFromName(opt, a, p) == CreateBGD(a, p)
    ensures Canonical(opt) == "SGD" ==> CreateFromName(opt, a, p) == CreateSGD(a, p)
    ensures Canonical(opt) == "WABGD" ==> CreateFromName(opt, a, p) == CreateWABGD(a, p)
    ensures Canonical(opt) == "WASGD" ==> CreateFromName(opt, a, p) == CreateWASGD(a, p)
    ensures Canonical(opt) == "WA" ==> CreateFromName(opt, a, p) == CreateWA(a, p)
    ensures Canonical(opt) == "CONTROLLEDBGD" ==> CreateFromName(opt, a, p) == CreateControlledBGD(a, p)
    ensures Canonical(opt) == "CONTROLLEDSGD" ==> CreateFromName(opt, a, p) == CreateControlledSGD(a, p)
    ensures Canonical(opt) == "SLOWSTARTSGD" ==> CreateFromName(opt, a, p) == CreateSlowStartSGD(a, p)
    ensures Canonical(opt) == "VSGD" ==> CreateFromName(opt, a, p) == CreateVSGD(a, p)
    ensures Canonical(opt) == "VSGDBATCH" ==> CreateFromName(opt, a, p) == CreateVSGDBatch(a, p)
    ensures Canonical(opt) == "ADADELTA" ==> CreateFromName(opt, a, p) == CreateAdadelta(a, p)
    ensures Canonical(opt) == "ADADELTABATCH" ==> CreateFromName(opt, a, p) == CreateAdadeltaBatch(a, p)
    ensures Canonical(opt) == "ADAM" ==> CreateFromName(opt, a, p) == CreateAdam(a, p)
    ensures Canonical(opt) == "ADAMBATCH" ==> CreateFromName(opt, a, p) == CreateAdamBatch(a, p)
    ensures Canonical(opt) == "RPROP" ==> CreateFromName(opt, a, p) == CreateRprop(a, p)
    ensures Canonical(opt) == "RMSPROP" ==> CreateFromName(opt, a, p) == CreateRMSprop(a, p)
    ensures Canonical(opt) == "RMSPROPBATCH" ==> CreateFromName(opt, a, p) == CreateRMSpropBatch(a, p)
  {
  }

  /** Spellings with the same canonical name select the same optimizer with the same arguments. */
  lemma SameCanonicalSameOptimizer(x: string, y: string, a: Arguments, p: Parsers)
    requires Canonical(x) == Canonical(y)
    requires Dispatchable(x, a)
    ensures Dispatchable(y, a)
    ensures CreateFromName(x, a, p) == CreateFromName(y, a, p)
  {
  }

  /** The three spellings of WASGDSpellings, one lemma each to keep each proof small. */
  lemma CanonicalUnderscore()
    ensures Canonical("wa_sgd") == "WASGD"
  {
    assert UpperCase("wa_sgd") == "WA_SGD";
    assert DeleteSeparators("WA_SGD") == "WASGD";
  }

  lemma CanonicalDash()
    ensures Canonical("WA-SGD") == "WASGD"
  {
    assert UpperCase("WA-SGD") == "WA-SGD";
    assert DeleteSeparators("WA-SGD") == "WASGD";
  }

  lemma CanonicalSpace()
    ensures Canonical("wa sgd") == "WASGD"
  {
    assert UpperCase("wa sgd") == "WA SGD";
    assert DeleteSeparators("WA SGD") == "WASGD";
  }

  /** "wa_sgd", "WA-SGD" and "wa sgd" all reach createWASGD. */
  lemma WASGDSpellings(a: Arguments, p: Parsers)
    ensures forall opt :: opt in ["wa_sgd", "WA-SGD", "wa sgd"] ==>
      Canonical(opt) == "WASGD" && CreateFromName(opt, a, p) == CreateWASGD(a, p)
  {
    CanonicalUnderscore();
    CanonicalDash();
    CanonicalSpace();
  }

  /** What epsilon, tmax and nsmax the constructor receives: the parsed text, or -1, 200 and -1. */
  predicate StoppingArguments(o: Optimizer, a: Arguments, p: Parsers) {
    && Reads(a, p.dbl, "epsilon", Some(-1.0), o.epsilon)
    && Reads(a, p.integer, "tmax", Some(200), o.tmax)
    && Reads(a, p.long, "nsmax", Some(-1), o.nsmax)
  }

  /** The "…BATCH" variant with its non-batch twin's result, batch size replaced. */
  function WithBatchSize(r: Outcome<Optimizer>, batch: int): Outcome<Optimizer>
    requires r.Ok? ==> r.value.VSGD? || r.value.Adadelta? || r.value.Adam? || r.value.RMSprop?
  {
    match r
    case Ok(o) => Ok(o.(batchSize := batch))
    case Err(e) => Err(e)
  }

  /**
   * Each "…BATCH" variant reads the same keys as its twin; only the default of
   * batchSize differs (Integer.MAX_VALUE instead of 32).
   */
  lemma BatchVariantsDifferOnlyInDefault(a: Arguments, p: Parsers)
    ensures "batchSize" in a ==>
      && CreateVSGDBatch(a, p) == CreateVSGD(a, p)
      && CreateAdadeltaBatch(a, p) == CreateAdadelta(a, p)
      && CreateAdamBatch(a, p) == CreateAdam(a, p)
      && CreateRMSpropBatch(a, p) == CreateRMSprop(a, p)
    ensures "batchSize" !in a ==>
      && CreateVSGD(a, p) == WithBatchSize(CreateVSGD(a, p), 32)
      && CreateVSGDBatch(a, p) == WithBatchSize(CreateVSGD(a, p), IntMaxValue)
      && CreateAdadelta(a, p) == WithBatchSize(CreateAdadelta(a, p), 32)
      && CreateAdadeltaBatch(a, p) == WithBatchSize(CreateAdadelta(a, p), IntMaxValue)
      && CreateAdam(a, p) == WithBatchSize(CreateAdam(a, p), 32)
      && CreateAdamBatch(a, p) == WithBatchSize(CreateAdam(a, p), IntMaxValue)
      && CreateRMSprop(a, p) == WithBatchSize(CreateRMSprop(a, p), 32)
      && CreateRMSpropBatch(a, p) == WithBatchSize(CreateRMSprop(a, p), IntMaxValue)
  {
  }

  /** Keys without a default: a successful construction implies they were given. */
  lemma RequiredKeys(a: Arguments, p: Parsers)
    ensures CreateBGD(a, p).Ok? ==> "rate" in a
    ensures CreateSGD(a, p).Ok? ==> "rate" in a
    ensures CreateWASGD(a, p).Ok? ==> "rate" in a && "hist" in a
    ensures CreateControlledBGD(a, p).Ok? ==> "rate" in a && "loss" in a && "gain" in a
    ensures CreateControlledSGD(a, p).Ok? ==> "rate" in a && "loss" in a && "gain" in a
    ensures CreateAdadelta(a, p).Ok? ==> "seed" in a
    ensures CreateAdam(a, p).Ok? ==> "seed" in a
    ensures CreateRMSprop(a, p).Ok? ==> "seed" in a
    ensures CreateSlowStartSGD(a, p).Ok? ==> "seed" in a
  {
  }

  /**
   * seed has a default of 1 for SGD, WA_SGD, VSGD and ControlledSGD, where the
   * other routines require it: dropping it from arguments that work keeps them
   * working and gives the constructor seed 1.
   */
  lemma DefaultedSeed(a: Arguments, p: Parsers)
    ensures CreateSGD(a, p).Ok? ==> var o := CreateSGD(a, p).value;
      CreateSGD(a - {"seed"}, p) == Ok(SGD(1, o.rate, o.epsilon, o.tmax, o.nsmax))
    ensures CreateWASGD(a, p).Ok? ==> var o := CreateWASGD(a, p).value;
      CreateWASGD(a - {"seed"}, p) == Ok(WA_SGD(1, o.rate, o.hist, o.loss, o.gain, o.epsilon, o.tmax, o.nsmax))
    ensures CreateVSGD(a, p).Ok? ==> var o := CreateVSGD(a, p).value;
      CreateVSGD(a - {"seed"}, p) == Ok(VSGD(1, o.batchSize, o.epsilon, o.tmax, o.nsmax))
    ensures CreateControlledSGD(a, p).Ok? ==> var o := CreateControlledSGD(a, p).value;
      CreateControlledSGD(a - {"seed"}, p) == Ok(ControlledSGD(1, o.rate, o.loss, o.gain, o.epsilon, o.tmax, o.nsmax))
  {
  }

  /**
   * rate has a default for WA_BGD (1) and RMSprop (0.001), where the other
   * routines require it: dropping it keeps working arguments working.
   */
  lemma DefaultedRate(a: Arguments, p: Parsers)
    ensures CreateWABGD(a, p).Ok? ==> var o := CreateWABGD(a, p).value;
      CreateWABGD(a - {"rate"}, p) == Ok(WA_BGD(1.0, o.hist, o.loss, o.gain, o.epsilon, o.tmax, o.nsmax))
    ensures CreateRMSprop(a, p).Ok? ==> var o := CreateRMSprop(a, p).value;
      CreateRMSprop(a - {"rate"}, p) == Ok(RMSprop(o.seed, o.batchSize, 0.001, o.rho, o.epsilon, o.tmax, o.nsmax))
  {
  }

  /** With "rates" given, one rate per field of String.split(","), each parsed from its field. */
  lemma SlowStartRatesFromText(a: Arguments, p: Parsers)
    requires CreateSlowStartSGD(a, p).Ok?
    ensures var rates := CreateSlowStartSGD(a, p).value.rates;
      if "rates" in a then
        |rates| == |JavaSplit(a["rates"])| &&
        forall i :: 0 <= i < |rates| ==> p.dbl(JavaSplit(a["rates"])[i]) == Some(rates[i])
      else rates == DefaultRates
  {
  }
}
