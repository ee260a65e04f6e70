# JOptimize core, modelled in Dafny

JOptimize is a Java library of gradient-based optimizers. It also provides the
cost function of GRLVQ (Generalized Relevance Learning Vector Quantization), a
prototype classifier that also learns per-feature relevance weights. This
project models three parts of it:

- **`OptimizerFactory`** (`factory.dfy`, module `OptimizerFactory`).
  - Turns a user-supplied optimizer name into a construction call.
  - The name is canonicalised: it is upper-cased and stripped of punctuation and spaces.
  - The canonical name is matched against seventeen known names.
  - Each known name selects a `create*` routine. That routine reads its hyper-parameters from the argument map, with defaults for some keys and none for others.
  - The result is a datatype recording which constructor is chosen and with which values. A failure is an `Err` that says why: unknown name, missing key, or text that does not parse.
  - `createSlowStartSGD` fills an array of rates in a loop. That loop is the imperative method `ParseRates`.
- **`GRLVQCostFunction`** (`grlvq.dfy`, module `GrlvqCost`).
  - The per-example margin loss `(dj - dk) / (dk + dj)` and its sum over the data set.
  - The gradient and the diagonal of the Hessian, with respect to the prototypes and the relevance weights. These are accumulated in place into an output buffer (class `GRLVQOptParam`, an `array2` of prototypes plus an `array` of weights).
  - The self-checks that compare each accumulated increment with `firstDerivLVQ` or `secondDerivLVQ` and throw on a mismatch above 1e-4.
- **`BGD`** (`bgd.dfy`, module `Bgd`): batch gradient descent.
  - The optimizer works on a copy of the initial parameters (class `OptParam` over an `array<real>`).
  - Each epoch subtracts `rate * deriv(params)` in place and notifies the listeners.
  - It stops after `tMax` epochs, or once the squared norm of the last gradient fell below `epsilon`.
  - The notifications are a ghost log `epochs`.
  - `Run` is the specification of a whole run. `Optimize` is proved to produce exactly its epochs and its last parameters.

`wrappers.dfy` holds the `Option` and `Result` datatypes shared by the modules.

Java `double` is modelled as `real`. `Double.MAX_VALUE`, the initial `diff` of BGD, is `Bound.Infinity`. Java `int` and `long` values are unbounded `int`s. The number parsers behind `Arguments.getDbl/getInt/getLong` and `Double.valueOf` are given as function parameters (`Parsers`). `dist`, `getClosestCorrectProtoNdx` and `getClosestIncorrectProtoNdx` of the parameter object are also given as function parameters (`Queries`). The cost function of BGD is a pair of functions `error` and `deriv`.

Where the code departs from its documented design or from the calculus it implements, the model follows the code:

- **Weight gradient.** The documented weight contribution of `deriv` subtracts its second term. The code adds it: `tmpK` is already negative and is subtracted once more (GRLVQCostFunction.java:67, 90; the comment at line 88 documents the subtraction).
- **Self-checks.** The code runs them on every call; no flag switches them off (GRLVQCostFunction.java:74-94, 143-148). What they accept:
  - The prototype increments the code accumulates are half of what `firstDerivLVQ` gives for the same `djP`, `dkP`. So the prototype checks throw exactly when the increment exceeds 1e-4 in magnitude (`PrototypeCheckGap`).
  - The weight check throws exactly when `4*dj*diffK^2/(dj+dk)^2` exceeds 1e-4 in magnitude (`WeightCheckGap`).
  - The `hesseDiag` weight check can never throw, because its increment equals `secondDerivLVQ` exactly (`HesseWeightMatchesReference`). The model writes that check as a branch proved dead.
- **Second derivative.** The third term of `secondDerivLVQ` squares `djP - dkP`, where the quotient rule for `(dj - dk) / (dj + dk)` squares `djP + dkP` (GRLVQCostFunction.java:159-162). So `secondDerivLVQ` is the true second derivative less `8 (dj - dk) djP dkP / (dj + dk)^3` (`SecondDerivVersusQuotientRule`). The weight entry of `hesseDiag` follows the same formula: it differs from the second derivative of the loss in that weight by `8 (dj - dk) diffJ^2 diffK^2 / (dj + dk)^3` (`HesseWeightVersusQuotientRule`). Its self-check compares it with `secondDerivLVQ`, so it cannot detect this. The model keeps the code's formula.
- **`nsmax`.** `createBGD` passes four arguments, including `nsmax`, but `BGD.java` has a three-argument constructor only. The factory model records `nsmax` in the `BGD` result. The `Bgd` module follows `BGD.java` and has no `nsmax` criterion.

Partial updates are modelled as the code performs them. `deriv(params, i, out)` adds its increments one step at a time and may throw after some of them. Step `3*d + t` of example `i` is:

| t | what it updates |
|---|---|
| 0 | row `j` at dimension `d` |
| 1 | row `k` at dimension `d` |
| 2 | weight `d` |

`FirstFailure` finds the first step whose check fails, and `PartialProto`/`PartialWeight` give the buffer as it is left at that point.

## Model

| member | source | states |
|---|---|---|
| OptimizerFactory.Canonical | src/nl/rug/joptimize/opt/OptimizerFactory.java:23 | the canonical name is no longer than the input and holds no lower-case letter, punctuation character or space |
| OptimizerFactory.DeleteSeparatorsChars | src/nl/rug/joptimize/opt/OptimizerFactory.java:23 | deleting separators leaves only non-separators, each taken from the input |
| OptimizerFactory.DeleteSeparatorsAppend | src/nl/rug/joptimize/opt/OptimizerFactory.java:23 | deleting separators distributes over concatenation |
| OptimizerFactory.DeleteSeparatorsKeeps | src/nl/rug/joptimize/opt/OptimizerFactory.java:23 | a string without separators is left unchanged |
| OptimizerFactory.CanonicalAppend | src/nl/rug/joptimize/opt/OptimizerFactory.java:23 | canonicalising distributes over concatenation |
| OptimizerFactory.CanonicalIdempotent | src/nl/rug/joptimize/opt/OptimizerFactory.java:23 | canonicalising a canonical name changes nothing |
| OptimizerFactory.CanonicalChar | src/nl/rug/joptimize/opt/OptimizerFactory.java:23 | a one-character name canonicalises to nothing if it is punctuation or a space, and otherwise to its upper case |
| OptimizerFactory.CanonicalFixed | src/nl/rug/joptimize/opt/OptimizerFactory.java:23 | a name with no lower-case letter, punctuation character or space is its own canonical name |
| OptimizerFactory.CanonicalIgnoresSeparator | src/nl/rug/joptimize/opt/OptimizerFactory.java:23 | inserting a space or punctuation character anywhere does not change the canonical name |
| OptimizerFactory.CanonicalIgnoresCase | src/nl/rug/joptimize/opt/OptimizerFactory.java:23 | replacing a character by another with the same upper case does not change the canonical name |
| OptimizerFactory.WASGDSpellings | src/nl/rug/joptimize/opt/OptimizerFactory.java:22-31 | "wa_sgd", "WA-SGD" and "wa sgd" all canonicalise to "WASGD" and dispatch to createWASGD |
| OptimizerFactory.SameCanonicalSameOptimizer | src/nl/rug/joptimize/opt/OptimizerFactory.java:22-59 | two spellings with the same canonical name give the same result on the same arguments |
| OptimizerFactory.SeventeenNames | src/nl/rug/joptimize/opt/OptimizerFactory.java:24-57 | the dispatch table holds seventeen distinct canonical names |
| OptimizerFactory.UnknownNamesRejected | src/nl/rug/joptimize/opt/OptimizerFactory.java:22-59 | createFromName fails with the unknown-optimizer error naming the canonical name if and only if that name is not in the table |
| OptimizerFactory.SingleDispatch | src/nl/rug/joptimize/opt/OptimizerFactory.java:22-59 | for names other than WA, the result is not an unknown-optimizer failure if and only if the canonical name is in the table |
| OptimizerFactory.KnownNamesDispatch | src/nl/rug/joptimize/opt/OptimizerFactory.java:22-59 | every name in the table other than WA reaches a create routine and never yields the unknown-optimizer failure |
| OptimizerFactory.CreateOptimizer | src/nl/rug/joptimize/opt/OptimizerFactory.java:19-21 | fails with a missing-key error without "opt"; otherwise it is createFromName of that value, fails as unknown optimizer exactly when the canonical name is outside the table, and a success carries the parsed or default stopping arguments |
| OptimizerFactory.CreateWA | src/nl/rug/joptimize/opt/OptimizerFactory.java:128-131 | without "base" a missing-key failure; a failing base dispatch is returned as is; otherwise succeeds exactly when "hist" is present and parses and every stopping key given parses, wrapping exactly the optimizer "base" names with the parsed hist and stopping arguments |
| OptimizerFactory.CreateFromName | src/nl/rug/joptimize/opt/OptimizerFactory.java:22-59 | a canonical name outside the table gives the unknown-optimizer failure naming it; a success has the constructor its canonical name selects and the parsed or default stopping arguments |
| OptimizerFactory.WrapBase | src/nl/rug/joptimize/opt/OptimizerFactory.java:129-130 | the WaypointAverage around a built base: succeeds exactly when "hist" is present and parses and every stopping key given parses, with that base, the parsed hist and the stopping arguments |
| OptimizerFactory.NamesSelectRoutines | src/nl/rug/joptimize/opt/OptimizerFactory.java:24-57 | each of the seventeen canonical names runs its own create routine on the same arguments |
| OptimizerFactory.CreateBGD | src/nl/rug/joptimize/opt/OptimizerFactory.java:62-64 | succeeds exactly when "rate" is present and parses and every other given key parses; a success is a BGD with each field the parsed text of its key, and epsilon, tmax, nsmax parsed or -1, 200, -1; never the unknown-optimizer failure |
| OptimizerFactory.CreateSGD | src/nl/rug/joptimize/opt/OptimizerFactory.java:66-68 | succeeds exactly when "rate" is present and parses and every other given key parses; a success is a SGD with each field the parsed text of its key, or when absent its default: seed 1, and epsilon, tmax, nsmax parsed or -1, 200, -1; never the unknown-optimizer failure |
| OptimizerFactory.CreateWASGD | src/nl/rug/joptimize/opt/OptimizerFactory.java:70-72 | succeeds exactly when "rate", "hist" are present and parse and every other given key parses; a success is a WA_SGD with each field the parsed text of its key, or when absent its default: seed 1, loss 1, gain 1, and epsilon, tmax, nsmax parsed or -1, 200, -1; never the unknown-optimizer failure |
| OptimizerFactory.CreateWABGD | src/nl/rug/joptimize/opt/OptimizerFactory.java:74-76 | succeeds exactly when every given key parses (every key has a default); a success is a WA_BGD with each field the parsed text of its key, or when absent its default: rate 1, hist 5, loss 1.5, gain 1.1, and epsilon, tmax, nsmax parsed or -1, 200, -1; never the unknown-optimizer failure |
| OptimizerFactory.CreateVSGD | src/nl/rug/joptimize/opt/OptimizerFactory.java:78-80 | succeeds exactly when every given key parses (every key has a default); a success is a VSGD with each field the parsed text of its key, or when absent its default: seed 1, batchSize 32, and epsilon, tmax, nsmax parsed or -1, 200, -1; never the unknown-optimizer failure |
| OptimizerFactory.CreateVSGDBatch | src/nl/rug/joptimize/opt/OptimizerFactory.java:82-84 | succeeds exactly when every given key parses (every key has a default); a success is a VSGD with each field the parsed text of its key, or when absent its default: seed 1, batchSize Integer.MAX_VALUE, and epsilon, tmax, nsmax parsed or -1, 200, -1; never the unknown-optimizer failure |
| OptimizerFactory.CreateAdadelta | src/nl/rug/joptimize/opt/OptimizerFactory.java:86-88 | succeeds exactly when "seed" is present and parses and every other given key parses; a success is an Adadelta with each field the parsed text of its key, or when absent its default: batchSize 32, rho 0.95, and epsilon, tmax, nsmax parsed or -1, 200, -1; never the unknown-optimizer failure |
| OptimizerFactory.CreateAdadeltaBatch | src/nl/rug/joptimize/opt/OptimizerFactory.java:90-92 | succeeds exactly when "seed" is present and parses and every other given key parses; a success is an Adadelta with each field the parsed text of its key, or when absent its default: batchSize Integer.MAX_VALUE, rho 0.95, and epsilon, tmax, nsmax parsed or -1, 200, -1; never the unknown-optimizer failure |
| OptimizerFactory.CreateAdam | src/nl/rug/joptimize/opt/OptimizerFactory.java:94-96 | succeeds exactly when "seed" is present and parses and every other given key parses; a success is an Adam with each field the parsed text of its key, or when absent its default: batchSize 32, alpha 0.001, beta1 0.9, beta2 0.999, and epsilon, tmax, nsmax parsed or -1, 200, -1; never the unknown-optimizer failure |
| OptimizerFactory.CreateAdamBatch | src/nl/rug/joptimize/opt/OptimizerFactory.java:98-100 | succeeds exactly when "seed" is present and parses and every other given key parses; a success is an Adam with each field the parsed text of its key, or when absent its default: batchSize Integer.MAX_VALUE, alpha 0.001, beta1 0.9, beta2 0.999, and epsilon, tmax, nsmax parsed or -1, 200, -1; never the unknown-optimizer failure |
| OptimizerFactory.CreateRprop | src/nl/rug/joptimize/opt/OptimizerFactory.java:102-104 | succeeds exactly when every given key parses (every key has a default); a success is a Rprop with each field the parsed text of its key, or when absent its default: initDelta 0.1, maxDelta 50, minDelta 1e-6, loss 0.5, gain 1.2, and epsilon, tmax, nsmax parsed or -1, 200, -1; never the unknown-optimizer failure |
| OptimizerFactory.CreateRMSprop | src/nl/rug/joptimize/opt/OptimizerFactory.java:106-108 | succeeds exactly when "seed" is present and parses and every other given key parses; a success is a RMSprop with each field the parsed text of its key, or when absent its default: batchSize 32, rate 0.001, rho 0.9, and epsilon, tmax, nsmax parsed or -1, 200, -1; never the unknown-optimizer failure |
| OptimizerFactory.CreateRMSpropBatch | src/nl/rug/joptimize/opt/OptimizerFactory.java:110-112 | succeeds exactly when "seed" is present and parses and every other given key parses; a success is a RMSprop with each field the parsed text of its key, or when absent its default: batchSize Integer.MAX_VALUE, rate 0.001, rho 0.9, and epsilon, tmax, nsmax parsed or -1, 200, -1; never the unknown-optimizer failure |
| OptimizerFactory.CreateSlowStartSGD | src/nl/rug/joptimize/opt/OptimizerFactory.java:114-126 | succeeds exactly when the rates parse, "seed" is present and parses and every stopping key given parses; a success is a SlowStartSGD with the rates of SlowStartRates, the parsed seed and the stopping arguments; never the unknown-optimizer failure |
| OptimizerFactory.CreateControlledBGD | src/nl/rug/joptimize/opt/OptimizerFactory.java:133-135 | succeeds exactly when "rate", "loss", "gain" are present and parse and every other given key parses; a success is a ControlledBGD with each field the parsed text of its key, and epsilon, tmax, nsmax parsed or -1, 200, -1; never the unknown-optimizer failure |
| OptimizerFactory.CreateControlledSGD | src/nl/rug/joptimize/opt/OptimizerFactory.java:137-139 | succeeds exactly when "rate", "loss", "gain" are present and parse and every other given key parses; a success is a ControlledSGD with each field the parsed text of its key, or when absent its default: seed 1, and epsilon, tmax, nsmax parsed or -1, 200, -1; never the unknown-optimizer failure |
| OptimizerFactory.VSGDWithBatch | src/nl/rug/joptimize/opt/OptimizerFactory.java:78-84 | succeeds exactly when every given key parses (every key has a default); a success is a VSGD with each field the parsed text of its key, or when absent its default: seed 1, batchSize the batch argument, and epsilon, tmax, nsmax parsed or -1, 200, -1; never the unknown-optimizer failure |
| OptimizerFactory.AdadeltaWithBatch | src/nl/rug/joptimize/opt/OptimizerFactory.java:86-92 | succeeds exactly when "seed" is present and parses and every other given key parses; a success is an Adadelta with each field the parsed text of its key, or when absent its default: batchSize the batch argument, rho 0.95, and epsilon, tmax, nsmax parsed or -1, 200, -1; never the unknown-optimizer failure |
| OptimizerFactory.AdamWithBatch | src/nl/rug/joptimize/opt/OptimizerFactory.java:94-100 | succeeds exactly when "seed" is present and parses and every other given key parses; a success is an Adam with each field the parsed text of its key, or when absent its default: batchSize the batch argument, alpha 0.001, beta1 0.9, beta2 0.999, and epsilon, tmax, nsmax parsed or -1, 200, -1; never the unknown-optimizer failure |
| OptimizerFactory.RMSpropWithBatch | src/nl/rug/joptimize/opt/OptimizerFactory.java:106-112 | succeeds exactly when "seed" is present and parses and every other given key parses; a success is a RMSprop with each field the parsed text of its key, or when absent its default: batchSize the batch argument, rate 0.001, rho 0.9, and epsilon, tmax, nsmax parsed or -1, 200, -1; never the unknown-optimizer failure |
| OptimizerFactory.Required | src/nl/rug/joptimize/opt/OptimizerFactory.java:63 | a key without default succeeds exactly when present and parsable, with the parsed value; absent gives a missing-key failure and unparsable text a malformed-key failure |
| OptimizerFactory.Defaulted | src/nl/rug/joptimize/opt/OptimizerFactory.java:63 | a key with default fails only on present text that does not parse (a malformed-key failure); otherwise its value is the parsed text, or the default when the key is absent |
| OptimizerFactory.RequiredKeys | src/nl/rug/joptimize/opt/OptimizerFactory.java:62-139 | rate (BGD, SGD, WA_SGD, Controlled*), hist (WA_SGD), loss and gain (Controlled*), seed (Adadelta, Adam, RMSprop, SlowStartSGD) have no default |
| OptimizerFactory.DefaultedSeed | src/nl/rug/joptimize/opt/OptimizerFactory.java:66-139 | for SGD, WA_SGD, VSGD and ControlledSGD, dropping "seed" from arguments that work keeps them working and yields the same optimizer with seed 1 |
| OptimizerFactory.DefaultedRate | src/nl/rug/joptimize/opt/OptimizerFactory.java:74-108 | for WA_BGD and RMSprop, dropping "rate" from arguments that work keeps them working and yields the same optimizer with rate 1 or 0.001 |
| OptimizerFactory.BatchVariantsDifferOnlyInDefault | src/nl/rug/joptimize/opt/OptimizerFactory.java:78-112 | each BATCH variant equals its twin when batchSize is given, and otherwise differs only in batch size Integer.MAX_VALUE instead of 32 |
| OptimizerFactory.Fields | src/nl/rug/joptimize/opt/OptimizerFactory.java:117 | splitting at commas gives between one and |s| + 1 fields and no field holds a comma |
| OptimizerFactory.DropTrailingEmpty | src/nl/rug/joptimize/opt/OptimizerFactory.java:117 | split drops exactly the trailing empty fields: a prefix remains, all dropped fields are empty, the last kept one is not |
| OptimizerFactory.JoinFields | src/nl/rug/joptimize/opt/OptimizerFactory.java:117 | joining the fields with commas gives back the text |
| OptimizerFactory.NoCommaOneField | src/nl/rug/joptimize/opt/OptimizerFactory.java:117 | text without a comma is one field |
| OptimizerFactory.JavaSplitFields | src/nl/rug/joptimize/opt/OptimizerFactory.java:117 | String.split(",") keeps a prefix of the fields minus trailing empty ones, and gives the text itself when it has no comma |
| OptimizerFactory.JavaSplit | src/nl/rug/joptimize/opt/OptimizerFactory.java:117 | String.split(","): no part holds a comma, at most |s| + 1 parts, and a text with a comma never ends in an empty part |
| OptimizerFactory.ParseAll | src/nl/rug/joptimize/opt/OptimizerFactory.java:118-121 | parsing every field succeeds exactly when each field parses, with one value per field in order |
| OptimizerFactory.SlowStartRates | src/nl/rug/joptimize/opt/OptimizerFactory.java:114-125 | without "rates" the built-in schedule; with it, a failure exactly when some split field does not parse (the malformed "rates" failure), else one rate per field parsed from it |
| OptimizerFactory.ParseRates | src/nl/rug/joptimize/opt/OptimizerFactory.java:115-124 | the loop filling the rates array yields the schedule: one rate per split field, each parsed from its field, or the built-in schedule |
| OptimizerFactory.DefaultRatesDecreasing | src/nl/rug/joptimize/opt/OptimizerFactory.java:123 | the built-in schedule has eleven rates, strictly decreasing from 100 to 1e-4 |
| OptimizerFactory.SlowStartRatesFromText | src/nl/rug/joptimize/opt/OptimizerFactory.java:114-125 | createSlowStartSGD passes one rate per field of the "rates" text, or the built-in schedule without that key |
| GrlvqCost.ExampleErrorBounds | src/nl/rug/joptimize/learn/grlvq/GRLVQCostFunction.java:25-33 | for non-negative distances the loss lies in [-1, 1], is negative iff dj < dk and zero iff dj = dk |
| GrlvqCost.ErrorSumBounds | src/nl/rug/joptimize/learn/grlvq/GRLVQCostFunction.java:14-22 | the total loss of n examples lies in [-n, n] |
| GrlvqCost.ErrorSumNegativeWhenAllCorrect | src/nl/rug/joptimize/learn/grlvq/GRLVQCostFunction.java:14-22 | if every example is strictly closer to its own class, the total loss is negative |
| GrlvqCost.Error | src/nl/rug/joptimize/learn/grlvq/GRLVQCostFunction.java:14-22 | the accumulating loop returns the sum of the per-example losses |
| GrlvqCost.FirstDerivIsQuotientRule | src/nl/rug/joptimize/learn/grlvq/GRLVQCostFunction.java:154-157 | firstDerivLVQ is the quotient-rule derivative of (dj - dk)/(dj + dk) |
| GrlvqCost.SecondDerivVersusQuotientRule | src/nl/rug/joptimize/learn/grlvq/GRLVQCostFunction.java:159-162 | secondDerivLVQ is the quotient-rule second derivative of (dj - dk)/(dj + dk) less 8 (dj - dk) djP dkP / (dj + dk)^3 |
| GrlvqCost.PrototypeCheckGap | src/nl/rug/joptimize/learn/grlvq/GRLVQCostFunction.java:74-86 | firstDerivLVQ is twice each prototype increment, so the check throws iff the increment exceeds 1e-4 in magnitude |
| GrlvqCost.WeightCheckGap | src/nl/rug/joptimize/learn/grlvq/GRLVQCostFunction.java:88-94 | the weight increment exceeds firstDerivLVQ by 4*dj*diffK^2/(dj+dk)^2, and the check throws iff that exceeds 1e-4 |
| GrlvqCost.FirstFailureIsFirst | src/nl/rug/joptimize/learn/grlvq/GRLVQCostFunction.java:70-95 | the step found is in range, its check fails and every earlier one passes; none is found iff all checks pass |
| GrlvqCost.ColumnChecks | src/nl/rug/joptimize/learn/grlvq/GRLVQCostFunction.java:70-95 | the three checks of dimension d pass iff both prototype increments and the weight gap are within 1e-4 |
| GrlvqCost.ExamplePassesIff | src/nl/rug/joptimize/learn/grlvq/GRLVQCostFunction.java:70-95 | deriv of an example does not throw iff every dimension is within tolerance |
| GrlvqCost.PassingExampleContributes | src/nl/rug/joptimize/learn/grlvq/GRLVQCostFunction.java:70-95 | when no check throws, every increment of the example is applied in full |
| GrlvqCost.DerivColumn | src/nl/rug/joptimize/learn/grlvq/GRLVQCostFunction.java:71-94 | one dimension: adds the increments up to and including the first failing check, reports whether all three passed, and changes nothing else |
| GrlvqCost.DerivInto | src/nl/rug/joptimize/learn/grlvq/GRLVQCostFunction.java:52-98 | succeeds iff every check passes; the buffer gains exactly the increments applied before the first failing check |
| GrlvqCost.DerivExample | src/nl/rug/joptimize/learn/grlvq/GRLVQCostFunction.java:47-49 | a fresh zero buffer holding the example's full contribution when no check fails |
| GrlvqCost.Deriv | src/nl/rug/joptimize/learn/grlvq/GRLVQCostFunction.java:36-44 | succeeds iff every example passes its checks, and then holds the contributions summed over the data set |
| GrlvqCost.UnusedPrototypeHasZeroGradient | src/nl/rug/joptimize/learn/grlvq/GRLVQCostFunction.java:36-44 | a prototype that is nobody's closest correct or incorrect one has zero gradient |
| GrlvqCost.HesseWeightMatchesReference | src/nl/rug/joptimize/learn/grlvq/GRLVQCostFunction.java:143-148 | the Hessian weight increment equals secondDerivLVQ, so its check never throws |
| GrlvqCost.HesseWeightVersusQuotientRule | src/nl/rug/joptimize/learn/grlvq/GRLVQCostFunction.java:144-149 | the Hessian weight increment falls short of the quotient-rule second derivative in that weight by 8 (dj - dk) diffJ^2 diffK^2 / (dj + dk)^3 |
| GrlvqCost.HesseColumn | src/nl/rug/joptimize/learn/grlvq/GRLVQCostFunction.java:137-149 | one dimension: adds the diagonal second derivatives of rows j, k and weight d, and changes nothing else |
| GrlvqCost.HesseInto | src/nl/rug/joptimize/learn/grlvq/GRLVQCostFunction.java:117-152 | the buffer gains the example's diagonal second derivatives in every dimension |
| GrlvqCost.HesseExample | src/nl/rug/joptimize/learn/grlvq/GRLVQCostFunction.java:112-114 | a fresh zero buffer holding the example's diagonal second derivatives |
| GrlvqCost.HesseDiag | src/nl/rug/joptimize/learn/grlvq/GRLVQCostFunction.java:101-109 | a fresh buffer holding the diagonal second derivatives summed over the data set |
| GrlvqCost.GRLVQOptParam.Zero | src/nl/rug/joptimize/learn/grlvq/GRLVQCostFunction.java:38 | params.zero(): fresh arrays of the parameters' shape, all zero |
| Bgd.SumSquaresNonNegative | src/nl/rug/joptimize/opt/optimizers/BGD.java:40 | a squared norm is never negative |
| Bgd.OptParam.Copy | src/nl/rug/joptimize/opt/optimizers/BGD.java:32 | copy() gives new storage with the same coordinates |
| Bgd.OptParam.MultiplyS | src/nl/rug/joptimize/opt/optimizers/BGD.java:41 | multiply_s scales the vector in place |
| Bgd.OptParam.SubS | src/nl/rug/joptimize/opt/optimizers/BGD.java:41 | sub_s subtracts the argument in place, even when both share storage |
| Bgd.OptParam.SquaredNorm | src/nl/rug/joptimize/opt/optimizers/BGD.java:40 | the loop returns the sum of squares, which is non-negative |
| Bgd.StationaryPointIsFixed | src/nl/rug/joptimize/opt/optimizers/BGD.java:36-41 | one epoch's step leaves the parameters unchanged where the gradient vanishes |
| Bgd.RunLength | src/nl/rug/joptimize/opt/optimizers/BGD.java:34-35 | at most tMax epochs, none when tMax <= 0, and at least one when tMax > 0 since diff starts unbounded |
| Bgd.EpochsAreSteps | src/nl/rug/joptimize/opt/optimizers/BGD.java:36-44 | every epoch replaces the parameters by one gradient step taken at the parameters before it, and reports their error |
| Bgd.RunStopsOnEpsilon | src/nl/rug/joptimize/opt/optimizers/BGD.java:35-40 | an epoch follows another only if the earlier gradient's squared norm reached epsilon; a run ending before tMax ends on a squared norm below epsilon |
| Bgd.NegativeEpsilonRunsFully | src/nl/rug/joptimize/opt/optimizers/BGD.java:35-40 | with negative epsilon a run has exactly max(tMax, 0) epochs |
| Bgd.BGD.constructor | src/nl/rug/joptimize/opt/optimizers/BGD.java:20-24 | stores rate, epsilon and tMax, with no epoch reported yet |
| Bgd.BGD.NotifyEpoch | src/nl/rug/joptimize/opt/optimizers/BGD.java:44 | appends one epoch record and changes no setting |
| Bgd.BGD.Descend | src/nl/rug/joptimize/opt/optimizers/BGD.java:36-44 | one loop pass: params become one gradient step further, the squared norm of the gradient is returned, and one epoch is reported with the new error |
| Bgd.BGD.Optimize | src/nl/rug/joptimize/opt/optimizers/BGD.java:31-48 | reports exactly the epochs of Run, returns fresh parameters equal to the last epoch's (or the initial ones) and leaves initParams unchanged |
| Bgd.BGD.OptimizeSeparable | src/nl/rug/joptimize/opt/optimizers/BGD.java:27-29 | the separable overload behaves as optimize on the same cost function |

## Left out

- Floating point: `double` is `real`. Rounding, NaN and infinities are not modelled. A loss whose two distances sum to zero, where Java divides by zero, is excluded by precondition (`ErrorDefined`).
- Unicode: canonicalisation covers ASCII letters and the ASCII `\p{Punct}` class. Locale-dependent upper-casing of other characters is not modelled.
- Number parsing (`Arguments.getDbl/getInt/getLong`, `Double.valueOf`) is a parameter. Only "parses or not" is modelled, and a parse failure is the `Malformed` error rather than a `NumberFormatException`.
- Java exception types are collapsed: each throw is an `Err` value (factory) or an `ok == false` result (cost function).
- OptimizerFactory.CreateFromName: a "WA" whose "base" again canonicalises to "WA" makes the Java code recurse forever; the model requires that this does not happen (`Dispatchable`).
- The optimizer classes other than BGD (SGD, Adam, Rprop, …) and `Arguments` are not part of this model. The factory result only records the constructor chosen and its arguments.
- `GRLVQOptParam` (distance, closest-prototype search, `dimensions()`) is not part of this model. Its queries are function parameters, and the dimension count is the length of the weight vector.
- `LabeledDataSet` is a pair of sequences. An example index outside the data set, a closest prototype index outside the prototypes, an example with fewer coordinates than the dimension count, or prototypes of unequal length are excluded by precondition (`ExampleAdmissible`, `Shaped`) rather than raising `ArrayIndexOutOfBoundsException`.
- GrlvqCost.Error, GrlvqCost.Deriv, GrlvqCost.HesseDiag: require every example of the data set to be admissible, where Java would produce NaN or throw at the first inadmissible one.
- GrlvqCost.Deriv: when a check fails, the contents of the returned buffer are not stated. The Java code throws and the buffer is lost.
- Aliasing of the output buffer with the parameters: the parameters are a value (`ParamValue`) distinct from the output buffer, so an `out` that shares arrays with `params` is not modelled.
- The Map-based BGD constructor (its `pDbl`/`pInt` helpers are not part of this model), `toString`, and the commented-out printing are not modelled.
- `AbstractOptimizer.notifyEpoch` is not part of this model: its listeners are modelled by the ghost log `epochs`.
- The `nsmax` stopping criterion is not part of `BGD.java` and is not modelled for BGD.
