# SupervoiceGPT: the discrete logic around the network

SupervoiceGPT (`supervoice_gpt/model.py`) is an encoder-decoder transformer
that maps text to a sequence of (phoneme token, duration, pitch) triples for
a speech synthesiser. This project models the parts of that file that are
not tensor arithmetic:

- the vocabulary sizes of the duration and pitch streams and the +1 shift
  that keeps class 0 for padding (`vocab.dfy`, module `Vocab`);
- the shape assertions of `forward` and its default valid lengths
  (`forward.dfy`, module `Forward`; a tensor is its shape);
- the logit filtering of one decode step, on integer scores extended with
  minus infinity: padding suppression and top-k, written into the arrays in
  place, plus the arg-max of deterministic mode (`logits.dfy`, module
  `Logits`);
- `generate`: conditioning preparation, the decode loop with its silence
  override, stop token, optional trim of the first post-priming triple, the
  -1 shift on output and the `max_new_tokens` budget (`generation.dfy`,
  module `Generation`), and what that loop guarantees (`generation_facts.dfy`,
  module `GenerationFacts`).

The tokenizer is a value of uninterpreted functions and constants
(`Generation.Tokenizer`). The forward pass, temperature scaling, filtering,
softmax and sampling of one decode step are an oracle `sample(inputIds,
history)` returning the sampled triple. The history grows at every step of
one call, so an oracle that is a function of the history can stand for any
sequence of random draws. The filtering itself is proved separately in
`Logits`: `FilteredSupport` and `DeterministicChoiceIsCandidate` say which
classes a sampler can still pick (never the padding class, only top-k
ones), which is what `GenerationFacts.NoPaddingEmitted` assumes of the
oracle.

`Generation.DecodeLoop` runs the loop imperatively and is proved equal to the
functional model `Generation.Run` (one `Step` per iteration over an explicit
state: history, output, loop index, completion flag); `Generation.Generate`
adds the error paths around it. Most lemmas in `GenerationFacts` follow from
the invariant `Reached`, which `StepReached` and `RunReached` prove is kept
by every iteration; `ImmediateEnd` unfolds one `Step` directly, and
`ConditioningRoundTrip` and `PrimedInEmbeddingRange` are about the primed
history alone.

Two behaviours of the code are easy to miss, and the model keeps both:
- The assertions of `forward` (model.py:91-97) check only the rank of the
  pitch tensor, never its batch size or length
  (`Forward.PitchShapeNotCrossChecked`, `Forward.MismatchedPitchesAccepted`).
  The sum of the three output embeddings at model.py:117 then broadcasts:
  a pitch shape whose batch size and length each equal those of the token
  stream, or are 1 on either side, gets past that sum (possibly widening
  it), and every other pitch shape raises there. That sum is not modelled.
- top-k keeps every entry not strictly below the k-th largest value, so
  all ties at the threshold survive and more than k classes can remain
  (`Logits.TopKKeepsExactlyTheHighRanked`).

## Model

| member | source | states |
|---|---|---|
| `Vocab.NumDurations` | supervoice_gpt/model.py:12 | a duration d is in 0..max_duration exactly when its shifted class d+1 is a non-padding class below the size, and every non-padding class unshifts to such a d |
| `Vocab.NumPitches` | supervoice_gpt/model.py:13 | a style token p is in 0..tokens-1 exactly when p+1 is a non-padding pitch class, and every non-padding class unshifts to such a p |
| `Vocab.Shift` | supervoice_gpt/model.py:153 | the +1 applied to a conditioning duration or pitch sends exactly the non-negative values to classes other than padding |
| `Vocab.Unshift` | supervoice_gpt/model.py:227 | the -1 applied to a sampled duration or pitch undoes the +1 shift |
| `Forward.CheckShapes` | supervoice_gpt/model.py:91-97 | the inputs are accepted iff all four are rank 2, the input batch equals the token batch, and tokens and durations agree in batch and length; each error is reported only when all earlier checks passed and its own failed |
| `Forward.FullLengths` | supervoice_gpt/model.py:100-106 | the default length vector has one entry per batch row, each the full padded width |
| `Forward.PrepareForward` | supervoice_gpt/model.py:72-106 | forward proceeds iff the shape checks pass, reports the first failing check otherwise, passes given lengths through unchanged and defaults missing ones to the full width for every row |
| `Forward.PitchShapeNotCrossChecked` | supervoice_gpt/model.py:91-97 | any two rank-2 pitch shapes get the same verdict: only the pitch rank is checked |
| `Forward.MismatchedPitchesAccepted` | supervoice_gpt/model.py:94-97 | a pitch tensor of batch 1 beside output streams of batch 2 passes the assertions; whether it then gets past the sum at l.117 is decided by broadcasting, which is not modelled |
| `Logits.KthLargest` | supervoice_gpt/model.py:188 | the last value `torch.topk` returns for k is one of the logits; `Logits.KthLargestIsKth` and `Logits.KthLargestUnique` state which one |
| `Logits.MaskBelow` | supervoice_gpt/model.py:189 | the masked row has the same length, and an entry is minus infinity afterwards iff it was minus infinity or strictly below the threshold; every other entry is unchanged |
| `Logits.KthLargestIsKth` | supervoice_gpt/model.py:188 | the threshold torch.topk yields for k is a value of the logits with fewer than k entries strictly above it and at least k entries not below it |
| `Logits.KthLargestUnique` | supervoice_gpt/model.py:188 | at most one value has that property, so the threshold is determined by the logits and k |
| `Logits.TopKKeepsExactlyTheHighRanked` | supervoice_gpt/model.py:188-193 | after top-k an entry keeps its score iff it is minus infinity already or fewer than k entries are strictly greater (ties at the threshold kept); any other entry becomes minus infinity |
| `Logits.TopKIdempotent` | supervoice_gpt/model.py:187-193 | top-k applied to its own result changes nothing |
| `Logits.Filtered` | supervoice_gpt/model.py:181-193 | the filtered row has the same length, class 0 is minus infinity, and every other entry either keeps its logit or becomes minus infinity; `Logits.FilteredSupport` says which |
| `Logits.FilteredSupport` | supervoice_gpt/model.py:181-193 | after padding suppression and optional top-k with k clamped to the size, an entry is finite iff it is not class 0, was finite, and fewer than min(k, size) suppressed logits lie strictly above it; a finite entry keeps its score |
| `Logits.FilteredKeepsMaximum` | supervoice_gpt/model.py:181-193 | if some non-padding class has a finite logit, some filtered entry is finite |
| `Logits.FilteredIdempotent` | supervoice_gpt/model.py:181-193 | filtering the filtered logits again changes nothing |
| `Logits.SuppressPadding` | supervoice_gpt/model.py:182-184 | writes minus infinity at index 0 of the array and changes nothing else |
| `Logits.TopKInPlace` | supervoice_gpt/model.py:188-189 | the array afterwards holds the old logits with every entry strictly below the min(k, size)-th largest replaced by minus infinity |
| `Logits.FilterLogits` | supervoice_gpt/model.py:181-193 | succeeds iff top_k is absent or at least 1; then each of the three arrays holds its filtered logits; otherwise each holds its old logits with only padding suppressed, as they are left when l.188-189 raise |
| `Logits.ArgMax` | supervoice_gpt/model.py:201-204 | returns the first index holding the largest score |
| `Logits.DeterministicChoiceIsCandidate` | supervoice_gpt/model.py:181-204 | when some non-padding class has a finite logit, the arg-max of the filtered logits is not class 0, keeps its original score and lies within the top min(k, size) |
| `Generation.Stored` | supervoice_gpt/model.py:150-153 | a conditioning triple is stored with its phoneme's id and with a duration and pitch that the output's -1 turns back into the given values |
| `Generation.Emit` | supervoice_gpt/model.py:227 | an output triple has the decoded phoneme, and a duration and pitch that the +1 shift turns back into the sampled classes |
| `Generation.Primed` | supervoice_gpt/model.py:145-156 | the primed history has length 1 + the number of conditioning triples, starts with (begin, 0, 0) and continues with (encode(phoneme), duration+1, pitch+1) in conditioning order |
| `Generation.InitialHistory` | supervoice_gpt/model.py:145-153 | succeeds iff no conditioning phoneme encodes below 3 and then returns the primed history; otherwise reports the first offending triple, all earlier ones encoding to 3 or more |
| `Generation.FullInput` | supervoice_gpt/model.py:144-148 | without conditioning the encoder text is the input; with it, the conditioning text, one space, then the input |
| `Generation.InputIds` | supervoice_gpt/model.py:160 | the encoder ids are the begin id, the encoded text and the end id |
| `Generation.Budget` | supervoice_gpt/model.py:168 | `range(max_new_tokens)` runs no iteration for max_new_tokens at most 0, and max_new_tokens iterations otherwise |
| `Generation.Next` | supervoice_gpt/model.py:200-212 | the appended triple keeps the sampled duration and pitch; its token is silence at the first iteration of a conditioned run and the sampled token otherwise |
| `Generation.Step` | supervoice_gpt/model.py:171-227 | one iteration appends exactly the Next triple to the history and advances the index; it completes iff that token is the end id; the output gains that triple's emitted form exactly when it neither completes nor is the trimmed first triple, and is unchanged otherwise |
| `Generation.Run` | supervoice_gpt/model.py:168-229 | the loop runs at most fuel more iterations, all of them unless completed, and only extends the history, by one triple per iteration; a completed state stays as it is |
| `Generation.DecodeLoop` | supervoice_gpt/model.py:165-229 | the imperative loop returns the output and completion flag of Run from the primed history |
| `Generation.Generate` | supervoice_gpt/model.py:141-229 | raises on the first conditioning phoneme encoding below 3 before any step; then, whatever max_new_tokens is, raises if an encoder id or a token, duration or pitch of the primed history does not fit int64 (l.160-163); then, when at least one step runs, raises if a stored duration or pitch is outside its embedding table (the first forward pass, l.115-116), else if top_k is below 1 (l.188-189); otherwise returns the output and completion flag of Run from the primed history for max(0, max_new_tokens) iterations |
| `GenerationFacts.StepReached` | supervoice_gpt/model.py:168-227 | one loop iteration keeps the invariant: history = primed + one oracle triple per iteration, only the last may be the end token and then the run is complete, output = emitted untrimmed generated triples |
| `GenerationFacts.RunReached` | supervoice_gpt/model.py:168-229 | every run of the loop from a state that satisfies the invariant ends in a state that satisfies it |
| `GenerationFacts.LoopBound` | supervoice_gpt/model.py:168-227 | at most max_new_tokens iterations, exactly that many unless completed; after k iterations the history holds the primed history plus k triples; the output never exceeds the number of iterations |
| `GenerationFacts.HistoryFollowsOracle` | supervoice_gpt/model.py:171-217 | each appended triple is the oracle's answer on the history before it, with the token forced to silence at the first iteration of a conditioned run |
| `GenerationFacts.CompletedIffEndToken` | supervoice_gpt/model.py:167-222 | completed is true iff some iteration produced the end token, which is then the last triple of the history |
| `GenerationFacts.OutputIsEmittedHistory` | supervoice_gpt/model.py:219-227 | the output is (decode(token), duration-1, pitch-1) of the generated triples in order, leaving out the end triple and a trimmed first triple; none of them carries the end token |
| `GenerationFacts.ConditionedFirstStep` | supervoice_gpt/model.py:210-226 | in a conditioned run the first generated triple has the silence token and the sampled duration and pitch; with trimming (and silence not the end id) the output starts from the second generated triple |
| `GenerationFacts.NoPaddingEmitted` | supervoice_gpt/model.py:181-227 | if the oracle never picks duration or pitch class 0, every output duration and pitch is at least 0 |
| `GenerationFacts.NoPaddingToken` | supervoice_gpt/model.py:182-217 | if the oracle never picks token class 0 and silence is not class 0, no generated token in the history is the padding class |
| `GenerationFacts.ImmediateEnd` | supervoice_gpt/model.py:219-222 | an unconditioned run whose oracle answers the end token at once returns an empty output with completed true |
| `GenerationFacts.NeverEnd` | supervoice_gpt/model.py:168-229 | an oracle that never answers the end token runs all max_new_tokens iterations, is not completed, and outputs one triple per iteration except a trimmed first one |
| `GenerationFacts.ConditioningRoundTrip` | supervoice_gpt/model.py:153 | a conditioning triple stored with duration+1 and pitch+1 and reported back with -1 is the triple itself, when the tokenizer decodes its phoneme's id back to the phoneme |
| `GenerationFacts.PrimedInEmbeddingRange` | supervoice_gpt/model.py:149-153 | every stored duration and pitch indexes its embedding table (sized at l.12-13) iff each conditioning duration lies in -1..max_duration and each pitch in -1..style_tokens-1 |
| `GenerationFacts.PrimedFitsTensors` | supervoice_gpt/model.py:149-163 | the context tensors can be built iff the encoder ids, the begin id and every conditioning phoneme id fit int64 and every conditioning duration and pitch lies in int64's range shifted down by one, so that its +1 still fits |
| `GenerationFacts.EmbeddingRangeFitsInt64` | supervoice_gpt/model.py:12-13 | for tables smaller than the int64 maximum, durations and pitches that index their embedding tables also fit int64, so the overflow error is raised only for values the tables would reject too, or for ids |

## Left out

- Embedding tables, encoder and decoder transformers and prediction heads (model.py:17-65, 113-128): floating-point neural computation delegated to `Transformer` and `TransformerAdvanced`, which are not part of this model; the forward pass is the oracle of `Generation`. Of the lookups' IndexError only the duration and pitch case for the primed history is modelled (`Generation.Generate`).
- Weight tying (model.py:68-70): parameter aliasing between tensors, with no discrete behaviour.
- Cross-entropy loss (model.py:131-136): floating-point numerics inside `F.cross_entropy`.
- Attention masks (model.py:102, 107, 110): built by `masks.py`, which is not part of this model; only the length vectors they are built from are modelled.
- Temperature scaling (model.py:174-176): floating-point division. Over the reals a positive temperature preserves the order of the logits; in floating point rounding, overflow to infinity and underflow can merge distinct logits into ties, which can change the entries top-k keeps and the index arg-max picks. The model filters the unscaled integer scores.
- Softmax and `torch.multinomial` (model.py:196-208): probabilities and randomness. The oracle stands for them; by `Logits.FilteredSupport` no class outside the finite entries it describes has non-zero probability. NaN rows (all logits minus infinity) are not modelled.
- Logits.ArgMax: stated on the filtered logits rather than on the probabilities, because softmax is strictly increasing; rounding that makes two probabilities equal is not modelled.
- Logits.FilterLogits: requires every stream to have at least one class. The vocabulary sizes are at least 2 for durations and 1 for pitches by `Vocab`, and the token vocabulary is assumed non-empty.
- Generation.Generate: the top_k, temperature and deterministic arguments reach the decode step only through the oracle, except for the top_k range error.
- Generation.Generate: the oracle is total, so an out-of-range id it returns, or a token id of the primed history outside the token or input tables, is not an error in the model; the tokenizer is assumed to produce ids of its own vocabulary, and sampling picks classes of the table sizes.
- The tokenizer (`encode`, `encode_phonemes`, `decode_phonemes`, special ids): uninterpreted functions and constants.
- `predict_next` (model.py:231-252): it calls `forward` without the pitch tensor that `forward` requires and unpacks three results into two names, so it has no behaviour to model.
- `encode` (model.py:254-261): purely neural.
- Device placement (model.py:159, 234).
- Assertions: the model takes the assertions of `forward` (model.py:91-97) as always checked; under `python -O` they are stripped and the shape errors of `Forward.CheckShapes` would surface later, or not at all.
- Deterministic reproducibility: every member of the model is a function of its arguments, so identical inputs give identical outputs by construction; no lemma states it.
