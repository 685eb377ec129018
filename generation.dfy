/** SupervoiceGPT.generate without the neural network: conditioning
    preparation, the decode loop with its silence override, stop token,
    optional trimming of the first post-priming triple and the -1 shift on
    emitted durations and pitches, bounded by max_new_tokens.

    The tokenizer is a value of uninterpreted functions and constants. The
    forward pass, temperature, logit filtering and sampling of one step are
    an oracle from the encoded input and the output history so far to the
    sampled (token, duration, pitch) indices. Within one call the history
    grows at every step, so an oracle that is a function of it can give
    any sequence of draws. */
module Generation {
  import opened Wrappers
  import opened Vocab
  import Logits

  type Phoneme = string

  datatype Tokenizer = Tokenizer(
    beginId: int,
    endId: int,
    silenceId: int,
    encodeText: string -> seq<int>,
    encodePhoneme: Phoneme -> int,
    decodePhoneme: int -> Phoneme)

  /** One entry of the output history: ids as the decoder consumes them. */
  datatype Triple = Triple(token: int, duration: int, pitch: int)

  /** A conditioning entry, and an entry of the returned output. */
  datatype Spoken = Spoken(phoneme: Phoneme, duration: int, pitch: int)

  datatype Conditioning = Conditioning(text: string, triples: seq<Spoken>)

  datatype GenerateError =
    | ReservedConditioningToken(at: nat)   // ValueError on the triple at this index
    | TensorOverflow                        // RuntimeError building the int64 context tensors
    | EmbeddingIndexOutOfRange              // IndexError in the first forward pass
    | TopKOutOfRange                        // torch rejects top_k below 1 at the first step (l.188-189)

  /** How a conditioning entry is stored in the history. */
  function Stored(tok: Tokenizer, c: Spoken): (t: Triple)
    ensures t.token == tok.encodePhoneme(c.phoneme)
    ensures Unshift(t.duration) == c.duration && Unshift(t.pitch) == c.pitch
  {
    Triple(tok.encodePhoneme(c.phoneme), Shift(c.duration), Shift(c.pitch))
  }

  /** How a sampled triple is reported in the output. */
  function Emit(tok: Tokenizer, t: Triple): (o: Spoken)
    ensures o.phoneme == tok.decodePhoneme(t.token)
    ensures Shift(o.duration) == t.duration && Shift(o.pitch) == t.pitch
  {
    Spoken(tok.decodePhoneme(t.token), Unshift(t.duration), Unshift(t.pitch))
  }

  function EmitAll(tok: Tokenizer, ts: seq<Triple>): (r: seq<Spoken>)
    ensures |r| == |ts|
    ensures forall i :: 0 <= i < |ts| ==> r[i] == Emit(tok, ts[i])
  {
    seq(|ts|, i requires 0 <= i < |ts| => Emit(tok, ts[i]))
  }

  /** The primed history: the begin triple, then each conditioning entry
      in order. */
  function Primed(tok: Tokenizer, cond: seq<Spoken>): (h: seq<Triple>)
    ensures |h| == |cond| + 1
    ensures h[0] == Triple(tok.beginId, 0, 0)
    ensures forall i :: 0 <= i < |cond| ==> h[i + 1] == Stored(tok, cond[i])
  {
    if cond == [] then [Triple(tok.beginId, 0, 0)]
    else Primed(tok, cond[..|cond| - 1]) + [Stored(tok, cond[|cond| - 1])]
  }

  /** No conditioning phoneme encodes to a special id (0, 1 or 2). */
  predicate NoReservedTokens(tok: Tokenizer, cond: seq<Spoken>)
  {
    forall i :: 0 <= i < |cond| ==> tok.encodePhoneme(cond[i].phoneme) >= 3
  }

  /** The loop that builds initial_output, raising on the first entry whose
      phoneme encodes below 3. */
  method InitialHistory(tok: Tokenizer, cond: seq<Spoken>) returns (r: Result<seq<Triple>, GenerateError>)
    ensures r.Ok? <==> NoReservedTokens(tok, cond)
    ensures r.Ok? ==> r.value == Primed(tok, cond)
    ensures r.Err? ==> r.error.ReservedConditioningToken? && r.error.at < |cond|
    ensures r.Err? ==> tok.encodePhoneme(cond[r.error.at].phoneme) < 3
    ensures r.Err? ==> NoReservedTokens(tok, cond[..r.error.at])
  {
    var history := [Triple(tok.beginId, 0, 0)];
    var i := 0;
    while i < |cond|
      invariant 0 <= i <= |cond|
      invariant NoReservedTokens(tok, cond[..i])
      invariant history == Primed(tok, cond[..i])
    {
      var encoded := tok.encodePhoneme(cond[i].phoneme);
      if encoded < 3 {
        return Err(ReservedConditioningToken(i));
      }
      history := history + [Triple(encoded, Shift(cond[i].duration), Shift(cond[i].pitch))];
      assert cond[..i + 1][..i] == cond[..i];
      i := i + 1;
    }
    assert cond[..i] == cond;
    return Ok(history);
  }

  /** The text the encoder reads: the conditioning text, a space, the input. */
  function FullInput(input: string, conditioning: Option<Conditioning>): (full: string)
    ensures conditioning.None? ==> full == input
    ensures conditioning.Some? ==>
      var text := conditioning.value.text;
      |full| == |text| + 1 + |input| && full[..|text|] == text &&
      full[|text|] == ' ' && full[|text| + 1..] == input
  {
    if conditioning.None? then input else conditioning.value.text + " " + input
  }

  /** The encoder's input ids: begin, the encoded text, end. */
  function InputIds(tok: Tokenizer, text: string): (ids: seq<int>)
    ensures |ids| == |tok.encodeText(text)| + 2
    ensures ids[0] == tok.beginId && ids[|ids| - 1] == tok.endId
    ensures ids[1..|ids| - 1] == tok.encodeText(text)
  {
    [tok.beginId] + tok.encodeText(text) + [tok.endId]
  }

  /** The conditioning triples; none when no conditioning is given. */
  function Triples(conditioning: Option<Conditioning>): seq<Spoken>
  {
    if conditioning.Some? then conditioning.value.triples else []
  }

  /** Every duration and pitch of the history is a row of its embedding
      table, whose sizes __init__ fixes; torch.nn.Embedding raises
      IndexError for any other index, negative ones included. */
  predicate InEmbeddingRange(h: seq<Triple>, maxDuration: nat, styleTokens: nat)
  {
    forall j :: 0 <= j < |h| ==>
      0 <= h[j].duration < NumDurations(maxDuration) && 0 <= h[j].pitch < NumPitches(styleTokens)
  }

  const Int64Min: int := -0x8000_0000_0000_0000
  const Int64Max: int := 0x7FFF_FFFF_FFFF_FFFF

  predicate InInt64(x: int)
  {
    Int64Min <= x <= Int64Max
  }

  /** torch.tensor stores the encoder ids and the history's tokens,
      durations and pitches as int64 (l.160-163), and raises for a value
      outside that range. */
  predicate FitsTensors(ids: seq<int>, h: seq<Triple>)
  {
    && (forall i :: 0 <= i < |ids| ==> InInt64(ids[i]))
    && (forall j :: 0 <= j < |h| ==> InInt64(h[j].token) && InInt64(h[j].duration) && InInt64(h[j].pitch))
  }

  /** What stays fixed during one decode loop. */
  datatype Env = Env(
    tok: Tokenizer,
    sample: (seq<int>, seq<Triple>) -> Triple,
    inputIds: seq<int>,
    conditioned: bool,
    trim: bool)

  /** The generation state: the history, the output so far, the loop index
      i and the valid_exit flag. */
  datatype GenState = GenState(ctx: seq<Triple>, output: seq<Spoken>, step: nat, completed: bool)

  function Start(h: seq<Triple>): GenState
  {
    GenState(h, [], 0, false)
  }

  /** The triple appended at a step: the oracle's, with the token forced
      to silence at step 0 of a conditioned run. */
  function Next(env: Env, ctx: seq<Triple>, step: nat): (t: Triple)
    ensures t.duration == env.sample(env.inputIds, ctx).duration
    ensures t.pitch == env.sample(env.inputIds, ctx).pitch
    ensures env.conditioned && step == 0 ==> t.token == env.tok.silenceId
    ensures !(env.conditioned && step == 0) ==> t.token == env.sample(env.inputIds, ctx).token
  {
    var t := env.sample(env.inputIds, ctx);
    if env.conditioned && step == 0 then t.(token := env.tok.silenceId) else t
  }

  /** One iteration of the decode loop. */
  function Step(env: Env, s: GenState): (r: GenState)
    ensures r.ctx == s.ctx + [Next(env, s.ctx, s.step)] && r.step == s.step + 1
    ensures r.completed <==> Next(env, s.ctx, s.step).token == env.tok.endId
    ensures r.output == s.output || r.output == s.output + [Emit(env.tok, Next(env, s.ctx, s.step))]
    ensures |r.output| == |s.output| + 1 <==> !r.completed && !(env.conditioned && s.step == 0 && env.trim)
  {
    var t := Next(env, s.ctx, s.step);
    var ctx := s.ctx + [t];
    if t.token == env.tok.endId then GenState(ctx, s.output, s.step + 1, true)
    else if env.conditioned && s.step == 0 && env.trim then GenState(ctx, s.output, s.step + 1, false)
    else GenState(ctx, s.output + [Emit(env.tok, t)], s.step + 1, false)
  }

  /** At most fuel further iterations, stopping at the end token. */
  function Run(env: Env, s: GenState, fuel: nat): (r: GenState)
    ensures s.step <= r.step <= s.step + fuel
    ensures |r.ctx| == |s.ctx| + (r.step - s.step) && r.ctx[..|s.ctx|] == s.ctx
    ensures !r.completed ==> r.step == s.step + fuel
    ensures s.completed ==> r == s
    decreases fuel
  {
    if fuel == 0 || s.completed then s else Run(env, Step(env, s), fuel - 1)
  }

  /** range(max_new_tokens) runs no iteration for a negative count. */
  function Budget(maxNewTokens: int): (n: nat)
    ensures n == 0 <==> maxNewTokens <= 0
    ensures n > 0 ==> n == maxNewTokens
  {
    if maxNewTokens < 0 then 0 else maxNewTokens
  }

  /** The dictionary generate returns. */
  datatype Outcome = Outcome(output: seq<Spoken>, completed: bool)

  /** generate. temperature, top_k and deterministic only reach the
      oracle, except that a top_k below 1 makes torch raise at the first
      iteration. Before the loop the ids and the primed history become
      int64 tensors, which raises for a value outside int64, whatever
      max_new_tokens is. The first iteration's forward pass looks up every stored
      duration and pitch in its embedding table, which raises for a
      conditioning value outside the vocabulary; maxDuration and
      styleTokens are the configuration that sizes those tables. */
  method Generate(tok: Tokenizer, maxDuration: nat, styleTokens: nat,
                  sample: (seq<int>, seq<Triple>) -> Triple,
                  input: string, conditioning: Option<Conditioning> := None,
                  maxNewTokens: int := 1024, topK: Option<int> := Some(5),
                  trimConditioningPause: bool := true)
    returns (r: Result<Outcome, GenerateError>)
    ensures !NoReservedTokens(tok, Triples(conditioning)) <==>
      r.Err? && r.error.ReservedConditioningToken?
    ensures r.Err? && r.error.ReservedConditioningToken? ==>
      var cond := Triples(conditioning);
      && r.error.at < |cond|
      && tok.encodePhoneme(cond[r.error.at].phoneme) < 3
      && NoReservedTokens(tok, cond[..r.error.at])
    ensures r.Err? && r.error.TensorOverflow? <==>
      NoReservedTokens(tok, Triples(conditioning)) &&
      !FitsTensors(InputIds(tok, FullInput(input, conditioning)), Primed(tok, Triples(conditioning)))
    ensures r.Err? && r.error.EmbeddingIndexOutOfRange? <==>
      NoReservedTokens(tok, Triples(conditioning)) &&
      FitsTensors(InputIds(tok, FullInput(input, conditioning)), Primed(tok, Triples(conditioning))) &&
      Budget(maxNewTokens) > 0 &&
      !InEmbeddingRange(Primed(tok, Triples(conditioning)), maxDuration, styleTokens)
    ensures r.Err? && r.error.TopKOutOfRange? <==>
      NoReservedTokens(tok, Triples(conditioning)) &&
      FitsTensors(InputIds(tok, FullInput(input, conditioning)), Primed(tok, Triples(conditioning))) &&
      Budget(maxNewTokens) > 0 &&
      InEmbeddingRange(Primed(tok, Triples(conditioning)), maxDuration, styleTokens) &&
      !Logits.ValidTopK(topK)
    ensures r.Ok? ==>
      var env := Env(tok, sample, InputIds(tok, FullInput(input, conditioning)),
                     conditioning.Some?, trimConditioningPause);
      var final := Run(env, Start(Primed(tok, Triples(conditioning))), Budget(maxNewTokens));
      r.value == Outcome(final.output, final.completed)
  {
    var primed := InitialHistory(tok, Triples(conditioning));
    if primed.Err? {
      return Err(primed.error);
    }
    var env := Env(tok, sample, InputIds(tok, FullInput(input, conditioning)),
                   conditioning.Some?, trimConditioningPause);
    if !FitsTensors(env.inputIds, primed.value) {
      return Err(TensorOverflow);
    }
    var n := Budget(maxNewTokens);
    if n > 0 && !InEmbeddingRange(primed.value, maxDuration, styleTokens) {
      return Err(EmbeddingIndexOutOfRange);
    }
    if n > 0 && !Logits.ValidTopK(topK) {
      return Err(TopKOutOfRange);
    }
    var g := DecodeLoop(env, primed.value, n);
    return Ok(g);
  }

  /** The for loop of generate (l.168-227): at most n iterations, each
      appending the sampled triple to the history and, unless it is the end
      token or the trimmed first triple, its emitted form to the output. */
  method DecodeLoop(env: Env, h: seq<Triple>, n: nat) returns (g: Outcome)
    ensures g == Outcome(Run(env, Start(h), n).output, Run(env, Start(h), n).completed)
  {
    var ctx := h;
    var output := [];
    var completed := false;
    var i := 0;
    while i < n
      invariant 0 <= i <= n
      invariant Run(env, Start(h), n) == Run(env, GenState(ctx, output, i, false), n - i)
    {
      var t := env.sample(env.inputIds, ctx);
      if env.conditioned && i == 0 {
        t := t.(token := env.tok.silenceId);
      }
      ctx := ctx + [t];
      if t.token == env.tok.endId {
        completed := true;
        break;
      }
      if !(env.conditioned && i == 0 && env.trim) {
        output := output + [Emit(env.tok, t)];
      }
      i := i + 1;
    }
    return Outcome(output, completed);
  }
}
