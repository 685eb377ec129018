/** What the decode loop of SupervoiceGPT.generate guarantees, stated over
    the functional model Run that Generate is proved equal to. */
module GenerationFacts {
  import opened Vocab
  import opened Generation

  /** 1 when the first post-priming triple is held back from the output:
      trimming is on in a conditioned run and that triple was not the end
      token. */
  function Trimmed(env: Env, h: seq<Triple>, s: GenState): nat
  {
    if env.conditioned && env.trim && |h| < |s.ctx| && s.ctx[|h|].token != env.tok.endId then 1 else 0
  }

  /** Index one past the last history entry that can reach the output:
      the end triple, when present, is last and is left out. */
  function EmitEnd(s: GenState): int
  {
    if s.completed then |s.ctx| - 1 else |s.ctx|
  }

  /** The history after s.step iterations started from h: h followed by
      one triple per iteration, each the one Next gives, the end token
      only last, and completed exactly when it is there. */
  ghost predicate HistoryReached(env: Env, h: seq<Triple>, s: GenState)
  {
    && |s.ctx| == |h| + s.step
    && s.ctx[..|h|] == h
    && (forall j :: |h| <= j < |s.ctx| ==> s.ctx[j] == Next(env, s.ctx[..j], j - |h|))
    && (forall j :: |h| <= j < |s.ctx| - 1 ==> s.ctx[j].token != env.tok.endId)
    && (s.completed <==> s.step > 0 && s.ctx[|s.ctx| - 1].token == env.tok.endId)
  }

  /** The output is the emitted form of the generated triples, less the
      trimmed first one and the end token. */
  ghost predicate OutputReached(env: Env, h: seq<Triple>, s: GenState)
    requires |s.ctx| == |h| + s.step
  {
    && |h| + Trimmed(env, h, s) <= EmitEnd(s)
    && s.output == EmitAll(env.tok, s.ctx[|h| + Trimmed(env, h, s)..EmitEnd(s)])
  }

  /** The state after s.step iterations started from history h. */
  ghost predicate Reached(env: Env, h: seq<Triple>, s: GenState)
  {
    HistoryReached(env, h, s) && OutputReached(env, h, s)
  }

  lemma EmitAllAppend(tok: Tokenizer, ts: seq<Triple>, t: Triple)
    ensures EmitAll(tok, ts + [t]) == EmitAll(tok, ts) + [Emit(tok, t)]
  {
  }

  /** One iteration extends the history by the triple Next gives, and the
      earlier triples keep what they had. */
  lemma StepHistory(env: Env, h: seq<Triple>, s: GenState)
    requires HistoryReached(env, h, s) && !s.completed
    ensures HistoryReached(env, h, Step(env, s))
    ensures var ctx := Step(env, s).ctx;
      && ctx == s.ctx + [Next(env, s.ctx, s.step)]
      && (s.step > 0 ==> ctx[|h|] == s.ctx[|h|])
  {
    var ctx := Step(env, s).ctx;
    assert ctx[..|h|] == s.ctx[..|h|];
    forall j | |h| <= j < |ctx|
      ensures ctx[j] == Next(env, ctx[..j], j - |h|)
    {
      if j < |s.ctx| {
        assert ctx[..j] == s.ctx[..j];
      } else {
        assert ctx[..j] == s.ctx;
      }
    }
  }

  /** The iteration that samples the end token: valid_exit is set and
      the output is left as it was. */
  lemma StepEndReached(env: Env, h: seq<Triple>, s: GenState)
    requires |s.ctx| == |h| + s.step && OutputReached(env, h, s) && !s.completed
    requires Next(env, s.ctx, s.step).token == env.tok.endId
    ensures OutputReached(env, h, Step(env, s))
  {
    var s' := Step(env, s);
    assert s'.completed && s'.output == s.output && s'.step == s.step + 1;
    assert EmitEnd(s') == |s.ctx| == EmitEnd(s);
    if s.step == 0 {
      assert Trimmed(env, h, s') == 0 && Trimmed(env, h, s) == 0;
      assert s.ctx[|h|..|h|] == [] == s'.ctx[|h|..|h|];
    } else {
      var lo := |h| + Trimmed(env, h, s);
      assert Trimmed(env, h, s') == Trimmed(env, h, s);
      assert s'.ctx[lo..|s.ctx|] == s.ctx[lo..|s.ctx|];
    }
  }

  /** The trimmed first iteration of a conditioned run: nothing is output. */
  lemma StepTrimReached(env: Env, h: seq<Triple>, s: GenState)
    requires |s.ctx| == |h| + s.step && OutputReached(env, h, s) && !s.completed
    requires Next(env, s.ctx, s.step).token != env.tok.endId
    requires env.conditioned && s.step == 0 && env.trim
    ensures OutputReached(env, h, Step(env, s))
  {
    var s' := Step(env, s);
    assert !s'.completed && s'.output == [] && s'.step == 1;
    assert Trimmed(env, h, s') == 1;
  }

  /** Any other iteration outputs the emitted form of its triple. */
  lemma StepEmitReached(env: Env, h: seq<Triple>, s: GenState)
    requires |s.ctx| == |h| + s.step && OutputReached(env, h, s) && !s.completed
    requires Next(env, s.ctx, s.step).token != env.tok.endId
    requires !(env.conditioned && s.step == 0 && env.trim)
    ensures OutputReached(env, h, Step(env, s))
  {
    var t := Next(env, s.ctx, s.step);
    var s' := Step(env, s);
    var lo := |h| + Trimmed(env, h, s);
    assert !s'.completed && s'.output == s.output + [Emit(env.tok, t)];
    assert Trimmed(env, h, s') == Trimmed(env, h, s);
    assert s'.ctx[lo..|s'.ctx|] == s.ctx[lo..|s.ctx|] + [t];
    EmitAllAppend(env.tok, s.ctx[lo..|s.ctx|], t);
  }

  /** One iteration keeps Reached. */
  lemma StepReached(env: Env, h: seq<Triple>, s: GenState)
    requires Reached(env, h, s) && !s.completed
    ensures Reached(env, h, Step(env, s))
  {
    StepHistory(env, h, s);
    var t := Next(env, s.ctx, s.step);
    if t.token == env.tok.endId {
      StepEndReached(env, h, s);
    } else if env.conditioned && s.step == 0 && env.trim {
      StepTrimReached(env, h, s);
    } else {
      StepEmitReached(env, h, s);
    }
  }

  /** Running the loop keeps Reached (its bounds are Run's own contract). */
  lemma {:induction false} RunReached(env: Env, h: seq<Triple>, s: GenState, fuel: nat)
    requires Reached(env, h, s)
    ensures Reached(env, h, Run(env, s, fuel))
    decreases fuel
  {
    var last := s;
    if fuel > 0 && !s.completed {
      StepReached(env, h, s);
      RunReached(env, h, Step(env, s), fuel - 1);
      last := Run(env, Step(env, s), fuel - 1);
    }
    ReachedSame(env, h, last, Run(env, s, fuel));
  }

  /** Reached depends only on the state's value. Used instead of a direct
      rewrite so that RunReached's proof stays cheap and stable. */
  lemma ReachedSame(env: Env, h: seq<Triple>, a: GenState, b: GenState)
    requires a == b
    ensures Reached(env, h, a) == Reached(env, h, b)
  {
  }

  lemma StartReached(env: Env, h: seq<Triple>)
    ensures Reached(env, h, Start(h))
  {
  }

  /** Step budget: the loop runs at most max_new_tokens iterations, all of
      them unless the end token stopped it; the history grows by exactly
      one triple per iteration and the output never outgrows the number of
      iterations. */
  lemma LoopBound(env: Env, h: seq<Triple>, n: nat)
    ensures var final := Run(env, Start(h), n);
      && final.step <= n
      && (!final.completed ==> final.step == n)
      && |final.ctx| == |h| + final.step
      && final.ctx[..|h|] == h
      && |final.output| <= final.step
  {
    StartReached(env, h);
    RunReached(env, h, Start(h), n);
  }

  /** Each appended triple is the oracle's answer on the history before
      it, with the silence override at the first iteration of a
      conditioned run. */
  lemma HistoryFollowsOracle(env: Env, h: seq<Triple>, n: nat, j: int)
    requires |h| <= j < |Run(env, Start(h), n).ctx|
    ensures var ctx := Run(env, Start(h), n).ctx;
      ctx[j] == Next(env, ctx[..j], j - |h|)
  {
    StartReached(env, h);
    RunReached(env, h, Start(h), n);
  }

  /** valid_exit is set exactly when some iteration produced the end
      token; that triple is the last one of the history. */
  lemma CompletedIffEndToken(env: Env, h: seq<Triple>, n: nat)
    ensures var final := Run(env, Start(h), n);
      final.completed <==> exists j :: |h| <= j < |final.ctx| && final.ctx[j].token == env.tok.endId
    ensures var final := Run(env, Start(h), n);
      final.completed ==> |final.ctx| > |h| && final.ctx[|final.ctx| - 1].token == env.tok.endId
  {
    StartReached(env, h);
    RunReached(env, h, Start(h), n);
  }

  /** The output is the emitted form of the generated history, in order,
      without the end triple and without the trimmed first triple; no
      triple behind an output entry carries the end token. */
  lemma OutputIsEmittedHistory(env: Env, h: seq<Triple>, n: nat)
    ensures var final := Run(env, Start(h), n);
      var lo := |h| + Trimmed(env, h, final);
      && lo <= EmitEnd(final) <= |final.ctx|
      && final.output == EmitAll(env.tok, final.ctx[lo..EmitEnd(final)])
      && forall j :: lo <= j < EmitEnd(final) ==> final.ctx[j].token != env.tok.endId
  {
    StartReached(env, h);
    RunReached(env, h, Start(h), n);
  }

  /** Conditioned runs: the first generated token is silence whatever the
      oracle sampled, with the sampled duration and pitch; with trimming,
      and silence not being the end token, that triple is never output. */
  lemma ConditionedFirstStep(env: Env, h: seq<Triple>, n: nat)
    requires env.conditioned && n > 0
    ensures var final := Run(env, Start(h), n);
      var sampled := env.sample(env.inputIds, h);
      |final.ctx| > |h| &&
      final.ctx[|h|] == Triple(env.tok.silenceId, sampled.duration, sampled.pitch)
    ensures var final := Run(env, Start(h), n);
      env.trim && env.tok.silenceId != env.tok.endId ==>
        |h| + 1 <= EmitEnd(final) &&
        final.output == EmitAll(env.tok, final.ctx[|h| + 1..EmitEnd(final)])
  {
    StartReached(env, h);
    RunReached(env, h, Start(h), n);
    var final := Run(env, Start(h), n);
    assert final.ctx[..|h|] == h;
  }

  /** With an oracle that never picks the padding class for duration and
      pitch (index 0 is excluded by filtering), every reported duration
      and pitch undoes the +1 shift into a non-negative value. */
  lemma NoPaddingEmitted(env: Env, h: seq<Triple>, n: nat)
    requires forall ctx :: env.sample(env.inputIds, ctx).duration >= 1 && env.sample(env.inputIds, ctx).pitch >= 1
    ensures forall o :: o in Run(env, Start(h), n).output ==> o.duration >= 0 && o.pitch >= 0
  {
    var final := Run(env, Start(h), n);
    OutputIsEmittedHistory(env, h, n);
    var lo := |h| + Trimmed(env, h, final);
    forall k | 0 <= k < |final.output|
      ensures final.output[k].duration >= 0 && final.output[k].pitch >= 0
    {
      HistoryFollowsOracle(env, h, n, lo + k);
      assert final.output[k] == Emit(env.tok, final.ctx[lo + k]);
    }
  }

  /** With an oracle that never picks token class 0 (the padding class,
      suppressed like the others) and a silence id that is not 0, no
      generated token is the padding class. */
  lemma NoPaddingToken(env: Env, h: seq<Triple>, n: nat)
    requires forall ctx :: env.sample(env.inputIds, ctx).token >= 1
    requires env.conditioned ==> env.tok.silenceId >= 1
    ensures forall j :: |h| <= j < |Run(env, Start(h), n).ctx| ==> Run(env, Start(h), n).ctx[j].token >= 1
  {
    var final := Run(env, Start(h), n);
    forall j | |h| <= j < |final.ctx|
      ensures final.ctx[j].token >= 1
    {
      HistoryFollowsOracle(env, h, n, j);
    }
  }

  /** An unconditioned run whose oracle answers the end token at once
      stops at the first iteration with an empty output. */
  lemma ImmediateEnd(env: Env, h: seq<Triple>, n: nat)
    requires !env.conditioned && n > 0
    requires env.sample(env.inputIds, h).token == env.tok.endId
    ensures Run(env, Start(h), n).output == [] && Run(env, Start(h), n).completed
  {
    assert Step(env, Start(h)).completed;
  }

  /** An oracle that never answers the end token (and a silence id that is
      not the end id when conditioned) runs all n iterations without
      completing, and outputs one triple per iteration except a trimmed
      first one. */
  lemma NeverEnd(env: Env, h: seq<Triple>, n: nat)
    requires forall ctx :: env.sample(env.inputIds, ctx).token != env.tok.endId
    requires env.conditioned ==> env.tok.silenceId != env.tok.endId
    ensures !Run(env, Start(h), n).completed
    ensures Run(env, Start(h), n).step == n
    ensures |Run(env, Start(h), n).output| == if env.conditioned && env.trim && n > 0 then n - 1 else n
  {
    StartReached(env, h);
    RunReached(env, h, Start(h), n);
    var final := Run(env, Start(h), n);
    if env.conditioned && n > 0 {
      assert final.ctx[|h|] == Next(env, final.ctx[..|h|], 0);
    }
  }

  /** Duration and pitch round-trip: a conditioning entry stored in the
      history (shifted up by one) and reported back (shifted down by one)
      is the entry itself, when the tokenizer decodes its phoneme's id back
      to the phoneme. */
  lemma ConditioningRoundTrip(tok: Tokenizer, cond: seq<Spoken>, i: int)
    requires 0 <= i < |cond|
    requires tok.decodePhoneme(tok.encodePhoneme(cond[i].phoneme)) == cond[i].phoneme
    ensures Emit(tok, Primed(tok, cond)[i + 1]) == cond[i]
  {
  }

  /** The first forward pass succeeds on the primed history exactly when
      every conditioning duration lies in -1..maxDuration and every pitch in
      -1..styleTokens-1, so that the shifted values index the tables. */
  lemma PrimedInEmbeddingRange(tok: Tokenizer, cond: seq<Spoken>, maxDuration: nat, styleTokens: nat)
    ensures InEmbeddingRange(Primed(tok, cond), maxDuration, styleTokens) <==>
      forall i :: 0 <= i < |cond| ==>
        -1 <= cond[i].duration <= maxDuration && -1 <= cond[i].pitch < styleTokens
  {
    var h := Primed(tok, cond);
    if InEmbeddingRange(h, maxDuration, styleTokens) {
      forall i | 0 <= i < |cond|
        ensures -1 <= cond[i].duration <= maxDuration && -1 <= cond[i].pitch < styleTokens
      {
        assert h[i + 1] == Stored(tok, cond[i]);
      }
    }
  }

  /** The context tensors can be built from the primed history exactly
      when the begin id and every conditioning phoneme id fit int64 and
      every conditioning duration and pitch is at least one below the
      int64 maximum (and not below its minimum less one), so that the +1
      shift still fits. */
  lemma PrimedFitsTensors(tok: Tokenizer, ids: seq<int>, cond: seq<Spoken>)
    ensures FitsTensors(ids, Primed(tok, cond)) <==>
      && (forall i :: 0 <= i < |ids| ==> InInt64(ids[i]))
      && InInt64(tok.beginId)
      && forall i :: 0 <= i < |cond| ==>
        && InInt64(tok.encodePhoneme(cond[i].phoneme))
        && Int64Min - 1 <= cond[i].duration < Int64Max
        && Int64Min - 1 <= cond[i].pitch < Int64Max
  {
    var h := Primed(tok, cond);
    if FitsTensors(ids, h) {
      assert InInt64(h[0].token);
      forall i | 0 <= i < |cond|
        ensures InInt64(tok.encodePhoneme(cond[i].phoneme))
        ensures Int64Min - 1 <= cond[i].duration < Int64Max && Int64Min - 1 <= cond[i].pitch < Int64Max
      {
        assert h[i + 1] == Stored(tok, cond[i]);
        assert InInt64(h[i + 1].token) && InInt64(h[i + 1].duration) && InInt64(h[i + 1].pitch);
      }
    }
  }

  /** A history whose durations and pitches index the embedding tables
      never overflows int64 there, so the overflow error can only come
      from a value the tables would reject as well, or from an id. */
  lemma EmbeddingRangeFitsInt64(h: seq<Triple>, maxDuration: nat, styleTokens: nat)
    requires InEmbeddingRange(h, maxDuration, styleTokens)
    requires maxDuration < Int64Max && styleTokens <= Int64Max
    ensures forall j :: 0 <= j < |h| ==> InInt64(h[j].duration) && InInt64(h[j].pitch)
  {
    forall j | 0 <= j < |h|
      ensures InInt64(h[j].duration) && InInt64(h[j].pitch)
    {
      assert 0 <= h[j].duration < NumDurations(maxDuration);
    }
  }
}
