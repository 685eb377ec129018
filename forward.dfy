/** The discrete part of SupervoiceGPT.forward: the shape checks it makes
    before any computation, and the per-row valid lengths it falls back to
    when the caller gives none. A tensor is represented by its shape, the
    sequence of its dimension sizes. */
module Forward {
  import opened Wrappers

  type Shape = seq<nat>

  /** The failed assertion, one constructor per check, in source order. */
  datatype ForwardError =
    | InputNotRank2
    | OutputTokensNotRank2
    | OutputDurationsNotRank2
    | OutputPitchesNotRank2
    | BatchSizeMismatch
    | OutputBatchSizeMismatch
    | OutputLengthMismatch

  predicate Rank2(s: Shape)
  {
    |s| == 2
  }

  /** The assertions of forward, checked one after another; the first that
      fails is reported. The pitch tensor is only checked for its rank. */
  function CheckShapes(input: Shape, tokens: Shape, durations: Shape, pitches: Shape): (r: Option<ForwardError>)
    ensures r.None? <==>
      Rank2(input) && Rank2(tokens) && Rank2(durations) && Rank2(pitches) &&
      input[0] == tokens[0] && tokens[0] == durations[0] && tokens[1] == durations[1]
    ensures r == Some(InputNotRank2) <==> !Rank2(input)
    ensures r == Some(OutputTokensNotRank2) <==> Rank2(input) && !Rank2(tokens)
    ensures r == Some(OutputDurationsNotRank2) <==> Rank2(input) && Rank2(tokens) && !Rank2(durations)
    ensures r == Some(OutputPitchesNotRank2) <==>
      Rank2(input) && Rank2(tokens) && Rank2(durations) && !Rank2(pitches)
    ensures r == Some(BatchSizeMismatch) ==> input[0] != tokens[0]
    ensures r == Some(OutputBatchSizeMismatch) ==> input[0] == tokens[0] && tokens[0] != durations[0]
    ensures r == Some(OutputLengthMismatch) ==>
      input[0] == tokens[0] == durations[0] && tokens[1] != durations[1]
  {
    if !Rank2(input) then Some(InputNotRank2)
    else if !Rank2(tokens) then Some(OutputTokensNotRank2)
    else if !Rank2(durations) then Some(OutputDurationsNotRank2)
    else if !Rank2(pitches) then Some(OutputPitchesNotRank2)
    else if input[0] != tokens[0] then Some(BatchSizeMismatch)
    else if tokens[0] != durations[0] then Some(OutputBatchSizeMismatch)
    else if tokens[1] != durations[1] then Some(OutputLengthMismatch)
    else None
  }

  /** The length vector used when the caller passes none: one entry per
      batch row, each the full padded width. */
  function FullLengths(s: Shape): (lengths: seq<int>)
    requires Rank2(s)
    ensures |lengths| == s[0]
    ensures forall b :: 0 <= b < |lengths| ==> lengths[b] == s[1]
  {
    seq(s[0], _ => s[1])
  }

  /** The input and output length vectors forward goes on to build its masks from. */
  datatype Lengths = Lengths(input: seq<int>, output: seq<int>)

  /** Validation followed by the length defaults. Both length vectors are
      optional, as in forward's signature; given lengths are passed through
      unchanged: forward does not check them. */
  function PrepareForward(input: Shape, tokens: Shape, durations: Shape, pitches: Shape,
                          inputLengths: Option<seq<int>> := None,
                          outputLengths: Option<seq<int>> := None): (r: Result<Lengths, ForwardError>)
    ensures r.Ok? <==> CheckShapes(input, tokens, durations, pitches).None?
    ensures r.Err? ==> Some(r.error) == CheckShapes(input, tokens, durations, pitches)
    ensures r.Ok? && inputLengths.Some? ==> r.value.input == inputLengths.value
    ensures r.Ok? && inputLengths.None? ==>
      |r.value.input| == input[0] && forall b :: 0 <= b < input[0] ==> r.value.input[b] == input[1]
    ensures r.Ok? && outputLengths.Some? ==> r.value.output == outputLengths.value
    ensures r.Ok? && outputLengths.None? ==>
      |r.value.output| == tokens[0] && forall b :: 0 <= b < tokens[0] ==> r.value.output[b] == tokens[1]
  {
    match CheckShapes(input, tokens, durations, pitches)
    case Some(e) => Err(e)
    case None =>
      var inLengths := if inputLengths.Some? then inputLengths.value else FullLengths(input);
      var outLengths := if outputLengths.Some? then outputLengths.value else FullLengths(tokens);
      Ok(Lengths(inLengths, outLengths))
  }

  /** Only the rank of the pitch tensor is checked: any two rank-2 pitch
      shapes, whatever their batch size and length, get the same verdict. */
  lemma PitchShapeNotCrossChecked(input: Shape, tokens: Shape, durations: Shape, p1: Shape, p2: Shape)
    requires Rank2(p1) && Rank2(p2)
    ensures CheckShapes(input, tokens, durations, p1) == CheckShapes(input, tokens, durations, p2)
  {
  }

  /** A pitch tensor whose batch size differs from the other output
      streams passes the checks; here batch 1. Whether the later sum of
      the three output embeddings accepts it is a matter of broadcasting,
      which is outside the model. */
  lemma MismatchedPitchesAccepted()
    ensures CheckShapes([2, 5], [2, 7], [2, 7], [1, 7]).None?
  {
  }
}
