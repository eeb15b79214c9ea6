/**
 * The shape of the assessment the language model returns (lib/llm.ts): three named dimensions, each a
 * score constrained to [1, 5] and a one-sentence explanation. The model call itself is an oracle.
 */
module Llm {
  import opened Axis

  datatype Dimension = Dimension(score: SubScore, explanation: string)

  /** Resolution accuracy, interaction effort and handoff smoothness. */
  datatype Assessment = Assessment(ra: Dimension, ie: Dimension, hs: Dimension)
}
