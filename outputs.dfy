/** The result of a multi-label prediction, shared by the classifiers of
    the model: one relevance decision and one confidence per label. */
module Outputs {

  datatype MultiLabelOutput = MultiLabelOutput(bipartition: seq<bool>, confidences: seq<real>)
}
