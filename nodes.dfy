/**
 * A kedro node as the pipeline definitions build it: the function it runs,
 * the catalog entries it reads, the one entry it writes, and its name.
 * Kedro itself (scheduling, the catalog, persistence) is not modelled.
 */
module Nodes {
  import opened Datasets
  import Processing

  /**
   * The function a node runs, identified by the dataset (and factor) it is
   * for: a transformation node for `d` runs `Transforms.Transform(d, ...)`,
   * a processing node runs `Processing.MakeDataImbalanced` with its entry's
   * factor.
   */
  datatype Step =
    | Download(d: Dataset)
    | TransformImbalanced(d: Dataset)
    | TransformBalanced(d: Dataset)
    | Process(f: Processing.ProcessFunc)

  datatype Node = Node(func: Step, inputs: seq<string>, outputs: string, name: string)

  /** The catalog entry kedro fills with the project's parameters. */
  const Parameters: string := "parameters"

  /** The nodes `[make(x) for x in xs]` builds, one per element, in order. */
  function Comprehension<T>(make: T -> Node, xs: seq<T>): (ns: seq<Node>)
    ensures |ns| == |xs| && forall i :: 0 <= i < |xs| ==> ns[i] == make(xs[i])
  {
    seq(|xs|, i requires 0 <= i < |xs| => make(xs[i]))
  }

  /** Building the nodes one element at a time gives the same list. */
  lemma ComprehensionStep<T>(make: T -> Node, xs: seq<T>, i: nat)
    requires i < |xs|
    ensures Comprehension(make, xs[..i + 1]) == Comprehension(make, xs[..i]) + [make(xs[i])]
  {
  }

  lemma ComprehensionWhole<T>(make: T -> Node, xs: seq<T>)
    ensures Comprehension(make, xs[..|xs|]) == Comprehension(make, xs)
  {
    assert xs[..|xs|] == xs;
  }
}
