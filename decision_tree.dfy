/**
 * A decision tree whose internal nodes are boolean tests on named features.
 *
 * A node carries all the attributes of the source's node object: the feature
 * it tests, the threshold, the comparison tag, the two branches (either may be
 * absent) and an optional prediction. A node whose prediction is set is a
 * leaf, whatever its branches are. Feature values are integers; a missing
 * feature reads as `None`, as `dict.get` gives it.
 */
module DecisionTree {
  import opened Wrappers

  datatype Node = Node(
    featureName: string,
    threshold: Option<int>,
    operation: string,
    trueBranch: Option<Node>,
    falseBranch: Option<Node>,
    prediction: Option<string>)

  /**
   * A node as the constructor builds it: no branches yet, and the given
   * threshold, comparison tag and prediction.
   */
  function NewNode(featureName: string, threshold: Option<int>, operation: string, prediction: Option<string>): (n: Node)
    ensures n.trueBranch.None? && n.falseBranch.None?
    ensures n.featureName == featureName && n.threshold == threshold
    ensures n.operation == operation && n.prediction == prediction
  {
    Node(featureName, threshold, operation, None, None, prediction)
  }

  /** A leaf as the program builds one: empty feature name, default threshold and tag, a prediction. */
  function Leaf(prediction: string): (n: Node)
    ensures n.prediction == Some(prediction)
    ensures n.featureName == "" && n.threshold.None? && n.operation == ">="
    ensures n.trueBranch.None? && n.falseBranch.None?
  {
    NewNode("", None, ">=", Some(prediction))
  }

  /**
   * Whether the comparison can be made at all: the ordering tags compare
   * numbers, so both the feature value and the threshold must be present.
   * Equality is defined for every pair of values, absent ones included.
   */
  predicate Comparable(operation: string, value: Option<int>, threshold: Option<int>)
  {
    (operation == ">=" || operation == ">") ==> value.Some? && threshold.Some?
  }

  /** The boolean test of a node on one feature value. */
  function EvaluateCondition(node: Node, value: Option<int>): (holds: bool)
    requires Comparable(node.operation, value, node.threshold)
    ensures node.operation == ">=" ==> (holds <==> value.value >= node.threshold.value)
    ensures node.operation == ">" ==> (holds <==> value.value > node.threshold.value)
    ensures node.operation == "==" ==> (holds <==> value == node.threshold)
    ensures node.operation !in {">=", ">", "=="} ==> !holds
  {
    if node.operation == ">=" then value.value >= node.threshold.value
    else if node.operation == ">" then value.value > node.threshold.value
    else if node.operation == "==" then value == node.threshold
    else false
  }

  /** The condition a non-leaf node computes on the given features. */
  function Condition(node: Node, features: map<string, int>): (holds: bool)
    requires Comparable(node.operation, Get(features, node.featureName), node.threshold)
    ensures node.operation == ">=" ==> (holds <==> features[node.featureName] >= node.threshold.value)
    ensures node.operation == ">" ==> (holds <==> features[node.featureName] > node.threshold.value)
    ensures node.operation == "==" ==>
      (holds <==> if node.featureName in features then node.threshold == Some(features[node.featureName])
                  else node.threshold.None?)
    ensures node.operation !in {">=", ">", "=="} ==> !holds
  {
    EvaluateCondition(node, Get(features, node.featureName))
  }

  /**
   * Whether every test on the path the features select can be made: the
   * comparisons that would fail on an absent value are excluded.
   */
  predicate Traversable(t: Node, features: map<string, int>)
    decreases t
  {
    t.prediction.Some? ||
    (Comparable(t.operation, Get(features, t.featureName), t.threshold) &&
     if Condition(t, features) then
       (t.trueBranch.Some? ==> Traversable(t.trueBranch.value, features))
     else
       (t.falseBranch.Some? ==> Traversable(t.falseBranch.value, features)))
  }

  /** The predictions carried by the leaves reachable from `t`. */
  function Predictions(t: Node): set<string>
    decreases t
  {
    if t.prediction.Some? then {t.prediction.value}
    else
      (if t.trueBranch.Some? then Predictions(t.trueBranch.value) else {}) +
      (if t.falseBranch.Some? then Predictions(t.falseBranch.value) else {})
  }

  /** The features tested by the internal nodes reachable from `t`. */
  function TestedFeatures(t: Node): set<string>
    decreases t
  {
    if t.prediction.Some? then {}
    else
      {t.featureName} +
      (if t.trueBranch.Some? then TestedFeatures(t.trueBranch.value) else {}) +
      (if t.falseBranch.Some? then TestedFeatures(t.falseBranch.value) else {})
  }

  /** Whether every reachable internal node has both branches. */
  predicate Complete(t: Node)
    decreases t
  {
    t.prediction.Some? ||
    (t.trueBranch.Some? && t.falseBranch.Some? &&
     Complete(t.trueBranch.value) && Complete(t.falseBranch.value))
  }

  /**
   * The prediction of the tree for the given features: the leaf's prediction,
   * reached by following the true branch when a node's condition holds and
   * the false branch otherwise; `None` when the chosen branch is absent.
   */
  function Predict(t: Node, features: map<string, int>): (r: Option<string>)
    requires Traversable(t, features)
    ensures r.Some? ==> r.value in Predictions(t)
    decreases t
  {
    if t.prediction.Some? then t.prediction
    else if Condition(t, features) then
      (if t.trueBranch.Some? then Predict(t.trueBranch.value, features) else None)
    else
      (if t.falseBranch.Some? then Predict(t.falseBranch.value, features) else None)
  }

  /** A node whose prediction is set answers with it, whatever branches it has. */
  lemma PredictionOverridesBranches(t: Node, features: map<string, int>, tb: Option<Node>, fb: Option<Node>)
    requires t.prediction.Some?
    ensures Traversable(t.(trueBranch := tb, falseBranch := fb), features)
    ensures Predict(t.(trueBranch := tb, falseBranch := fb), features) == t.prediction
  {
  }

  /**
   * At a node without prediction the result is that of the branch the
   * condition selects, `None` when that branch is absent; the other branch
   * is never consulted, so replacing it changes nothing.
   */
  lemma PredictFollowsCondition(t: Node, features: map<string, int>, other: Option<Node>)
    requires Traversable(t, features) && t.prediction.None?
    ensures Condition(t, features) ==>
      var t' := t.(falseBranch := other);
      Traversable(t', features) && Predict(t', features) == Predict(t, features) &&
      Predict(t, features) == (if t.trueBranch.Some? then Predict(t.trueBranch.value, features) else None)
    ensures !Condition(t, features) ==>
      var t' := t.(trueBranch := other);
      Traversable(t', features) && Predict(t', features) == Predict(t, features) &&
      Predict(t, features) == (if t.falseBranch.Some? then Predict(t.falseBranch.value, features) else None)
  {
  }

  /** On a tree where no branch is missing, every traversal ends at a leaf. */
  lemma {:induction false} CompleteTreePredicts(t: Node, features: map<string, int>)
    requires Complete(t) && Traversable(t, features)
    ensures Predict(t, features).Some?
    decreases t
  {
    if t.prediction.None? {
      if Condition(t, features) {
        CompleteTreePredicts(t.trueBranch.value, features);
      } else {
        CompleteTreePredicts(t.falseBranch.value, features);
      }
    }
  }

  /** Whether two feature maps give the same value (or the same absence) for `k`. */
  predicate AgreeOn(f1: map<string, int>, f2: map<string, int>, k: string)
  {
    Get(f1, k) == Get(f2, k)
  }

  /** The prediction reads only the features the tree tests; other entries may differ freely. */
  lemma {:induction false} PredictDependsOnlyOnTestedFeatures(t: Node, f1: map<string, int>, f2: map<string, int>)
    requires Traversable(t, f1)
    requires forall k :: k in TestedFeatures(t) ==> AgreeOn(f1, f2, k)
    ensures Traversable(t, f2)
    ensures Predict(t, f2) == Predict(t, f1)
    decreases t
  {
    if t.prediction.None? {
      assert AgreeOn(f1, f2, t.featureName);
      if Condition(t, f1) {
        if t.trueBranch.Some? {
          PredictDependsOnlyOnTestedFeatures(t.trueBranch.value, f1, f2);
        }
      } else {
        if t.falseBranch.Some? {
          PredictDependsOnlyOnTestedFeatures(t.falseBranch.value, f1, f2);
        }
      }
    }
  }
}

/**
 * The weather tree of the demonstration: go outside or stay inside, by
 * temperature and rain.
 */
module WeatherDemo {
  import opened Wrappers
  import opened DecisionTree

  const TooHot := "Stay inside - too hot!"
  const NiceWeather := "Go outside - nice weather!"
  const Raining := "Stay inside - it's raining!"
  const NotTooCold := "Go outside - not too cold!"

  /** Root tests temperature >= 60; the warm side tests >= 85, the cold side tests is_raining == 1. */
  const HotCheck: Node := Node("temperature", Some(85), ">=", Some(Leaf(TooHot)), Some(Leaf(NiceWeather)), None)
  const RainCheck: Node := Node("is_raining", Some(1), "==", Some(Leaf(Raining)), Some(Leaf(NotTooCold)), None)
  const Root: Node := Node("temperature", Some(60), ">=", Some(HotCheck), Some(RainCheck), None)

  /** The tree's decision for every feature map that has a temperature. */
  lemma Decision(features: map<string, int>)
    requires "temperature" in features
    ensures Traversable(Root, features)
    ensures Predict(Root, features) == Some(
      var temperature := features["temperature"];
      if temperature >= 85 then TooHot
      else if temperature >= 60 then NiceWeather
      else if Get(features, "is_raining") == Some(1) then Raining
      else NotTooCold)
  {
  }

  /** The four test cases of the demonstration. */
  lemma TestCases()
    ensures Predict(Root, map["temperature" := 75, "is_raining" := 0]) == Some(NiceWeather)
    ensures Predict(Root, map["temperature" := 95, "is_raining" := 0]) == Some(TooHot)
    ensures Predict(Root, map["temperature" := 50, "is_raining" := 1]) == Some(Raining)
    ensures Predict(Root, map["temperature" := 50, "is_raining" := 0]) == Some(NotTooCold)
  {
    Decision(map["temperature" := 75, "is_raining" := 0]);
    Decision(map["temperature" := 95, "is_raining" := 0]);
    Decision(map["temperature" := 50, "is_raining" := 1]);
    Decision(map["temperature" := 50, "is_raining" := 0]);
  }

  /**
   * The shape of the weather tree: no branch is missing, it can answer with
   * exactly the four messages, and it reads only temperature and rain.
   */
  lemma Shape()
    ensures Complete(Root)
    ensures Predictions(Root) == {TooHot, NiceWeather, Raining, NotTooCold}
    ensures TestedFeatures(Root) == {"temperature", "is_raining"}
  {
  }

  /** Every traversal of the weather tree reaches a leaf. */
  lemma AlwaysDecides(features: map<string, int>)
    requires "temperature" in features
    ensures Traversable(Root, features) && Predict(Root, features).Some?
  {
    Shape();
    CompleteTreePredicts(Root, features);
  }
}
