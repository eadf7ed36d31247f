# Boolean logic for machine learning — a Dafny model

This project models the logic in `python/session4/boolean_ml.py`, a lesson on boolean logic in machine learning. It covers:

- **Gates.** The four logic gates (AND, OR, NOT, XOR) on single bits. The source applies NumPy's logical operations, which read an operand by truthiness, and turns the result back into an integer. Each gate body here does the same on `Bit = {0, 1}`, and its contract states what the gate's docstring promises.
- **Truth tables.** The input enumeration of `display_truth_table`: an outer loop over A and an inner loop over B, each over `[0, 1]`, or a single loop for a one-input gate. The table rows it produces are also modelled.
- **The XOR problem.** The XOR table written into the program, and the row-by-row breakdown of XOR into OR, AND and NOT(AND). NAND is built as NOT(AND).
- **The decision tree.** `SimpleDecisionTreeNode` becomes an immutable datatype `DecisionTree.Node` that keeps all six attributes of the object. That includes the prediction, which overrides the branches when it is set. The model covers its condition test `evaluate_condition` and its recursive `predict`. The weather tree of the demonstration is built directly as a value, together with its four test cases.

Files:

- `wrappers.dfy`: `Option` and a dictionary lookup that gives `None` for a missing key.
- `boolean_gates.dfy`: the gates.
- `truth_table.dfy`: the enumeration and the tables.
- `xor_problem.dfy`: the XOR table and its decomposition.
- `decision_tree.dfy`: the tree (module `DecisionTree`) and the demonstration tree (module `WeatherDemo`).

`boolean_ml.py` has no NOR gate and does no input validation. Its NumPy gates read any non-zero integer as true; the model's gates take only bits, for which that reading is exact.

## Model

| member | source | states |
|---|---|---|
| BooleanGates.And | python/session4/boolean_ml.py:7-12 | result is 1 exactly when both inputs are 1, and 0 exactly when either is 0 |
| BooleanGates.Or | python/session4/boolean_ml.py:14-19 | result is 1 exactly when at least one input is 1, and 0 exactly when both are 0 |
| BooleanGates.Not | python/session4/boolean_ml.py:21-26 | result is the inverse bit `1 - a` |
| BooleanGates.Xor | python/session4/boolean_ml.py:28-33 | result is 1 exactly when the inputs differ, and 0 exactly when they are equal |
| BooleanGates.NotInvolutive | python/session4/boolean_ml.py:21-26 | NOT applied twice gives back the input |
| BooleanGates.BinaryGatesCommute | python/session4/boolean_ml.py:7-33 | AND, OR and XOR are symmetric in their inputs |
| TruthTable.RowMajor | python/session4/boolean_ml.py:46-47 | the nested loop visits `|xs| * |ys|` pairs |
| TruthTable.RowMajorAt | python/session4/boolean_ml.py:46-48 | the pair at position `i * |ys| + j` is `(xs[i], ys[j])`: outer loop slow, inner loop fast |
| TruthTable.RowMajorVisitsAll | python/session4/boolean_ml.py:46-48 | a pair is visited exactly when its first part is in the outer range and its second in the inner range |
| TruthTable.TwoInputInputs | python/session4/boolean_ml.py:46-47 | a two-input table has exactly four input rows |
| TruthTable.TwoInputOrder | python/session4/boolean_ml.py:46-48 | the rows come in the order (0,0), (0,1), (1,0), (1,1) |
| TruthTable.TwoInputComplete | python/session4/boolean_ml.py:46-48 | every combination of two bits is a row |
| TruthTable.Display | python/session4/boolean_ml.py:35-55 | with two inputs the table is the four rows (0,0)…(1,1), each with the gate's output; otherwise it is the two rows 0, 1 |
| TruthTable.ProgramTables | python/session4/boolean_ml.py:235-238 | the AND, OR, NOT and XOR tables the program shows have outputs 0001, 0111, 10 and 0110 |
| XorProblem.Nand | python/session4/boolean_ml.py:187-188 | NOT(AND) is 0 exactly when both inputs are 1 |
| XorProblem.ListedTableAgreesWithGate | python/session4/boolean_ml.py:162-163 | the listed XOR outputs are the XOR gate's results on the listed inputs, which come in truth-table order |
| XorProblem.Breakdown | python/session4/boolean_ml.py:184-190 | the row for inputs A, B holds A, B, OR(A,B), AND(A,B), NOT(AND(A,B)) and XOR(A,B), so its XOR column equals (A OR B) AND NOT(A AND B) |
| XorProblem.BreakdownTable | python/session4/boolean_ml.py:162-190 | row i is the breakdown of the i-th listed input, and its XOR column is the i-th listed XOR output |
| XorProblem.XorDecomposition | python/session4/boolean_ml.py:177-178 | for all bits, XOR equals (A OR B) AND NAND(A,B), and it equals (A AND NOT B) OR (NOT A AND B) |
| DecisionTree.NewNode | python/session4/boolean_ml.py:67-73 | a new node has no branches, and its feature name, threshold, comparison tag and prediction are the given ones |
| DecisionTree.Leaf | python/session4/boolean_ml.py:67-73 | a leaf built with only a prediction has an empty feature name, no threshold, the default tag `>=`, no branches and that prediction |
| DecisionTree.EvaluateCondition | python/session4/boolean_ml.py:75-87 | `>=`, `>` and `==` compare the value with the threshold; any other tag gives false |
| DecisionTree.Condition | python/session4/boolean_ml.py:97-98 | the node's test on the looked-up feature: `>=` and `>` compare the present value with the threshold; `==` holds when the value equals the threshold, or when the feature and the threshold are both missing; other tags give false |
| DecisionTree.Predict | python/session4/boolean_ml.py:89-104 | a prediction, when one is returned, is carried by a leaf reachable in the tree |
| DecisionTree.PredictionOverridesBranches | python/session4/boolean_ml.py:94-95 | a node whose prediction is set returns it, whatever its branches are |
| DecisionTree.PredictFollowsCondition | python/session4/boolean_ml.py:97-104 | otherwise the result is the taken branch's prediction, or None when that branch is absent; replacing the untaken branch changes nothing |
| DecisionTree.CompleteTreePredicts | python/session4/boolean_ml.py:94-104 | on a tree where no branch is missing, the prediction is never None |
| DecisionTree.PredictDependsOnlyOnTestedFeatures | python/session4/boolean_ml.py:97-98 | two feature maps that agree on the tree's tested features give the same prediction |
| WeatherDemo.Decision | python/session4/boolean_ml.py:117-130 | for any temperature: 85 or more means too hot; 60 to 84 means nice weather; below 60, is_raining equal to 1 means raining, anything else means not too cold |
| WeatherDemo.TestCases | python/session4/boolean_ml.py:133-143 | the four demonstration cases give the nice-weather, too-hot, raining and not-too-cold messages |
| WeatherDemo.Shape | python/session4/boolean_ml.py:117-130 | the weather tree has no missing branch, can give exactly the four messages, and tests only temperature and is_raining |
| WeatherDemo.AlwaysDecides | python/session4/boolean_ml.py:117-143 | with a temperature present, the weather tree always gives a prediction, because it has no missing branch |

## Left out

- Printing: banners, table layout and explanatory text. The tables are modelled as sequences of rows.
- NumPy arrays: the element-wise calls on whole arrays and the vectorised dataset demonstration (lines 196-223). They are foreign library calls, so the gates are modelled on single bits only.
- NumPy truthiness for integers outside {0,1}: the gates take `Bit` arguments.
- TruthTable.Display: the source picks the layout from `num_inputs` and would fail when calling a gate with the wrong number of arguments. The model requires the gate's arity to match `num_inputs` instead of modelling that failure.
- DecisionTree.EvaluateCondition: the source raises a TypeError when `>=` or `>` compares with a missing feature (`None`) or a missing threshold. The model requires both to be present for those tags. For `==`, it keeps the source's behaviour that a missing value equals a missing threshold.
- DecisionTree.Condition: it has the same requirement as `EvaluateCondition`, applied to the looked-up feature.
- DecisionTree.Predict: it requires `Traversable`, which means that no test on the chosen path would raise that TypeError.
- The branches are wired by assignment after construction (lines 121-130). Here the tree is built directly as an immutable value.
- The `description` entries of the test-case dictionaries: feature values are integers. By `PredictDependsOnlyOnTestedFeatures`, only `temperature` and `is_raining` affect the prediction.
- Feature values of other Python types (floats, booleans): feature values are integers only.
- The menu-driven calculators and the gate class hierarchy of the Java programs are not part of this model.
