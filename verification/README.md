# Question routing workflow, modelled in Dafny

The modelled program is a small workflow that routes one customer question.
A classifier labels the question `complain`, `consult` or `other` from fixed
trigger substrings: "投诉" (complaint) is checked first, then "咨询"
(consultation). A router hands the label to a conditional edge. A dispatch
table maps the label to a node name, and the handler registered under that
name writes a fixed answer. The state has three optional fields (question,
category, answer). Each step returns a partial update, and the update is
merged into the state.

The model is functional. It has these parts:

- `Options`: `Option` for Python's `Optional`, and `Result` for a step that raises.
- `Text`: the substring test `needle in hay`. `Contains` is an executable left-to-right scan and `Occurs` is its declarative meaning. A lemma proves the two agree.
- `RequestState`: the closed label vocabulary `Category`, the state, partial updates, and the "set these keys" merge.
- `Nodes`: the classifier, the three handlers and the router.
- `Graph`: the registered node names and the dispatch table, both as data. It also holds one run (`RunWith`, `Run`) and the routing facts.

The dispatch table is encoded as configured. Its keys are `greeting`,
`technical` and `other`. Its targets `greeting_node` and `tech_node` are never
registered. The classifier, though, produces `complain`, `consult` and
`other`. The model proves that only `other` is routed. A question holding
either trigger therefore ends with `UnroutableCategory`. A corrected table is
modelled next to it (see Findings).

## Model

| member | source | states |
|---|---|---|
| `Text.ContainsIffOccurs` | test.py:18-20 | The scan behind `in` finds the trigger exactly when the trigger occurs at some index of the question. |
| `RequestState.ParseLabel` | test.py:10 | A string reads back as a category exactly when it is one of the three declared labels, and it reads back as the label it spells. |
| `RequestState.LabelRoundTrip` | test.py:10 | Every category is written as one of the three declared strings, and parsing that string gives the category back. |
| `RequestState.LabelInjective` | test.py:10 | Two categories are written as the same string only when they are the same category. |
| `RequestState.Initial` | test.py:7-11 | A run starts with the question present as given, and with no category and no answer. |
| `RequestState.Merge` | test.py:19-23 | The keys a step returns overwrite the state's fields. Every key it leaves out keeps its old value. |
| `RequestState.MergeNoChange` | test.py:7-11 | Merging an update with no keys leaves the state unchanged. |
| `RequestState.MergeIdempotent` | test.py:19-23 | Merging the same partial update twice gives the same state as merging it once. |
| `Nodes.Classify` | test.py:16-23 | The label is `complain` iff the complaint trigger occurs. It is `consult` iff the consultation trigger occurs and the complaint trigger does not. It is `other` iff neither occurs. |
| `Nodes.ClassifyQuestion` | test.py:16-23 | The step fails iff the question is absent. Otherwise it sets only the category, to the question's label from the trigger rule. |
| `Nodes.ComplaintHasPriority` | test.py:18-21 | A question holding the complaint trigger anywhere is a complaint, even when a consultation trigger comes before it. |
| `Nodes.ConsultationWithoutComplaint` | test.py:20-21 | A question holding the consultation trigger but not the complaint trigger is a consultation. |
| `Nodes.EmptyQuestionIsOther` | test.py:22-23 | The empty question holds no trigger and is labelled `other`. |
| `Nodes.HandleComplain` | test.py:28-30 | The complaint handler sets the answer and no other key. |
| `Nodes.HandleConsult` | test.py:33-36 | The consultation handler sets the answer and no other key. |
| `Nodes.HandleOther` | test.py:39-42 | The fallback handler sets the answer and no other key. |
| `Nodes.HandlersIgnoreState` | test.py:28-42 | Each handler returns the same update for every state. Its answer is its category's fixed text, whatever the question says. |
| `Nodes.AnswersIdentifyHandler` | test.py:30-42 | The three fixed answers are pairwise different. |
| `Nodes.DecideNextNode` | test.py:55-56 | The router returns a value iff a category is stored, and that value parses back to the stored category. So it is the identity on the category. |
| `Graph.Apply` | test.py:47-50 | Each registered step runs its own function. The classifier step gives the classifier's update, and each handler step sets only the answer, to its own category's fixed text. No step sets the question. |
| `Graph.Route` | test.py:59-66 | A router value is routed iff it is present and is a key of the table. The result is then the table's target for that value. Otherwise the run fails with that value as unroutable. |
| `Graph.Lookup` | test.py:47-50 | A node name resolves iff it was registered. The result is then the step registered under that name, and otherwise the name is reported as unregistered. |
| `Graph.RunWith` | test.py:16-66 | An absent question fails as invalid input. A successful run keeps the question unchanged and carries the classifier's label for it. |
| `Graph.Run` | test.py:46-66 | With the configured table, a successful run always carries the category `other`. |
| `Graph.RunSucceedsIffRoutable` | test.py:47-66 | For any table, a run on a present question succeeds iff the table routes the question's category to a registered node. Otherwise the run fails at the table or at the node lookup, with the failing key or name. |
| `Graph.RunAnswersWithNamedStep` | test.py:47-66 | For any table, a successful run answers with what the step registered under the table's target for the question's label writes: a handler's fixed text, or no answer when the target is the classifier. |
| `Graph.CoveringTableAnswersByCategory` | test.py:47-66 | A table that routes every label to that label's own handler answers every present question with its category's answer. |
| `Graph.OnlyOtherIsRoutable` | test.py:47-66 | In the configured table only `other` is routed. `complain` and `consult` are not keys, and the targets of `greeting` and `technical` are not registered. |
| `Graph.RouterRequirementViolated` | test.py:56-66 | The router's output does not match the configured table. The only key the table shares with the declared labels is `other`, and only `other` reaches its own handler. |
| `Graph.RunOutcomes` | test.py:16-66 | As configured, a run fails as invalid input on an absent question. It fails as unroutable `complain` when the complaint trigger occurs, and as unroutable `consult` when only the consultation trigger occurs. With neither trigger it answers with the fallback text. |
| `Graph.RunDependsOnlyOnCategory` | test.py:16-56 | Two questions with the same category get the same success or failure, the same error and the same answer. In particular, equal questions give equal results. |
| `Graph.EdgeSourceNotRegistered` | test.py:47-60 | The conditional edge is attached to `classify`, a name that was never registered. The classifier is registered as `classify_node`. |
| `Graph.IntendedTableCoversClassifier` | test.py:56 | The corrected table has exactly the declared labels as keys, and it routes each label to that label's own handler. |
| `Graph.IntendedRunAnswersByCategory` | test.py:62-66 | With the corrected table, every present question is answered by the handler of the category the classifier gives it. |
| `Graph.CoveringTableAnswerDeterminesCategory` | test.py:28-66 | With a table that routes each label to its own handler, two questions get the same answer exactly when they get the same label. |
| `Graph.RunIntended` | test.py:62-66 | With the corrected table, an absent question fails as invalid input. A present question succeeds, carrying its classifier label and that label's fixed answer. |

## Left out

- The graph runtime (`StateGraph`, `add_node`, `add_conditional_edges`, `add_edge`, `compile`, `END`) is a foreign library. Only the node names and the dispatch table are modelled, as data. A run is the linear sequence the runtime is expected to perform, and its merge is "set these keys".
- The host's assembly-time checks are not modelled. At test.py:59-72 the edges name nodes that were never added: `classify`, `greeting_node` and `tech_node`. A graph compiler may refuse this configuration before any run. The model instead shows what each run would do with the table as written.
- `TypedDict` and `END` are used but never imported (test.py:2, 7, 70-72). As written, the module fails to load. That is a Python loading matter, not workflow logic.
- The entry point and the edge source are chosen by the model. The source declares no entry point: it has no start edge and no `set_entry_point` call. The conditional edge is attached to `classify` (test.py:60), not to the registered `classify_node`. `Graph.RunWith` starts at the classifier and consults the router right after it, as the classifier's comments and the router's comment describe.
- The edges from the handlers to `END` (test.py:70-72) are not modelled. A run stops after its one handler step.
- The handlers read the question and ignore it, and the source marks question-specific answers as future work. No such processing is invented.
- A table that routes to `classify_node` would run the classifier a second time and finish without an answer. `Graph.RunWith` reports that as a success with no answer (`Graph.RunAnswersWithNamedStep`). It does not report a separate "handler set no answer" error, because the source has no such check.
- A missing question is modelled as the classifier step failing with `InvalidInput`. In the source, the substring test on `None` raises `TypeError`. A key missing from the state dictionary, as opposed to a key set to `None`, is not distinguished from `None`.

## Findings

| source | as written | input that shows it | evidently intended | confidence | as-written member | corrected member |
|---|---|---|---|---|---|---|
| test.py:62-66 | The dispatch table has keys `greeting`, `technical` and `other`, and its first two targets are never registered. | The question "投诉" is labelled `complain`, which has no table entry, so the run fails as unroutable. | Keys `complain`, `consult` and `other`, mapped to `complain_node`, `consult_node` and `other_node`. This is what the comment at test.py:56 requires. | high; not executed | `Graph.RouterRequirementViolated` | `Graph.RunIntended` |
