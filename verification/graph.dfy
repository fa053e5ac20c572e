/** The assembled workflow: the registered steps, the dispatch table of the
    conditional edge, and one run from a question to an answer.

    The host runtime is not modelled; a run is the linear sequence it is
    expected to perform: classify, merge, ask the router, look the router's
    value up in the dispatch table, look the resulting name up among the
    registered steps, run that step, merge.
 */
module Graph {
  import opened Options
  import opened Text
  import opened RequestState
  import opened Nodes

  /** The step functions that can be registered under a node name. */
  datatype Step = ClassifyStep | ComplainStep | ConsultStep | OtherStep

  /** Runs one registered step on the state, giving its partial update. */
  function Apply(step: Step, s: State): (r: Result<Update, RunError>)
    ensures step != ClassifyStep ==> r.Success? && SetsOnlyAnswer(r.value)
    ensures step == ClassifyStep ==> r == ClassifyQuestion(s)
    ensures step == ComplainStep ==> r == Success(Update(None, None, Some(AnswerFor(Complain))))
    ensures step == ConsultStep ==> r == Success(Update(None, None, Some(AnswerFor(Consult))))
    ensures step == OtherStep ==> r == Success(Update(None, None, Some(AnswerFor(Other))))
    ensures r.Success? ==> r.value.question.None?
  {
    match step
    case ClassifyStep => ClassifyQuestion(s)
    case ComplainStep => Success(HandleComplain(s))
    case ConsultStep => Success(HandleConsult(s))
    case OtherStep => Success(HandleOther(s))
  }

  /** The answer a step writes: a handler's fixed text, and none for the classifier. */
  function StepAnswer(step: Step): Option<string> {
    match step
    case ClassifyStep => None
    case ComplainStep => Some(ComplainAnswer)
    case ConsultStep => Some(ConsultAnswer)
    case OtherStep => Some(OtherAnswer)
  }

  /** The handler step that answers a category. */
  function HandlerStep(c: Category): Step {
    match c
    case Complain => ComplainStep
    case Consult => ConsultStep
    case Other => OtherStep
  }

  /** The node names added to the graph, with the step each runs. */
  const RegisteredNodes: map<string, Step> := map[
    "classify_node" := ClassifyStep,
    "complain_node" := ComplainStep,
    "consult_node" := ConsultStep,
    "other_node" := OtherStep
  ]

  /** The node name the conditional edge is attached to. */
  const ConditionalEdgeSource: string := "classify"

  /** The dispatch table of the conditional edge, exactly as configured. */
  const DispatchTable: map<string, string> := map[
    "greeting" := "greeting_node",
    "technical" := "tech_node",
    "other" := "other_node"
  ]

  /** Looks the router's value up in a dispatch table. */
  function Route(table: map<string, string>, key: Option<string>): (r: Result<string, RunError>)
    ensures r.Success? <==> key.Some? && key.value in table
    ensures r.Success? ==> r.value == table[key.value]
    ensures r.Failure? ==> r.error == UnroutableCategory(key)
  {
    if key.Some? && key.value in table then Success(table[key.value])
    else Failure(UnroutableCategory(key))
  }

  /** Finds the step registered under a node name. */
  function Lookup(name: string): (r: Result<Step, RunError>)
    ensures r.Success? <==> name in RegisteredNodes
    ensures r.Success? ==> r.value == RegisteredNodes[name]
    ensures r.Failure? ==> r.error == UnregisteredNode(name)
  {
    if name in RegisteredNodes then Success(RegisteredNodes[name])
    else Failure(UnregisteredNode(name))
  }

  /** One run of the workflow over a given dispatch table. */
  function RunWith(table: map<string, string>, question: Option<string>): (r: Result<State, RunError>)
    ensures question.None? ==> r == Failure(InvalidInput)
    ensures r.Success? ==> r.value.question == question
    ensures r.Success? ==> r.value.category == Some(Classify(question.value))
  {
    var s0 := Initial(question);
    var classified :- ClassifyQuestion(s0);
    var s1 := Merge(s0, classified);
    var name :- Route(table, DecideNextNode(s1));
    var step :- Lookup(name);
    var answered :- Apply(step, s1);
    Success(Merge(s1, answered))
  }

  /** One run of the workflow as it is configured. */
  function Run(question: Option<string>): (r: Result<State, RunError>)
    ensures r.Success? ==> r.value.question == question && r.value.category == Some(Other)
  {
    RunWith(DispatchTable, question)
  }

  /** A table routes a category when the category's label is a key and its target is a registered node. */
  predicate Routable(table: map<string, string>, c: Category) {
    c.Label() in table && table[c.Label()] in RegisteredNodes
  }

  /** A table routes every category to the handler of that category. */
  ghost predicate CoversClassifier(table: map<string, string>) {
    forall c: Category :: Routable(table, c) && RegisteredNodes[table[c.Label()]] == HandlerStep(c)
  }

  /** A run over a present question succeeds exactly when the table routes the question's category;
      otherwise it fails at the table or at the node lookup. */
  lemma RunSucceedsIffRoutable(table: map<string, string>, q: string)
    ensures RunWith(table, Some(q)).Success? <==> Routable(table, Classify(q))
    ensures Classify(q).Label() !in table ==> RunWith(table, Some(q)) == Failure(UnroutableCategory(Some(Classify(q).Label())))
    ensures Classify(q).Label() in table && !Routable(table, Classify(q)) ==>
      RunWith(table, Some(q)) == Failure(UnregisteredNode(table[Classify(q).Label()]))
  {
    var c := Classify(q);
    var s1 := Merge(Initial(Some(q)), Update(None, Some(c), None));
    assert DecideNextNode(s1) == Some(c.Label());
    if Routable(table, c) {
      var step := RegisteredNodes[table[c.Label()]];
      assert Apply(step, s1).Success?;
    }
  }

  /** The step that runs is the one registered under the table's target for the question's
      label, and the run's answer is whatever that step writes. */
  lemma RunAnswersWithNamedStep(table: map<string, string>, q: string)
    ensures RunWith(table, Some(q)).Success? ==>
      RunWith(table, Some(q)).value.answer == StepAnswer(RegisteredNodes[table[Classify(q).Label()]])
  {
    var c := Classify(q);
    var s1 := Merge(Initial(Some(q)), Update(None, Some(c), None));
    assert DecideNextNode(s1) == Some(c.Label());
  }

  /** With a table that covers the classifier, every present question is answered by its own category's handler. */
  lemma CoveringTableAnswersByCategory(table: map<string, string>, q: string)
    requires CoversClassifier(table)
    ensures RunWith(table, Some(q)) == Success(State(Some(q), Some(Classify(q)), Some(AnswerFor(Classify(q)))))
  {
    var c := Classify(q);
    var s1 := Merge(Initial(Some(q)), Update(None, Some(c), None));
    assert DecideNextNode(s1) == Some(c.Label());
    assert Routable(table, c) && RegisteredNodes[table[c.Label()]] == HandlerStep(c);
  }

  /** Of the three labels, only `other` is routed by the configured table: the targets of
      `greeting` and `technical` were never registered, and `complain` and `consult` are no keys. */
  lemma OnlyOtherIsRoutable(c: Category)
    ensures Routable(DispatchTable, c) <==> c == Other
    ensures c != Other ==> c.Label() !in DispatchTable
    ensures DispatchTable["greeting"] !in RegisteredNodes && DispatchTable["technical"] !in RegisteredNodes
  {
  }

  /** The router's output does not match the configured table: two labels the classifier
      produces have no entry, and the only registered target is reached through `other`. */
  lemma RouterRequirementViolated()
    ensures !CoversClassifier(DispatchTable)
    ensures DispatchTable.Keys * DeclaredLabels == {"other"}
    ensures Routable(DispatchTable, Other) && RegisteredNodes[DispatchTable["other"]] == HandlerStep(Other)
  {
    assert !Routable(DispatchTable, Complain);
  }

  /** The outcome of a run as configured, for every input. */
  lemma RunOutcomes(question: Option<string>)
    ensures question.None? ==> Run(question) == Failure(InvalidInput)
    ensures question.Some? && Occurs(question.value, ComplaintTrigger) ==>
      Run(question) == Failure(UnroutableCategory(Some("complain")))
    ensures question.Some? && !Occurs(question.value, ComplaintTrigger) && Occurs(question.value, ConsultTrigger) ==>
      Run(question) == Failure(UnroutableCategory(Some("consult")))
    ensures question.Some? && !Occurs(question.value, ComplaintTrigger) && !Occurs(question.value, ConsultTrigger) ==>
      Run(question) == Success(State(question, Some(Other), Some(OtherAnswer)))
  {
    if question.Some? {
      var q := question.value;
      RunSucceedsIffRoutable(DispatchTable, q);
      OnlyOtherIsRoutable(Classify(q));
      if Classify(q) == Other {
        var s1 := Merge(Initial(question), Update(None, Some(Other), None));
        assert DecideNextNode(s1) == Some("other");
      }
    }
  }

  /** The run depends on the question only through its category: questions with the same
      category get the same outcome, apart from the question they carry. In particular a
      run is a function of its input, so equal questions give equal results. */
  lemma RunDependsOnlyOnCategory(table: map<string, string>, p: string, q: string)
    requires Classify(p) == Classify(q)
    ensures RunWith(table, Some(p)).Success? <==> RunWith(table, Some(q)).Success?
    ensures RunWith(table, Some(p)).Failure? ==> RunWith(table, Some(p)).error == RunWith(table, Some(q)).error
    ensures RunWith(table, Some(p)).Success? ==>
      RunWith(table, Some(p)).value.answer == RunWith(table, Some(q)).value.answer
  {
    var c := Classify(p);
    var sp := Merge(Initial(Some(p)), Update(None, Some(c), None));
    var sq := Merge(Initial(Some(q)), Update(None, Some(c), None));
    assert DecideNextNode(sp) == DecideNextNode(sq);
  }

  /** The conditional edge hangs off a node name that was never added: the classifier is
      registered as `classify_node`. */
  lemma EdgeSourceNotRegistered()
    ensures ConditionalEdgeSource !in RegisteredNodes
    ensures "classify_node" in RegisteredNodes && RegisteredNodes["classify_node"] == ClassifyStep
  {
  }

  /** The dispatch table the router's vocabulary calls for: each label to its own handler node. */
  const IntendedDispatchTable: map<string, string> := map[
    "complain" := "complain_node",
    "consult" := "consult_node",
    "other" := "other_node"
  ]

  /** One run with the dispatch table keyed by the classifier's own labels. */
  function RunIntended(question: Option<string>): (r: Result<State, RunError>)
    ensures question.None? ==> r == Failure(InvalidInput)
    ensures question.Some? ==>
      r == Success(State(question, Some(Classify(question.value)), Some(AnswerFor(Classify(question.value)))))
  {
    IntendedRunAnswersByCategory(question);
    RunWith(IntendedDispatchTable, question)
  }

  /** With the corrected table, a present question is answered by the handler of its own category. */
  lemma IntendedRunAnswersByCategory(question: Option<string>)
    ensures question.Some? ==>
      RunWith(IntendedDispatchTable, question)
        == Success(State(question, Some(Classify(question.value)), Some(AnswerFor(Classify(question.value)))))
  {
    if question.Some? {
      IntendedTableCoversClassifier();
      CoveringTableAnswersByCategory(IntendedDispatchTable, question.value);
    }
  }

  /** With a covering table the answer reveals the category: two present questions get the
      same answer exactly when they get the same label. */
  lemma CoveringTableAnswerDeterminesCategory(table: map<string, string>, p: string, q: string)
    requires CoversClassifier(table)
    ensures RunWith(table, Some(p)).Success? && RunWith(table, Some(q)).Success?
    ensures RunWith(table, Some(p)).value.answer == RunWith(table, Some(q)).value.answer
      <==> Classify(p) == Classify(q)
  {
    CoveringTableAnswersByCategory(table, p);
    CoveringTableAnswersByCategory(table, q);
    AnswersIdentifyHandler(Classify(p), Classify(q));
  }

  /** The intended table has exactly the classifier's labels as keys, and routes each to its handler. */
  lemma IntendedTableCoversClassifier()
    ensures IntendedDispatchTable.Keys == DeclaredLabels
    ensures CoversClassifier(IntendedDispatchTable)
  {
    forall c: Category
      ensures Routable(IntendedDispatchTable, c)
      ensures RegisteredNodes[IntendedDispatchTable[c.Label()]] == HandlerStep(c)
    {
    }
  }
}
