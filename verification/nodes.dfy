/** The steps of the question-routing workflow: the classifier, the three
    answer handlers and the router that names the next step.
 */
module Nodes {
  import opened Options
  import opened Text
  import opened RequestState

  /** Why a run stops without an answer. */
  datatype RunError =
    | InvalidInput                        // the question is absent when the classifier reads it
    | UnroutableCategory(key: Option<string>)  // the router's value is not a key of the dispatch table
    | UnregisteredNode(name: string)      // the dispatch table names a step that was never added

  /** The trigger for complaints ("complaint"); it is checked first. */
  const ComplaintTrigger: string := "投诉"

  /** The trigger for consultations ("consultation"); it is checked second. */
  const ConsultTrigger: string := "咨询"

  const ComplainAnswer: string := "您好！接下来为你解答投诉类问题。"
  const ConsultAnswer: string := "您好！接下来为你解答咨询类问题。"
  const OtherAnswer: string := "抱歉，我暂时无法回答这个问题。"

  /** Labels a question by its first matching trigger in priority order,
      falling back to `Other` when neither trigger occurs. */
  function Classify(question: string): (c: Category)
    ensures c == Complain <==> Occurs(question, ComplaintTrigger)
    ensures c == Consult <==> !Occurs(question, ComplaintTrigger) && Occurs(question, ConsultTrigger)
    ensures c == Other <==> !Occurs(question, ComplaintTrigger) && !Occurs(question, ConsultTrigger)
  {
    ContainsIffOccurs(question, ComplaintTrigger);
    ContainsIffOccurs(question, ConsultTrigger);
    if Contains(question, ComplaintTrigger) then Complain
    else if Contains(question, ConsultTrigger) then Consult
    else Other
  }

  /** The classifier step: reads the question and returns the category as a
      partial update. A missing question is an error, since the substring
      test cannot be applied to it. */
  function ClassifyQuestion(s: State): (r: Result<Update, RunError>)
    ensures r.Failure? <==> s.question.None?
    ensures r.Failure? ==> r.error == InvalidInput
    ensures r.Success? ==> SetsOnlyCategory(r.value)
    ensures r.Success? ==> r.value.category == Some(Classify(s.question.value))
  {
    match s.question
    case None => Failure(InvalidInput)
    case Some(q) => Success(Update(None, Some(Classify(q)), None))
  }

  /** The complaint trigger wins wherever it appears, even after a consultation trigger. */
  lemma ComplaintHasPriority(before: string, middle: string, after: string)
    ensures Classify(before + ComplaintTrigger + after) == Complain
    ensures Classify(before + ConsultTrigger + middle + ComplaintTrigger + after) == Complain
  {
    OccursInside(before, ComplaintTrigger, after);
    OccursInside(before + ConsultTrigger + middle, ComplaintTrigger, after);
  }

  /** A question with the consultation trigger and without the complaint trigger is a consultation. */
  lemma ConsultationWithoutComplaint(before: string, after: string)
    requires !Occurs(before + ConsultTrigger + after, ComplaintTrigger)
    ensures Classify(before + ConsultTrigger + after) == Consult
  {
    OccursInside(before, ConsultTrigger, after);
  }

  /** The empty question has no trigger and falls back to `Other`. */
  lemma EmptyQuestionIsOther()
    ensures Classify([]) == Other
  {
    NothingOccursInEmpty(ComplaintTrigger);
    NothingOccursInEmpty(ConsultTrigger);
  }

  /** The complaint handler: a fixed acknowledgement. */
  function HandleComplain(s: State): (u: Update)
    ensures SetsOnlyAnswer(u)
  {
    Update(None, None, Some(ComplainAnswer))
  }

  /** The consultation handler: a fixed acknowledgement. */
  function HandleConsult(s: State): (u: Update)
    ensures SetsOnlyAnswer(u)
  {
    Update(None, None, Some(ConsultAnswer))
  }

  /** The fallback handler: a fixed apology. */
  function HandleOther(s: State): (u: Update)
    ensures SetsOnlyAnswer(u)
  {
    Update(None, None, Some(OtherAnswer))
  }

  /** The answer each category's handler gives. */
  function AnswerFor(c: Category): string {
    match c
    case Complain => ComplainAnswer
    case Consult => ConsultAnswer
    case Other => OtherAnswer
  }

  /** No handler looks at the state it is given: its answer is the same for every question. */
  lemma HandlersIgnoreState(s: State, t: State)
    ensures HandleComplain(s) == HandleComplain(t)
    ensures HandleConsult(s) == HandleConsult(t)
    ensures HandleOther(s) == HandleOther(t)
    ensures HandleComplain(s).answer == Some(AnswerFor(Complain))
    ensures HandleConsult(s).answer == Some(AnswerFor(Consult))
    ensures HandleOther(s).answer == Some(AnswerFor(Other))
  {
  }

  /** The three answers are pairwise different, so an answer tells which handler gave it. */
  lemma AnswersIdentifyHandler(c: Category, d: Category)
    ensures AnswerFor(c) == AnswerFor(d) <==> c == d
  {
    if c != d {
      // the two acknowledgements first differ at index 10; the apology differs from both at index 0
      assert AnswerFor(c)[0] != AnswerFor(d)[0] || AnswerFor(c)[10] != AnswerFor(d)[10];
    }
  }

  /** The router: passes the stored category on, as its label string. */
  function DecideNextNode(s: State): (r: Option<string>)
    ensures r.Some? <==> s.category.Some?
    ensures r.Some? ==> ParseLabel(r.value) == s.category
  {
    match s.category
    case None => None
    case Some(c) => LabelRoundTrip(c); Some(c.Label())
  }
}
