/** The request state exchanged between the steps of one run.

    The state has three optional fields: the question, its category and
    the answer. Each step returns a partial update. The host merges the
    update with "set these keys" semantics: a key present in the update
    overwrites, and an absent key leaves the field as it was.
 */
module RequestState {
  import opened Options

  /** The closed label vocabulary of the `category` field. */
  datatype Category = Complain | Consult | Other {

    /** The string the label is written as in the state and in the router's output. */
    function Label(): string {
      match this
      case Complain => "complain"
      case Consult => "consult"
      case Other => "other"
    }
  }

  /** The strings the `category` field is annotated to admit. */
  const DeclaredLabels: set<string> := {"complain", "consult", "other"}

  /** Reads a label string back into the vocabulary; any other string has no category. */
  function ParseLabel(s: string): (r: Option<Category>)
    ensures r.Some? <==> s in DeclaredLabels
    ensures r.Some? ==> r.value.Label() == s
  {
    if s == "complain" then Some(Complain)
    else if s == "consult" then Some(Consult)
    else if s == "other" then Some(Other)
    else None
  }

  /** Every label is one of the declared strings, and parsing it gives the label back. */
  lemma LabelRoundTrip(c: Category)
    ensures c.Label() in DeclaredLabels
    ensures ParseLabel(c.Label()) == Some(c)
  {
  }

  /** Distinct labels are written as distinct strings. */
  lemma LabelInjective(c: Category, d: Category)
    ensures c.Label() == d.Label() <==> c == d
  {
  }

  datatype State = State(question: Option<string>, category: Option<Category>, answer: Option<string>)

  /** The state a run starts from: the question only. */
  function Initial(question: Option<string>): (s: State)
    ensures s.question == question
    ensures s.category.None? && s.answer.None?
  {
    State(question, None, None)
  }

  /** A partial update: `Some` marks a key the step returns, `None` a key it leaves out. */
  datatype Update = Update(question: Option<string>, category: Option<Category>, answer: Option<string>)

  const NoChange: Update := Update(None, None, None)

  /** The update sets the category and no other key. */
  predicate SetsOnlyCategory(u: Update) {
    u.category.Some? && u.question.None? && u.answer.None?
  }

  /** The update sets the answer and no other key. */
  predicate SetsOnlyAnswer(u: Update) {
    u.answer.Some? && u.question.None? && u.category.None?
  }

  /** Applies an update: the keys it carries overwrite, the others are untouched. */
  function Merge(s: State, u: Update): (r: State)
    ensures u.question.None? ==> r.question == s.question
    ensures u.category.None? ==> r.category == s.category
    ensures u.answer.None? ==> r.answer == s.answer
    ensures u.question.Some? ==> r.question == u.question
    ensures u.category.Some? ==> r.category == u.category
    ensures u.answer.Some? ==> r.answer == u.answer
  {
    State(
      if u.question.Some? then u.question else s.question,
      if u.category.Some? then u.category else s.category,
      if u.answer.Some? then u.answer else s.answer)
  }

  /** The empty update changes nothing. */
  lemma MergeNoChange(s: State)
    ensures Merge(s, NoChange) == s
  {
  }

  /** Applying the same update twice is the same as applying it once. */
  lemma MergeIdempotent(s: State, u: Update)
    ensures Merge(Merge(s, u), u) == Merge(s, u)
  {
  }
}
