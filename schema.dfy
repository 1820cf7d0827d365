/**
 * The request/response records of the gift questionnaire and the dict
 * projections that `Question` and `QuestionResponse` define.
 */
module Schema {
  import opened Wrappers
  import opened Json

  /** One suggested gift. */
  datatype GiftItem = GiftItem(
    emoji: string,
    title: string,
    description: string,
    priceRange: string,
    category: string)

  /** A summary of the recipient plus the suggested gifts, in order. */
  datatype GiftSuggestion = GiftSuggestion(summary: string, suggestions: seq<GiftItem>)

  /** One question of the flow and the placeholder text shown in its input. */
  datatype Question = Question(question: string, placeholder: string)

  /** The ordered question set generated for one recipient. */
  datatype QuestionResponse = QuestionResponse(questions: seq<Question>)

  /** `Question.dict()`: an object with exactly the keys `question` and `placeholder`. */
  function QuestionDict(q: Question): (j: Value)
    ensures j.JObject? && j.fields.Keys == {"question", "placeholder"}
    ensures j.fields["question"] == JStr(q.question)
    ensures j.fields["placeholder"] == JStr(q.placeholder)
  {
    JObject(map["question" := JStr(q.question), "placeholder" := JStr(q.placeholder)])
  }

  /** The list comprehension `[q.dict() for q in questions]`. */
  function QuestionDicts(qs: seq<Question>): (ds: seq<Value>)
    ensures |ds| == |qs|
    ensures forall i | 0 <= i < |qs| :: ds[i] == QuestionDict(qs[i])
  {
    if qs == [] then [] else [QuestionDict(qs[0])] + QuestionDicts(qs[1..])
  }

  /**
   * `QuestionResponse.dict()`: an object with the single key `questions`,
   * holding one question object per question, in the same order.
   */
  function ResponseDict(r: QuestionResponse): (j: Value)
    ensures j.JObject? && j.fields.Keys == {"questions"}
    ensures j.fields["questions"].JList?
    ensures |j.fields["questions"].items| == |r.questions|
    ensures forall i | 0 <= i < |r.questions| ::
      j.fields["questions"].items[i] == QuestionDict(r.questions[i])
  {
    JObject(map["questions" := JList(QuestionDicts(r.questions))])
  }

  /** Reading a question object back, as `Question(**d)` does; None where validation fails. */
  function QuestionOfDict(j: Value): Option<Question> {
    if j.JObject? && "question" in j.fields && "placeholder" in j.fields
       && j.fields["question"].JStr? && j.fields["placeholder"].JStr?
    then Some(Question(j.fields["question"].s, j.fields["placeholder"].s))
    else None
  }

  function QuestionsOfDicts(ds: seq<Value>): Option<seq<Question>> {
    if ds == [] then Some([])
    else
      match (QuestionOfDict(ds[0]), QuestionsOfDicts(ds[1..]))
      case (Some(q), Some(qs)) => Some([q] + qs)
      case _ => None
  }

  /** Reading a response object back; None where validation fails. */
  function ResponseOfDict(j: Value): Option<QuestionResponse> {
    if j.JObject? && "questions" in j.fields && j.fields["questions"].JList? then
      match QuestionsOfDicts(j.fields["questions"].items)
      case Some(qs) => Some(QuestionResponse(qs))
      case None => None
    else None
  }

  /** A question survives its dict projection. */
  lemma QuestionRoundTrip(q: Question)
    ensures QuestionOfDict(QuestionDict(q)) == Some(q)
  {
  }

  /** The list of question objects reads back as the same questions, in order. */
  lemma {:induction false} QuestionsRoundTrip(qs: seq<Question>)
    ensures QuestionsOfDicts(QuestionDicts(qs)) == Some(qs)
  {
    if qs != [] {
      var ds := QuestionDicts(qs);
      assert ds[1..] == QuestionDicts(qs[1..]);
      QuestionsRoundTrip(qs[1..]);
      QuestionRoundTrip(qs[0]);
      assert [qs[0]] + qs[1..] == qs;
    }
  }

  /** A response survives its dict projection: nothing is lost, reordered or added. */
  lemma ResponseRoundTrip(r: QuestionResponse)
    ensures ResponseOfDict(ResponseDict(r)) == Some(r)
  {
    QuestionsRoundTrip(r.questions);
  }
}
