/**
 * The AI backend (backend/main.py): the two prompt templates, the flattening of
 * the place-details dictionary, the joining of reviews, and the extraction of
 * the model's answer from the Ollama reply. The HTTP call in between is not
 * modelled; the reply body is an input here.
 */
module Backend {
  import opened Wrappers
  import Text

  /** A JSON value as Python sees it after decoding a request or reply body. */
  datatype PyValue =
    | PyNone
    | PyBool(b: bool)
    | PyStr(s: string)
    /** Any other value (number, list, object), carried with the text `str()` gives it. */
    | PyRendered(shown: string)

  /** `str(v)`, which is what an f-string substitutes for `{v}`. */
  function Show(v: PyValue): string {
    match v
    case PyNone => "None"
    case PyBool(b) => if b then "True" else "False"
    case PyStr(s) => s
    case PyRendered(t) => t
  }

  /** A Python dict, as its items in iteration (insertion) order. */
  type Entries = seq<(string, PyValue)>

  datatype SummarizeRequest = SummarizeRequest(placeName: string, reviews: seq<string>)

  datatype QaRequest = QaRequest(
    placeName: string, reviews: seq<string>, question: string, placeDetails: Entries)

  /** Why a route fails after the backend has replied: `.strip()` on a value that is not a string. */
  datatype ReplyError = ResponseNotAString(found: PyValue)

  const Newline: string := "\n"

  // ---------------------------------------------------------------------------
  // Place details: `"\n".join([f"{k}: {v}" for k, v in d.items() if v is not None])`
  // ---------------------------------------------------------------------------

  /** The items whose value is not `None`, in their original order. */
  function Kept(d: Entries): Entries
    decreases |d|
  {
    if d == [] then []
    else (if d[0].1 == PyNone then [] else [d[0]]) + Kept(d[1..])
  }

  /** One line of the flattened details. */
  function RenderEntry(e: (string, PyValue)): string {
    e.0 + ": " + Show(e.1)
  }

  /** The lines of the flattened details, one per kept item. */
  function DetailLines(d: Entries): (lines: seq<string>)
    ensures |lines| == |Kept(d)|
  {
    var k := Kept(d);
    seq(|k|, i requires 0 <= i < |k| => RenderEntry(k[i]))
  }

  /** The details block of the question-answering prompt. */
  function FlattenDetails(d: Entries): string {
    Text.Join(DetailLines(d), Newline)
  }

  /** An item is kept exactly when it occurs in the dict with a value other than `None`. */
  lemma {:induction false} KeptMembers(d: Entries, e: (string, PyValue))
    ensures e in Kept(d) <==> e in d && e.1 != PyNone
    decreases |d|
  {
    if d != [] {
      KeptMembers(d[1..], e);
      assert d == [d[0]] + d[1..];
    }
  }

  /** Filtering distributes over concatenation, so kept items keep their relative order. */
  lemma {:induction false} KeptAppend(a: Entries, b: Entries)
    ensures Kept(a + b) == Kept(a) + Kept(b)
    decreases |a|
  {
    if a == [] {
      assert a + b == b;
    } else {
      assert (a + b)[0] == a[0];
      assert (a + b)[1..] == a[1..] + b;
      KeptAppend(a[1..], b);
    }
  }

  /** With no `None` value, every item is kept. */
  lemma {:induction false} KeptAllWhenNoNone(d: Entries)
    requires forall i :: 0 <= i < |d| ==> d[i].1 != PyNone
    ensures Kept(d) == d
    decreases |d|
  {
    if d != [] {
      KeptAllWhenNoNone(d[1..]);
    }
  }

  /** An empty dict, or one whose every value is `None`, flattens to the empty string. */
  lemma {:induction false} FlattenEmptyWhenAllNone(d: Entries)
    requires forall i :: 0 <= i < |d| ==> d[i].1 == PyNone
    ensures Kept(d) == []
    ensures FlattenDetails(d) == ""
    decreases |d|
  {
    if d != [] {
      FlattenEmptyWhenAllNone(d[1..]);
    }
  }

  /**
   * When no rendered line itself contains a newline, splitting the flattened text
   * at newlines gives back exactly one `key: value` line per kept item, in order.
   */
  lemma FlattenSplitsIntoLines(d: Entries)
    requires Kept(d) != []
    requires forall i :: 0 <= i < |Kept(d)| ==> '\n' !in RenderEntry(Kept(d)[i])
    ensures var lines := Text.Split(FlattenDetails(d), '\n');
      |lines| == |Kept(d)| &&
      forall i :: 0 <= i < |lines| ==>
        lines[i] == Kept(d)[i].0 + ": " + Show(Kept(d)[i].1)
  {
    Text.SplitJoin(DetailLines(d), '\n');
  }

  /** The flattened text ends with the last kept line: there is no trailing newline. */
  lemma FlattenEndsWithLastLine(d: Entries)
    requires Kept(d) != []
    ensures var f := FlattenDetails(d); var last := RenderEntry(Kept(d)[|Kept(d)| - 1]);
      |last| <= |f| && f[|f| - |last|..] == last
  {
    Text.JoinEndsWithLast(DetailLines(d), Newline);
  }

  // ---------------------------------------------------------------------------
  // Reviews: `"\n".join(req.reviews)`
  // ---------------------------------------------------------------------------

  function JoinReviews(reviews: seq<string>): string {
    Text.Join(reviews, Newline)
  }

  /** No reviews give the empty string; one review gives that review. */
  lemma JoinReviewsSmall(reviews: seq<string>)
    ensures reviews == [] ==> JoinReviews(reviews) == ""
    ensures |reviews| == 1 ==> JoinReviews(reviews) == reviews[0]
  {
  }

  /** Reviews without newlines can be read back from the joined text, in input order. */
  lemma JoinReviewsRoundTrip(reviews: seq<string>)
    requires reviews != []
    requires forall i :: 0 <= i < |reviews| ==> '\n' !in reviews[i]
    ensures Text.Split(JoinReviews(reviews), '\n') == reviews
  {
    Text.SplitJoin(reviews, '\n');
  }

  /** Appending a review appends a newline and that review. */
  lemma JoinReviewsAppend(reviews: seq<string>, r: string)
    requires reviews != []
    ensures JoinReviews(reviews + [r]) == JoinReviews(reviews) + "\n" + r
  {
    Text.JoinSnoc(reviews, r, Newline);
  }

  // ---------------------------------------------------------------------------
  // Prompt templates (PROMPT_TEMPLATE and QA_PROMPT_TEMPLATE)
  // ---------------------------------------------------------------------------

  const SummaryHead: string := "Summarize all the user reviews for "

  const SummaryInstructions: string :=
    " from Google Maps. Your summary should:\n"
    + "- Accurately reflect both positive and negative feedback, giving a balanced view of the overall sentiment.\n"
    + "- Highlight the most frequently mentioned aspects (such as service, cleanliness, ambiance, location, value, etc.), noting both strengths and weaknesses.\n"
    + "- Mention if there are any notable trends or changes in reviews over time (for example, improvements or declines).\n"
    + "- Emphasize any reviews or themes that many people agree with or find relatable.\n"
    + "- Write clearly and concisely, making the summary easy to understand for someone who has not read the reviews.\n"
    + "- Avoid adding information not present in the reviews.\n"
    + "- Structure your summary so a new visitor can quickly grasp the general feeling and key points about the place.\n"
    + "- Do NOT use any Markdown, asterisks, bullet points, or formatting symbols.\n"
    + "- Write in clean, well-structured paragraphs only.\n"
    + "- Split the summary into short, clear paragraphs with line breaks between them.\n"
    + "- Keep the summary concise and not too long; users prefer brief, easy-to-read text.\n"

  const ReviewsLabel: string := "\nReviews:\n"
  const SummaryCue: string := "\n\nSummary:"

  const QaHead: string :=
    "You are Atlas, an expert AI assistant for Google Maps users.\n"
    + "You are given information about "

  const QaInstructions: string :=
    " including customer reviews and place details.\n"
    + "Answer the user's question using the information provided.\n"
    + "If the answer is not in the provided information, say you couldn't find that information.\n"
    + "Write your answer in a clear, conversational style with proper line breaks for readability.\n"
    + "Do NOT use any Markdown, bullet points, or formatting symbols.\n"

  const DetailsLabel: string := "\nPlace Details:\n"
  /** Everything between the place name and the details in the question-answering template. */
  const QaBeforeDetails: string := QaInstructions + DetailsLabel
  const QaReviewsLabel: string := "\n\nReviews:\n"
  const QuestionLabel: string := "\n\nQuestion: "
  const AnswerCue: string := "\n\nAnswer:"

  /** `PROMPT_TEMPLATE.format(place_name=name, reviews=reviews)`. */
  function SummaryTemplate(name: string, reviews: string): string {
    SummaryHead + name + SummaryInstructions + ReviewsLabel + reviews + SummaryCue
  }

  /**
   * `QA_PROMPT_TEMPLATE.format(place_name=name, place_details=details,
   * reviews=reviews, question=question)`.
   */
  function QaTemplate(name: string, details: string, reviews: string, question: string): string {
    QaHead + name + QaBeforeDetails + details
      + QaReviewsLabel + reviews + QuestionLabel + question + AnswerCue
  }

  /** The prompt of the summarize route. */
  function SummaryPrompt(req: SummarizeRequest): string {
    SummaryTemplate(req.placeName, JoinReviews(req.reviews))
  }

  /** The prompt of the question-answering route. */
  function QaPrompt(req: QaRequest): string {
    QaTemplate(req.placeName, FlattenDetails(req.placeDetails), JoinReviews(req.reviews), req.question)
  }

  /** The summary prompt begins with the request line naming the place. */
  lemma SummaryPromptStart(name: string, reviews: string)
    ensures var p := SummaryTemplate(name, reviews);
      var head := "Summarize all the user reviews for " + name;
      |head| <= |p| && p[..|head|] == head
  {
  }

  /** The summary prompt ends with the reviews block followed by the cue for the summary. */
  lemma SummaryPromptEnd(name: string, reviews: string)
    ensures var p := SummaryTemplate(name, reviews);
      var tail := "\nReviews:\n" + reviews + "\n\nSummary:";
      |tail| <= |p| && p[|p| - |tail|..] == tail
  {
  }

  /**
   * The question-answering prompt holds the place name, then the details block, then
   * the reviews block, then the question, each at a fixed position after the texts
   * before it.
   */
  lemma QaPromptLayout(name: string, details: string, reviews: string, question: string)
    ensures var p := QaTemplate(name, details, reviews, question);
      var n := |QaHead|;
      var d := n + |name| + |QaBeforeDetails|;
      var r := d + |details| + |QaReviewsLabel|;
      var q := r + |reviews| + |QuestionLabel|;
      q + |question| + |AnswerCue| == |p|
      && p[n..n + |name|] == name
      && p[d..d + |details|] == details
      && p[r..r + |reviews|] == reviews
      && p[q..q + |question|] == question
  {
    Layout(QaHead, name, QaBeforeDetails, details, QaReviewsLabel, reviews, QuestionLabel, question, AnswerCue);
  }

  /** The question-answering prompt ends with the question line and the cue for the answer. */
  lemma QaPromptEndsWithQuestion(name: string, details: string, reviews: string, question: string)
    ensures var p := QaTemplate(name, details, reviews, question);
      var tail := "Question: " + question + "\n\nAnswer:";
      |tail| <= |p| && p[|p| - |tail|..] == tail
  {
  }

  /**
   * The summarize route fills the place name into the name slot and the joined
   * reviews into the reviews slot.
   */
  lemma SummaryPromptOfRequest(req: SummarizeRequest)
    ensures var p := SummaryPrompt(req);
      var head := SummaryHead + req.placeName;
      var tail := ReviewsLabel + JoinReviews(req.reviews) + SummaryCue;
      |head| + |tail| <= |p| && p[..|head|] == head && p[|p| - |tail|..] == tail
  {
    var reviews := JoinReviews(req.reviews);
    SummaryPromptStart(req.placeName, reviews);
    SummaryPromptEnd(req.placeName, reviews);
    assert |SummaryTemplate(req.placeName, reviews)|
      == |SummaryHead + req.placeName| + |SummaryInstructions| + |ReviewsLabel + reviews + SummaryCue|;
  }

  /**
   * The question-answering route fills the place name, the flattened details, the
   * joined reviews and the question into their own slots, in that order, and the
   * prompt ends with the question line and the answer cue.
   */
  lemma QaPromptOfRequest(req: QaRequest)
    ensures var p := QaPrompt(req);
      var details := FlattenDetails(req.placeDetails);
      var reviews := JoinReviews(req.reviews);
      var n := |QaHead|;
      var d := n + |req.placeName| + |QaBeforeDetails|;
      var r := d + |details| + |QaReviewsLabel|;
      var q := r + |reviews| + |QuestionLabel|;
      var tail := "Question: " + req.question + "\n\nAnswer:";
      q + |req.question| + |AnswerCue| == |p|
      && p[n..n + |req.placeName|] == req.placeName
      && p[d..d + |details|] == details
      && p[r..r + |reviews|] == reviews
      && p[q..q + |req.question|] == req.question
      && |tail| <= |p| && p[|p| - |tail|..] == tail
  {
    var details := FlattenDetails(req.placeDetails);
    var reviews := JoinReviews(req.reviews);
    QaPromptLayout(req.placeName, details, reviews, req.question);
    QaPromptEndsWithQuestion(req.placeName, details, reviews, req.question);
  }

  /** Where the four substituted texts sit in a template filled in with them. */
  lemma Layout(pre: string, name: string, mid: string, details: string, rl: string,
               reviews: string, ql: string, question: string, cue: string)
    ensures var p := pre + name + mid + details + rl + reviews + ql + question + cue;
      var d := |pre| + |name| + |mid|;
      var r := d + |details| + |rl|;
      var q := r + |reviews| + |ql|;
      q + |question| + |cue| == |p|
      && p[|pre|..|pre| + |name|] == name
      && p[d..d + |details|] == details
      && p[r..r + |reviews|] == reviews
      && p[q..q + |question|] == question
  {
  }

  // ---------------------------------------------------------------------------
  // Reply: `response.json().get("response", "").strip()`
  // ---------------------------------------------------------------------------

  /**
   * The text returned to the client, given the decoded reply body: the `response`
   * field with surrounding whitespace stripped, `""` when the field is absent, and
   * an error when the field holds something other than a string.
   */
  function ReplyText(body: map<string, PyValue>): (r: Result<string, ReplyError>)
    ensures "response" !in body ==> r == Success("")
    ensures "response" in body && body["response"].PyStr? ==>
      r == Success(Text.Strip(body["response"].s, Text.PyWhitespace))
    ensures "response" in body && !body["response"].PyStr? ==>
      r == Failure(ResponseNotAString(body["response"]))
  {
    var field := if "response" in body then body["response"] else PyStr("");
    match field
    case PyStr(s) => Success(Text.Strip(s, Text.PyWhitespace))
    case _ => Failure(ResponseNotAString(field))
  }

  /** A successful reply text neither starts nor ends with whitespace and is already stripped. */
  lemma ReplyTextIsStripped(body: map<string, PyValue>)
    requires ReplyText(body).Success?
    ensures var t := ReplyText(body).value;
      (t == [] || (t[0] !in Text.PyWhitespace && t[|t| - 1] !in Text.PyWhitespace))
      && Text.Strip(t, Text.PyWhitespace) == t
  {
    var t := ReplyText(body).value;
    if "response" in body {
      Text.StripIdempotent(body["response"].s, Text.PyWhitespace);
    }
  }

  /** A reply text is empty exactly when the field is absent or holds only whitespace. */
  lemma ReplyTextEmptyIff(body: map<string, PyValue>)
    requires ReplyText(body).Success?
    ensures ReplyText(body).value == "" <==>
      ("response" !in body || Text.AllIn(body["response"].s, Text.PyWhitespace))
  {
  }
}
