/**
 * The feedback chat of FeedbackModal.jsx. A first message is analysed into clarifying questions,
 * the answer to them is summarised, and a confirmation queues the feedback on the server.
 * `workflowState` runs idle, analyzing, questions, summarizing, confirmed, queued, with edges back
 * on errors and a reset on close.
 *
 * Each handler that awaits a request is split at the `await`. `SendMessage` does what happens
 * before it and returns the request it started; `CompleteAnalysis` and `CompleteSummary` do what
 * happens when the answer (or the error) arrives, whatever happened in between. The language
 * model's answers are parameters.
 */
module FeedbackWorkflow {
  import opened Wrappers
  import opened Knowledge
  import opened JsText

  datatype WorkflowState = Idle | Analyzing | Questions | Summarizing | Confirmed | Queued

  datatype Role = User | Assistant

  /** What a message carries besides its text: nothing, the loading flag of a placeholder, the
      questions, the confirmation prompt or the close button. */
  datatype Extra = Plain | Placeholder | Asks(questions: seq<string>) | Confirmation | QueueButton

  datatype Message = Message(role: Role, content: string, extra: Extra)

  /** What the workflow has collected. */
  datatype FeedbackData = FeedbackData(
    originalFeedback: string,
    questions: seq<string>,
    answers: seq<string>,
    summary: string,
    title: string)

  const EmptyData := FeedbackData("", [], [], "", "")

  /** The analysis answer: an introduction, the questions and, possibly, a title. */
  datatype QuestionsReply = QuestionsReply(intro: string, questions: seq<string>, title: Option<string>)

  /** A request a send started: none, an analysis of the feedback, or a summary of the answers. */
  datatype Request =
    | NoRequest
    | Analyze(feedback: string)
    | Summarize(originalFeedback: string, questions: seq<string>, answers: seq<string>)

  const AnalysingText := "Analysing..."
  const SummarizingText := "Summarizing..."
  const AnalyzeErrorText := "Error analyzing feedback. Please try again."
  const SummarizeErrorText := "Error summarizing. Please try again."
  const QueuedText := "Feedback queued successfully."
  const QueueFailedText := "Failed to queue feedback."
  const TitlePrefix := "Update: "
  /** How many characters of the feedback a default title keeps. */
  const TitleChars := 50

  /** `trim()`: the text without white space at either end. It is empty exactly when the text is
      all white space; otherwise it starts and ends with a character that is not white space and is
      the part of the text between white-space runs. */
  function Trim(s: string): (r: string)
    ensures r == "" <==> forall j :: 0 <= j < |s| ==> IsSpace(s[j])
    ensures r != "" ==> !IsSpace(r[0]) && !IsSpace(r[|r| - 1])
    ensures exists a, b ::
              && 0 <= a <= b <= |s| && r == s[a..b]
              && (forall j :: 0 <= j < a ==> IsSpace(s[j])) && (forall j :: b <= j < |s| ==> IsSpace(s[j]))
  {
    var a := LeadingSpaces(s);
    SuffixSpaces(s, a);
    TrimEmpty(s);
    s[a..|s| - TrailingSpaces(s[a..])]
  }

  /** White space at the end of the suffix of `s` that starts at `a` is white space at the end of `s`. */
  lemma SuffixSpaces(s: string, a: nat)
    requires a <= |s|
    ensures forall j :: |s| - TrailingSpaces(s[a..]) <= j < |s| ==> IsSpace(s[j])
    ensures a < |s| - TrailingSpaces(s[a..]) ==> !IsSpace(s[|s| - TrailingSpaces(s[a..]) - 1])
  {
    var t := s[a..];
    var k := TrailingSpaces(t);
    forall j | |s| - k <= j < |s|
      ensures IsSpace(s[j])
    {
      assert s[j] == t[j - a];
    }
    if k < |t| {
      assert s[|s| - 1 - k] == t[|t| - 1 - k];
    }
  }

  /** The trimmed text is empty exactly when all of `s` is white space. */
  lemma TrimEmpty(s: string)
    ensures var a := LeadingSpaces(s);
      a == |s| - TrailingSpaces(s[a..]) <==> forall j :: 0 <= j < |s| ==> IsSpace(s[j])
  {
    var a := LeadingSpaces(s);
    var t := s[a..];
    if a < |s| {
      assert t[0] == s[a];
      assert TrailingSpaces(t) < |t|;
    }
  }

  /** The messages without the loading placeholders, in order. */
  function WithoutPlaceholders(ms: seq<Message>): (r: seq<Message>)
    ensures |r| <= |ms|
    ensures forall k :: 0 <= k < |r| ==> !r[k].extra.Placeholder? && r[k] in ms
    ensures forall m :: m in ms && !m.extra.Placeholder? ==> m in r
  {
    if ms == [] then []
    else (if ms[0].extra.Placeholder? then [] else [ms[0]]) + WithoutPlaceholders(ms[1..])
  }

  /** The filter keeps the other messages in order: it distributes over concatenation. */
  lemma {:induction false} WithoutPlaceholdersAppend(a: seq<Message>, b: seq<Message>)
    ensures WithoutPlaceholders(a + b) == WithoutPlaceholders(a) + WithoutPlaceholders(b)
  {
    if a == [] {
      assert a + b == b;
    } else {
      assert (a + b)[1..] == a[1..] + b;
      WithoutPlaceholdersAppend(a[1..], b);
    }
  }

  /** Without placeholders, the filter keeps every message in place. */
  lemma {:induction false} NoPlaceholderKept(ms: seq<Message>)
    requires forall k :: 0 <= k < |ms| ==> !ms[k].extra.Placeholder?
    ensures WithoutPlaceholders(ms) == ms
  {
    if ms != [] {
      NoPlaceholderKept(ms[1..]);
      assert [ms[0]] + ms[1..] == ms;
    }
  }

  /** The title of the feedback: the analysis title if it has one, otherwise "Update: ", the first
      fifty characters of the feedback and an ellipsis. */
  function TitleFor(reply: QuestionsReply, feedback: string): (t: string)
    ensures reply.title.Some? && reply.title.value != "" ==> t == reply.title.value
    ensures !(reply.title.Some? && reply.title.value != "") ==>
      && |t| == |TitlePrefix| + (if |feedback| < TitleChars then |feedback| else TitleChars) + 3
      && t[..|TitlePrefix|] == TitlePrefix
      && feedback[..|t| - |TitlePrefix| - 3] == t[|TitlePrefix|..|t| - 3]
  {
    if reply.title.Some? && reply.title.value != "" then reply.title.value
    else TitlePrefix + feedback[..if |feedback| < TitleChars then |feedback| else TitleChars] + "..."
  }

  /** The item a confirmation posts to the queue: the collected fields, status "pending". */
  function QueueBody(d: FeedbackData, createdAt: string): (item: FeedbackItem)
    ensures item.status == "pending" && item.id.None?
    ensures item.title == d.title && item.feedback == d.originalFeedback && item.summary == d.summary
    ensures item.questions == d.questions && item.answers == d.answers && item.createdAt == createdAt
  {
    FeedbackItem(None, d.title, d.originalFeedback, d.questions, d.answers, d.summary, "pending", createdAt, "")
  }

  class FeedbackChat {
    var state: WorkflowState
    var messages: seq<Message>
    var input: string
    var isLoading: bool
    var data: FeedbackData

    /** A fresh modal: idle, with nothing typed and nothing collected. */
    constructor ()
      ensures state == Idle && messages == [] && input == "" && !isLoading && data == EmptyData
    {
      state := Idle;
      messages := [];
      input := "";
      isLoading := false;
      data := EmptyData;
    }

    /** The text area accepts input unless a request is running or the feedback is queued. */
    predicate InputEnabled()
      reads this
    {
      !isLoading && state != Queued
    }

    /** The text area's change handler. */
    method Type(text: string)
      modifies this`input
      ensures input == text
    {
      input := text;
    }

    /** `handleSendMessage` up to its `await`. A blank input, or a send while a request is running,
        changes nothing. Otherwise the trimmed text is added as a user message and the input
        cleared; from idle it is the feedback to analyse, from questions it is the answer to
        summarise, and in any other state nothing else happens. */
    method SendMessage() returns (req: Request)
      modifies this`input, this`messages, this`state, this`isLoading, this`data
      ensures Trim(old(input)) == "" || old(isLoading) ==>
        && req == NoRequest && input == old(input) && messages == old(messages) && state == old(state)
        && isLoading == old(isLoading) && data == old(data)
      ensures !(Trim(old(input)) == "" || old(isLoading)) ==>
        var msg := Trim(old(input));
        var user := Message(User, msg, Plain);
        && input == ""
        && (old(state) == Idle ==>
             && state == Analyzing && isLoading && req == Analyze(msg)
             && data == old(data).(originalFeedback := msg)
             && messages == old(messages) + [user, Message(Assistant, AnalysingText, Placeholder)])
        && (old(state) == Questions ==>
             && state == Summarizing && isLoading
             && req == Summarize(old(data).originalFeedback, old(data).questions, old(data).answers + [msg])
             && data == old(data).(answers := old(data).answers + [msg])
             && messages == old(messages) + [user, Message(Assistant, SummarizingText, Placeholder)])
        && (old(state) != Idle && old(state) != Questions ==>
             && state == old(state) && req == NoRequest && isLoading == old(isLoading) && data == old(data)
             && messages == old(messages) + [user])
    {
      var msg := Trim(input);
      if msg == "" || isLoading {
        return NoRequest;
      }
      input := "";
      messages := messages + [Message(User, msg, Plain)];
      if state == Idle {
        state := Analyzing;
        isLoading := true;
        data := data.(originalFeedback := msg);
        messages := messages + [Message(Assistant, AnalysingText, Placeholder)];
        req := Analyze(msg);
      } else if state == Questions {
        state := Summarizing;
        isLoading := true;
        var answers := data.answers + [msg];
        req := Summarize(data.originalFeedback, data.questions, answers);
        data := data.(answers := answers);
        messages := messages + [Message(Assistant, SummarizingText, Placeholder)];
      } else {
        req := NoRequest;
      }
    }

    /** The end of the analysis of `feedback`: the placeholder goes; on success the questions are
        shown and recorded with the title and the state is questions, on an error the error is shown
        and the state is back to idle. The request stops loading either way. */
    method CompleteAnalysis(feedback: string, reply: Option<QuestionsReply>)
      modifies this`messages, this`state, this`isLoading, this`data
      ensures !isLoading
      ensures forall k :: 0 <= k < |messages| ==> !messages[k].extra.Placeholder?
      ensures reply.Some? ==>
        && state == Questions
        && messages == WithoutPlaceholders(old(messages)) + [Message(Assistant, reply.value.intro, Asks(reply.value.questions))]
        && data == old(data).(questions := reply.value.questions, title := TitleFor(reply.value, feedback))
      ensures reply.None? ==>
        && state == Idle && data == old(data)
        && messages == WithoutPlaceholders(old(messages)) + [Message(Assistant, AnalyzeErrorText, Plain)]
    {
      if reply.Some? {
        messages := WithoutPlaceholders(messages) + [Message(Assistant, reply.value.intro, Asks(reply.value.questions))];
        data := data.(questions := reply.value.questions, title := TitleFor(reply.value, feedback));
        state := Questions;
      } else {
        messages := WithoutPlaceholders(messages) + [Message(Assistant, AnalyzeErrorText, Plain)];
        state := Idle;
      }
      isLoading := false;
    }

    /** The end of the summary of `answers`: the placeholder goes; on success the summary is shown
        with the confirmation prompt, recorded with the answers, and the state is confirmed; on an
        error the state is back to questions. */
    method CompleteSummary(answers: seq<string>, reply: Option<string>)
      modifies this`messages, this`state, this`isLoading, this`data
      ensures !isLoading
      ensures forall k :: 0 <= k < |messages| ==> !messages[k].extra.Placeholder?
      ensures reply.Some? ==>
        && state == Confirmed
        && messages == WithoutPlaceholders(old(messages)) + [Message(Assistant, reply.value, Confirmation)]
        && data == old(data).(summary := reply.value, answers := answers)
      ensures reply.None? ==>
        && state == Questions && data == old(data)
        && messages == WithoutPlaceholders(old(messages)) + [Message(Assistant, SummarizeErrorText, Plain)]
    {
      if reply.Some? {
        messages := WithoutPlaceholders(messages) + [Message(Assistant, reply.value, Confirmation)];
        data := data.(summary := reply.value, answers := answers);
        state := Confirmed;
      } else {
        messages := WithoutPlaceholders(messages) + [Message(Assistant, SummarizeErrorText, Plain)];
        state := Questions;
      }
      isLoading := false;
    }

    /** `handleConfirmYes`: the collected feedback is posted to the queue with status "pending";
        `accepted` is whether the server took it. On success the exchange is recorded and the state
        is queued, which disables the input; on failure only the failure is shown and the state
        stays. */
    method ConfirmYes(createdAt: string, accepted: bool) returns (posted: FeedbackItem)
      modifies this`messages, this`state, this`isLoading
      ensures posted == QueueBody(data, createdAt) && data == old(data)
      ensures !isLoading
      ensures accepted ==>
        && state == Queued && !InputEnabled()
        && messages == old(messages) + [Message(User, "Yes", Plain), Message(Assistant, QueuedText, QueueButton)]
      ensures !accepted ==>
        && state == old(state)
        && messages == old(messages) + [Message(Assistant, QueueFailedText, Plain)]
    {
      isLoading := true;
      posted := QueueBody(data, createdAt);
      if accepted {
        messages := messages + [Message(User, "Yes", Plain), Message(Assistant, QueuedText, QueueButton)];
        state := Queued;
      } else {
        messages := messages + [Message(Assistant, QueueFailedText, Plain)];
      }
      isLoading := false;
    }

    /** `handleClose`: back to idle with no messages, no input and nothing collected. A request
        still running keeps its loading flag. */
    method Close()
      modifies this`messages, this`state, this`input, this`data
      ensures state == Idle && messages == [] && input == "" && data == EmptyData
    {
      state := Idle;
      messages := [];
      input := "";
      data := EmptyData;
    }
  }
}
