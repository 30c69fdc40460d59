/** The lesson-step state machine of the tutor app (class `AILesson` in
    app.py): a step counter and the list of recorded answers over the
    ordered steps of one lesson. */
module Lesson {
  import opened Maybe
  import MockReply

  /** A key of a JSON object as `dict.get(key, default)` sees it: absent
      (the default is used), present with JSON null (None comes back), or
      present with a string. */
  datatype Field = Missing | Null | Present(text: string)

  /** One lesson step. `aiRole` and `instructions` only feed the external
      AI request, which is outside this model. */
  datatype Step = Step(prompt: Field, aiRole: Option<string>, instructions: Option<string>)

  /** One lesson of the content file. A missing "steps" key reads as the
      empty list, which is how `.get("steps", [])` treats it. */
  datatype LessonContent = LessonContent(lessonId: Option<string>, steps: seq<Step>)

  /** The mutable part of an `AILesson`. */
  datatype LessonState = LessonState(currentStep: nat, responses: seq<string>)

  /** Whether an AI client was configured. The service's answer is opaque: a
      function of what the request is built from (the lesson, the state after
      the answer is recorded, and the answer), so each request can get a
      different reply. */
  datatype AiClient = NoClient | Client(reply: (LessonContent, LessonState, string) -> string)

  /** The dictionary `proceed` returns. */
  datatype ProceedResult = ProceedResult(aiResponse: string, nextPrompt: Option<string>, isComplete: bool)

  const LoadFailure := "レッスンコンテンツが読み込めませんでした。"
  const NoPrompt := "プロンプトがありません。"
  const InvalidStep := "ステップが無効です。"

  /** The step counter equals the number of recorded answers. */
  predicate Consistent(st: LessonState) {
    |st.responses| == st.currentStep
  }

  /** No step of the lesson has a JSON-null prompt. */
  predicate NoNullPrompts(lesson: LessonContent) {
    forall i :: 0 <= i < |lesson.steps| ==> !lesson.steps[i].prompt.Null?
  }

  /** `step.get("prompt", "プロンプトがありません。")`. */
  function StepPrompt(step: Step): Option<string> {
    match step.prompt
    case Missing => Some(NoPrompt)
    case Null => None
    case Present(p) => Some(p)
  }

  /** `get_current_prompt`: the prompt of the current step, None once the
      lesson is exhausted, a fixed message when no content was loaded. */
  function CurrentPrompt(content: Option<LessonContent>, st: LessonState): (r: Option<string>)
    ensures content.None? ==> r == Some(LoadFailure)
    ensures content.Some? ==>
      (r.None? <==> st.currentStep >= |content.value.steps|
                    || content.value.steps[st.currentStep].prompt.Null?)
    ensures content.Some? && r.Some? ==>
      && st.currentStep < |content.value.steps|
      && var field := content.value.steps[st.currentStep].prompt;
         field == Present(r.value) || (field.Missing? && r.value == NoPrompt)
  {
    match content
    case None => Some(LoadFailure)
    case Some(lesson) =>
      if st.currentStep >= |lesson.steps| then None
      else StepPrompt(lesson.steps[st.currentStep])
  }

  /** `start`: reset the counter and the answers, then report the first
      prompt. */
  function Start(content: Option<LessonContent>): (r: (LessonState, Option<string>))
    ensures r.0.currentStep == 0 && r.0.responses == []
    ensures Consistent(r.0)
    ensures content.Some? && |content.value.steps| == 0 ==> r.1.None?
    ensures content.Some? && |content.value.steps| > 0 && NoNullPrompts(content.value) ==> r.1.Some?
    ensures content.None? ==> r.1 == Some(LoadFailure)
    ensures content.Some? && |content.value.steps| > 0 ==> r.1 == StepPrompt(content.value.steps[0])
  {
    var st := LessonState(0, []);
    (st, CurrentPrompt(content, st))
  }

  /** `generate_ai_response`, called once the counter has moved on: the
      answered step is `currentStep - 1`. A counter outside 1..|steps| gives
      the invalid-step message before any AI request is made. The content
      is a `LessonContent` and not an `Option`: the source reads its steps with no
      check that content was loaded. */
  function GenerateAiResponse(lesson: LessonContent, st: LessonState, userResponse: string, client: AiClient): (r: string)
    ensures st.currentStep <= 0 || st.currentStep > |lesson.steps| ==> r == InvalidStep
    ensures 0 < st.currentStep <= |lesson.steps| && client.Client? ==> r == client.reply(lesson, st, userResponse)
    ensures 0 < st.currentStep <= |lesson.steps| && client.NoClient? ==>
      r == MockReply.Respond(userResponse, st.currentStep)
  {
    if st.currentStep <= 0 || st.currentStep > |lesson.steps| then InvalidStep
    else
      match client
      case Client(reply) => reply(lesson, st, userResponse)
      case NoClient => MockReply.Respond(userResponse, st.currentStep)
  }

  /** `proceed`: record the answer, advance one step, reply to the answer and
      report the next prompt; the lesson is complete when there is none. */
  function Proceed(lesson: LessonContent, st: LessonState, userResponse: string, client: AiClient)
    : (r: (LessonState, ProceedResult))
    ensures r.0.currentStep == st.currentStep + 1
    ensures r.0.responses == st.responses + [userResponse]
    ensures Consistent(st) ==> Consistent(r.0)
    ensures r.1.isComplete <==> r.1.nextPrompt.None?
    ensures NoNullPrompts(lesson) ==> (r.1.isComplete <==> r.0.currentStep >= |lesson.steps|)
    ensures st.currentStep >= |lesson.steps| ==> r.1.aiResponse == InvalidStep && r.1.isComplete
    ensures r.0.currentStep >= |lesson.steps| ==> r.1.nextPrompt.None? && r.1.isComplete
    ensures r.0.currentStep < |lesson.steps| ==> r.1.nextPrompt == StepPrompt(lesson.steps[r.0.currentStep])
    ensures st.currentStep < |lesson.steps| && client.NoClient? ==>
      r.1.aiResponse == MockReply.Respond(userResponse, st.currentStep + 1)
    ensures st.currentStep < |lesson.steps| && client.Client? ==>
      r.1.aiResponse == client.reply(lesson, r.0, userResponse)
  {
    var next := LessonState(st.currentStep + 1, st.responses + [userResponse]);
    var aiResponse := GenerateAiResponse(lesson, next, userResponse, client);
    var nextPrompt := CurrentPrompt(Some(lesson), next);
    (next, ProceedResult(aiResponse, nextPrompt, nextPrompt.None?))
  }

  /** The state after answering each of `answers` in turn. */
  function ProceedAll(lesson: LessonContent, st: LessonState, answers: seq<string>, client: AiClient): LessonState
    decreases |answers|
  {
    if |answers| == 0 then st
    else ProceedAll(lesson, Proceed(lesson, st, answers[0], client).0, answers[1..], client)
  }

  /** Answering k times advances the counter by exactly k and appends exactly
      those answers, in order. */
  lemma {:induction false} ProceedAllAppends(lesson: LessonContent, st: LessonState, answers: seq<string>, client: AiClient)
    ensures ProceedAll(lesson, st, answers, client)
            == LessonState(st.currentStep + |answers|, st.responses + answers)
    decreases |answers|
  {
    if |answers| > 0 {
      var next := Proceed(lesson, st, answers[0], client).0;
      assert next == LessonState(st.currentStep + 1, st.responses + [answers[0]]);
      assert ProceedAll(lesson, st, answers, client) == ProceedAll(lesson, next, answers[1..], client);
      ProceedAllAppends(lesson, next, answers[1..], client);
      assert next.responses + answers[1..] == st.responses + answers;
    }
  }

  /** After `start`, the k-th answer to a lesson of n steps (no null prompts)
      reports completion exactly when k >= n: the n-th answer is the first to
      do so. */
  lemma {:induction false} CompletesAtLastStep(lesson: LessonContent, answers: seq<string>, client: AiClient)
    requires NoNullPrompts(lesson)
    requires |answers| > 0
    ensures var before := ProceedAll(lesson, Start(Some(lesson)).0, answers[..|answers| - 1], client);
            Proceed(lesson, before, answers[|answers| - 1], client).1.isComplete <==> |answers| >= |lesson.steps|
  {
    ProceedAllAppends(lesson, Start(Some(lesson)).0, answers[..|answers| - 1], client);
  }

  /** Answering once more after the lesson is complete gets the invalid-step
      message and still reports completion. */
  lemma {:induction false} ProceedPastCompletion(lesson: LessonContent, answers: seq<string>, extra: string, client: AiClient)
    requires |answers| >= |lesson.steps|
    ensures var before := ProceedAll(lesson, Start(Some(lesson)).0, answers, client);
            var r := Proceed(lesson, before, extra, client).1;
            r.aiResponse == InvalidStep && r.isComplete
  {
    ProceedAllAppends(lesson, Start(Some(lesson)).0, answers, client);
  }

  /** Through `proceed` the mock never uses its step-0 fallback: the counter
      is at least 1 when the reply is generated. */
  lemma {:induction false} NoStepZeroFallback(lesson: LessonContent, st: LessonState, userResponse: string)
    ensures Proceed(lesson, st, userResponse, NoClient).1.aiResponse
            != MockReply.Message(MockReply.Default(0))
  {
    var next := Proceed(lesson, st, userResponse, NoClient).0;
    if 0 < next.currentStep <= |lesson.steps| {
      var c := MockReply.Classify(userResponse, next.currentStep);
      assert c != MockReply.Default(0);
      assert MockReply.Message(c) != MockReply.Message(MockReply.Default(0));
    }
  }
}
