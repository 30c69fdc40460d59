/** The two JSON endpoints of the tutor app that drive a lesson
    (`start_lesson` and `next_step` in app.py): request validation, lesson
    lookup by id, and the round trip of the lesson state through the
    session. */
module LessonApi {
  import opened Maybe
  import opened Lesson

  /** The session keys these handlers read and write; None is an absent key. */
  datatype Session = Session(
    sessionId: Option<string>,
    lessonId: Option<string>,
    currentStep: Option<nat>,
    responses: Option<seq<string>>)

  datatype StartReply =
    | StartError(status: nat, error: string)
    | StartOk(sessionId: string, lessonId: string, prompt: Option<string>, isComplete: bool)

  datatype NextReply =
    | NextError(status: nat, error: string)
    | NextOk(aiResponse: string, nextPrompt: Option<string>, isComplete: bool)

  const NoLessonId := "レッスンIDが指定されていません"
  const NoActiveSession := "アクティブなセッションがありません"
  const NoAnswer := "回答が提供されていません"

  /** Python truthiness of an optional string: None and "" are false. */
  predicate Truthy(s: Option<string>) {
    s.Some? && s.value != ""
  }

  /** How an optional string prints inside an f-string. */
  function Show(s: Option<string>): string {
    match s
    case None => "None"
    case Some(v) => v
  }

  /** The 404 message for a lesson id. */
  function NotFound(id: Option<string>): string {
    "レッスンID " + Show(id) + " が見つかりません"
  }

  /** The position of the first lesson whose id equals `id`. */
  function FirstWithId(lessons: seq<LessonContent>, id: Option<string>): (r: Option<nat>)
    ensures r.Some? ==> r.value < |lessons| && lessons[r.value].lessonId == id
    ensures r.Some? ==> forall j :: 0 <= j < r.value ==> lessons[j].lessonId != id
    ensures r.None? <==> forall j :: 0 <= j < |lessons| ==> lessons[j].lessonId != id
  {
    if |lessons| == 0 then None
    else if lessons[0].lessonId == id then Some(0)
    else
      match FirstWithId(lessons[1..], id)
      case None => None
      case Some(k) => Some(k + 1)
  }

  /** The loop over `lesson_data["lessons"]` with `break` on the first match;
      `data` is None when the content file failed to load. */
  function FindLesson(data: Option<seq<LessonContent>>, id: Option<string>): (r: Option<LessonContent>)
    ensures r.Some? ==> data.Some? && r.value in data.value && r.value.lessonId == id
    ensures r.Some? ==>
      exists k :: 0 <= k < |data.value| && r.value == data.value[k]
                  && forall j :: 0 <= j < k ==> data.value[j].lessonId != id
    ensures r.None? <==> data.None? || forall l :: l in data.value ==> l.lessonId != id
  {
    match data
    case None => None
    case Some(lessons) =>
      match FirstWithId(lessons, id)
      case None => None
      case Some(k) => Some(lessons[k])
  }

  /** The session holds a lesson in progress whose step counter equals the
      number of answers recorded so far. */
  predicate SessionConsistent(s: Session) {
    && s.currentStep.Some?
    && s.responses.Some?
    && |s.responses.value| == s.currentStep.value
  }

  /** `start_lesson` logs `prompt[:50]`, which fails when the first prompt is
      None; the handler therefore needs the lesson it finds to have a first
      step whose prompt is not JSON null. */
  predicate FirstPromptPrintable(data: Option<seq<LessonContent>>, requestId: Option<string>) {
    Truthy(requestId) && FindLesson(data, requestId).Some? ==>
      var lesson := FindLesson(data, requestId).value;
      |lesson.steps| > 0 && !lesson.steps[0].prompt.Null?
  }

  /** `start_lesson`: validate the id, find the lesson, and store a fresh
      session whose step counter is 0 and answers are empty. `newSessionId`
      stands for the generated UUID. */
  function StartLesson(data: Option<seq<LessonContent>>, session: Session, requestId: Option<string>, newSessionId: string)
    : (r: (StartReply, Session))
    requires FirstPromptPrintable(data, requestId)
    ensures !Truthy(requestId) ==> r.0 == StartError(400, NoLessonId) && r.1 == session
    ensures Truthy(requestId) && FindLesson(data, requestId).None? ==>
      r.0 == StartError(404, NotFound(requestId)) && r.1 == session
    ensures r.0.StartOk? <==> Truthy(requestId) && FindLesson(data, requestId).Some?
    ensures r.0.StartOk? ==>
      && r.0.sessionId == newSessionId
      && Some(r.0.lessonId) == requestId
      && r.0.prompt.Some? && !r.0.isComplete
      && r.1 == Session(Some(newSessionId), requestId, Some(0), Some([]))
    ensures r.0.StartOk? ==> SessionConsistent(r.1)
    ensures r.0.StartOk? ==> r.0.prompt == StepPrompt(FindLesson(data, requestId).value.steps[0])
  {
    if !Truthy(requestId) then (StartError(400, NoLessonId), session)
    else
      match FindLesson(data, requestId)
      case None => (StartError(404, NotFound(requestId)), session)
      case Some(lesson) =>
        var session' := Session(Some(newSessionId), requestId, Some(0), Some([]));
        var prompt := Start(Some(lesson)).1;
        (StartOk(newSessionId, requestId.value, prompt, prompt.None?), session')
  }

  /** `next_step`: check the session and the answer, look the lesson up again,
      rebuild the lesson from the stored counter and answers, take one step
      and store the counter and answers back. */
  function NextStep(data: Option<seq<LessonContent>>, session: Session, response: Option<string>, client: AiClient)
    : (r: (NextReply, Session))
    ensures !Truthy(session.sessionId) ==> r.0 == NextError(400, NoActiveSession) && r.1 == session
    ensures Truthy(session.sessionId) && response.None? ==> r.0 == NextError(400, NoAnswer) && r.1 == session
    ensures Truthy(session.sessionId) && response.Some? && FindLesson(data, session.lessonId).None? ==>
      r.0 == NextError(404, NotFound(session.lessonId)) && r.1 == session
    ensures r.0.NextOk? <==>
      Truthy(session.sessionId) && response.Some? && FindLesson(data, session.lessonId).Some?
    ensures r.0.NextOk? ==>
      && r.1.sessionId == session.sessionId
      && r.1.lessonId == session.lessonId
      && r.1.currentStep == Some(session.currentStep.GetOr(0) + 1)
      && r.1.responses == Some(session.responses.GetOr([]) + [response.value])
    ensures SessionConsistent(session) ==> SessionConsistent(r.1)
    ensures r.0.NextOk? ==>
      var st := LessonState(session.currentStep.GetOr(0), session.responses.GetOr([]));
      var result := Proceed(FindLesson(data, session.lessonId).value, st, response.value, client).1;
      r.0 == NextOk(result.aiResponse, result.nextPrompt, result.isComplete)
    ensures r.0.NextOk? ==> (r.0.isComplete <==> r.0.nextPrompt.None?)
    ensures r.0.NextOk? && NoNullPrompts(FindLesson(data, session.lessonId).value) ==>
      (r.0.isComplete <==> session.currentStep.GetOr(0) + 1 >= |FindLesson(data, session.lessonId).value.steps|)
    ensures r.0.NextOk? && session.currentStep.GetOr(0) >= |FindLesson(data, session.lessonId).value.steps| ==>
      r.0.aiResponse == InvalidStep && r.0.isComplete
    ensures r.0.NextOk? && session.currentStep.GetOr(0) + 1 >= |FindLesson(data, session.lessonId).value.steps| ==>
      r.0.nextPrompt.None? && r.0.isComplete
  {
    if !Truthy(session.sessionId) then (NextError(400, NoActiveSession), session)
    else if response.None? then (NextError(400, NoAnswer), session)
    else
      match FindLesson(data, session.lessonId)
      case None => (NextError(404, NotFound(session.lessonId)), session)
      case Some(lesson) =>
        var st := LessonState(session.currentStep.GetOr(0), session.responses.GetOr([]));
        var (st', result) := Proceed(lesson, st, response.value, client);
        var session' := session.(currentStep := Some(st'.currentStep), responses := Some(st'.responses));
        (NextOk(result.aiResponse, result.nextPrompt, result.isComplete), session')
  }

  /** The session after posting each of `answers` to `next_step` in turn. */
  function NextAll(data: Option<seq<LessonContent>>, session: Session, answers: seq<string>, client: AiClient): Session
    decreases |answers|
  {
    if |answers| == 0 then session
    else NextAll(data, NextStep(data, session, Some(answers[0]), client).1, answers[1..], client)
  }

  /** After a successful `start_lesson`, k posted answers leave the session
      with the same ids, counter k and exactly those answers. */
  lemma {:induction false} NextAllRecords(data: Option<seq<LessonContent>>, session: Session, answers: seq<string>, client: AiClient)
    requires Truthy(session.sessionId) && FindLesson(data, session.lessonId).Some?
    requires session.currentStep.Some? && session.responses.Some?
    ensures NextAll(data, session, answers, client)
            == session.(currentStep := Some(session.currentStep.value + |answers|),
                        responses := Some(session.responses.value + answers))
    decreases |answers|
  {
    if |answers| > 0 {
      var next := NextStep(data, session, Some(answers[0]), client).1;
      assert NextStep(data, session, Some(answers[0]), client).0.NextOk?;
      assert next == session.(currentStep := Some(session.currentStep.value + 1),
                              responses := Some(session.responses.value + [answers[0]]));
      NextAllRecords(data, next, answers[1..], client);
      assert next.responses.value + answers[1..] == session.responses.value + answers;
      assert NextAll(data, session, answers, client) == NextAll(data, next, answers[1..], client);
    } else {
      assert session.responses.value + answers == session.responses.value;
    }
  }

  /** End to end: start a lesson of n steps (no null prompts), then post
      answers; the k-th answer reports completion exactly when k >= n. */
  lemma {:induction false} SessionCompletesAtLastStep(data: Option<seq<LessonContent>>, session: Session, requestId: Option<string>,
                                   newSessionId: string, answers: seq<string>, client: AiClient)
    requires FirstPromptPrintable(data, requestId)
    requires Truthy(requestId) && FindLesson(data, requestId).Some?
    requires NoNullPrompts(FindLesson(data, requestId).value)
    requires newSessionId != ""
    requires |answers| > 0
    ensures var started := StartLesson(data, session, requestId, newSessionId).1;
            var before := NextAll(data, started, answers[..|answers| - 1], client);
            var reply := NextStep(data, before, Some(answers[|answers| - 1]), client).0;
            reply.NextOk? && (reply.isComplete <==> |answers| >= |FindLesson(data, requestId).value.steps|)
  {
    var started := StartLesson(data, session, requestId, newSessionId).1;
    NextAllRecords(data, started, answers[..|answers| - 1], client);
  }
}
