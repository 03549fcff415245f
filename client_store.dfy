/**
 * The browser-side interview store: sixteen fields overwritten by setters, an
 * answer list appended to, a reset, and the subset of fields written to local
 * storage. Values the store only carries through (the current question and the
 * final report, typed `any`) are kept as their JSON text.
 */
module ClientStore {
  import opened Basics

  datatype Experience = Experience(company: string, role: string, duration: string, description: seq<string>)
  datatype Project = Project(name: string, description: string, technologies: seq<string>, role: string)
  datatype Education = Education(institution: string, degree: string, field: string, year: string)

  /** `ParsedResume`. */
  datatype ParsedResume = ParsedResume(skills: seq<string>, experience: seq<Experience>, projects: seq<Project>,
                                       education: seq<Education>, certifications: seq<string>)

  datatype ExperienceLevel = Entry | Mid | Senior | Lead

  /** `ParsedJD`. */
  datatype ParsedJD = ParsedJD(title: string, requirements: seq<string>, skillsRequired: seq<string>,
                               experienceLevel: ExperienceLevel, responsibilities: seq<string>,
                               keyCompetencies: seq<string>)

  /** `InterviewAnswer`. */
  datatype InterviewAnswer = InterviewAnswer(questionId: string, responseText: string, timeTaken: real,
                                             score: Option<real>, feedback: Option<string>)

  /** A value of type `any`, as its JSON text. */
  datatype Json = Json(text: string)

  /** Every data field of the store at one moment. */
  datatype Snapshot = Snapshot(
    email: Option<string>, name: Option<string>,
    resumeId: Option<string>, resumeData: Option<ParsedResume>, resumeFileName: Option<string>,
    jdId: Option<string>, jdData: Option<ParsedJD>, fitScore: Option<real>,
    sessionId: Option<string>,
    currentQuestionNumber: int, totalQuestions: int, currentQuestion: Option<Json>,
    answers: seq<InterviewAnswer>, isInterviewActive: bool, isInterviewComplete: bool,
    finalReport: Option<Json>)

  /** The state the store is created with. */
  const InitialState: Snapshot :=
    Snapshot(None, None, None, None, None, None, None, None, None, 0, 12, None, [], false, false, None)

  /** The twelve fields `partialize` writes to storage. */
  datatype Persisted = Persisted(
    email: Option<string>, name: Option<string>,
    resumeId: Option<string>, resumeData: Option<ParsedResume>, resumeFileName: Option<string>,
    jdId: Option<string>, jdData: Option<ParsedJD>, fitScore: Option<real>,
    sessionId: Option<string>, isInterviewActive: bool, isInterviewComplete: bool,
    finalReport: Option<Json>)

  /** `partialize`: everything except the question counter, the question count, the current question and the answers. */
  function Partialize(st: Snapshot): Persisted
  {
    Persisted(st.email, st.name, st.resumeId, st.resumeData, st.resumeFileName,
              st.jdId, st.jdData, st.fitScore, st.sessionId,
              st.isInterviewActive, st.isInterviewComplete, st.finalReport)
  }

  /**
   * Loading stored fields back: the persisted fields overwrite those of the
   * state the store was created with, shallowly, and the others are kept.
   */
  function Rehydrate(current: Snapshot, stored: Persisted): Snapshot
  {
    current.(email := stored.email, name := stored.name, resumeId := stored.resumeId,
             resumeData := stored.resumeData, resumeFileName := stored.resumeFileName,
             jdId := stored.jdId, jdData := stored.jdData, fitScore := stored.fitScore,
             sessionId := stored.sessionId, isInterviewActive := stored.isInterviewActive,
             isInterviewComplete := stored.isInterviewComplete, finalReport := stored.finalReport)
  }

  /** The omitted fields never reach storage: states that differ only in them persist identically. */
  lemma PartializeIgnoresTransient(st: Snapshot, n: int, total: int, q: Option<Json>, answers: seq<InterviewAnswer>)
    ensures Partialize(st.(currentQuestionNumber := n, totalQuestions := total, currentQuestion := q, answers := answers))
            == Partialize(st)
  {
  }

  /** What is stored is what is loaded back. */
  lemma RehydratePartialize(current: Snapshot, stored: Persisted)
    ensures Partialize(Rehydrate(current, stored)) == stored
  {
  }

  /**
   * After a reload the persisted fields come back and the omitted ones take
   * their initial values: the counter 0, twelve questions, no current question
   * and no answers.
   */
  lemma ReloadForgetsTransient(st: Snapshot)
    ensures var loaded := Rehydrate(InitialState, Partialize(st));
            && Partialize(loaded) == Partialize(st)
            && loaded.currentQuestionNumber == 0 && loaded.totalQuestions == 12
            && loaded.currentQuestion.None? && loaded.answers == []
            && loaded == st.(currentQuestionNumber := 0, totalQuestions := 12, currentQuestion := None, answers := [])
  {
  }

  /**
   * The store. Each `set` call replaces the state object with a copy in which
   * the given fields are overwritten, so the state is one value reassigned by
   * every action.
   */
  class InterviewStore {
    var state: Snapshot

    /** The initial state: everything null, counter 0, twelve questions, no answers, both flags off. */
    constructor()
      ensures state == InitialState
    {
      state := InitialState;
    }

    method SetEmail(v: string)
      modifies this
      ensures state == old(state).(email := Some(v))
    {
      state := state.(email := Some(v));
    }

    method SetName(v: string)
      modifies this
      ensures state == old(state).(name := Some(v))
    {
      state := state.(name := Some(v));
    }

    method SetResumeId(v: string)
      modifies this
      ensures state == old(state).(resumeId := Some(v))
    {
      state := state.(resumeId := Some(v));
    }

    method SetResumeData(v: ParsedResume)
      modifies this
      ensures state == old(state).(resumeData := Some(v))
    {
      state := state.(resumeData := Some(v));
    }

    method SetResumeFileName(v: string)
      modifies this
      ensures state == old(state).(resumeFileName := Some(v))
    {
      state := state.(resumeFileName := Some(v));
    }

    method SetJdId(v: string)
      modifies this
      ensures state == old(state).(jdId := Some(v))
    {
      state := state.(jdId := Some(v));
    }

    method SetJdData(v: ParsedJD)
      modifies this
      ensures state == old(state).(jdData := Some(v))
    {
      state := state.(jdData := Some(v));
    }

    method SetFitScore(v: real)
      modifies this
      ensures state == old(state).(fitScore := Some(v))
    {
      state := state.(fitScore := Some(v));
    }

    method SetSessionId(v: string)
      modifies this
      ensures state == old(state).(sessionId := Some(v))
    {
      state := state.(sessionId := Some(v));
    }

    /** `setCurrentQuestion` accepts `any`, including null. */
    method SetCurrentQuestion(v: Option<Json>)
      modifies this
      ensures state == old(state).(currentQuestion := v)
    {
      state := state.(currentQuestion := v);
    }

    method SetCurrentQuestionNumber(v: int)
      modifies this
      ensures state == old(state).(currentQuestionNumber := v)
    {
      state := state.(currentQuestionNumber := v);
    }

    /** `addAnswer`: appended at the end; earlier answers and every other field stay as they were. */
    method AddAnswer(a: InterviewAnswer)
      modifies this
      ensures state == old(state).(answers := old(state).answers + [a])
      ensures |state.answers| == |old(state).answers| + 1 && state.answers[|state.answers| - 1] == a
      ensures state.answers[..|old(state).answers|] == old(state).answers
    {
      state := state.(answers := state.answers + [a]);
    }

    method SetInterviewActive(v: bool)
      modifies this
      ensures state == old(state).(isInterviewActive := v)
    {
      state := state.(isInterviewActive := v);
    }

    method SetInterviewComplete(v: bool)
      modifies this
      ensures state == old(state).(isInterviewComplete := v)
    {
      state := state.(isInterviewComplete := v);
    }

    /** `setFinalReport` accepts `any`, including null. */
    method SetFinalReport(v: Option<Json>)
      modifies this
      ensures state == old(state).(finalReport := v)
    {
      state := state.(finalReport := v);
    }

    /** `reset`: every field back to its initial value except `totalQuestions`, which is not listed. */
    method Reset()
      modifies this
      ensures state == InitialState.(totalQuestions := old(state).totalQuestions)
      ensures Partialize(state) == Partialize(InitialState)
    {
      state := state.(email := None, name := None, resumeId := None, resumeData := None, resumeFileName := None,
                      jdId := None, jdData := None, fitScore := None, sessionId := None,
                      currentQuestionNumber := 0, currentQuestion := None, answers := [],
                      isInterviewActive := false, isInterviewComplete := false, finalReport := None);
    }
  }
}
