/** The typing slice of the Redux store (frontend/src/store/slices/typingSlice.ts). */
module TypingSlice {
  import opened Basics

  /** The message a failed thunk rejects with: the server's error, or the thunk's fallback text. */
  function RejectionMessage(serverError: Option<string>, fallback: string): (m: string)
    ensures Truthy(serverError) ==> m == serverError.value
    ensures !Truthy(serverError) ==> m == fallback
    ensures fallback != "" ==> m != ""
  {
    if Truthy(serverError) then serverError.value else fallback
  }

  const SaveSessionFallback: string := "Failed to save session"

  /** The slice state; reducers assign its fields in place. */
  class TypingState<Session, Lesson, Achievement, Entry> {
    var currentSession: Option<Session>
    var sessions: seq<Session>
    var lessons: seq<Lesson>
    var currentLesson: Option<Lesson>
    var achievements: seq<Achievement>
    var leaderboard: seq<Entry>
    var isLoading: bool
    var error: Option<string>

    /** `initialState`. */
    constructor ()
      ensures currentSession.None? && currentLesson.None? && error.None? && !isLoading
      ensures sessions == [] && lessons == [] && achievements == [] && leaderboard == []
    {
      currentSession := None;
      sessions := [];
      lessons := [];
      currentLesson := None;
      achievements := [];
      leaderboard := [];
      isLoading := false;
      error := None;
    }

    method SetCurrentSession(payload: Option<Session>)
      modifies this`currentSession
      ensures currentSession == payload
    {
      currentSession := payload;
    }

    method SetCurrentLesson(payload: Option<Lesson>)
      modifies this`currentLesson
      ensures currentLesson == payload
    {
      currentLesson := payload;
    }

    method ClearError()
      modifies this`error
      ensures error.None?
    {
      error := None;
    }

    /** `saveSession.pending`. */
    method SaveSessionPending()
      modifies this`isLoading, this`error
      ensures isLoading && error.None?
    {
      isLoading := true;
      error := None;
    }

    /** `saveSession.fulfilled`: the stored session goes to the front of the list. */
    method SaveSessionFulfilled(payload: Session)
      modifies this`isLoading, this`sessions, this`currentSession
      ensures !isLoading
      ensures sessions == [payload] + old(sessions)
      ensures |sessions| == |old(sessions)| + 1 && sessions[0] == payload && sessions[1..] == old(sessions)
      ensures currentSession == Some(payload)
    {
      isLoading := false;
      sessions := [payload] + sessions;
      currentSession := Some(payload);
    }

    /** `saveSession.rejected`. */
    method SaveSessionRejected(payload: string)
      modifies this`isLoading, this`error
      ensures !isLoading && error == Some(payload)
    {
      isLoading := false;
      error := Some(payload);
    }

    /** `fetchLessons.fulfilled`. */
    method FetchLessonsFulfilled(payload: seq<Lesson>)
      modifies this`lessons
      ensures lessons == payload
    {
      lessons := payload;
    }

    /** `fetchLeaderboard.fulfilled`. */
    method FetchLeaderboardFulfilled(payload: seq<Entry>)
      modifies this`leaderboard
      ensures leaderboard == payload
    {
      leaderboard := payload;
    }
  }
}
