/** The profile page's list of saved sessions: loading it for the signed-in
    user and deleting one entry after a confirmation. */
module ProfilePage {
  import opened Js
  import opened Domain

  /** A stored session as the session service returns it; the timestamps are
      milliseconds since the epoch. */
  datatype SavedSession = SavedSession(
    id: string,
    userId: string,
    sessionData: SessionData,
    structuredOutput: StructuredOutput,
    transcription: string,
    createdAt: int,
    updatedAt: int)

  /** What `sessionService.getUserSessions` came to: the user's sessions, or a
      throw. */
  datatype LoadOutcome = Loaded(sessions: seq<SavedSession>) | LoadThrew

  /** What `sessionService.deleteSession` came to. */
  datatype DeleteOutcome = Deleted | DeleteThrew

  const LoadErrorMessage := "Kunne ikke laste økter. Prøv igjen."
  const DeleteErrorMessage := "Kunne ikke slette økt. Prøv igjen."

  /** `sessions.filter((session) => session.id !== id)`: never longer than the
      list, and no entry of the result has the id. */
  function WithoutId(sessions: seq<SavedSession>, id: string): (r: seq<SavedSession>)
    ensures |r| <= |sessions|
    ensures forall i :: 0 <= i < |r| ==> r[i].id != id
  {
    if sessions == [] then []
    else if sessions[0].id == id then WithoutId(sessions[1..], id)
    else [sessions[0]] + WithoutId(sessions[1..], id)
  }

  /** The filter keeps exactly the entries whose id differs, and never grows
      the list. */
  lemma {:induction false} WithoutIdMembers(sessions: seq<SavedSession>, id: string)
    ensures |WithoutId(sessions, id)| <= |sessions|
    ensures forall s :: s in WithoutId(sessions, id) <==> s in sessions && s.id != id
  {
    if sessions != [] {
      WithoutIdMembers(sessions[1..], id);
      assert sessions == [sessions[0]] + sessions[1..];
    }
  }

  /** The filter works piecewise, so the entries it keeps stay in their
      original order. */
  lemma {:induction false} WithoutIdAppend(xs: seq<SavedSession>, ys: seq<SavedSession>, id: string)
    ensures WithoutId(xs + ys, id) == WithoutId(xs, id) + WithoutId(ys, id)
  {
    if xs == [] {
      assert xs + ys == ys;
    } else {
      var zs := xs + ys;
      assert zs[0] == xs[0] && zs[1..] == xs[1..] + ys;
      WithoutIdAppend(xs[1..], ys, id);
      if xs[0].id != id {
        assert WithoutId(zs, id) == [xs[0]] + WithoutId(xs[1..] + ys, id);
        assert WithoutId(xs, id) == [xs[0]] + WithoutId(xs[1..], id);
      }
    }
  }

  /** An entry that is kept is kept in place: the result is the list itself
      when no entry has the id. */
  lemma {:induction false} WithoutIdAbsent(sessions: seq<SavedSession>, id: string)
    requires forall i :: 0 <= i < |sessions| ==> sessions[i].id != id
    ensures WithoutId(sessions, id) == sessions
  {
    if sessions != [] {
      WithoutIdAbsent(sessions[1..], id);
      assert sessions == [sessions[0]] + sessions[1..];
    }
  }

  /** Filtering twice by the same id is filtering once. */
  lemma WithoutIdIdempotent(sessions: seq<SavedSession>, id: string)
    ensures WithoutId(WithoutId(sessions, id), id) == WithoutId(sessions, id)
  {
    var r := WithoutId(sessions, id);
    WithoutIdMembers(sessions, id);
    forall i | 0 <= i < |r|
      ensures r[i].id != id
    {
      assert r[i] in r;
    }
    WithoutIdAbsent(r, id);
  }

  /** The list is shorter by at least one exactly when some entry had the id. */
  lemma {:induction false} WithoutIdShrinksIffPresent(sessions: seq<SavedSession>, id: string)
    ensures |WithoutId(sessions, id)| < |sessions| <==> exists i :: 0 <= i < |sessions| && sessions[i].id == id
  {
    if sessions != [] {
      WithoutIdShrinksIffPresent(sessions[1..], id);
      WithoutIdMembers(sessions[1..], id);
      if sessions[0].id != id && exists i :: 0 <= i < |sessions| && sessions[i].id == id {
        var i :| 0 <= i < |sessions| && sessions[i].id == id;
        assert sessions[1..][i - 1].id == id;
      }
    }
  }

  class SessionList {
    var sessions: seq<SavedSession>
    var isLoadingSessions: bool
    var sessionsError: string
    /** The texts passed to `alert`, in order. */
    var alerts: seq<string>
    /** The ids passed to `sessionService.deleteSession`, in order. */
    var deleteRequests: seq<string>

    /** The page starts with an empty list and the loading indicator on. */
    constructor ()
      ensures sessions == [] && isLoadingSessions && sessionsError == ""
      ensures alerts == [] && deleteRequests == []
    {
      sessions, isLoadingSessions, sessionsError := [], true, "";
      alerts, deleteRequests := [], [];
    }

    /** The effect that runs `loadSessions` for the user (the uid, or None when
        nobody is signed in). Without a user nothing happens. Otherwise the old
        error is cleared; a successful load replaces the list with the
        service's result, a failed one keeps the list and sets the fixed
        message; either way the loading indicator ends off. */
    method LoadSessions(user: Option<string>, outcome: LoadOutcome)
      modifies this`sessions, this`isLoadingSessions, this`sessionsError
      ensures user.None? ==> unchanged(this)
      ensures user.Some? ==> !isLoadingSessions
      ensures user.Some? && outcome.Loaded? ==> sessions == outcome.sessions && sessionsError == ""
      ensures user.Some? && outcome.LoadThrew? ==>
        sessions == old(sessions) && sessionsError == LoadErrorMessage
    {
      if user.None? {
        return;
      }
      isLoadingSessions := true;
      sessionsError := "";
      match outcome {
        case Loaded(loaded) => sessions := loaded;
        case LoadThrew => sessionsError := LoadErrorMessage;
      }
      isLoadingSessions := false;
    }

    /** `handleDeleteSession(sessionId)`, where `confirmed` is the user's answer
        to the confirmation dialog. A cancelled dialog does nothing. Otherwise
        the service is asked to delete the id; on success every entry with that
        id leaves the list and the others keep their order, on failure the
        list stays and the fixed message is alerted. The loading flag and the
        load error are never touched. */
    method HandleDeleteSession(sessionId: string, confirmed: bool, outcome: DeleteOutcome)
      modifies this`sessions, this`alerts, this`deleteRequests
      ensures !confirmed ==> unchanged(this)
      ensures confirmed ==> deleteRequests == old(deleteRequests) + [sessionId]
      ensures confirmed && outcome.Deleted? ==>
        sessions == WithoutId(old(sessions), sessionId) && alerts == old(alerts)
      ensures confirmed && outcome.DeleteThrew? ==>
        sessions == old(sessions) && alerts == old(alerts) + [DeleteErrorMessage]
      ensures forall s :: s in sessions ==> s in old(sessions)
      ensures confirmed && outcome.Deleted? ==> forall s :: s in sessions ==> s.id != sessionId
    {
      WithoutIdMembers(sessions, sessionId);
      if !confirmed {
        return;
      }
      deleteRequests := deleteRequests + [sessionId];
      match outcome {
        case Deleted => sessions := WithoutId(sessions, sessionId);
        case DeleteThrew => alerts := alerts + [DeleteErrorMessage];
      }
    }
  }
}
