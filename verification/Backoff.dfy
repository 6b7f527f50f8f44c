/** Turns to wait per session before compaction is tried again
    (src/application/kernel/compaction_verifier.py, lines 59-60 and 289-310). */
module Backoff {
  import opened Texts

  const DEFAULT_TURNS: int := 2

  type Table = map<string, nat>

  /** Without a session (none, or an empty id) nothing is stored. */
  predicate HasSession(session: Option<string>) {
    session.Some? && session.value != ""
  }

  function SetTurns(t: Table, session: Option<string>, turns: int): Table {
    if HasSession(session) then t[session.value := if turns < 0 then 0 else turns] else t
  }

  function Remaining(t: Table, session: Option<string>): nat {
    if HasSession(session) && session.value in t then t[session.value] else 0
  }

  function Consume(t: Table, session: Option<string>): Table {
    if Remaining(t, session) > 0 then t[session.value := t[session.value] - 1] else t
  }

  /** Resetting without a session clears every session. */
  function Reset(t: Table, session: Option<string>): Table {
    match session
    case None => map[]
    case Some(id) => t - {id}
  }

  /** What is stored is what is left to wait; zero or less is no wait. */
  lemma StoredIsLeft(t: Table, session: Option<string>, turns: int)
    ensures Remaining(SetTurns(t, session, turns), session) ==
      if session == None || session == Some("") || turns < 0 then 0 else turns
  {
  }

  class SessionBackoff {
    var turns: Table

    constructor ()
      ensures turns == map[]
    {
      turns := map[];
    }

    method SetCompactionBackoff(session: Option<string>, count: int)
      modifies this
      ensures turns == SetTurns(old(turns), session, count)
    {
      if session.None? || session.value == "" {
        return;
      }
      turns := turns[session.value := if count < 0 then 0 else count];
    }

    method ConsumeCompactionBackoff(session: Option<string>) returns (remaining: nat)
      modifies this
      ensures remaining == Remaining(old(turns), session) && turns == Consume(old(turns), session)
    {
      if session.None? || session.value == "" {
        return 0;
      }
      remaining := if session.value in turns then turns[session.value] else 0;
      if remaining <= 0 {
        return 0;
      }
      turns := turns[session.value := remaining - 1];
    }

    method ResetCompactionBackoff(session: Option<string>)
      modifies this
      ensures turns == Reset(old(turns), session)
    {
      match session
      case None => turns := map[];
      case Some(id) => turns := turns - {id};
    }
  }
}
