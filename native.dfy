/** The native input-method engine as the binding sees it. Its code is not
    part of this model: the session table is the set of ids the engine
    currently considers live, the calls that change that table may succeed
    or fail as the engine decides, and the per-session queries are answers
    the engine gives (`Replies`). */
module Native {

  import opened Wrappers

  /** A native session id (`RimeSessionId`). */
  type SessionId = nat

  /** The binding's handle to one native session. */
  datatype Session = Session(id: SessionId)

  /** One key press: a key code and a modifier bitmask (see `Modifiers`). */
  datatype KeyEvent = KeyEvent(keyCode: int, modifiers: bv32)

  /** Snapshots the engine hands back; their contents come from the engine. */
  datatype ContextSnapshot = ContextSnapshot(preedit: string, candidates: seq<string>)
  datatype CommitSnapshot = CommitSnapshot(text: string)
  datatype StatusSnapshot = StatusSnapshot(schemaId: string, isComposing: bool, isAsciiMode: bool)

  /** What the engine answers to each per-session query.
      `status` is `None` when the native call fails; `simulateKeySequence`
      is `false` when the text is refused (an embedded NUL byte included). */
  datatype Replies = Replies(
    processKey: (SessionId, KeyEvent) -> bool,
    context: SessionId -> Option<ContextSnapshot>,
    commit: SessionId -> Option<CommitSnapshot>,
    status: SessionId -> Option<StatusSnapshot>,
    simulateKeySequence: (SessionId, string) -> bool)

  /** The engine's session table, with a record of the calls the binding
      made into it that create or change a session. */
  class Runtime {
    var live: set<SessionId>
    ghost var created: seq<SessionId>
    ghost var destroyed: seq<SessionId>
    ghost var selected: seq<(SessionId, string)>

    constructor ()
      ensures live == {} && created == [] && destroyed == [] && selected == []
    {
      live, created, destroyed, selected := {}, [], [], [];
    }

    /** The liveness probe (`find_session`). */
    predicate FindSession(s: Session)
      reads this
    {
      s.id in live
    }

    /** Native session creation. The engine hands out an id that is live
        when the call returns (it may have been live before), or one that is
        already dead. */
    method CreateSession() returns (s: Session)
      modifies this
      ensures live == old(live) + {s.id} || (live == old(live) && s.id !in live)
      ensures created == old(created) + [s.id]
      ensures destroyed == old(destroyed) && selected == old(selected)
    {
      var id: SessionId :| true;
      var kept: bool :| true;
      if kept || id in live {
        live := live + {id};
      }
      created := created + [id];
      s := Session(id);
    }

    /** Native session destruction; on success the id is no longer live. */
    method DestroySession(s: Session) returns (ok: bool)
      modifies this
      ensures destroyed == old(destroyed) + [s.id]
      ensures created == old(created) && selected == old(selected)
      ensures live == if ok then old(live) - {s.id} else old(live)
    {
      ok :| true;
      if ok {
        live := live - {s.id};
      }
      destroyed := destroyed + [s.id];
    }

    /** Native schema selection; the engine reports whether it switched. */
    method SelectSchema(s: Session, schemaId: string) returns (ok: bool)
      modifies this
      ensures selected == old(selected) + [(s.id, schemaId)]
      ensures live == old(live) && created == old(created) && destroyed == old(destroyed)
    {
      ok :| true;
      selected := selected + [(s.id, schemaId)];
    }
  }
}
