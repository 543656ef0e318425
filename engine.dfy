/** The binding's `Engine`: one optional session over the native engine, and
    a deploy-result slot that the engine's notification callback fills in. */
module Engine {

  import opened Wrappers
  import opened Errors
  import opened Native

  /** How a deployment (maintenance run) ended. */
  datatype DeployResult = Success | Failure

  /** A notification as the native engine delivers it to the callback: the
      session it concerns, a message type and a message value. */
  datatype Notification = Notification(sessionId: SessionId, messageType: string, messageValue: string)

  /** The deploy outcome a notification reports, if it reports one. */
  function DeployOutcome(n: Notification): Option<DeployResult>
  {
    if n.messageType != "deploy" then None
    else if n.messageValue == "success" then Some(Success)
    else if n.messageValue == "failure" then Some(Failure)
    else None
  }

  /** The deploy slot after the notification handler has seen `n`. */
  function Handle(slot: Option<DeployResult>, n: Notification): (r: Option<DeployResult>)
    ensures n.messageType == "deploy" && n.messageValue == "success" ==> r == Some(Success)
    ensures n.messageType == "deploy" && n.messageValue == "failure" ==> r == Some(Failure)
    ensures n.messageType != "deploy" ==> r == slot
    ensures n.messageValue != "success" && n.messageValue != "failure" ==> r == slot
  {
    match DeployOutcome(n)
    case Some(d) => Some(d)
    case None => slot
  }

  /** The deploy slot after the handler has seen every notification of `ns`,
      in order. */
  function DeliverAll(slot: Option<DeployResult>, ns: seq<Notification>): Option<DeployResult>
  {
    if ns == [] then slot else Handle(DeliverAll(slot, ns[..|ns| - 1]), ns[|ns| - 1])
  }

  /** No notification after position `i` of `ns` reports a deploy outcome. */
  ghost predicate QuietAfter(ns: seq<Notification>, i: int)
  {
    forall j :: 0 <= j < |ns| && i < j ==> DeployOutcome(ns[j]).None?
  }

  /** The slot holds `d` after a run of notifications exactly when the last
      notification that reports an outcome reports `d`, or none reports one
      and the slot held `d` already. */
  lemma {:induction false} DeliverAllLastOutcome(slot: Option<DeployResult>, ns: seq<Notification>, d: DeployResult)
    ensures DeliverAll(slot, ns) == Some(d) <==>
      (slot == Some(d) && QuietAfter(ns, -1)) ||
      (exists i :: 0 <= i < |ns| && DeployOutcome(ns[i]) == Some(d) && QuietAfter(ns, i))
  {
    if ns != [] {
      var init, last := ns[..|ns| - 1], ns[|ns| - 1];
      DeliverAllLastOutcome(slot, init, d);
      assert forall j :: 0 <= j < |init| ==> init[j] == ns[j];
      if DeployOutcome(last) == Some(d) {
        assert QuietAfter(ns, |ns| - 1);
      } else if DeployOutcome(last).Some? {
        assert !QuietAfter(ns, -1);
        forall i | 0 <= i < |ns| && DeployOutcome(ns[i]) == Some(d)
          ensures !QuietAfter(ns, i)
        {
          assert i < |ns| - 1;
        }
      } else {
        if exists i :: 0 <= i < |ns| && DeployOutcome(ns[i]) == Some(d) && QuietAfter(ns, i) {
          var i :| 0 <= i < |ns| && DeployOutcome(ns[i]) == Some(d) && QuietAfter(ns, i);
          assert i < |init| && QuietAfter(init, i);
        }
      }
    }
  }

  /** Once the slot holds a result, no notification empties it again. */
  lemma {:induction false} DeliverAllNeverReverts(slot: Option<DeployResult>, ns: seq<Notification>)
    requires slot.Some?
    ensures DeliverAll(slot, ns).Some?
  {
    if ns != [] {
      DeliverAllNeverReverts(slot, ns[..|ns| - 1]);
    }
  }

  /** Delivering the same notification twice is delivering it once. */
  lemma HandleIdempotent(slot: Option<DeployResult>, n: Notification)
    ensures Handle(Handle(slot, n), n) == Handle(slot, n)
  {
  }

  /** The slot as the waiting loop observes it: each element of `batches` is
      what the callback delivers during one sleep of the loop, and the loop
      stops polling as soon as the slot holds a result. */
  function Polled(slot: Option<DeployResult>, batches: seq<seq<Notification>>): Option<DeployResult>
    decreases |batches|
  {
    if slot.Some? || batches == [] then slot
    else Polled(DeliverAll(slot, batches[0]), batches[1..])
  }

  /** Polling an empty slot ends with a result exactly when some delivered
      notification reports a deploy outcome. */
  lemma {:induction false} PolledFinds(batches: seq<seq<Notification>>)
    ensures Polled(None, batches).Some? <==>
      exists k, i :: 0 <= k < |batches| && 0 <= i < |batches[k]| && DeployOutcome(batches[k][i]).Some?
  {
    if batches != [] {
      PolledFinds(batches[1..]);
      var first := DeliverAll(None, batches[0]);
      if first.Some? {
        var d := first.value;
        DeliverAllLastOutcome(None, batches[0], d);
        var i :| 0 <= i < |batches[0]| && DeployOutcome(batches[0][i]) == Some(d) && QuietAfter(batches[0], i);
        assert DeployOutcome(batches[0][i]).Some?;
      } else {
        forall i | 0 <= i < |batches[0]|
          ensures DeployOutcome(batches[0][i]).None?
        {
          var o := DeployOutcome(batches[0][i]);
          if o.Some? {
            DeliverAllLastOutcome(None, batches[0][..i + 1], o.value);
            assert batches[0][..i + 1][i] == batches[0][i];
            assert QuietAfter(batches[0][..i + 1], i);
            DeliverAllPrefix(batches[0], i + 1);
            assert false;
          }
        }
        forall k, i | 1 <= k < |batches| && 0 <= i < |batches[k]|
          ensures batches[1..][k - 1][i] == batches[k][i]
        {
        }
      }
    }
  }

  /** A slot that holds a result after a prefix of `ns` still holds one
      after all of `ns`. */
  lemma {:induction false} DeliverAllPrefix(ns: seq<Notification>, p: nat)
    requires p <= |ns|
    requires DeliverAll(None, ns[..p]).Some?
    ensures DeliverAll(None, ns).Some?
  {
    if p < |ns| {
      assert ns[..|ns| - 1][..p] == ns[..p];
      DeliverAllPrefix(ns[..|ns| - 1], p);
      DeliverAllNeverReverts(DeliverAll(None, ns[..|ns| - 1]), [ns[|ns| - 1]]);
      assert [ns[|ns| - 1]][..0] == [];
    } else {
      assert ns[..p] == ns;
    }
  }

  class Engine {
    var session: Option<Session>
    var deployResult: Option<DeployResult>

    /** A new engine: no session and no deploy result yet. */
    constructor ()
      ensures session == None && deployResult == None
    {
      session := None;
      deployResult := None;
    }

    /** The notification callback, writing into this engine's slot. */
    method Notify(n: Notification)
      modifies this`deployResult
      ensures deployResult == Handle(old(deployResult), n)
    {
      match DeployOutcome(n)
      case Some(d) => deployResult := Some(d);
      case None =>
    }

    /** The current session, or `SessionNotExists` when there is none. */
    function GetSession(): (r: Result<Session>)
      reads this
      ensures r.Ok? <==> session.Some?
      ensures r.Ok? ==> session == Some(r.value)
      ensures r.Err? ==> r.error == Error.SessionNotExists
    {
      match session
      case None => Err(Error.SessionNotExists)
      case Some(s) => Ok(s)
    }

    /** Submits a key event to the current session; the engine's answer
        (consumed or not) is returned unchanged. */
    function ProcessKey(native: Replies, event: KeyEvent): (r: Result<bool>)
      reads this
      ensures session.None? ==> r == Err(Error.SessionNotExists)
      ensures session.Some? ==> r == Ok(native.processKey(session.value.id, event))
    {
      match GetSession()
      case Err(e) => Err(e)
      case Ok(s) => Ok(native.processKey(s.id, event))
    }

    /** The current composition context; absent without a session. */
    function Context(native: Replies): (r: Option<ContextSnapshot>)
      reads this
      ensures session.None? ==> r == None
      ensures session.Some? ==> r == native.context(session.value.id)
    {
      match session
      case None => None
      case Some(s) => native.context(s.id)
    }

    /** The pending commit; absent without a session. */
    function Commit(native: Replies): (r: Option<CommitSnapshot>)
      reads this
      ensures session.None? ==> r == None
      ensures session.Some? ==> r == native.commit(session.value.id)
    {
      match session
      case None => None
      case Some(s) => native.commit(s.id)
    }

    /** The session status; a failing native call becomes `GetStatus`. */
    function Status(native: Replies): (r: Result<StatusSnapshot>)
      reads this
      ensures session.None? ==> r == Err(Error.SessionNotExists)
      ensures session.Some? && native.status(session.value.id).None? ==> r == Err(Error.GetStatus)
      ensures session.Some? && native.status(session.value.id).Some? ==>
        r == Ok(native.status(session.value.id).value)
    {
      match GetSession()
      case Err(e) => Err(e)
      case Ok(s) =>
        match native.status(s.id)
        case None => Err(Error.GetStatus)
        case Some(st) => Ok(st)
    }

    /** Feeds `sequence` to the current session as key events; any refusal
        becomes `SimulateKeySequence`. */
    function SimulateKeySequence(native: Replies, sequence: string): (r: Result<()>)
      reads this
      ensures session.None? ==> r == Err(Error.SessionNotExists)
      ensures session.Some? ==>
        r == if native.simulateKeySequence(session.value.id, sequence) then Ok(())
             else Err(Error.SimulateKeySequence)
    {
      match GetSession()
      case Err(e) => Err(e)
      case Ok(s) =>
        if native.simulateKeySequence(s.id, sequence) then Ok(()) else Err(Error.SimulateKeySequence)
    }

    /** Waits until the slot holds a deploy result and returns it. Element
        `k` of `batches` is what the callback delivers during the `k`-th
        sleep; the caller must arrange (by a full-check maintenance run)
        that a deploy outcome is eventually delivered. */
    method WaitForDeployResult(batches: seq<seq<Notification>>) returns (r: DeployResult)
      requires Polled(deployResult, batches).Some?
      modifies this`deployResult
      ensures deployResult == Some(r) == Polled(old(deployResult), batches)
      ensures old(deployResult).Some? ==> deployResult == old(deployResult)
    {
      var k := 0;
      while deployResult.None?
        invariant k <= |batches|
        invariant Polled(deployResult, batches[k..]) == Polled(old(deployResult), batches)
        decreases |batches| - k
      {
        deployResult := DeliverAll(deployResult, batches[k]);
        k := k + 1;
      }
      r := deployResult.value;
    }

    /** The current session is present and the engine still considers it live. */
    predicate HasLiveSession(native: Runtime)
      reads this, native
    {
      session.Some? && native.FindSession(session.value)
    }

    /** Closes the current session if it is live. The session field is kept
        as it is, closed or not. */
    method Close(native: Runtime) returns (r: Result<()>)
      modifies native
      ensures session == old(session)
      ensures native.created == old(native.created) && native.selected == old(native.selected)
      ensures !old(HasLiveSession(native)) ==>
        r == Ok(()) && native.live == old(native.live) && native.destroyed == old(native.destroyed)
      ensures old(HasLiveSession(native)) ==>
        native.destroyed == old(native.destroyed) + [session.value.id] &&
        (r == Ok(()) <==> session.value.id !in native.live)
      ensures r.Err? ==> r.error == Error.CloseSession && native.live == old(native.live)
      ensures r.Ok? && old(HasLiveSession(native)) ==> native.live == old(native.live) - {session.value.id}
    {
      if session.Some? {
        if native.FindSession(session.value) {
          var ok := native.DestroySession(session.value);
          if !ok {
            return Err(Error.CloseSession);
          }
        }
      }
      return Ok(());
    }

    /** Creates a native session and installs it, provided it passes the
        liveness probe. No explicit close call is made on an earlier
        session; the field is simply overwritten. */
    method CreateSession(native: Runtime) returns (r: Result<()>)
      modifies this`session, native
      ensures native.destroyed == old(native.destroyed) && native.selected == old(native.selected)
      ensures |native.created| == |old(native.created)| + 1
      ensures var id := native.created[|native.created| - 1];
        (r.Ok? <==> id in native.live) && (r.Ok? ==> session == Some(Session(id)))
      ensures r.Err? ==>
        r.error == Error.CreateSession && session == old(session) && native.live == old(native.live)
      ensures r.Ok? ==>
        session.Some? && native.FindSession(session.value) &&
        native.live == old(native.live) + {session.value.id}
    {
      var s := native.CreateSession();
      if !native.FindSession(s) {
        return Err(Error.CreateSession);
      }
      session := Some(s);
      return Ok(());
    }

    /** Asks the current session to switch schema. The engine's answer is
        ignored: with a session the call always succeeds. */
    method SelectSchema(native: Runtime, schemaId: string) returns (r: Result<()>)
      modifies native
      ensures native.live == old(native.live) && native.destroyed == old(native.destroyed)
      ensures native.created == old(native.created)
      ensures session.None? ==> r == Err(Error.SessionNotExists) && native.selected == old(native.selected)
      ensures session.Some? ==>
        r == Ok(()) && native.selected == old(native.selected) + [(session.value.id, schemaId)]
    {
      match session
      case None =>
        return Err(Error.SessionNotExists);
      case Some(s) =>
        var _ := native.SelectSchema(s, schemaId);
        return Ok(());
    }
  }

  /** Without a session every per-session query fails with
      `SessionNotExists`, except the context and commit, which are absent. */
  lemma NoSessionFails(e: Engine, native: Replies, event: KeyEvent, sequence: string)
    requires e.session.None?
    ensures e.ProcessKey(native, event) == Err(Error.SessionNotExists)
    ensures e.Status(native) == Err(Error.SessionNotExists)
    ensures e.SimulateKeySequence(native, sequence) == Err(Error.SessionNotExists)
    ensures e.Context(native).None? && e.Commit(native).None?
  {
  }

  /** Every query goes to the engine's own session: two native engines that
      answer alike for that session give the same results. */
  lemma QueriesUseOwnSession(e: Engine, a: Replies, b: Replies, event: KeyEvent, sequence: string)
    requires e.session.Some?
    requires a.processKey(e.session.value.id, event) == b.processKey(e.session.value.id, event)
    requires a.context(e.session.value.id) == b.context(e.session.value.id)
    requires a.commit(e.session.value.id) == b.commit(e.session.value.id)
    requires a.status(e.session.value.id) == b.status(e.session.value.id)
    requires a.simulateKeySequence(e.session.value.id, sequence) == b.simulateKeySequence(e.session.value.id, sequence)
    ensures e.ProcessKey(a, event) == e.ProcessKey(b, event)
    ensures e.Context(a) == e.Context(b) && e.Commit(a) == e.Commit(b)
    ensures e.Status(a) == e.Status(b)
    ensures e.SimulateKeySequence(a, sequence) == e.SimulateKeySequence(b, sequence)
  {
  }

  /** Closing twice destroys the native session at most once: after a
      successful close the session is no longer live, so the second close
      does not call into the engine. */
  method CloseTwice(e: Engine, native: Runtime) returns (first: Result<()>, second: Result<()>)
    modifies native
    ensures first.Ok? ==> second == Ok(())
    ensures first.Ok? ==>
      native.destroyed == old(native.destroyed) + (if old(e.HasLiveSession(native)) then [e.session.value.id] else [])
  {
    first := e.Close(native);
    second := e.Close(native);
  }
}
