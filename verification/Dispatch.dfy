/**
 * The correlation table behind the client's command dispatcher and what one
 * inbound message does to it (the reader's side of `_process_message`). The
 * client's `ProcessMessage` is proved to perform exactly `Deliver`.
 */
module Dispatch {
  import opened Wrappers
  import opened PyJson
  import opened Protocol

  /**
   * How the caller that registered an entry waits: a thread blocked on an event,
   * with the slot the reader writes the response into, or a coroutine on a future.
   */
  datatype Waiter = Blocking(response: Option<Frame>) | Deferred

  /** A pending request: its waiter and the opcode it was sent with. */
  datatype Entry = Entry(waiter: Waiter, opcode: int)

  /**
   * What the reader can change: the pending requests by seq, the seqs whose
   * events were set, the results handed to futures, and the push events
   * handed to the event handler, in order.
   */
  datatype Table = Table(
    pending: map<nat, Entry>,
    signalled: set<nat>,
    resolved: map<nat, Frame>,
    events: seq<Frame>)

  function BlockingKeys(p: map<nat, Entry>): set<nat> {
    set k | k in p && p[k].waiter.Blocking?
  }

  /** A blocking entry holds a response exactly when its event has been set. */
  ghost predicate SignalConsistent(t: Table) {
    forall k :: k in t.pending && t.pending[k].waiter.Blocking? ==>
      (t.pending[k].waiter.response.Some? <==> k in t.signalled)
  }

  /** The pending key a frame's `seq` selects (`True` looks up 1); `None` selects nothing. */
  function ResponseKey(f: Frame): Option<nat> {
    match NumberValue(f.seqId)
    case Some(n) => if n >= 0 then Some(n) else None
    case None => None
  }

  /** `match data.get("cmd")`: `case 1` and `case 0` compare with `==`. */
  predicate IsResponse(m: Inbound) {
    m.Parsed? && NumberValue(m.frame.cmd) == Some(CMD_RESPONSE)
  }

  predicate IsPush(m: Inbound) {
    m.Parsed? && NumberValue(m.frame.cmd) == Some(CMD_PUSH)
  }

  /** `m` is a response carrying seq `s`. */
  predicate Answers(m: Inbound, s: nat) {
    IsResponse(m) && ResponseKey(m.frame) == Some(s)
  }

  /** One inbound message, as the reader handles it. */
  function Deliver(t: Table, m: Inbound): (r: Table)
    ensures !IsResponse(m) ==>
      r.pending == t.pending && r.signalled == t.signalled && r.resolved == t.resolved
    ensures r.events == if IsPush(m) then t.events + [m.frame] else t.events
    ensures forall k :: k in t.pending && !Answers(m, k) ==> k in r.pending && r.pending[k] == t.pending[k]
    ensures r.pending.Keys <= t.pending.Keys
    ensures BlockingKeys(r.pending) == BlockingKeys(t.pending)
    ensures forall k :: k in r.pending ==> r.pending[k].opcode == t.pending[k].opcode
    ensures r.signalled <= t.signalled + t.pending.Keys
    ensures r.resolved.Keys <= t.resolved.Keys + t.pending.Keys
    ensures SignalConsistent(t) ==> SignalConsistent(r)
  {
    if IsResponse(m) then
      match ResponseKey(m.frame)
      case None => t
      case Some(s) =>
        if s !in t.pending then t
        else
          var e := t.pending[s];
          match e.waiter
          case Blocking(_) =>
            t.(pending := t.pending[s := e.(waiter := Blocking(Some(m.frame)))],
               signalled := t.signalled + {s})
          case Deferred =>
            t.(pending := t.pending - {s}, resolved := t.resolved[s := m.frame])
    else if IsPush(m) then t.(events := t.events + [m.frame])
    else t
  }

  /** A response for seq `S` sets a blocking entry's response and event, and leaves it in the table. */
  lemma DeliverToBlocking(t: Table, m: Inbound, s: nat)
    requires Answers(m, s) && s in t.pending && t.pending[s].waiter.Blocking?
    ensures var r := Deliver(t, m);
      && s in r.pending
      && r.pending[s] == Entry(Blocking(Some(m.frame)), t.pending[s].opcode)
      && s in r.signalled
      && r.resolved == t.resolved
  {
  }

  /** A response for seq `S` removes a deferred entry and resolves its future with the frame. */
  lemma DeliverToDeferred(t: Table, m: Inbound, s: nat)
    requires Answers(m, s) && s in t.pending && t.pending[s].waiter.Deferred?
    ensures var r := Deliver(t, m);
      && r.pending == t.pending - {s}
      && r.resolved == t.resolved[s := m.frame]
      && r.signalled == t.signalled
  {
  }

  /** A response whose seq is not pending (late, orphaned or unknown) changes nothing. */
  lemma DeliverUnknownSeq(t: Table, m: Inbound)
    requires IsResponse(m)
    requires ResponseKey(m.frame).None? || ResponseKey(m.frame).value !in t.pending
    ensures Deliver(t, m) == t
  {
  }

  /** Push events, server errors, other `cmd`s and malformed messages never touch the table. */
  lemma DeliverNonResponse(t: Table, m: Inbound)
    requires !IsResponse(m)
    ensures Deliver(t, m).(events := t.events) == t
    ensures Deliver(t, m).events == t.events + (if IsPush(m) then [m.frame] else [])
  {
  }

  /** The reader handling a run of messages in arrival order. */
  function DeliverAll(t: Table, ms: seq<Inbound>): (r: Table)
    ensures r.pending.Keys <= t.pending.Keys
    ensures BlockingKeys(r.pending) == BlockingKeys(t.pending)
    ensures forall k :: k in r.pending ==> r.pending[k].opcode == t.pending[k].opcode
    ensures r.signalled <= t.signalled + t.pending.Keys
    ensures r.resolved.Keys <= t.resolved.Keys + t.pending.Keys
    ensures SignalConsistent(t) ==> SignalConsistent(r)
    decreases |ms|
  {
    if ms == [] then t else DeliverAll(Deliver(t, ms[0]), ms[1..])
  }

  /** The last message of `ms` that answers `s`. */
  function LastAnswer(ms: seq<Inbound>, s: nat): Option<Frame>
    decreases |ms|
  {
    if ms == [] then None
    else match LastAnswer(ms[1..], s)
      case Some(f) => Some(f)
      case None => if Answers(ms[0], s) then Some(ms[0].frame) else None
  }

  /** The first message of `ms` that answers `s`. */
  function FirstAnswer(ms: seq<Inbound>, s: nat): Option<Frame>
    decreases |ms|
  {
    if ms == [] then None
    else if Answers(ms[0], s) then Some(ms[0].frame)
    else FirstAnswer(ms[1..], s)
  }

  /**
   * While a caller blocks on seq `s`, its entry stays; its event ends up set exactly
   * when some message answered `s`, and the response slot holds the LAST answer:
   * a duplicate response arriving before the waiter wakes overwrites the first.
   */
  lemma {:induction false} DeliverAllBlocking(t: Table, ms: seq<Inbound>, s: nat)
    requires s in t.pending && t.pending[s].waiter.Blocking?
    ensures var r := DeliverAll(t, ms);
      && s in r.pending && r.pending[s].waiter.Blocking?
      && r.pending[s].opcode == t.pending[s].opcode
      && (s in r.signalled <==> s in t.signalled || LastAnswer(ms, s).Some?)
      && r.pending[s].waiter.response ==
           (if LastAnswer(ms, s).Some? then LastAnswer(ms, s) else t.pending[s].waiter.response)
    decreases |ms|
  {
    if ms != [] {
      var t1 := Deliver(t, ms[0]);
      assert s in t1.pending && t1.pending[s].waiter.Blocking?;
      if Answers(ms[0], s) {
        DeliverToBlocking(t, ms[0], s);
      }
      DeliverAllBlocking(t1, ms[1..], s);
    }
  }

  /**
   * While a coroutine waits on seq `s`, the FIRST answer removes its entry and
   * resolves its future; every later answer with the same seq is an orphan and
   * is dropped. Without an answer the entry stays.
   */
  lemma {:induction false} DeliverAllDeferred(t: Table, ms: seq<Inbound>, s: nat)
    requires s in t.pending && t.pending[s].waiter.Deferred?
    ensures var r := DeliverAll(t, ms);
      match FirstAnswer(ms, s)
      case Some(f) => s !in r.pending && s in r.resolved && r.resolved[s] == f
      case None => s in r.pending && r.pending[s] == t.pending[s]
                   && (s in r.resolved <==> s in t.resolved)
                   && (s in t.resolved ==> r.resolved[s] == t.resolved[s])
    decreases |ms|
  {
    if ms != [] {
      var t1 := Deliver(t, ms[0]);
      assert DeliverAll(t, ms) == DeliverAll(t1, ms[1..]);
      if Answers(ms[0], s) {
        assert FirstAnswer(ms, s) == Some(ms[0].frame);
        DeliverToDeferred(t, ms[0], s);
        DeliverAllOrphan(t1, ms[1..], s);
      } else {
        assert FirstAnswer(ms, s) == FirstAnswer(ms[1..], s);
        assert s in t1.pending && t1.pending[s] == t.pending[s];
        assert s in t1.resolved <==> s in t.resolved;
        assert s in t.resolved ==> t1.resolved[s] == t.resolved[s];
        DeliverAllDeferred(t1, ms[1..], s);
      }
    }
  }

  /** Once seq `s` has left the table, no message brings it back or changes its result. */
  lemma {:induction false} DeliverAllOrphan(t: Table, ms: seq<Inbound>, s: nat)
    requires s !in t.pending
    ensures var r := DeliverAll(t, ms);
      && s !in r.pending
      && (s in r.resolved <==> s in t.resolved)
      && (s in t.resolved ==> r.resolved[s] == t.resolved[s])
      && (s in r.signalled <==> s in t.signalled)
    decreases |ms|
  {
    if ms != [] {
      DeliverAllOrphan(Deliver(t, ms[0]), ms[1..], s);
    }
  }

  /** Entries no message answers keep their place and value. */
  lemma {:induction false} DeliverAllUnanswered(t: Table, ms: seq<Inbound>, s: nat)
    requires s in t.pending
    requires forall i :: 0 <= i < |ms| ==> !Answers(ms[i], s)
    ensures s in DeliverAll(t, ms).pending && DeliverAll(t, ms).pending[s] == t.pending[s]
    decreases |ms|
  {
    if ms != [] {
      DeliverAllUnanswered(Deliver(t, ms[0]), ms[1..], s);
    }
  }
}
