/**
 * The request/response bookkeeping of the messenger client (`MaxAPI`): one
 * sequence counter, the table of pending requests, the subscription set, the
 * chats snapshot and the session flags. The socket, the event loop and the
 * threads are replaced by atomic steps: each locked block is one step, a wait
 * is split into the step that registers and the step that wakes up, and the
 * inbound messages the reader thread handles meanwhile are a parameter.
 */
module MaxClient {
  import opened Wrappers
  import opened PyText
  import opened PyJson
  import opened Protocol
  import opened Dispatch
  import opened Auth
  import Backoff

  /** What a command's caller can be told. */
  datatype CallError =
    | NotConnected   // `ConnectionError`: `is_running` was false; no seq consumed
    | TimedOut       // `TimeoutError`
    | Lost           // `RuntimeError`: signalled, but the entry had gone
    | WriteFailed    // the socket write of a deferred command raised

  /** What the client's higher operations can fail with. */
  datatype ClientError =
    | BadChatId                  // `int(chat_id)` raised
    | CallFailed(call: CallError)
    | AuthFailed(auth: AuthError)

  /** The member's `int()` raised before anything was sent. */
  predicate ChatIdRejected<T>(r: Result<T, ClientError>) {
    r.Err? && r.error.BadChatId?
  }

  /**
   * One wait of a deferred command: the messages the reader handles while the
   * coroutine is suspended, and whether its socket write raises.
   */
  datatype Wait = Wait(during: seq<Inbound>, writeFails: bool)

  /**
   * One attempt of the reconnect loop: `websocket_connect` raises, or it connects
   * and the handshake and the authentication commands wait as given.
   */
  datatype Attempt =
    | NoConnection
    | Connects(handshake: Wait, auth: Wait)

  /** Some attempt got as far as connecting (`is_running = True`). */
  predicate Connected(attempts: seq<Attempt>) {
    exists k :: 0 <= k < |attempts| && attempts[k].Connects?
  }

  /** One more attempt has connected exactly when it connects itself, or an earlier one did. */
  lemma AttemptsSnoc(attempts: seq<Attempt>, a: Attempt)
    ensures Connected(attempts + [a]) <==> Connected(attempts) || a.Connects?
  {
    var b := attempts + [a];
    assert b[|attempts|] == a;
    if Connected(attempts) {
      var k :| 0 <= k < |attempts| && attempts[k].Connects?;
      assert b[k] == attempts[k];
    }
    if Connected(b) {
      var k :| 0 <= k < |b| && b[k].Connects?;
      if k < |attempts| {
        assert attempts[k] == b[k];
      }
    }
  }

  /** How one attempt of the reconnect loop ended. */
  datatype AttemptOutcome =
    | Unreachable                       // `websocket_connect` raised
    | HandshakeFailed(call: CallError)  // the handshake command raised
    | AuthRejected(auth: ClientError)   // `_authenticate_async` raised
    | Established                       // handshaken and, with a token, authenticated

  function SubscribePayload(chatId: int, subscribe: bool): Json {
    JObj(map["chatId" := JInt(chatId), "subscribe" := JBool(subscribe)])
  }

  function HeartbeatPayload(): Json {
    JObj(map["interactive" := JBool(false)])
  }

  function AuthPayload(token: string): Json {
    JObj(map["interactive" := JBool(true), "token" := JStr(token),
             "chatsSync" := JInt(0), "contactsSync" := JInt(0), "presenceSync" := JInt(0),
             "draftsSync" := JInt(0), "chatsCount" := JInt(50)])
  }

  /** `self.user_agent`, the device description the handshake carries. */
  function UserAgent(): Json {
    JObj(map["deviceType" := JStr("WEB"), "locale" := JStr("ru"), "deviceLocale" := JStr("ru"),
             "osVersion" := JStr("Windows"), "deviceName" := JStr("Firefox"),
             "headerUserAgent" :=
               JStr("Mozilla/5.0 (Windows NT 10.0; Win64; x64; rv:141.0) Gecko/20100101 Firefox/141.0"),
             "appVersion" := JStr("25.7.13"), "screen" := JStr("1080x1920 1.0x"),
             "timezone" := JStr("Asia/Novosibirsk")])
  }

  /** The handshake's payload: the client's device description and a fixed device id. */
  function HandshakePayload(userAgent: Json): Json {
    JObj(map["userAgent" := userAgent, "deviceId" := JStr("asd")])
  }

  /** `if not self.token`. */
  predicate HasToken(token: Option<string>) {
    token.Some? && token.value != ""
  }

  /** The values of the `Some` entries of `xs`, in order. */
  function Somes<T>(xs: seq<Option<T>>): (r: seq<T>)
    ensures |r| <= |xs|
  {
    if xs == [] then []
    else
      var init := Somes(xs[..|xs| - 1]);
      match xs[|xs| - 1]
      case Some(v) => init + [v]
      case None => init
  }

  lemma {:induction false} SomesAll<T>(xs: seq<Option<T>>)
    requires forall i :: 0 <= i < |xs| ==> xs[i].Some?
    ensures |Somes(xs)| == |xs|
    ensures forall i :: 0 <= i < |xs| ==> Somes(xs)[i] == xs[i].value
  {
    if xs != [] {
      var init := xs[..|xs| - 1];
      assert forall i :: 0 <= i < |init| ==> init[i] == xs[i];
      SomesAll(init);
    }
  }

  lemma {:induction false} SomesMembers<T>(xs: seq<Option<T>>)
    ensures forall v :: v in Somes(xs) <==> Some(v) in xs
  {
    if xs != [] {
      var init := xs[..|xs| - 1];
      assert xs == init + [xs[|xs| - 1]];
      SomesMembers(init);
    }
  }

  /** `int()` of each member of a subscription snapshot. */
  function ParseAll(order: seq<string>): (r: seq<Option<int>>)
    ensures |r| == |order|
  {
    if order == [] then [] else ParseAll(order[..|order| - 1]) + [ParseInt(order[|order| - 1])]
  }

  lemma {:induction false} ParseAllIndex(order: seq<string>)
    ensures forall i :: 0 <= i < |order| ==> ParseAll(order)[i] == ParseInt(order[i])
  {
    if order != [] {
      var init := order[..|order| - 1];
      assert forall i :: 0 <= i < |init| ==> init[i] == order[i];
      ParseAllIndex(init);
    }
  }

  /** The chat ids replay sends, in snapshot order: one per member whose `int()` succeeds. */
  function ReplayIds(order: seq<string>): seq<int> {
    Somes(ParseAll(order))
  }

  /** When every member parses, replay sends exactly one subscribe per member, in order. */
  lemma ReplayIdsAllParse(order: seq<string>)
    requires forall i :: 0 <= i < |order| ==> ParseInt(order[i]).Some?
    ensures |ReplayIds(order)| == |order|
    ensures forall i :: 0 <= i < |order| ==> ReplayIds(order)[i] == ParseInt(order[i]).value
  {
    ParseAllIndex(order);
    SomesAll(ParseAll(order));
  }

  /** Every id replay sends comes from a member that parses, and every such member's id is sent. */
  lemma ReplayIdsMembers(order: seq<string>)
    ensures forall n :: n in ReplayIds(order) <==> Some(n) in ParseAll(order)
  {
    SomesMembers(ParseAll(order));
  }

  lemma SomesSnoc<T>(xs: seq<Option<T>>, x: Option<T>)
    ensures Somes(xs + [x]) == if x.Some? then Somes(xs) + [x.value] else Somes(xs)
  {
    assert (xs + [x])[..|xs|] == xs;
  }

  lemma ParseAllSnoc(order: seq<string>, i: nat, id: Option<int>)
    requires i < |order| && id == ParseInt(order[i])
    ensures ParseAll(order[..i + 1]) == ParseAll(order[..i]) + [id]
  {
    assert order[..i + 1][..i] == order[..i];
  }

  /** The subscribe commands replay issues for `ids`, from seq `s0` on. */
  function ReplayCommands(ids: seq<int>, s0: nat): (r: seq<Envelope>)
    ensures |r| == |ids|
    decreases |ids|
  {
    if ids == [] then []
    else
      var last := |ids| - 1;
      ReplayCommands(ids[..last], s0) + [Command(s0 + last, SUBSCRIBE_TO_CHAT, SubscribePayload(ids[last], true))]
  }

  /** The j-th replay command subscribes to the j-th id under seq `s0 + j`. */
  lemma {:induction false} ReplayCommandsIndex(ids: seq<int>, s0: nat)
    ensures forall j :: 0 <= j < |ids| ==>
      ReplayCommands(ids, s0)[j] == Command(s0 + j, SUBSCRIBE_TO_CHAT, SubscribePayload(ids[j], true))
    decreases |ids|
  {
    if ids != [] {
      var init := ids[..|ids| - 1];
      assert forall j :: 0 <= j < |init| ==> init[j] == ids[j];
      ReplayCommandsIndex(init, s0);
    }
  }

  lemma ReplayCommandsSnoc(ids: seq<int>, n: int, s0: nat)
    ensures ReplayCommands(ids + [n], s0) ==
      ReplayCommands(ids, s0) + [Command(s0 + |ids|, SUBSCRIBE_TO_CHAT, SubscribePayload(n, true))]
  {
    assert (ids + [n])[..|ids|] == ids;
  }

  /** The subscribe command one replayed member issues under seq `n`: none when not running or not parsed. */
  function SubscribeIf(running: bool, id: Option<int>, n: nat): (r: seq<Envelope>)
    ensures |r| <= 1
  {
    if running && id.Some? then [Command(n, SUBSCRIBE_TO_CHAT, SubscribePayload(id.value, true))] else []
  }

  /** The commands replay has issued after the members parsed as `parsed`, from seq `s0` on. */
  function Sent(running: bool, parsed: seq<Option<int>>, s0: nat): (r: seq<Envelope>)
    ensures |r| == if running then |Somes(parsed)| else 0
  {
    if running then ReplayCommands(Somes(parsed), s0) else []
  }

  /** One more member of the snapshot: its command, if any, follows the earlier ones. */
  lemma SentSnoc(running: bool, parsed: seq<Option<int>>, id: Option<int>, s0: nat, n: nat)
    requires running ==> n == s0 + |Somes(parsed)|
    ensures Sent(running, parsed + [id], s0) == Sent(running, parsed, s0) + SubscribeIf(running, id, n)
  {
    if running {
      SomesSnoc(parsed, id);
      ReplayCommandsSnoc(Somes(parsed), id.GetOr(0), s0);
    }
  }

  /** The commands issued so far, followed by one member's subscribe, are the replay commands one member on. */
  lemma SentStep(issued0: seq<Envelope>, s0: nat, running: bool, parsed: seq<Option<int>>, id: Option<int>,
                 mid: seq<Envelope>, after: seq<Envelope>)
    requires |issued0| == s0
    requires mid == issued0 + Sent(running, parsed, s0)
    requires after == mid + SubscribeIf(running, id, |mid|)
    ensures after == issued0 + Sent(running, parsed + [id], s0)
  {
    SentSnoc(running, parsed, id, s0, |mid|);
  }

  /**
   * The table after a blocking `send_command` of `opcode` under seq `s`: the entry is
   * registered, the reader handles `during`, and the entry is popped after the wait.
   */
  function BlockingTable(t: Table, s: nat, opcode: int, during: seq<Inbound>): Table {
    var t1 := DeliverAll(t.(pending := t.pending[s := Entry(Blocking(None), opcode)]), during);
    t1.(pending := t1.pending - {s})
  }

  /** A blocking command leaves no entry behind; its event is set exactly when some message answered it. */
  lemma BlockingEffect(t: Table, s: nat, opcode: int, during: seq<Inbound>)
    requires s !in t.signalled
    ensures var r := BlockingTable(t, s, opcode, during);
      s !in r.pending && (s in r.signalled <==> LastAnswer(during, s).Some?)
  {
    DeliverAllBlocking(t.(pending := t.pending[s := Entry(Blocking(None), opcode)]), during, s);
  }

  /**
   * What `send_command_async` under seq `s` gives its caller while connected: the
   * write's failure, else the first answer to `s` among `w.during`, else a timeout.
   */
  function AsyncResult(s: nat, w: Wait): Result<Frame, CallError> {
    if w.writeFails then Err(WriteFailed)
    else match FirstAnswer(w.during, s)
      case Some(f) => Ok(f)
      case None => Err(TimedOut)
  }

  /**
   * The table after `send_command_async` of `opcode` under seq `s` while connected:
   * a deferred entry is registered, the reader handles `w.during`, and a timeout
   * pops the entry. A failed write propagates before the pop.
   */
  function AsyncTable(t: Table, s: nat, opcode: int, w: Wait): Table {
    var t1 := DeliverAll(t.(pending := t.pending[s := Entry(Deferred, opcode)]), w.during);
    if !w.writeFails && FirstAnswer(w.during, s).None? then t1.(pending := t1.pending - {s}) else t1
  }

  /**
   * What a deferred command leaves under its own seq: once answered, its entry is
   * gone and its future holds the first answer; unanswered, the entry is gone after
   * a timeout but leaks after a failed write. The caller gets a frame exactly when
   * the write went through and the future was resolved.
   */
  lemma AsyncEffect(t: Table, s: nat, opcode: int, w: Wait)
    requires s !in t.resolved
    ensures var r := AsyncTable(t, s, opcode, w);
      && (FirstAnswer(w.during, s).Some? ==>
            s !in r.pending && s in r.resolved && r.resolved[s] == FirstAnswer(w.during, s).value)
      && (FirstAnswer(w.during, s).None? ==> s !in r.resolved && (s in r.pending <==> w.writeFails))
      && (FirstAnswer(w.during, s).None? && w.writeFails ==> r.pending[s] == Entry(Deferred, opcode))
      && (AsyncResult(s, w).Ok? <==> !w.writeFails && s in r.resolved)
      && (AsyncResult(s, w).Ok? ==> AsyncResult(s, w).value == r.resolved[s])
  {
    DeliverAllDeferred(t.(pending := t.pending[s := Entry(Deferred, opcode)]), w.during, s);
  }

  /** What one member of the resubscribe loop ends with, its subscribe taking seq `s`. */
  function ReplayOutcome(running: bool, id: Option<int>, s: nat, w: Wait): Result<Frame, ClientError> {
    if id.None? then Err(BadChatId)
    else if !running then Err(CallFailed(NotConnected))
    else match AsyncResult(s, w)
      case Ok(f) => Ok(f)
      case Err(e) => Err(CallFailed(e))
  }

  /** The table after one member of the resubscribe loop, its subscribe taking seq `s`. */
  function ReplayStepTable(t: Table, running: bool, id: Option<int>, s: nat, w: Wait): Table {
    if running && id.Some? then AsyncTable(t, s, SUBSCRIBE_TO_CHAT, w) else t
  }

  /** The outcomes of the resubscribe loop over members parsed as `parsed`, subscribes from seq `s0` on. */
  function ReplayResults(running: bool, parsed: seq<Option<int>>, waits: seq<Wait>, s0: nat)
    : (r: seq<Result<Frame, ClientError>>)
    requires |waits| == |parsed|
    ensures |r| == |parsed|
    decreases |parsed|
  {
    if parsed == [] then []
    else
      var n := |parsed| - 1;
      ReplayResults(running, parsed[..n], waits[..n], s0)
        + [ReplayOutcome(running, parsed[n], s0 + |Somes(parsed[..n])|, waits[n])]
  }

  /** The table after the resubscribe loop over members parsed as `parsed`, subscribes from seq `s0` on. */
  function ReplayTable(t: Table, running: bool, parsed: seq<Option<int>>, waits: seq<Wait>, s0: nat): Table
    requires |waits| == |parsed|
    decreases |parsed|
  {
    if parsed == [] then t
    else
      var n := |parsed| - 1;
      ReplayStepTable(ReplayTable(t, running, parsed[..n], waits[..n], s0),
                      running, parsed[n], s0 + |Somes(parsed[..n])|, waits[n])
  }

  /**
   * A member's outcome says it was rejected exactly when its `int()` failed: a
   * failed subscribe is reported as that member's call failure, and no failure
   * stops the loop.
   */
  lemma {:induction false} ReplayResultsRejected(running: bool, parsed: seq<Option<int>>, waits: seq<Wait>, s0: nat)
    requires |waits| == |parsed|
    ensures forall k :: 0 <= k < |parsed| ==>
      (ChatIdRejected(ReplayResults(running, parsed, waits, s0)[k]) <==> parsed[k].None?)
    decreases |parsed|
  {
    if parsed != [] {
      var n := |parsed| - 1;
      var init := ReplayResults(running, parsed[..n], waits[..n], s0);
      var all := ReplayResults(running, parsed, waits, s0);
      assert all == init + [ReplayOutcome(running, parsed[n], s0 + |Somes(parsed[..n])|, waits[n])];
      ReplayResultsRejected(running, parsed[..n], waits[..n], s0);
      forall k | 0 <= k < n
        ensures ChatIdRejected(all[k]) <==> parsed[k].None?
      {
        assert all[k] == init[k];
        assert parsed[..n][k] == parsed[k];
      }
    }
  }

  /**
   * One more member of the snapshot, its subscribe taking seq `s` when it is sent:
   * its outcome and its table effect follow the earlier members'.
   */
  lemma ReplaySnoc(t: Table, running: bool, parsed: seq<Option<int>>, id: Option<int>,
                   waits: seq<Wait>, i: nat, s0: nat, s: nat)
    requires |parsed| == i < |waits|
    requires running && id.Some? ==> s == s0 + |Somes(parsed)|
    ensures ReplayResults(running, parsed + [id], waits[..i + 1], s0) ==
      ReplayResults(running, parsed, waits[..i], s0) + [ReplayOutcome(running, id, s, waits[i])]
    ensures ReplayTable(t, running, parsed + [id], waits[..i + 1], s0) ==
      ReplayStepTable(ReplayTable(t, running, parsed, waits[..i], s0), running, id, s, waits[i])
  {
    assert (parsed + [id])[..i] == parsed;
    assert waits[..i + 1][..i] == waits[..i];
    assert ReplayOutcome(running, id, s, waits[i]) == ReplayOutcome(running, id, s0 + |Somes(parsed)|, waits[i]);
  }

  /** What a reconnect attempt can change: the table, the counter, the issued commands, the user and the chats. */
  datatype Session = Session(table: Table, next: nat, issued: seq<Envelope>,
                             user: Option<Json>, chats: map<string, Chat>)

  /** `send_command_async` of `opcode` with `payload` under the session's next seq, while connected. */
  function SendAsync(ss: Session, opcode: int, payload: Json, w: Wait): Session {
    ss.(table := AsyncTable(ss.table, ss.next, opcode, w), next := ss.next + 1,
        issued := ss.issued + [Command(ss.next, opcode, payload)])
  }

  /**
   * `_authenticate_async` after the response arrived: the outcome, then the user and
   * the chats. A rejected or malformed profile changes nothing; once the profile is
   * read the user is stored, and the chats are replaced only when every chat item
   * is read.
   */
  function AuthApplied(response: Frame, user: Option<Json>, chats: map<string, Chat>)
    : (r: (Result<(), ClientError>, Option<Json>, map<string, Chat>))
    ensures ProfileOf(response).Err? ==> r == (Err(AuthFailed(ProfileOf(response).error)), user, chats)
    ensures ProfileOf(response).Ok? ==> r.1 == Some(ProfileOf(response).value.1)
    ensures r.0.Ok? <==>
      && ProfileOf(response).Ok?
      && ChatItems(ProfileOf(response).value.0).Ok?
      && ChatsOf(ChatItems(ProfileOf(response).value.0).value).Ok?
    ensures r.0.Ok? ==> r.2 == ChatsOf(ChatItems(ProfileOf(response).value.0).value).value
    ensures r.0.Err? ==> r.2 == chats && r.0.error.AuthFailed?
  {
    match ProfileOf(response)
    case Err(e) => (Err(AuthFailed(e)), user, chats)
    case Ok((fields, contact)) =>
      match ChatItems(fields)
      case Err(e) => (Err(AuthFailed(e)), Some(contact), chats)
      case Ok(items) =>
        match ChatsOf(items)
        case Err(e) => (Err(AuthFailed(e)), Some(contact), chats)
        case Ok(m) => (Ok(()), Some(contact), m)
  }

  /**
   * `_authenticate_async` while connected, from session `ss`: nothing without a
   * token; otherwise the command under the next seq, then the post-processing of
   * its response. A raise reports the call's failure.
   */
  function Reauth(ss: Session, token: Option<string>, w: Wait): (r: (Result<(), ClientError>, Session))
    ensures r.1.issued == ss.issued + (if HasToken(token) then [Command(ss.next, AUTHENTICATE, AuthPayload(token.value))] else [])
    ensures r.1.next == ss.next + (if HasToken(token) then 1 else 0)
    ensures r.0.Err? ==> r.1.chats == ss.chats
  {
    if !HasToken(token) then (Ok(()), ss)
    else
      var sent := SendAsync(ss, AUTHENTICATE, AuthPayload(token.value), w);
      match AsyncResult(ss.next, w)
      case Err(e) => (Err(CallFailed(e)), sent)
      case Ok(f) =>
        var (a, u, c) := AuthApplied(f, ss.user, ss.chats);
        (a, sent.(user := u, chats := c))
  }

  /**
   * One connected attempt of `_reconnect_async`: the handshake under the session's
   * next seq, then, once it succeeded, the re-authentication; the first raise ends
   * the attempt with what it had changed so far.
   */
  function Establish(ss: Session, token: Option<string>, userAgent: Json, hs: Wait, aw: Wait): (r: (AttemptOutcome, Session))
    ensures r.0 != Unreachable
  {
    var afterHs := SendAsync(ss, HANDSHAKE, HandshakePayload(userAgent), hs);
    match AsyncResult(ss.next, hs)
    case Err(e) => (HandshakeFailed(e), afterHs)
    case Ok(_) =>
      var (a, s2) := Reauth(afterHs, token, aw);
      (if a.Ok? then Established else AuthRejected(a.error), s2)
  }

  /**
   * What a connected attempt sends: the handshake, then the authentication only
   * when there is a token and the handshake succeeded, under consecutive seqs.
   * The chats change only when the attempt is established.
   */
  lemma EstablishSends(ss: Session, token: Option<string>, userAgent: Json, hs: Wait, aw: Wait)
    ensures var (o, s2) := Establish(ss, token, userAgent, hs, aw);
      && (o.HandshakeFailed? <==> AsyncResult(ss.next, hs).Err?)
      && s2.issued == ss.issued + [Command(ss.next, HANDSHAKE, HandshakePayload(userAgent))]
           + (if HasToken(token) && !o.HandshakeFailed? then [Command(ss.next + 1, AUTHENTICATE, AuthPayload(token.value))] else [])
      && s2.next == ss.next + |s2.issued| - |ss.issued|
      && (!o.Established? ==> s2.chats == ss.chats)
  {
    var afterHs := SendAsync(ss, HANDSHAKE, HandshakePayload(userAgent), hs);
    if AsyncResult(ss.next, hs).Ok? {
      var (a, s2) := Reauth(afterHs, token, aw);
      assert Establish(ss, token, userAgent, hs, aw) == (if a.Ok? then Established else AuthRejected(a.error), s2);
    }
  }

  /** One attempt of the retry loop from session `ss`. */
  function Step(ss: Session, token: Option<string>, userAgent: Json, a: Attempt): (r: (AttemptOutcome, Session))
    ensures r.0 == Unreachable <==> a == NoConnection
  {
    match a
    case NoConnection => (Unreachable, ss)
    case Connects(hs, aw) => Establish(ss, token, userAgent, hs, aw)
  }

  /**
   * The attempts of a reconnect episode, attempt by attempt: `sessions[k]` is the
   * session before attempt `k`, `sessions[k + 1]` the one after it, and
   * `outcomes[k]` how it ended.
   */
  ghost predicate Trace(attempts: seq<Attempt>, token: Option<string>, userAgent: Json,
                        outcomes: seq<AttemptOutcome>, sessions: seq<Session>)
  {
    && |outcomes| == |attempts|
    && |sessions| == |attempts| + 1
    && forall k {:trigger Step(sessions[k], token, userAgent, attempts[k])} :: 0 <= k < |attempts| ==>
         (outcomes[k], sessions[k + 1]) == Step(sessions[k], token, userAgent, attempts[k])
  }

  /** A trace extended by one more attempt. */
  lemma TraceSnoc(attempts: seq<Attempt>, token: Option<string>, userAgent: Json, outcomes: seq<AttemptOutcome>,
                  sessions: seq<Session>, a: Attempt, o: AttemptOutcome, ss: Session)
    requires Trace(attempts, token, userAgent, outcomes, sessions)
    requires (o, ss) == Step(sessions[|attempts|], token, userAgent, a)
    ensures Trace(attempts + [a], token, userAgent, outcomes + [o], sessions + [ss])
  {
    var n := |attempts|;
    forall k | 0 <= k <= n
      ensures ((outcomes + [o])[k], (sessions + [ss])[k + 1]) == Step((sessions + [ss])[k], token, userAgent, (attempts + [a])[k])
    {
      if k < n {
        assert (outcomes + [o])[k] == outcomes[k] && (sessions + [ss])[k + 1] == sessions[k + 1];
        assert (sessions + [ss])[k] == sessions[k] && (attempts + [a])[k] == attempts[k];
      }
    }
  }

  class MaxApi {
    /** `seq_counter`: the next seq `next()` hands out; never reset. */
    var seqCounter: nat
    /** `pending_responses`, keyed by seq. */
    var pending: map<nat, Entry>
    /** The seqs whose `threading.Event` has been set. */
    var signalled: set<nat>
    /** The results set on the futures of deferred commands. */
    var resolved: map<nat, Frame>
    /** Push events handed to the event handler, in order. */
    var events: seq<Frame>
    /** Every command handed to the socket, in issue order. */
    var issued: seq<Envelope>
    /** `subscribed_chats`. */
    var subscribedChats: set<string>
    /** `chats`: the snapshot taken at authentication. */
    var chats: map<string, Chat>
    /** `user`: the contact from the last authentication. */
    var user: Option<Json>
    const token: Option<string>
    /** `user_agent`: the device description the handshake sends. */
    const userAgent: Json
    const autoReconnect: bool
    /** `is_running`. */
    var isRunning: bool
    /** `_should_reconnect`. */
    var shouldReconnect: bool
    /** `ioloop is not None`. */
    var loopAlive: bool
    /** Seqs whose `send_command` caller is blocked in `event.wait`. */
    ghost var waiting: set<nat>
    /** Seqs whose `send_command_async` coroutine is suspended. */
    ghost var awaiting: set<nat>

    function Table(): Table
      reads this`pending, this`signalled, this`resolved, this`events
    {
      Dispatch.Table(pending, signalled, resolved, events)
    }

    function State(): Session
      reads this`pending, this`signalled, this`resolved, this`events
      reads this`seqCounter, this`issued, this`user, this`chats
    {
      Session(Table(), seqCounter, issued, user, chats)
    }

    ghost predicate Valid()
      reads this`seqCounter, this`issued, this`pending, this`signalled, this`resolved
      reads this`events, this`waiting, this`awaiting
    {
      && |issued| == seqCounter
      && (forall i :: 0 <= i < |issued| ==> issued[i].seqId == i)
      && (forall s :: s in pending ==> s < seqCounter)
      && (forall s :: s in signalled ==> s < seqCounter)
      && (forall s :: s in resolved ==> s < seqCounter)
      && waiting == BlockingKeys(pending)
      && (forall s :: s in awaiting ==> (s in pending && pending[s].waiter.Deferred?) || s in resolved)
      && SignalConsistent(Table())
    }

    /** Every seq handed out so far was handed out once, in increasing order. */
    lemma SeqsDistinct()
      requires Valid()
      ensures forall i, j :: 0 <= i < j < |issued| ==> issued[i].seqId < issued[j].seqId
    {
    }

    /** The state right after `__init__`'s field assignments; the event loop is started. */
    constructor (token: Option<string>, autoReconnect: bool)
      ensures Valid()
      ensures this.token == token && this.autoReconnect == autoReconnect && userAgent == UserAgent()
      ensures seqCounter == 0 && issued == [] && pending == map[] && signalled == {}
      ensures resolved == map[] && events == [] && waiting == {} && awaiting == {}
      ensures subscribedChats == {} && chats == map[] && user == None
      ensures !isRunning && shouldReconnect && loopAlive
    {
      this.token := token;
      userAgent := UserAgent();
      this.autoReconnect := autoReconnect;
      seqCounter := 0;
      issued := [];
      pending := map[];
      signalled := {};
      resolved := map[];
      events := [];
      subscribedChats := {};
      chats := map[];
      user := None;
      isRunning := false;
      shouldReconnect := true;
      loopAlive := true;
      waiting := {};
      awaiting := {};
    }

    /** Take the next seq and hand the command to the socket. */
    method Issue(opcode: int, payload: Json) returns (s: nat)
      requires Valid()
      modifies this`seqCounter, this`issued
      ensures Valid()
      ensures s == old(seqCounter) && seqCounter == s + 1
      ensures issued == old(issued) + [Command(s, opcode, payload)]
    {
      s := seqCounter;
      seqCounter := seqCounter + 1;
      issued := issued + [Command(s, opcode, payload)];
    }

    /** `send_command` up to the wait: register a blocking entry under a fresh seq, then write. */
    method BeginBlocking(opcode: int, payload: Json) returns (r: Result<nat, CallError>)
      requires Valid()
      modifies this`seqCounter, this`issued, this`pending, this`waiting
      ensures Valid()
      ensures !old(isRunning) ==> r == Err(NotConnected) && seqCounter == old(seqCounter)
                                  && issued == old(issued) && pending == old(pending)
      ensures old(isRunning) ==>
        && r == Ok(old(seqCounter))
        && old(seqCounter) !in old(pending)
        && seqCounter == old(seqCounter) + 1
        && issued == old(issued) + [Command(old(seqCounter), opcode, payload)]
        && pending == old(pending)[old(seqCounter) := Entry(Blocking(None), opcode)]
        && waiting == old(waiting) + {old(seqCounter)}
    {
      if !isRunning {
        return Err(NotConnected);
      }
      var s := Issue(opcode, payload);
      pending := pending[s := Entry(Blocking(None), opcode)];
      waiting := waiting + {s};
      r := Ok(s);
    }

    /**
     * `send_command` after the wait: pop the entry whatever happened, then report a
     * timeout, a lost entry, or the response slot.
     */
    method CompleteBlocking(s: nat) returns (r: Result<Option<Frame>, CallError>)
      requires Valid() && s in waiting
      modifies this`pending, this`waiting
      ensures Valid()
      ensures pending == old(pending) - {s} && waiting == old(waiting) - {s}
      ensures r.Ok? <==> s in old(signalled)
      ensures r.Ok? ==> r.value.Some? && r.value == old(pending)[s].waiter.response
      ensures r.Err? ==> r.error == TimedOut
    {
      var isSet := s in signalled;
      var entry := if s in pending then Some(pending[s]) else None;
      pending := pending - {s};
      waiting := waiting - {s};
      if !isSet {
        return Err(TimedOut);
      }
      if entry.None? {
        return Err(Lost);
      }
      match entry.value.waiter {
        case Blocking(response) => r := Ok(response);
        case Deferred => r := Ok(None);
      }
    }

    /** `_process_message`: the reader's handling of one inbound message. */
    method ProcessMessage(m: Inbound)
      requires Valid()
      modifies this`pending, this`signalled, this`resolved, this`events
      ensures Valid()
      ensures Table() == Deliver(old(Table()), m)
    {
      match m {
        case Malformed =>
        case Parsed(f) =>
          var cmd := NumberValue(f.cmd);
          if cmd == Some(CMD_RESPONSE) {
            var key := ResponseKey(f);
            if key.Some? && key.value in pending {
              var s := key.value;
              var e := pending[s];
              match e.waiter {
                case Blocking(_) =>
                  pending := pending[s := e.(waiter := Blocking(Some(f)))];
                  signalled := signalled + {s};
                case Deferred =>
                  pending := pending - {s};
                  resolved := resolved[s := f];
              }
            }
          } else if cmd == Some(CMD_PUSH) {
            events := events + [f];
          }
      }
    }

    /** The reader handling `ms` in order. */
    method ProcessAll(ms: seq<Inbound>)
      requires Valid()
      modifies this`pending, this`signalled, this`resolved, this`events
      ensures Valid()
      ensures Table() == DeliverAll(old(Table()), ms)
    {
      var i := 0;
      while i < |ms|
        invariant 0 <= i <= |ms|
        invariant Valid()
        invariant DeliverAll(Table(), ms[i..]) == DeliverAll(old(Table()), ms)
        invariant seqCounter == old(seqCounter) && issued == old(issued)
        invariant waiting == old(waiting) && awaiting == old(awaiting)
      {
        assert ms[i..][1..] == ms[i + 1..];
        ProcessMessage(ms[i]);
        i := i + 1;
      }
    }

    /**
     * `send_command`. Fire-and-forget takes a seq and registers nothing. A blocking
     * call registers under its own seq, the reader handles `during` while it waits,
     * and the entry is gone afterwards whether or not it was answered.
     */
    method SendCommand(opcode: int, payload: Json, waitForResponse: bool, during: seq<Inbound>)
      returns (r: Result<Option<Frame>, CallError>)
      requires Valid()
      modifies this`seqCounter, this`issued, this`pending, this`waiting
      modifies this`signalled, this`resolved, this`events
      ensures Valid()
      ensures !old(isRunning) ==> r == Err(NotConnected) && Table() == old(Table())
                                  && seqCounter == old(seqCounter) && issued == old(issued)
      ensures old(isRunning) ==> seqCounter == old(seqCounter) + 1
                                 && issued == old(issued) + [Command(old(seqCounter), opcode, payload)]
      ensures old(isRunning) && !waitForResponse ==> r == Ok(None) && Table() == old(Table())
      ensures old(isRunning) && waitForResponse ==>
        && Table() == BlockingTable(old(Table()), old(seqCounter), opcode, during)
        && (r.Ok? <==> LastAnswer(during, old(seqCounter)).Some?)
        && (r.Ok? ==> r.value == LastAnswer(during, old(seqCounter)))
        && (r.Err? ==> r.error == TimedOut)
    {
      if !waitForResponse {
        if !isRunning {
          return Err(NotConnected);
        }
        var _ := Issue(opcode, payload);
        return Ok(None);
      }
      ghost var t0 := Table();
      var begun := BeginBlocking(opcode, payload);
      if begun.Err? {
        return Err(begun.error);
      }
      var s := begun.value;
      ghost var t1 := Table();
      assert t1 == t0.(pending := t0.pending[s := Entry(Blocking(None), opcode)]);
      assert s !in t1.signalled;
      DeliverAllBlocking(t1, during, s);
      ProcessAll(during);
      var done := CompleteBlocking(s);
      r := done;
    }

    /** `send_command_async` up to the wait: register a deferred entry under a fresh seq, then write. */
    method BeginDeferred(opcode: int, payload: Json) returns (r: Result<nat, CallError>)
      requires Valid()
      modifies this`seqCounter, this`issued, this`pending, this`awaiting
      ensures Valid()
      ensures !old(isRunning) ==> r == Err(NotConnected) && seqCounter == old(seqCounter)
                                  && issued == old(issued) && pending == old(pending)
      ensures old(isRunning) ==>
        && r == Ok(old(seqCounter))
        && old(seqCounter) !in old(pending) && old(seqCounter) !in resolved
        && seqCounter == old(seqCounter) + 1
        && issued == old(issued) + [Command(old(seqCounter), opcode, payload)]
        && pending == old(pending)[old(seqCounter) := Entry(Deferred, opcode)]
        && awaiting == old(awaiting) + {old(seqCounter)}
    {
      if !isRunning {
        return Err(NotConnected);
      }
      var s := Issue(opcode, payload);
      pending := pending[s := Entry(Deferred, opcode)];
      awaiting := awaiting + {s};
      r := Ok(s);
    }

    /**
     * `send_command_async` after the wait: a failed write propagates and leaves the
     * entry in the table; a resolved future gives its frame; otherwise the timeout
     * pops the entry.
     */
    method CompleteDeferred(s: nat, writeFails: bool) returns (r: Result<Frame, CallError>)
      requires Valid() && s in awaiting
      modifies this`pending, this`awaiting
      ensures Valid()
      ensures awaiting == old(awaiting) - {s}
      ensures writeFails ==> r == Err(WriteFailed) && pending == old(pending)
      ensures !writeFails && s in resolved ==> r == Ok(resolved[s]) && pending == old(pending)
      ensures !writeFails && s !in resolved ==> r == Err(TimedOut) && pending == old(pending) - {s}
    {
      awaiting := awaiting - {s};
      if writeFails {
        return Err(WriteFailed);
      }
      if s in resolved {
        return Ok(resolved[s]);
      }
      pending := pending - {s};
      r := Err(TimedOut);
    }

    /**
     * The wait of `send_command_async` on seq `s`, registered with `opcode` over the
     * table `t0`, the reader handling `w.during` meanwhile.
     */
    method AwaitDeferred(s: nat, w: Wait, ghost t0: Table, ghost opcode: int) returns (r: Result<Frame, CallError>)
      requires Valid() && s in awaiting && s !in resolved
      requires Table() == t0.(pending := t0.pending[s := Entry(Deferred, opcode)])
      modifies this`pending, this`awaiting, this`signalled, this`resolved, this`events
      ensures Valid()
      ensures r == AsyncResult(s, w)
      ensures Table() == AsyncTable(t0, s, opcode, w)
    {
      DeliverAllDeferred(Table(), w.during, s);
      ProcessAll(w.during);
      assert s in resolved <==> FirstAnswer(w.during, s).Some?;
      r := CompleteDeferred(s, w.writeFails);
    }

    /** `send_command_async` as one call, the reader handling `w.during` meanwhile. */
    method SendCommandAsync(opcode: int, payload: Json, w: Wait) returns (r: Result<Frame, CallError>)
      requires Valid()
      modifies this`seqCounter, this`issued, this`pending, this`awaiting
      modifies this`signalled, this`resolved, this`events
      ensures Valid()
      ensures !old(isRunning) ==> r == Err(NotConnected) && State() == old(State())
      ensures old(isRunning) ==>
        && r == AsyncResult(old(seqCounter), w)
        && State() == SendAsync(old(State()), opcode, payload, w)
    {
      ghost var t0 := Table();
      var begun := BeginDeferred(opcode, payload);
      if begun.Err? {
        return Err(begun.error);
      }
      var s := begun.value;
      r := AwaitDeferred(s, w, t0, opcode);
    }

    /**
     * `subscribe_to_chat`: the set changes only after the command returns, and only
     * by `str(chat_id)`.
     */
    method SubscribeToChat(chatId: Json, subscribe: bool, during: seq<Inbound>)
      returns (r: Result<Option<Frame>, ClientError>)
      requires Valid()
      modifies this`seqCounter, this`issued, this`pending, this`waiting
      modifies this`signalled, this`resolved, this`events, this`subscribedChats
      ensures Valid()
      ensures PyInt(chatId).None? ==>
        r == Err(BadChatId) && Table() == old(Table()) && issued == old(issued)
        && subscribedChats == old(subscribedChats)
      ensures PyInt(chatId).Some? && !old(isRunning) ==>
        r == Err(CallFailed(NotConnected)) && Table() == old(Table()) && issued == old(issued)
      ensures PyInt(chatId).Some? && old(isRunning) ==>
        && issued == old(issued) + [Command(old(seqCounter), SUBSCRIBE_TO_CHAT,
                                            SubscribePayload(PyInt(chatId).value, subscribe))]
        && Table() == BlockingTable(old(Table()), old(seqCounter), SUBSCRIBE_TO_CHAT, during)
        && (r.Ok? ==> r.value == LastAnswer(during, old(seqCounter)))
        && (r.Err? ==> r.error == CallFailed(TimedOut))
      ensures r.Ok? <==> PyInt(chatId).Some? && old(isRunning) && LastAnswer(during, old(seqCounter)).Some?
      ensures r.Ok? ==> PyStr(chatId).Some? && subscribedChats ==
                          if subscribe then old(subscribedChats) + {PyStr(chatId).value}
                          else old(subscribedChats) - {PyStr(chatId).value}
      ensures r.Err? ==> subscribedChats == old(subscribedChats)
    {
      var n := PyInt(chatId);
      if n.None? {
        return Err(BadChatId);
      }
      var response := SendCommand(SUBSCRIBE_TO_CHAT, SubscribePayload(n.value, subscribe), true, during);
      if response.Err? {
        return Err(CallFailed(response.error));
      }
      PyIntHasPyStr(chatId);
      var key := PyStr(chatId).value;
      if subscribe {
        subscribedChats := subscribedChats + {key};
      } else {
        subscribedChats := subscribedChats - {key};
      }
      r := Ok(response.value);
    }

    /** `_send_heartbeat`: a fire-and-forget keepalive that still takes a seq. */
    method Heartbeat()
      requires Valid()
      modifies this`seqCounter, this`issued
      ensures Valid()
      ensures old(isRunning) ==> issued == old(issued) + [Command(old(seqCounter), HEARTBEAT, HeartbeatPayload())]
                                 && seqCounter == old(seqCounter) + 1
      ensures !old(isRunning) ==> issued == old(issued) && seqCounter == old(seqCounter)
    {
      if !isRunning {
        return;
      }
      var _ := Issue(HEARTBEAT, HeartbeatPayload());
    }

    /** `close`: forbid reconnecting and stop; pending requests are not cancelled. */
    method Close()
      modifies this`shouldReconnect, this`isRunning, this`loopAlive
      ensures !old(isRunning) && !old(loopAlive) ==>
        shouldReconnect == old(shouldReconnect) && !isRunning && !loopAlive
      ensures old(isRunning) || old(loopAlive) ==> !shouldReconnect && !isRunning && !loopAlive
    {
      if !isRunning && !loopAlive {
        return;
      }
      shouldReconnect := false;
      isRunning := false;
      loopAlive := false;
    }

    /** The part of `_authenticate_async` after the response: check it, then store user and chats. */
    method ApplyAuthResponse(response: Frame) returns (r: Result<(), ClientError>)
      modifies this`user, this`chats
      ensures (r, user, chats) == AuthApplied(response, old(user), old(chats))
    {
      var profile := ProfileOf(response);
      if profile.Err? {
        return Err(AuthFailed(profile.error));
      }
      var (fields, contact) := profile.value;
      user := Some(contact);
      var items := ChatItems(fields);
      if items.Err? {
        return Err(AuthFailed(items.error));
      }
      var built := BuildChats(items.value);
      if built.Err? {
        return Err(AuthFailed(built.error));
      }
      chats := built.value;
      r := Ok(());
    }

    /**
     * `_authenticate_async`: nothing without a token; otherwise send the command
     * under the next seq, then post-process its response.
     */
    method Authenticate(w: Wait) returns (r: Result<(), ClientError>)
      requires Valid()
      modifies this`seqCounter, this`issued, this`pending, this`awaiting
      modifies this`signalled, this`resolved, this`events, this`user, this`chats
      ensures Valid()
      ensures !HasToken(token) ==> r == Ok(()) && State() == old(State())
      ensures HasToken(token) && !old(isRunning) ==> r == Err(CallFailed(NotConnected)) && State() == old(State())
      ensures old(isRunning) ==> (r, State()) == Reauth(old(State()), token, w)
    {
      if !HasToken(token) {
        return Ok(());
      }
      var response := SendCommandAsync(AUTHENTICATE, AuthPayload(token.value), w);
      if response.Err? {
        return Err(CallFailed(response.error));
      }
      r := ApplyAuthResponse(response.value);
    }

    /** One member of the resubscribe loop: `int()` it, then subscribe, catching any failure. */
    method ReplayOne(c: string, w: Wait) returns (outcome: Result<Frame, ClientError>, id: Option<int>)
      requires Valid()
      modifies this`seqCounter, this`issued, this`pending, this`awaiting
      modifies this`signalled, this`resolved, this`events
      ensures Valid()
      ensures id == ParseInt(c)
      ensures outcome == ReplayOutcome(old(isRunning), id, old(seqCounter), w)
      ensures issued == old(issued) + SubscribeIf(old(isRunning), id, old(seqCounter))
      ensures Table() == ReplayStepTable(old(Table()), old(isRunning), id, old(seqCounter), w)
    {
      id := ParseInt(c);
      if id.None? {
        return Err(BadChatId), id;
      }
      var sent := SendCommandAsync(SUBSCRIBE_TO_CHAT, SubscribePayload(id.value, true), w);
      outcome := if sent.Ok? then Ok(sent.value) else Err(CallFailed(sent.error));
    }

    /**
     * The replay loop's state after the first `i` members of `order`: `parsed` holds
     * their `int()`, `results` their outcomes, and the commands issued and the table
     * are those the subscribes of the members that parsed leave behind.
     */
    ghost predicate ReplayedSoFar(order: seq<string>, waits: seq<Wait>, i: nat, parsed: seq<Option<int>>,
                                  results: seq<Result<Frame, ClientError>>,
                                  issued0: seq<Envelope>, s0: nat, t0: Table, running: bool)
      reads this
    {
      && Valid()
      && i <= |order| == |waits|
      && parsed == ParseAll(order[..i])
      && results == ReplayResults(running, parsed, waits[..i], s0)
      && isRunning == running
      && |issued0| == s0
      && issued == issued0 + Sent(running, parsed, s0)
      && Table() == ReplayTable(t0, running, parsed, waits[..i], s0)
    }

    /** One iteration of the replay loop. */
    method ReplayNext(order: seq<string>, waits: seq<Wait>, i: nat, ghost parsed: seq<Option<int>>,
                      results: seq<Result<Frame, ClientError>>,
                      ghost issued0: seq<Envelope>, ghost s0: nat, ghost t0: Table, ghost running: bool)
      returns (ghost parsed': seq<Option<int>>, results': seq<Result<Frame, ClientError>>)
      requires i < |order|
      requires ReplayedSoFar(order, waits, i, parsed, results, issued0, s0, t0, running)
      modifies this`seqCounter, this`issued, this`pending, this`awaiting
      modifies this`signalled, this`resolved, this`events
      ensures ReplayedSoFar(order, waits, i + 1, parsed', results', issued0, s0, t0, running)
    {
      ghost var mid := issued;
      ghost var s := seqCounter;
      assert running ==> s == s0 + |Somes(parsed)|;
      var outcome, id := ReplayOne(order[i], waits[i]);
      ParseAllSnoc(order, i, id);
      SentStep(issued0, s0, running, parsed, id, mid, issued);
      ReplaySnoc(t0, running, parsed, id, waits, i, s0, s);
      parsed' := parsed + [id];
      results' := results + [outcome];
    }

    /**
     * The resubscribe loop of `_reconnect_async` over a snapshot of `subscribed_chats`:
     * every member is attempted, each failure is caught on its own, and the set is
     * left as it was.
     */
    method ReplaySubscriptions(order: seq<string>, waits: seq<Wait>)
      returns (results: seq<Result<Frame, ClientError>>)
      requires Valid()
      requires |waits| == |order|
      requires forall i, j :: 0 <= i < j < |order| ==> order[i] != order[j]
      requires forall c :: c in order <==> c in subscribedChats
      modifies this`seqCounter, this`issued, this`pending, this`awaiting
      modifies this`signalled, this`resolved, this`events
      ensures Valid()
      ensures results == ReplayResults(old(isRunning), ParseAll(order), waits, old(seqCounter))
      ensures old(isRunning) ==> issued == old(issued) + ReplayCommands(ReplayIds(order), old(seqCounter))
      ensures !old(isRunning) ==> issued == old(issued)
      ensures Table() == ReplayTable(old(Table()), old(isRunning), ParseAll(order), waits, old(seqCounter))
    {
      results := [];
      ghost var parsed: seq<Option<int>> := [];
      assert order[..0] == [] && waits[..0] == [];
      assert old(issued) + Sent(isRunning, parsed, seqCounter) == old(issued);
      var i := 0;
      while i < |order|
        invariant 0 <= i <= |order|
        invariant ReplayedSoFar(order, waits, i, parsed, results, old(issued), old(seqCounter), old(Table()), old(isRunning))
      {
        parsed, results := ReplayNext(order, waits, i, parsed, results,
                                      old(issued), old(seqCounter), old(Table()), old(isRunning));
        i := i + 1;
      }
      assert order[..i] == order && waits[..i] == waits;
      assert results == ReplayResults(old(isRunning), ParseAll(order), waits, old(seqCounter));
    }

    /** `websocket_connect` resolved: `is_running = True`. */
    method OnConnected()
      modifies this`isRunning
      ensures isRunning
    {
      isRunning := true;
    }

    /**
     * One connected attempt of `_reconnect_async`: `is_running = True`, the handshake,
     * then, with a token, the re-authentication.
     */
    method TryConnect(hs: Wait, aw: Wait) returns (outcome: AttemptOutcome)
      requires Valid()
      modifies this`seqCounter, this`issued, this`pending, this`awaiting
      modifies this`signalled, this`resolved, this`events, this`user, this`chats, this`isRunning
      ensures Valid() && isRunning
      ensures (outcome, State()) == Establish(old(State()), token, userAgent, hs, aw)
    {
      OnConnected();
      var handshake := SendCommandAsync(HANDSHAKE, HandshakePayload(userAgent), hs);
      if handshake.Err? {
        return HandshakeFailed(handshake.error);
      }
      var auth := Authenticate(aw);
      outcome := if auth.Ok? then Established else AuthRejected(auth.error);
    }

    /** The retry loop's state after the first `i` attempts of an episode that began in session `ss0`. */
    ghost predicate AttemptedSoFar(attempts: seq<Attempt>, i: nat, outcomes: seq<AttemptOutcome>,
                                   sessions: seq<Session>, ss0: Session)
      reads this
    {
      && Valid()
      && i <= |attempts|
      && Trace(attempts[..i], token, userAgent, outcomes, sessions)
      && sessions[0] == ss0
      && sessions[i] == State()
      && (isRunning <==> Connected(attempts[..i]))
    }

    /** One attempt of the retry loop, after the sleep. */
    method AttemptNext(attempts: seq<Attempt>, i: nat, outcomes: seq<AttemptOutcome>,
                       ghost sessions: seq<Session>, ghost ss0: Session)
      returns (outcome: AttemptOutcome, ghost sessions': seq<Session>)
      requires i < |attempts|
      requires AttemptedSoFar(attempts, i, outcomes, sessions, ss0)
      modifies this`seqCounter, this`issued, this`pending, this`awaiting
      modifies this`signalled, this`resolved, this`events, this`user, this`chats, this`isRunning
      ensures AttemptedSoFar(attempts, i + 1, outcomes + [outcome], sessions', ss0)
      ensures outcome != Unreachable ==> isRunning
    {
      assert attempts[..i + 1] == attempts[..i] + [attempts[i]];
      AttemptsSnoc(attempts[..i], attempts[i]);
      match attempts[i] {
        case NoConnection =>
          outcome := Unreachable;
        case Connects(hs, aw) =>
          outcome := TryConnect(hs, aw);
      }
      TraceSnoc(attempts[..i], token, userAgent, outcomes, sessions, attempts[i], outcome, State());
      sessions' := sessions + [State()];
    }

    /** The backoff delays slept before the first `i` attempts of an episode. */
    ghost predicate DelaysSoFar(delays: seq<nat>, i: nat) {
      && |delays| == i
      && forall k :: 0 <= k < i ==> delays[k] == Backoff.DelayBeforeAttempt(k + 1)
    }

    /** One iteration of the retry loop: sleep, attempt, and unless established double the delay. */
    method RetryNext(attempts: seq<Attempt>, i: nat, delays: seq<nat>, delay: nat,
                     outcomes: seq<AttemptOutcome>, ghost sessions: seq<Session>, ghost ss0: Session)
      returns (delays': seq<nat>, delay': nat, outcomes': seq<AttemptOutcome>, ghost sessions': seq<Session>)
      requires i < |attempts|
      requires AttemptedSoFar(attempts, i, outcomes, sessions, ss0)
      requires DelaysSoFar(delays, i) && delay == Backoff.DelayBeforeAttempt(i + 1)
      modifies this`seqCounter, this`issued, this`pending, this`awaiting
      modifies this`signalled, this`resolved, this`events, this`user, this`chats, this`isRunning
      ensures AttemptedSoFar(attempts, i + 1, outcomes', sessions', ss0)
      ensures DelaysSoFar(delays', i + 1) && delay' == Backoff.DelayBeforeAttempt(i + 2)
      ensures outcomes'[..i] == outcomes
      ensures outcomes'[i] != Unreachable ==> isRunning
    {
      delays' := delays + [delay];
      var outcome;
      outcome, sessions' := AttemptNext(attempts, i, outcomes, sessions, ss0);
      outcomes' := outcomes + [outcome];
      assert outcomes'[..i] == outcomes;
      Backoff.NextDelayStep(i + 1);
      delay' := Backoff.NextDelay(delay);
    }

    /**
     * What the retry loop of `_reconnect_async` promises about an episode over
     * `attempts` that began in session `ss0`: the backoff delays slept before the
     * attempts made, the trace of those attempts, the stop at the first established
     * one, and that every attempt was made unless the flags forbade reconnecting.
     */
    ghost predicate Retried(attempts: seq<Attempt>, delays: seq<nat>, outcomes: seq<AttemptOutcome>,
                            found: bool, sessions: seq<Session>, ss0: Session)
      reads this`shouldReconnect, this`isRunning
    {
      && |delays| <= |attempts|
      && (forall k :: 0 <= k < |delays| ==> delays[k] == Backoff.DelayBeforeAttempt(k + 1))
      && Trace(attempts[..|delays|], token, userAgent, outcomes, sessions)
      && sessions[0] == ss0
      && (isRunning <==> Connected(attempts[..|delays|]))
      && (!(shouldReconnect && autoReconnect) ==> delays == [] && !found)
      && (found <==> Established in outcomes)
      && (found ==> outcomes[|outcomes| - 1] == Established && Established !in outcomes[..|outcomes| - 1])
      && (!found && shouldReconnect && autoReconnect ==> |delays| == |attempts|)
    }

    /**
     * The retry loop of `_reconnect_async`: stop, then try `attempts` in turn,
     * sleeping the backoff delay before each, until one is established or the
     * flags forbid reconnecting. The delay is a local that starts at 2 in every
     * episode. `sessions` traces the session from attempt to attempt.
     */
    method RetryAttempts(attempts: seq<Attempt>)
      returns (delays: seq<nat>, outcomes: seq<AttemptOutcome>, found: bool, ghost sessions: seq<Session>)
      requires Valid()
      modifies this`seqCounter, this`issued, this`pending, this`awaiting
      modifies this`signalled, this`resolved, this`events, this`user, this`chats, this`isRunning
      ensures Valid()
      ensures Retried(attempts, delays, outcomes, found, sessions, old(State()))
      ensures State() == sessions[|delays|]
      ensures found ==> isRunning
    {
      isRunning := false;
      var delay: nat := Backoff.INITIAL_DELAY;
      Backoff.FirstDelay();
      delays := [];
      outcomes := [];
      found := false;
      sessions := [State()];
      assert attempts[..0] == [];
      var i := 0;
      while shouldReconnect && autoReconnect && i < |attempts|
        invariant 0 <= i <= |attempts|
        invariant !found
        invariant i == 0 || (shouldReconnect && autoReconnect)
        invariant AttemptedSoFar(attempts, i, outcomes, sessions, old(State()))
        invariant DelaysSoFar(delays, i) && delay == Backoff.DelayBeforeAttempt(i + 1)
        invariant Established !in outcomes
      {
        ghost var before := outcomes;
        delays, delay, outcomes, sessions := RetryNext(attempts, i, delays, delay, outcomes, sessions, old(State()));
        i := i + 1;
        if outcomes[i - 1] == Established {
          assert outcomes[..i - 1] == before;
          found := true;
          break;
        }
        assert outcomes == before + [outcomes[i - 1]];
      }
      if !found && i == |attempts| {
        assert attempts[..i] == attempts;
      }
    }

    /**
     * `_reconnect_async`: the retry loop, then, once an attempt is established, the
     * replay of the subscriptions from the session the last attempt left.
     */
    method Reconnect(attempts: seq<Attempt>, order: seq<string>, waits: seq<Wait>)
      returns (delays: seq<nat>, outcomes: seq<AttemptOutcome>, reconnected: bool, ghost sessions: seq<Session>)
      requires Valid()
      requires |waits| == |order|
      requires forall i, j :: 0 <= i < j < |order| ==> order[i] != order[j]
      requires forall c :: c in order <==> c in subscribedChats
      modifies this`seqCounter, this`issued, this`pending, this`awaiting
      modifies this`signalled, this`resolved, this`events, this`user, this`chats, this`isRunning
      ensures Valid()
      ensures Retried(attempts, delays, outcomes, reconnected, sessions, old(State()))
      ensures !reconnected ==> State() == sessions[|delays|]
      ensures reconnected ==>
        var ss := sessions[|delays|];
        && user == ss.user && chats == ss.chats
        && issued == ss.issued + ReplayCommands(ReplayIds(order), ss.next)
        && Table() == ReplayTable(ss.table, true, ParseAll(order), waits, ss.next)
    {
      delays, outcomes, reconnected, sessions := RetryAttempts(attempts);
      if reconnected {
        ghost var ss := State();
        var _ := ReplaySubscriptions(order, waits);
        assert Table() == ReplayTable(ss.table, true, ParseAll(order), waits, ss.next);
      }
    }
  }
}
