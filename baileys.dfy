/** bot-baileys.js: the conversation engine run over the `userSessions` Map,
    messages arriving in `messages.upsert` batches, and the reconnection policy
    driven by `connection.update` with its global `reconnectAttempts` counter. */
module BaileysBot {
  import opened JsText
  import opened Choices
  import opened Leads
  import opened Conversation

  /** `MAX_RECONNECT_ATTEMPTS` */
  const MaxReconnectAttempts: nat := 5

  /** The keyword groups `handleMessage` tests in `menu_principal`. */
  const BaileysKeywords := Keywords(["precio", "costo"], ["horario"], ["ubicacion", "direccion"])

  // ---------------------------------------------------------------------
  // getDisconnectReason
  // ---------------------------------------------------------------------

  /** The `DisconnectReason.*` constants of the Baileys library the table is
      keyed on; their values belong to the library, so they are parameters. */
  datatype LibraryCodes = LibraryCodes(
    badSession: int, connectionClosed: int, connectionLost: int, connectionReplaced: int,
    loggedOut: int, restartRequired: int, timedOut: int)

  /** The `reasons` object literal read at `code`. When two entries have the same
      key the one written later replaces the earlier, so the entries are tested
      from the last one up: the seven literal codes first, then the library's
      constants from `timedOut` back to `badSession`. */
  function ReasonEntry(lib: LibraryCodes, code: int): Option<string> {
    if code == 503 then Some("Servicio no disponible - Intenta más tarde")
    else if code == 500 then Some("Error interno de WhatsApp")
    else if code == 440 then Some("Sesión expirada")
    else if code == 428 then Some("Conexión perdida")
    else if code == 411 then Some("Conflicto de múltiples dispositivos")
    else if code == 408 then Some("Timeout - Verifica tu conexión a internet")
    else if code == 401 then Some("No autorizado - Escanea el QR nuevamente")
    else if code == lib.timedOut then Some("Tiempo de espera agotado - Verifica tu conexión")
    else if code == lib.restartRequired then Some("Reinicio requerido")
    else if code == lib.loggedOut then Some("Sesión cerrada desde WhatsApp - Escanea QR nuevamente")
    else if code == lib.connectionReplaced then Some("Otra sesión se conectó en este número")
    else if code == lib.connectionLost then Some("Conexión perdida - Verifica tu internet")
    else if code == lib.connectionClosed then Some("Conexión cerrada - Reintentando")
    else if code == lib.badSession then Some("Sesión corrupta - Elimina auth_info_baileys")
    else None
  }

  /** The codes with an entry: the seven library constants and the seven literals. */
  function ListedCodes(lib: LibraryCodes): set<int> {
    {lib.badSession, lib.connectionClosed, lib.connectionLost, lib.connectionReplaced,
     lib.loggedOut, lib.restartRequired, lib.timedOut, 401, 408, 411, 428, 440, 500, 503}
  }

  function UnknownReason(code: int): string {
    "Error desconocido (" + IntToString(code) + ")"
  }

  /** `getDisconnectReason(statusCode)`: `reasons[statusCode] || ...`. Every label
      is a non-empty literal and a numeric key never meets an inherited member,
      so the `||` falls through exactly for the codes without an entry. */
  function DisconnectReason(lib: LibraryCodes, code: int): (r: string)
    ensures code in ListedCodes(lib) ==> ReasonEntry(lib, code).Some? && r == ReasonEntry(lib, code).value
    ensures code !in ListedCodes(lib) ==> r == UnknownReason(code)
  {
    var entry := ReasonEntry(lib, code);
    if entry.Some? then entry.value else UnknownReason(code)
  }

  /** The literal codes keep their own labels whatever the library's constants
      are: they come later in the object literal. */
  lemma LiteralCodesWin(lib: LibraryCodes)
    ensures DisconnectReason(lib, 401) == "No autorizado - Escanea el QR nuevamente"
    ensures DisconnectReason(lib, 408) == "Timeout - Verifica tu conexión a internet"
    ensures DisconnectReason(lib, 411) == "Conflicto de múltiples dispositivos"
    ensures DisconnectReason(lib, 428) == "Conexión perdida"
    ensures DisconnectReason(lib, 440) == "Sesión expirada"
    ensures DisconnectReason(lib, 500) == "Error interno de WhatsApp"
    ensures DisconnectReason(lib, 503) == "Servicio no disponible - Intenta más tarde"
  {
  }

  // Each library constant keeps its own label unless a literal code or a library
  // constant written after it in the object literal has the same value.

  lemma TimedOutLabel(lib: LibraryCodes)
    requires lib.timedOut !in {401, 408, 411, 428, 440, 500, 503}
    ensures DisconnectReason(lib, lib.timedOut) == "Tiempo de espera agotado - Verifica tu conexión"
  {
  }

  lemma RestartRequiredLabel(lib: LibraryCodes)
    requires lib.restartRequired !in {401, 408, 411, 428, 440, 500, 503, lib.timedOut}
    ensures DisconnectReason(lib, lib.restartRequired) == "Reinicio requerido"
  {
  }

  lemma LoggedOutLabel(lib: LibraryCodes)
    requires lib.loggedOut !in {401, 408, 411, 428, 440, 500, 503, lib.timedOut, lib.restartRequired}
    ensures DisconnectReason(lib, lib.loggedOut) == "Sesión cerrada desde WhatsApp - Escanea QR nuevamente"
  {
  }

  lemma ConnectionReplacedLabel(lib: LibraryCodes)
    requires lib.connectionReplaced !in {401, 408, 411, 428, 440, 500, 503, lib.timedOut, lib.restartRequired, lib.loggedOut}
    ensures DisconnectReason(lib, lib.connectionReplaced) == "Otra sesión se conectó en este número"
  {
  }

  lemma ConnectionLostLabel(lib: LibraryCodes)
    requires lib.connectionLost !in {401, 408, 411, 428, 440, 500, 503, lib.timedOut,
                      lib.restartRequired, lib.loggedOut, lib.connectionReplaced}
    ensures DisconnectReason(lib, lib.connectionLost) == "Conexión perdida - Verifica tu internet"
  {
  }

  lemma ConnectionClosedLabel(lib: LibraryCodes)
    requires lib.connectionClosed !in {401, 408, 411, 428, 440, 500, 503, lib.timedOut,
                      lib.restartRequired, lib.loggedOut, lib.connectionReplaced, lib.connectionLost}
    ensures DisconnectReason(lib, lib.connectionClosed) == "Conexión cerrada - Reintentando"
  {
  }

  lemma BadSessionLabel(lib: LibraryCodes)
    requires lib.badSession !in {401, 408, 411, 428, 440, 500, 503, lib.timedOut,
                      lib.restartRequired, lib.loggedOut, lib.connectionReplaced, lib.connectionLost, lib.connectionClosed}
    ensures DisconnectReason(lib, lib.badSession) == "Sesión corrupta - Elimina auth_info_baileys"
  {
  }

  /** A shadowed constant takes the later entry's label: with `badSession` equal
      to `timedOut`, the code gets `timedOut`'s text. */
  lemma ShadowedConstantTakesLaterLabel(lib: LibraryCodes)
    requires lib.badSession == lib.timedOut && lib.timedOut !in {401, 408, 411, 428, 440, 500, 503}
    ensures DisconnectReason(lib, lib.badSession) == "Tiempo de espera agotado - Verifica tu conexión"
  {
  }

  /** The fallback text names the code: two unlisted codes never share it. */
  lemma UnknownReasonNamesTheCode(lib: LibraryCodes, a: int, b: int)
    requires a !in ListedCodes(lib) && b !in ListedCodes(lib)
    requires DisconnectReason(lib, a) == DisconnectReason(lib, b)
    ensures a == b
  {
    var p := "Error desconocido (";
    var ra, rb := UnknownReason(a), UnknownReason(b);
    assert |IntToString(a)| == |IntToString(b)|;
    assert IntToString(a) == ra[|p|..|ra| - 1];
    assert IntToString(b) == rb[|p|..|rb| - 1];
    IntToStringInjective(a, b);
  }

  // ---------------------------------------------------------------------
  // The connection.update handler
  // ---------------------------------------------------------------------

  /** `update.connection` */
  datatype Connection = Close | Open | Connecting | Absent

  /** `update.lastDisconnect?.error`: a Boom error carries an optional
      `output.statusCode`; any other error yields a null code. */
  datatype LastError = NoError | Boom(statusCode: Option<int>) | OtherError

  datatype Update = Update(connection: Connection, lastError: LastError)

  /** What the handler leaves behind: nothing, a `setTimeout(startBot, ms)`, or
      `process.exit(code)`. */
  datatype Action = NoAction | ReconnectAfter(ms: nat) | Fatal(code: int)

  datatype Reaction = Reaction(attempts: nat, action: Action)

  /** `statusCode`: the Boom status code, or null/undefined. */
  function StatusCode(e: LastError): Option<int> {
    if e.Boom? then e.statusCode else None
  }

  /** `Math.min(reconnectAttempts * 2, 10)` seconds. */
  function WaitSeconds(attempts: nat): (w: nat)
    ensures w <= 10 && w <= 2 * attempts
    ensures attempts <= 5 ==> w == 2 * attempts
  {
    if attempts * 2 < 10 then attempts * 2 else 10
  }

  /** The handler on one update, from the counter `attempts`. */
  function OnUpdate(lib: LibraryCodes, attempts: nat, u: Update): (r: Reaction)
    ensures r.action.ReconnectAfter? <==>
      u.connection == Close && StatusCode(u.lastError) != Some(lib.loggedOut) && attempts < MaxReconnectAttempts
    ensures r.action.ReconnectAfter? ==>
      r.attempts == attempts + 1 && r.action.ms == 2000 * r.attempts && 2000 <= r.action.ms <= 10000
    ensures r.action.Fatal? <==>
      u.connection == Close && (StatusCode(u.lastError) == Some(lib.loggedOut) || attempts >= MaxReconnectAttempts)
    ensures r.action.Fatal? ==> r.action.code == 1
    ensures u.connection == Open ==> r.attempts == 0
    ensures u.connection in {Connecting, Absent} ==> r == Reaction(attempts, NoAction)
  {
    match u.connection
    case Close =>
      if StatusCode(u.lastError) == Some(lib.loggedOut) then Reaction(attempts, Fatal(1))
      else
        var n := attempts + 1;
        if n <= MaxReconnectAttempts then Reaction(n, ReconnectAfter(WaitSeconds(n) * 1000))
        else Reaction(n, Fatal(1))
    case Open => Reaction(0, NoAction)
    case Connecting => Reaction(attempts, NoAction)
    case Absent => Reaction(attempts, NoAction)
  }

  /** A close that triggers the retry branch. */
  predicate Dropped(lib: LibraryCodes, u: Update) {
    u.connection == Close && StatusCode(u.lastError) != Some(lib.loggedOut)
  }

  datatype Trace = Trace(attempts: nat, actions: seq<Action>)

  /** A run of updates; the process ends at the first `process.exit`. */
  function Supervise(lib: LibraryCodes, attempts: nat, updates: seq<Update>): Trace
    decreases |updates|
  {
    if updates == [] then Trace(attempts, [])
    else
      var r := OnUpdate(lib, attempts, updates[0]);
      if r.action.Fatal? then Trace(r.attempts, [r.action])
      else
        var t := Supervise(lib, r.attempts, updates[1..]);
        Trace(t.attempts, [r.action] + t.actions)
  }

  /** A close whose code is `loggedOut` never schedules a reconnect: it is fatal
      at once and leaves the counter where it was. */
  lemma LoggedOutIsFatal(lib: LibraryCodes, attempts: nat, e: LastError)
    requires StatusCode(e) == Some(lib.loggedOut)
    ensures OnUpdate(lib, attempts, Update(Close, e)) == Reaction(attempts, Fatal(1))
  {
  }

  /** Every other close counts, including one without a Boom error. */
  lemma OtherClosesCount(lib: LibraryCodes, attempts: nat, e: LastError)
    requires StatusCode(e) != Some(lib.loggedOut)
    ensures OnUpdate(lib, attempts, Update(Close, e)).attempts == attempts + 1
    ensures OnUpdate(lib, attempts, Update(Close, OtherError)).attempts == attempts + 1
  {
  }

  /** From a fresh counter, six drops in a row wait 2, 4, 6, 8 and 10 seconds and
      then exit; whatever follows is never seen. */
  lemma BackoffSchedule(lib: LibraryCodes, updates: seq<Update>)
    requires |updates| >= 6
    requires forall i :: 0 <= i < 6 ==> Dropped(lib, updates[i])
    ensures Supervise(lib, 0, updates).actions ==
      [ReconnectAfter(2000), ReconnectAfter(4000), ReconnectAfter(6000),
       ReconnectAfter(8000), ReconnectAfter(10000), Fatal(1)]
  {
    var u1 := updates[1..];
    var u2 := u1[1..];
    var u3 := u2[1..];
    var u4 := u3[1..];
    var u5 := u4[1..];
    assert Dropped(lib, updates[0]) && Dropped(lib, u1[0]) && Dropped(lib, u2[0]);
    assert Dropped(lib, u3[0]) && Dropped(lib, u4[0]) && Dropped(lib, u5[0]);
    assert Supervise(lib, 5, u5).actions == [Fatal(1)];
    assert Supervise(lib, 4, u4).actions == [ReconnectAfter(10000)] + [Fatal(1)];
    assert Supervise(lib, 3, u3).actions == [ReconnectAfter(8000)] + Supervise(lib, 4, u4).actions;
    assert Supervise(lib, 2, u2).actions == [ReconnectAfter(6000)] + Supervise(lib, 3, u3).actions;
    assert Supervise(lib, 1, u1).actions == [ReconnectAfter(4000)] + Supervise(lib, 2, u2).actions;
    assert Supervise(lib, 0, updates).actions == [ReconnectAfter(2000)] + Supervise(lib, 1, u1).actions;
  }

  /** `isReconnecting` has no counterpart here: two drops before any `open`
      schedule two reconnects, the second with nothing guarding against the
      first still being scheduled. */
  lemma TwoTimersPossible(lib: LibraryCodes, a: Update, b: Update)
    requires Dropped(lib, a) && Dropped(lib, b)
    ensures Supervise(lib, 0, [a, b]).actions == [ReconnectAfter(2000), ReconnectAfter(4000)]
  {
    assert [a, b][1..] == [b];
    assert Supervise(lib, 2, []).actions == [];
    assert Supervise(lib, 1, [b]).actions == [ReconnectAfter(4000)];
  }

  /** The number of reconnects a list of actions schedules. */
  function Reconnects(actions: seq<Action>): nat {
    if actions == [] then 0
    else (if actions[0].ReconnectAfter? then 1 else 0) + Reconnects(actions[1..])
  }

  predicate NoOpen(updates: seq<Update>) {
    forall i :: 0 <= i < |updates| ==> updates[i].connection != Open
  }

  /** Without an `open`, the delays never shrink and never exceed 10 s, the
      counter never falls, and at most `5 - attempts` reconnects are scheduled. */
  lemma {:induction false} BackoffBounded(lib: LibraryCodes, attempts: nat, updates: seq<Update>)
    requires NoOpen(updates)
    ensures var t := Supervise(lib, attempts, updates);
      attempts <= t.attempts &&
      (forall i :: 0 <= i < |t.actions| && t.actions[i].ReconnectAfter? ==>
        2000 * (attempts + 1) <= t.actions[i].ms <= 10000) &&
      (forall i, j :: 0 <= i < j < |t.actions| && t.actions[i].ReconnectAfter? && t.actions[j].ReconnectAfter? ==>
        t.actions[i].ms <= t.actions[j].ms) &&
      Reconnects(t.actions) + attempts <= MaxReconnectAttempts + (if attempts > MaxReconnectAttempts then attempts - MaxReconnectAttempts else 0)
    decreases |updates|
  {
    if updates != [] {
      var r := OnUpdate(lib, attempts, updates[0]);
      assert updates[0].connection != Open;
      if !r.action.Fatal? {
        var rest := updates[1..];
        assert NoOpen(rest) by {
          forall i | 0 <= i < |rest| ensures rest[i].connection != Open {
            assert rest[i] == updates[i + 1];
          }
        }
        BackoffBounded(lib, r.attempts, rest);
        var t := Supervise(lib, r.attempts, rest);
        var all := [r.action] + t.actions;
        assert all[1..] == t.actions;
        assert Reconnects(all) == (if r.action.ReconnectAfter? then 1 else 0) + Reconnects(t.actions);
        forall i | 0 <= i < |all| && all[i].ReconnectAfter?
          ensures 2000 * (attempts + 1) <= all[i].ms <= 10000
        {
          if i > 0 { assert all[i] == t.actions[i - 1]; }
        }
        forall i, j | 0 <= i < j < |all| && all[i].ReconnectAfter? && all[j].ReconnectAfter?
          ensures all[i].ms <= all[j].ms
        {
          assert all[j] == t.actions[j - 1];
          if i > 0 { assert all[i] == t.actions[i - 1]; }
        }
      } else {
        assert Reconnects([r.action]) == 0 by {
          assert [r.action][1..] == [];
        }
      }
    }
  }

  /** `open` resets the counter, so the schedule starts again at 2 s. */
  lemma OpenRestartsSchedule(lib: LibraryCodes, attempts: nat, e: LastError, d: Update)
    requires Dropped(lib, d)
    ensures Supervise(lib, attempts, [Update(Open, e), d]).actions == [NoAction, ReconnectAfter(2000)]
  {
    assert [Update(Open, e), d][1..] == [d];
    assert Supervise(lib, 1, []).actions == [];
    assert Supervise(lib, 0, [d]).actions == [ReconnectAfter(2000)];
  }

  /** A `startBot` call that throws is not retried: the first call ends the
      process through its `.catch`, a call from a reconnect timer is an
      unhandled rejection that is only logged. */
  function OnStartFailure(initial: bool): (a: Action)
    ensures a.Fatal? <==> initial
    ensures !a.ReconnectAfter?
  {
    if initial then Fatal(1) else NoAction
  }

  lemma {:induction false} ReconnectsAppend(a: seq<Action>, b: seq<Action>)
    ensures Reconnects(a + b) == Reconnects(a) + Reconnects(b)
    decreases |a|
  {
    if a == [] {
      assert a + b == b;
    } else {
      assert (a + b)[1..] == a[1..] + b;
      ReconnectsAppend(a[1..], b);
    }
  }

  /** A reconnect timer whose `startBot` throws ends the run: no socket is left
      to report `connection.update`, and the failure itself schedules nothing,
      so the reconnects are those scheduled before it. At the first start it
      exits instead. */
  lemma FailedRestartIsFinal(lib: LibraryCodes, attempts: nat, updates: seq<Update>, initial: bool)
    ensures var t := Supervise(lib, attempts, updates);
      Reconnects(t.actions + [OnStartFailure(initial)]) == Reconnects(t.actions) &&
      (initial ==> (t.actions + [OnStartFailure(initial)])[|t.actions|] == Fatal(1))
  {
    var t := Supervise(lib, attempts, updates);
    ReconnectsAppend(t.actions, [OnStartFailure(initial)]);
    assert [OnStartFailure(initial)][1..] == [];
  }

  // ---------------------------------------------------------------------
  // The messages.upsert handler
  // ---------------------------------------------------------------------

  /** One entry of `messages`: whether `msg.message` is present, `msg.key.fromMe`,
      `msg.key.remoteJid`, and the two places a text can come from. */
  datatype Inbound = Inbound(
    hasMessage: bool, fromMe: bool, remoteJid: string,
    conversation: Option<string>, extendedText: Option<string>)

  /** `msg.message?.conversation || msg.message?.extendedTextMessage?.text || ''` */
  function MessageText(m: Inbound): string {
    if m.conversation.Some? && m.conversation.value != "" then m.conversation.value
    else if m.extendedText.Some? && m.extendedText.value != "" then m.extendedText.value
    else ""
  }

  /** Own messages, entries without content, groups and broadcasts are skipped. */
  predicate Ignored(m: Inbound) {
    !m.hasMessage || m.fromMe || Contains(m.remoteJid, "@g.us") || Contains(m.remoteJid, "@broadcast")
  }

  /** `sock.sendMessage(to, { text })` for the reply kind. */
  datatype Sent = Sent(to: string, reply: Reply)

  datatype Delivered = Delivered(world: World, sent: seq<Sent>)

  /** One message: create the session on first contact, run the transition on
      the normalised token, write the session back, save the lead if any, send
      the reply. */
  function Receive(w: World, m: Inbound, now: string): Delivered {
    if Ignored(m) then Delivered(w, [])
    else
      var i := Read(MessageText(m));
      var o := Next(BaileysKeywords, SessionOf(w.sessions, m.remoteJid), i.token, i.raw);
      Delivered(World(w.sessions[m.remoteJid := o.session], Persist(w.files, o.lead, now)),
                [Sent(m.remoteJid, o.reply)])
  }

  /** A `notify` batch, handled in order; `clock[i]` is the time message `i` is handled. */
  function ReceiveAll(w: World, messages: seq<Inbound>, clock: seq<string>): Delivered
    requires |clock| == |messages|
    decreases |messages|
  {
    if messages == [] then Delivered(w, [])
    else
      var n := |messages| - 1;
      var d := ReceiveAll(w, messages[..n], clock[..n]);
      var e := Receive(d.world, messages[n], clock[n]);
      Delivered(e.world, d.sent + e.sent)
  }

  /** A sender's first message creates exactly one session, for that sender,
      which the welcome moves on to `menu_principal` with empty data; nothing
      else changes. */
  lemma FirstMessageCreatesSession(w: World, m: Inbound, now: string)
    requires !Ignored(m) && m.remoteJid !in w.sessions
    ensures var d := Receive(w, m, now);
      d.world.sessions.Keys == w.sessions.Keys + {m.remoteJid} &&
      d.world.sessions[m.remoteJid] == Session(MenuPrincipal, map[]) &&
      (forall k :: k in w.sessions ==> d.world.sessions[k] == w.sessions[k]) &&
      d.world.files == w.files &&
      d.sent == [Sent(m.remoteJid, Welcome)]
  {
  }

  /** A returning sender's message touches that sender's session only. */
  lemma OnlyTheSenderChanges(w: World, m: Inbound, now: string)
    ensures var d := Receive(w, m, now);
      d.world.sessions.Keys <= w.sessions.Keys + {m.remoteJid} &&
      (forall k :: k in w.sessions && k != m.remoteJid ==> d.world.sessions[k] == w.sessions[k])
  {
  }

  /** Skipped messages change nothing and get no reply. */
  lemma IgnoredChangesNothing(w: World, m: Inbound, now: string)
    requires Ignored(m)
    ensures Receive(w, m, now) == Delivered(w, [])
  {
  }

  /** The senders a batch gives a session to. */
  function Senders(messages: seq<Inbound>): set<string> {
    set i | 0 <= i < |messages| && !Ignored(messages[i]) :: messages[i].remoteJid
  }

  /** The number of messages of a batch that are handled rather than skipped. */
  function Handled(messages: seq<Inbound>): nat
    decreases |messages|
  {
    if messages == [] then 0
    else
      var n := |messages| - 1;
      Handled(messages[..n]) + (if Ignored(messages[n]) then 0 else 1)
  }

  /** One message adds its sender's session, unless it is skipped, and at most one reply. */
  lemma ReceiveKeys(w: World, m: Inbound, now: string)
    ensures var d := Receive(w, m, now);
      d.world.sessions.Keys == w.sessions.Keys + (if Ignored(m) then {} else {m.remoteJid}) &&
      |d.sent| == (if Ignored(m) then 0 else 1)
  {
  }

  lemma SendersSnoc(messages: seq<Inbound>)
    requires messages != []
    ensures var n := |messages| - 1;
      Senders(messages) == Senders(messages[..n]) + (if Ignored(messages[n]) then {} else {messages[n].remoteJid})
  {
    var n := |messages| - 1;
    var front := messages[..n];
    forall x | x in Senders(messages)
      ensures x in Senders(front) || (!Ignored(messages[n]) && x == messages[n].remoteJid)
    {
      var i :| 0 <= i < |messages| && !Ignored(messages[i]) && messages[i].remoteJid == x;
      if i < n { assert front[i] == messages[i]; }
    }
    forall x | x in Senders(front) ensures x in Senders(messages) {
      var i :| 0 <= i < |front| && !Ignored(front[i]) && front[i].remoteJid == x;
      assert messages[i] == front[i];
    }
  }

  /** After a batch the sessions are those there before plus one per sender of
      a handled message; every handled message got one reply and no other did. */
  lemma {:induction false} SessionsAreSenders(w: World, messages: seq<Inbound>, clock: seq<string>)
    requires |clock| == |messages|
    ensures var d := ReceiveAll(w, messages, clock);
      d.world.sessions.Keys == w.sessions.Keys + Senders(messages) &&
      |d.sent| == Handled(messages)
    decreases |messages|
  {
    if messages != [] {
      var n := |messages| - 1;
      SessionsAreSenders(w, messages[..n], clock[..n]);
      var d := ReceiveAll(w, messages[..n], clock[..n]);
      ReceiveKeys(d.world, messages[n], clock[n]);
      SendersSnoc(messages);
    }
  }

  /** The inputs the engine sees for a list of messages. */
  function Inputs(messages: seq<Inbound>): (r: seq<Input>)
    ensures |r| == |messages|
    ensures forall k :: 0 <= k < |messages| ==> r[k] == Read(MessageText(messages[k]))
  {
    seq(|messages|, k requires 0 <= k < |messages| => Read(MessageText(messages[k])))
  }

  /** The messages `replies` sent, in order, to one chat. */
  function SentTo(to: string, replies: seq<Reply>): (r: seq<Sent>)
    ensures |r| == |replies|
    ensures forall k :: 0 <= k < |replies| ==> r[k] == Sent(to, replies[k])
  {
    seq(|replies|, k requires 0 <= k < |replies| => Sent(to, replies[k]))
  }

  lemma InputsSnoc(messages: seq<Inbound>)
    requires messages != []
    ensures var n := |messages| - 1;
      Inputs(messages) == Inputs(messages[..n]) + [Read(MessageText(messages[n]))]
  {
    var n := |messages| - 1;
    assert forall k :: 0 <= k < n ==> messages[..n][k] == messages[k];
  }

  lemma SentToSnoc(to: string, replies: seq<Reply>, last: Reply)
    ensures SentTo(to, replies + [last]) == SentTo(to, replies) + [Sent(to, last)]
  {
  }

  /** One handled message from `from` runs one transition from that sender's
      session and sends its one reply there. */
  lemma ReceiveOne(w: World, m: Inbound, now: string, from: string)
    requires !Ignored(m) && m.remoteJid == from
    ensures var e := Receive(w, m, now);
      var o := Next(BaileysKeywords, SessionOf(w.sessions, from), Read(MessageText(m)).token, Read(MessageText(m)).raw);
      SessionOf(e.world.sessions, from) == o.session &&
      e.sent == [Sent(from, o.reply)]
  {
  }

  /** A batch of messages from one sender is that sender's conversation: the
      session ends as `Converse` says and the replies sent are its replies, in
      order. */
  lemma {:induction false} OneSenderConverses(w: World, messages: seq<Inbound>, clock: seq<string>, from: string)
    requires |clock| == |messages|
    requires forall k :: 0 <= k < |messages| ==> !Ignored(messages[k]) && messages[k].remoteJid == from
    ensures var d := ReceiveAll(w, messages, clock);
      var t := Converse(BaileysKeywords, SessionOf(w.sessions, from), Inputs(messages));
      SessionOf(d.world.sessions, from) == t.session &&
      d.sent == SentTo(from, t.replies)
    decreases |messages|
  {
    var s0 := SessionOf(w.sessions, from);
    if messages == [] {
      assert Inputs(messages) == [];
    } else {
      var n := |messages| - 1;
      var front := messages[..n];
      var m := messages[n];
      var i := Read(MessageText(m));
      OneSenderConverses(w, front, clock[..n], from);
      var d := ReceiveAll(w, front, clock[..n]);
      var t := Converse(BaileysKeywords, s0, Inputs(front));
      InputsSnoc(messages);
      ConverseSnoc(BaileysKeywords, s0, Inputs(front), i);
      ReceiveOne(d.world, m, clock[n], from);
      var o := Next(BaileysKeywords, t.session, i.token, i.raw);
      SentToSnoc(from, t.replies, o.reply);
    }
  }

  /** A group or broadcast id never gets a session, whatever the batch. */
  lemma GroupsNeverGetSessions(w: World, messages: seq<Inbound>, clock: seq<string>, id: string)
    requires |clock| == |messages|
    requires Contains(id, "@g.us") || Contains(id, "@broadcast")
    requires id !in w.sessions
    ensures id !in ReceiveAll(w, messages, clock).world.sessions
  {
    SessionsAreSenders(w, messages, clock);
  }

  // ---------------------------------------------------------------------
  // The process: its globals and handlers
  // ---------------------------------------------------------------------

  /** The module-level state of bot-baileys.js. */
  class Bot {
    var userSessions: map<string, Session>
    var reconnectAttempts: nat
    const store: LeadStore
    const lib: LibraryCodes

    constructor (lib: LibraryCodes, initial: Files)
      ensures userSessions == map[] && reconnectAttempts == 0 && this.lib == lib
      ensures fresh(store) && store.files == initial
    {
      userSessions := map[];
      reconnectAttempts := 0;
      store := new LeadStore(initial);
      this.lib := lib;
    }

    function State(): World
      reads this, store
    {
      World(userSessions, store.files)
    }

    /** `handleMessage(sock, from, userMessage, messageText, session)`: the switch
        over `session.step`, the write-back, and the reply to send. */
    method HandleMessage(from: string, userMessage: string, messageText: string, now: string)
      returns (reply: Reply)
      requires from in userSessions
      modifies this, store
      ensures var o := Next(BaileysKeywords, old(userSessions)[from], userMessage, messageText);
        userSessions == old(userSessions)[from := o.session] &&
        store.files == Persist(old(store.files), o.lead, now) &&
        reply == o.reply
      ensures reconnectAttempts == old(reconnectAttempts)
    {
      var session := userSessions[from];
      var step := session.step;
      var data := session.data;
      match step {
      case Inicio =>
        reply := Welcome;
        step := MenuPrincipal;
      case MenuPrincipal =>
        MentionsTwo(userMessage, "precio", "costo");
        MentionsOne(userMessage, "horario");
        MentionsTwo(userMessage, "ubicacion", "direccion");
        if userMessage == "1" {
          reply := Services;
          step := Servicios;
        } else if userMessage == "2" {
          reply := AskName;
          step := CotizacionNombre;
        } else if userMessage == "3" {
          reply := AskMeetingType;
          step := ReunionTipo;
        } else if userMessage == "4" {
          reply := Cases;
        } else if userMessage == "5" {
          reply := Advisor;
        } else if Contains(userMessage, "precio") || Contains(userMessage, "costo") {
          reply := PriceInfo;
        } else if Contains(userMessage, "horario") {
          reply := Hours;
        } else if Contains(userMessage, "ubicacion") || Contains(userMessage, "direccion") {
          reply := Location;
        } else {
          reply := NotUnderstood;
        }
      case Servicios =>
        if userMessage == "1" {
          reply := AskName;
          step := CotizacionNombre;
        } else if userMessage == "2" {
          reply := AskMeetingType;
          step := ReunionTipo;
        } else if userMessage == "3" {
          reply := Cases;
          step := MenuPrincipal;
        } else if userMessage == "4" || userMessage == "menu" {
          reply := Welcome;
          step := MenuPrincipal;
        } else {
          reply := InvalidOption;
        }
      case CotizacionNombre =>
        data := data["nombre" := messageText];
        reply := NiceToMeet(data["nombre"]);
        step := CotizacionEmpresa;
      case CotizacionEmpresa =>
        data := data["empresa" := messageText];
        reply := AskService;
        step := CotizacionServicio;
      case CotizacionServicio =>
        data := data["servicio" := Lookup(ServiceLabels, userMessage, messageText)];
        reply := AskBudget;
        step := CotizacionPresupuesto;
      case CotizacionPresupuesto =>
        data := data["presupuesto" := Lookup(BudgetLabels, userMessage, messageText)];
        reply := QuoteSummary(Field(data, "nombre"), Field(data, "empresa"), Field(data, "servicio"),
                              data["presupuesto"]);
        store.SaveLead("cotizacion", now, data);
        step := CotizacionFinal;
      case CotizacionFinal =>
        if userMessage == "menu" {
          reply := Welcome;
          step := MenuPrincipal;
        } else {
          data := data["comentarios" := messageText];
          reply := ThanksForComment;
          step := MenuPrincipal;
        }
      case ReunionTipo =>
        data := data["tipoReunion" := Lookup(MeetingTypeLabels, userMessage, messageText)];
        reply := AskDate(data["tipoReunion"]);
        step := ReunionFecha;
      case ReunionFecha =>
        data := data["fecha" := Lookup(DateLabels, userMessage, messageText)];
        reply := AskTimeSlot;
        step := ReunionHorario;
      case ReunionHorario =>
        data := data["horario" := Lookup(TimeSlotLabels, userMessage, messageText)];
        reply := AskContact;
        step := ReunionDatos;
      case ReunionDatos =>
        data := data["contacto" := messageText];
        reply := MeetingConfirmed(Field(data, "tipoReunion"), Field(data, "fecha"), Field(data, "horario"),
                                  data["contacto"]);
        store.SaveLead("reunion", now, data);
        step := MenuPrincipal;
      case Unrecognised(_) =>
        reply := Welcome;
        step := MenuPrincipal;
      }
      userSessions := userSessions[from := Session(step, data)];
    }

    /** The body of the `for (const msg of messages)` loop for one entry. */
    method OnMessage(m: Inbound, now: string) returns (sent: seq<Sent>)
      modifies this, store
      ensures var d := Receive(old(State()), m, now); State() == d.world && sent == d.sent
      ensures reconnectAttempts == old(reconnectAttempts)
    {
      if !m.hasMessage || m.fromMe {
        return [];
      }
      var from := m.remoteJid;
      var messageText := MessageText(m);
      var userMessage := Normalize(messageText);
      if Contains(from, "@g.us") || Contains(from, "@broadcast") {
        return [];
      }
      if from !in userSessions {
        userSessions := userSessions[from := Fresh];
      }
      var reply := HandleMessage(from, userMessage, messageText, now);
      sent := [Sent(from, reply)];
    }

    /** The `messages.upsert` handler: only `notify` batches are handled, one
        message after the other. */
    method OnUpsert(messages: seq<Inbound>, kind: string, clock: seq<string>) returns (sent: seq<Sent>)
      requires |clock| == |messages|
      modifies this, store
      ensures kind != "notify" ==> State() == old(State()) && sent == []
      ensures kind == "notify" ==>
        var d := ReceiveAll(old(State()), messages, clock); State() == d.world && sent == d.sent
      ensures reconnectAttempts == old(reconnectAttempts)
    {
      sent := [];
      if kind != "notify" {
        return;
      }
      var i := 0;
      while i < |messages|
        invariant 0 <= i <= |messages|
        invariant var d := ReceiveAll(old(State()), messages[..i], clock[..i]);
          State() == d.world && sent == d.sent
        invariant reconnectAttempts == old(reconnectAttempts)
      {
        assert messages[..i + 1][..i] == messages[..i];
        assert clock[..i + 1][..i] == clock[..i];
        var out := OnMessage(messages[i], clock[i]);
        sent := sent + out;
        i := i + 1;
      }
      assert messages[..i] == messages && clock[..i] == clock;
    }

    /** The `connection.update` handler; the QR code and the logs are left out. */
    method OnConnectionUpdate(u: Update) returns (action: Action)
      modifies this`reconnectAttempts
      ensures var r := OnUpdate(lib, old(reconnectAttempts), u);
        reconnectAttempts == r.attempts && action == r.action
    {
      action := NoAction;
      if u.connection == Close {
        var statusCode := StatusCode(u.lastError);
        var shouldReconnect := statusCode != Some(lib.loggedOut);
        if shouldReconnect {
          reconnectAttempts := reconnectAttempts + 1;
          if reconnectAttempts <= MaxReconnectAttempts {
            var waitTime := if reconnectAttempts * 2 < 10 then reconnectAttempts * 2 else 10;
            action := ReconnectAfter(waitTime * 1000);
          } else {
            action := Fatal(1);
          }
        } else {
          action := Fatal(1);
        }
      } else if u.connection == Open {
        reconnectAttempts := 0;
      }
    }
  }
}
