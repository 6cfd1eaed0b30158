/** bot.js: the same conversation engine on whatsapp-web.js, where every reply
    is awaited inside `handleConversation`'s try block, and the reconnection
    guard driven by the `disconnected` and `ready` events. */
module WebClientBot {
  import opened JsText
  import opened Choices
  import opened Leads
  import opened Conversation

  /** The keyword groups `handleMainMenu` tests in its default branch. */
  const WebKeywords := Keywords(["precio", "costo", "cuanto"], ["horario", "hora"], ["ubicacion", "direccion", "donde"])

  /** The fixed `setTimeout` delay before `client.initialize()`. */
  const ReconnectDelayMs: nat := 5000

  // ---------------------------------------------------------------------
  // handleConversation when the reply may fail
  // ---------------------------------------------------------------------

  /** One call of `handleConversation`: the session left in the Map, the replies
      attempted, and the lead saved. */
  datatype Attempted = Attempted(session: Session, replies: seq<Reply>, lead: Option<LeadRequest>)

  /** `delivered` is whether the awaited `message.reply` resolves. Each case
      writes its data field first, then awaits the reply, then saves the lead
      and assigns the step; a rejected reply skips the rest of the case and the
      catch block attempts the apology. The session object is mutated in place,
      so what was written before the failure stays in the Map. */
  function Attempt(kw: Keywords, s: Session, token: string, raw: string, delivered: bool): (a: Attempted)
    ensures a.replies != [] && a.replies[0] == Next(kw, s, token, raw).reply
    ensures a.session.data == Next(kw, s, token, raw).session.data
    ensures delivered ==> a.session.step == Next(kw, s, token, raw).session.step && |a.replies| == 1
    ensures delivered ==> a.lead == Next(kw, s, token, raw).lead
    ensures !delivered ==> a.session.step == s.step && a.replies[1..] == [Apology] && a.lead == None
  {
    var o := Next(kw, s, token, raw);
    if delivered then Attempted(o.session, [o.reply], o.lead)
    else Attempted(Session(s.step, o.session.data), [o.reply, Apology], None)
  }

  /** A rejected reply at a collect step leaves the field written and the step
      where it was, and saves nothing, even at the two flow ends. */
  lemma FailedReplyKeepsAnswer(kw: Keywords, s: Session, token: string, raw: string)
    requires CollectOf(s.step).Some?
    ensures var c := CollectOf(s.step).value; var a := Attempt(kw, s, token, raw, false);
      a.session == Session(s.step, s.data[c.field := Answer(c, token, raw)]) && a.lead == None
  {
    CollectStepsFollowTable(kw, s, token, raw);
  }

  /** In bot.js the two flow ends save their lead exactly when the reply is
      delivered: 'cotizacion' at `cotizacion_presupuesto` and 'reunion' at
      `reunion_datos`, with the session's data; no other step saves one. */
  lemma DeliveredFlowEndsSave(kw: Keywords, s: Session, token: string, raw: string, delivered: bool)
    ensures var a := Attempt(kw, s, token, raw, delivered);
      (a.lead.Some? <==> delivered && s.step in {CotizacionPresupuesto, ReunionDatos}) &&
      (delivered && s.step == CotizacionPresupuesto ==> a.lead == Some(LeadRequest("cotizacion", a.session.data))) &&
      (delivered && s.step == ReunionDatos ==> a.lead == Some(LeadRequest("reunion", a.session.data)))
  {
    LeadsOnlyAtFlowEnds(kw, s, token, raw);
  }

  /** Sending the same text again after a rejected reply ends exactly where a
      first, delivered attempt would have: rewriting the field is harmless. */
  lemma RetryRecovers(kw: Keywords, s: Session, token: string, raw: string)
    ensures var failed := Attempt(kw, s, token, raw, false);
      Attempt(kw, failed.session, token, raw, true) == Attempt(kw, s, token, raw, true)
  {
    RewriteIsHarmless(kw, s, token, raw);
  }

  // ---------------------------------------------------------------------
  // The message handler
  // ---------------------------------------------------------------------

  /** The fields of an incoming whatsapp-web.js message the handler reads. */
  datatype WebMessage = WebMessage(from: string, body: string, isStatus: bool)

  /** `message.from.includes('@g.us') || message.isStatus` */
  predicate Ignored(m: WebMessage) {
    Contains(m.from, "@g.us") || m.isStatus
  }

  datatype Handled = Handled(world: World, replies: seq<Reply>)

  /** The `message` handler: create the session on first contact, then run
      `handleConversation`; `now` is the clock reading when a lead is saved. */
  function Receive(w: World, m: WebMessage, delivered: bool, now: string): Handled {
    if Ignored(m) then Handled(w, [])
    else
      var i := Read(m.body);
      var a := Attempt(WebKeywords, SessionOf(w.sessions, m.from), i.token, i.raw, delivered);
      Handled(World(w.sessions[m.from := a.session], Persist(w.files, a.lead, now)), a.replies)
  }

  /** A sender's first message creates exactly one session, for that sender. It
      reaches `menu_principal` when the welcome is delivered and stays in
      `inicio` when it is not; nothing else changes. */
  lemma FirstMessageCreatesSession(w: World, m: WebMessage, delivered: bool, now: string)
    requires !Ignored(m) && m.from !in w.sessions
    ensures var h := Receive(w, m, delivered, now);
      h.world.sessions.Keys == w.sessions.Keys + {m.from} &&
      h.world.sessions[m.from] == Session(if delivered then MenuPrincipal else Inicio, map[]) &&
      (forall k :: k in w.sessions ==> h.world.sessions[k] == w.sessions[k]) &&
      h.world.files == w.files &&
      h.replies[0] == Welcome
  {
  }

  /** Group messages and status updates change nothing and get no reply. */
  lemma IgnoredChangesNothing(w: World, m: WebMessage, delivered: bool, now: string)
    requires Ignored(m)
    ensures Receive(w, m, delivered, now) == Handled(w, [])
  {
  }

  // ---------------------------------------------------------------------
  // The disconnected / ready handlers
  // ---------------------------------------------------------------------

  datatype ClientEvent = Disconnected(reason: string) | Ready

  /** The flag after the event and the timer it starts, if any. */
  datatype Reaction = Reaction(reconnecting: bool, timer: Option<nat>)

  function OnClientEvent(reconnecting: bool, e: ClientEvent): (r: Reaction)
    ensures r.timer.Some? <==> e.Disconnected? && !reconnecting && e.reason != "LOGOUT"
    ensures r.timer.Some? ==> r.timer.value == ReconnectDelayMs
    ensures e.Ready? ==> !r.reconnecting
    ensures e.Disconnected? ==> (r.reconnecting <==> reconnecting || e.reason != "LOGOUT")
  {
    match e
    case Disconnected(reason) =>
      if !reconnecting && reason != "LOGOUT" then Reaction(true, Some(ReconnectDelayMs))
      else Reaction(reconnecting, None)
    case Ready => Reaction(false, None)
  }

  datatype Watch = Watch(reconnecting: bool, timers: seq<nat>)

  /** A run of client events; `timers` are the delays of the timers started. */
  function Supervise(reconnecting: bool, events: seq<ClientEvent>): Watch
    decreases |events|
  {
    if events == [] then Watch(reconnecting, [])
    else
      var r := OnClientEvent(reconnecting, events[0]);
      var t := Supervise(r.reconnecting, events[1..]);
      Watch(t.reconnecting, (if r.timer.Some? then [r.timer.value] else []) + t.timers)
  }

  predicate NoReady(events: seq<ClientEvent>) {
    forall i :: 0 <= i < |events| ==> !events[i].Ready?
  }

  /** Between two `ready` events at most one reconnect timer is started, none at
      all once the flag is set, and every timer waits 5000 ms. */
  lemma {:induction false} AtMostOnePendingTimer(reconnecting: bool, events: seq<ClientEvent>)
    requires NoReady(events)
    ensures var t := Supervise(reconnecting, events);
      |t.timers| <= (if reconnecting then 0 else 1) &&
      (forall i :: 0 <= i < |t.timers| ==> t.timers[i] == ReconnectDelayMs) &&
      (reconnecting ==> t.reconnecting)
    decreases |events|
  {
    if events != [] {
      var r := OnClientEvent(reconnecting, events[0]);
      var rest := events[1..];
      assert NoReady(rest) by {
        forall i | 0 <= i < |rest| ensures !rest[i].Ready? {
          assert rest[i] == events[i + 1];
        }
      }
      assert !events[0].Ready?;
      AtMostOnePendingTimer(r.reconnecting, rest);
    }
  }

  /** A `'LOGOUT'` disconnect never starts a timer and leaves the flag alone. */
  lemma LogoutNeverSchedules(reconnecting: bool)
    ensures OnClientEvent(reconnecting, Disconnected("LOGOUT")) == Reaction(reconnecting, None)
  {
  }

  /** `n` rounds of a disconnect followed by `ready`. */
  function Cycles(n: nat, reason: string): (es: seq<ClientEvent>)
    ensures |es| == 2 * n
  {
    if n == 0 then [] else [Disconnected(reason), Ready] + Cycles(n - 1, reason)
  }

  /** There is no ceiling: every round of a non-logout disconnect and `ready`
      starts one more timer, so `n` rounds start `n`. */
  lemma {:induction false} NoCeiling(n: nat, reason: string)
    requires reason != "LOGOUT"
    ensures var t := Supervise(false, Cycles(n, reason)); |t.timers| == n && !t.reconnecting
  {
    if n > 0 {
      var es := Cycles(n, reason);
      var rest := Cycles(n - 1, reason);
      assert es[1..] == [Ready] + rest;
      assert es[1..][1..] == rest;
      NoCeiling(n - 1, reason);
    }
  }

  // ---------------------------------------------------------------------
  // handleMainMenu and handleServicesMenu
  // ---------------------------------------------------------------------

  /** `handleMainMenu(message, session, userMessage)`: the new step, the reply
      awaited, and whether it threw. */
  method HandleMainMenu(userMessage: string, delivered: bool) returns (step: Step, reply: Reply, thrown: bool)
    ensures reply == MainMenuReply(WebKeywords, userMessage) && thrown == !delivered
    ensures step == (if delivered then MainMenuStep(userMessage, MenuPrincipal) else MenuPrincipal)
    ensures step != MenuPrincipal ==> delivered && userMessage in {"1", "2", "3"}
  {
    step := MenuPrincipal;
    var target := MenuPrincipal;
    MentionsThree(userMessage, "precio", "costo", "cuanto");
    MentionsTwo(userMessage, "horario", "hora");
    MentionsThree(userMessage, "ubicacion", "direccion", "donde");
    if userMessage == "1" {
      reply := Services;
      target := Servicios;
    } else if userMessage == "2" {
      reply := AskName;
      target := CotizacionNombre;
    } else if userMessage == "3" {
      reply := AskMeetingType;
      target := ReunionTipo;
    } else if userMessage == "4" {
      reply := Cases;
    } else if userMessage == "5" {
      reply := Advisor;
    } else if Contains(userMessage, "precio") || Contains(userMessage, "costo") || Contains(userMessage, "cuanto") {
      reply := PriceInfo;
    } else if Contains(userMessage, "horario") || Contains(userMessage, "hora") {
      reply := Hours;
    } else if Contains(userMessage, "ubicacion") || Contains(userMessage, "direccion") || Contains(userMessage, "donde") {
      reply := Location;
    } else {
      reply := NotUnderstood;
    }
    thrown := !delivered;
    if !thrown {
      step := target;
    }
  }

  /** `handleServicesMenu(message, session, userMessage)`. */
  method HandleServicesMenu(userMessage: string, delivered: bool) returns (step: Step, reply: Reply, thrown: bool)
    ensures reply == ServicesMenuReply(userMessage) && thrown == !delivered
    ensures step == (if delivered then ServicesMenuStep(userMessage, Servicios) else Servicios)
    ensures step != Servicios ==> delivered && userMessage in {"1", "2", "3", "4", "menu"}
  {
    step := Servicios;
    var target := Servicios;
    if userMessage == "1" {
      reply := AskName;
      target := CotizacionNombre;
    } else if userMessage == "2" {
      reply := AskMeetingType;
      target := ReunionTipo;
    } else if userMessage == "3" {
      reply := Cases;
      target := MenuPrincipal;
    } else if userMessage == "4" || userMessage == "menu" {
      reply := Welcome;
      target := MenuPrincipal;
    } else {
      reply := InvalidOption;
    }
    thrown := !delivered;
    if !thrown {
      step := target;
    }
  }

  // ---------------------------------------------------------------------
  // The process: its globals and handlers
  // ---------------------------------------------------------------------

  /** The module-level state of bot.js. */
  class Bot {
    var userSessions: map<string, Session>
    var isReconnecting: bool
    const store: LeadStore

    constructor (initial: Files)
      ensures userSessions == map[] && !isReconnecting
      ensures fresh(store) && store.files == initial
    {
      userSessions := map[];
      isReconnecting := false;
      store := new LeadStore(initial);
    }

    function State(): World
      reads this, store
    {
      World(userSessions, store.files)
    }

    /** `handleConversation(message, session, userMessage)`; `delivered` is
        whether `message.reply` resolves, `now` the clock reading for a lead. */
    method HandleConversation(userId: string, body: string, userMessage: string, delivered: bool, now: string)
      returns (replies: seq<Reply>)
      requires userId in userSessions
      modifies this, store
      ensures var a := Attempt(WebKeywords, old(userSessions)[userId], userMessage, body, delivered);
        userSessions == old(userSessions)[userId := a.session] &&
        store.files == Persist(old(store.files), a.lead, now) &&
        replies == a.replies
      ensures isReconnecting == old(isReconnecting)
    {
      var session := userSessions[userId];
      var step := session.step;
      var data := session.data;
      var reply: Reply;
      var thrown := !delivered;
      match step {
        case Inicio =>
          reply := Welcome;
          if !thrown { step := MenuPrincipal; }
        case MenuPrincipal =>
          step, reply, thrown := HandleMainMenu(userMessage, delivered);
        case Servicios =>
          step, reply, thrown := HandleServicesMenu(userMessage, delivered);
        case CotizacionNombre =>
          data := data["nombre" := body];
          reply := NiceToMeet(data["nombre"]);
          if !thrown { step := CotizacionEmpresa; }
        case CotizacionEmpresa =>
          data := data["empresa" := body];
          reply := AskService;
          if !thrown { step := CotizacionServicio; }
        case CotizacionServicio =>
          data := data["servicio" := Lookup(ServiceLabels, userMessage, body)];
          reply := AskBudget;
          if !thrown { step := CotizacionPresupuesto; }
        case CotizacionPresupuesto =>
          data := data["presupuesto" := Lookup(BudgetLabels, userMessage, body)];
          reply := QuoteSummary(Field(data, "nombre"), Field(data, "empresa"), Field(data, "servicio"),
                                data["presupuesto"]);
          if !thrown {
            store.SaveLead("cotizacion", now, data);
            step := CotizacionFinal;
          }
        case CotizacionFinal =>
          if userMessage == "menu" {
            reply := Welcome;
          } else {
            data := data["comentarios" := body];
            reply := ThanksForComment;
          }
          if !thrown { step := MenuPrincipal; }
        case ReunionTipo =>
          data := data["tipoReunion" := Lookup(MeetingTypeLabels, userMessage, body)];
          reply := AskDate(data["tipoReunion"]);
          if !thrown { step := ReunionFecha; }
        case ReunionFecha =>
          data := data["fecha" := Lookup(DateLabels, userMessage, body)];
          reply := AskTimeSlot;
          if !thrown { step := ReunionHorario; }
        case ReunionHorario =>
          data := data["horario" := Lookup(TimeSlotLabels, userMessage, body)];
          reply := AskContact;
          if !thrown { step := ReunionDatos; }
        case ReunionDatos =>
          data := data["contacto" := body];
          reply := MeetingConfirmed(Field(data, "tipoReunion"), Field(data, "fecha"), Field(data, "horario"),
                                    data["contacto"]);
          if !thrown {
            store.SaveLead("reunion", now, data);
            step := MenuPrincipal;
          }
        case Unrecognised(_) =>
          reply := Welcome;
          if !thrown { step := MenuPrincipal; }
      }
      replies := [reply];
      if thrown {
        // The catch block: 'Disculpa, hubo un error...'.
        replies := replies + [Apology];
      }
      // The session object is the one in the Map, so its changes are there
      // whether or not `userSessions.set` is reached.
      userSessions := userSessions[userId := Session(step, data)];
    }

    /** The `message` handler. */
    method OnMessage(m: WebMessage, delivered: bool, now: string) returns (replies: seq<Reply>)
      modifies this, store
      ensures var h := Receive(old(State()), m, delivered, now); State() == h.world && replies == h.replies
      ensures isReconnecting == old(isReconnecting)
    {
      var userId := m.from;
      var userMessage := Normalize(m.body);
      if Contains(m.from, "@g.us") || m.isStatus {
        return [];
      }
      if userId !in userSessions {
        userSessions := userSessions[userId := Fresh];
      }
      replies := HandleConversation(userId, m.body, userMessage, delivered, now);
    }

    /** The `disconnected` handler: the timer it starts, if any. */
    method OnDisconnected(reason: string) returns (timer: Option<nat>)
      modifies this`isReconnecting
      ensures OnClientEvent(old(isReconnecting), Disconnected(reason)) == Reaction(isReconnecting, timer)
    {
      timer := None;
      if !isReconnecting && reason != "LOGOUT" {
        isReconnecting := true;
        timer := Some(ReconnectDelayMs);
      }
    }

    /** The `ready` handler. */
    method OnReady()
      modifies this`isReconnecting
      ensures OnClientEvent(old(isReconnecting), Ready) == Reaction(isReconnecting, None)
    {
      isReconnecting := false;
    }
  }
}
