/** The per-user conversation state machine both bot variants run over
    `session.step`, written as a transition table: given the session, the
    normalised token and the raw text, the next session, the one reply, and the
    lead to record, if any. The two variants differ in their keyword lists, in
    the text of the '5' (advisor) reply, whose bot.js version adds a note that
    the bot is a demonstration, and, in bot.js, in what happens when sending the
    reply fails. */
module Conversation {
  import opened JsText
  import opened Choices
  import opened Leads

  datatype Step =
    | Inicio
    | MenuPrincipal
    | Servicios
    | CotizacionNombre
    | CotizacionEmpresa
    | CotizacionServicio
    | CotizacionPresupuesto
    | CotizacionFinal
    | ReunionTipo
    | ReunionFecha
    | ReunionHorario
    | ReunionDatos
    // A value of `session.step` the switch does not list: `name` stands for a
    // string other than the eleven step names, and only the switch's default
    // branch is modelled for it. No transition produces one (`NextStepKnown`).
    | Unrecognised(name: string)

  type Data = map<string, string>

  datatype Session = Session(step: Step, data: Data)

  /** `{ step: 'inicio', data: {} }`, created on a sender's first message. */
  const Fresh := Session(Inicio, map[])

  /** The one message a transition sends; parameters are the values the reply
      text interpolates. */
  datatype Reply =
    | Welcome
    | Services
    | AskName
    | AskMeetingType
    | Cases
    | Advisor
    | PriceInfo
    | Hours
    | Location
    | NotUnderstood
    | InvalidOption
    | NiceToMeet(nombre: string)
    | AskService
    | AskBudget
    | QuoteSummary(nombre: string, empresa: string, servicio: string, presupuesto: string)
    | ThanksForComment
    | AskDate(tipoReunion: string)
    | AskTimeSlot
    | AskContact
    | MeetingConfirmed(tipoReunion: string, fecha: string, horario: string, contacto: string)
    | Apology   // bot.js only: 'Disculpa, hubo un error...'

  /** A call `saveLead(tipo, session.data)`. */
  datatype LeadRequest = LeadRequest(tipo: string, data: Data)

  datatype Outcome = Outcome(session: Session, reply: Reply, lead: Option<LeadRequest>)

  datatype Option<T> = None | Some(value: T)

  /** The substrings tested, in order, when the main menu gets no digit. */
  datatype Keywords = Keywords(price: seq<string>, hours: seq<string>, location: seq<string>)

  /** The names of the fields the flows write into `session.data`. */
  const FieldNames: set<string> := {
    "nombre", "empresa", "servicio", "presupuesto", "comentarios",
    "tipoReunion", "fecha", "horario", "contacto"}

  /** `${session.data.k}`: a missing property renders as "undefined". */
  function Field(data: Data, k: string): string {
    if k in data then data[k] else "undefined"
  }

  predicate MentionsAny(token: string, words: seq<string>) {
    exists i :: 0 <= i < |words| && Contains(token, words[i])
  }

  /** A keyword group written out as the source's chain of `includes` tests. */
  lemma MentionsOne(token: string, a: string)
    ensures MentionsAny(token, [a]) <==> Contains(token, a)
  {
    if Contains(token, a) { assert [a][0] == a; }
  }

  lemma MentionsTwo(token: string, a: string, b: string)
    ensures MentionsAny(token, [a, b]) <==> Contains(token, a) || Contains(token, b)
  {
    if Contains(token, a) { assert [a, b][0] == a; }
    if Contains(token, b) { assert [a, b][1] == b; }
  }

  lemma MentionsThree(token: string, a: string, b: string, c: string)
    ensures MentionsAny(token, [a, b, c]) <==> Contains(token, a) || Contains(token, b) || Contains(token, c)
  {
    if Contains(token, a) { assert [a, b, c][0] == a; }
    if Contains(token, b) { assert [a, b, c][1] == b; }
    if Contains(token, c) { assert [a, b, c][2] == c; }
  }

  /** The informational reply for a non-digit main-menu input; the first
      matching group wins. */
  function KeywordReply(kw: Keywords, token: string): Reply {
    if MentionsAny(token, kw.price) then PriceInfo
    else if MentionsAny(token, kw.hours) then Hours
    else if MentionsAny(token, kw.location) then Location
    else NotUnderstood
  }

  function MainMenuStep(token: string, step: Step): Step {
    if token == "1" then Servicios
    else if token == "2" then CotizacionNombre
    else if token == "3" then ReunionTipo
    else step
  }

  function MainMenuReply(kw: Keywords, token: string): Reply {
    if token == "1" then Services
    else if token == "2" then AskName
    else if token == "3" then AskMeetingType
    else if token == "4" then Cases
    else if token == "5" then Advisor
    else KeywordReply(kw, token)
  }

  function ServicesMenuStep(token: string, step: Step): Step {
    if token == "1" then CotizacionNombre
    else if token == "2" then ReunionTipo
    else if token == "3" || token == "4" || token == "menu" then MenuPrincipal
    else step
  }

  function ServicesMenuReply(token: string): Reply {
    if token == "1" then AskName
    else if token == "2" then AskMeetingType
    else if token == "3" then Cases
    else if token == "4" || token == "menu" then Welcome
    else InvalidOption
  }

  /** One transition: `session`, the normalised `token` and the `raw` text in;
      the updated session, its reply and the lead to save out. */
  function Next(kw: Keywords, s: Session, token: string, raw: string): Outcome {
    match s.step
    case Inicio =>
      Outcome(s.(step := MenuPrincipal), Welcome, None)
    case MenuPrincipal =>
      Outcome(s.(step := MainMenuStep(token, s.step)), MainMenuReply(kw, token), None)
    case Servicios =>
      Outcome(s.(step := ServicesMenuStep(token, s.step)), ServicesMenuReply(token), None)
    case CotizacionNombre =>
      Outcome(Session(CotizacionEmpresa, s.data["nombre" := raw]), NiceToMeet(raw), None)
    case CotizacionEmpresa =>
      Outcome(Session(CotizacionServicio, s.data["empresa" := raw]), AskService, None)
    case CotizacionServicio =>
      Outcome(Session(CotizacionPresupuesto, s.data["servicio" := Lookup(ServiceLabels, token, raw)]),
              AskBudget, None)
    case CotizacionPresupuesto =>
      var d := s.data["presupuesto" := Lookup(BudgetLabels, token, raw)];
      Outcome(Session(CotizacionFinal, d),
              QuoteSummary(Field(d, "nombre"), Field(d, "empresa"), Field(d, "servicio"), d["presupuesto"]),
              Some(LeadRequest("cotizacion", d)))
    case CotizacionFinal =>
      if token == "menu" then Outcome(s.(step := MenuPrincipal), Welcome, None)
      else Outcome(Session(MenuPrincipal, s.data["comentarios" := raw]), ThanksForComment, None)
    case ReunionTipo =>
      var d := s.data["tipoReunion" := Lookup(MeetingTypeLabels, token, raw)];
      Outcome(Session(ReunionFecha, d), AskDate(d["tipoReunion"]), None)
    case ReunionFecha =>
      Outcome(Session(ReunionHorario, s.data["fecha" := Lookup(DateLabels, token, raw)]), AskTimeSlot, None)
    case ReunionHorario =>
      Outcome(Session(ReunionDatos, s.data["horario" := Lookup(TimeSlotLabels, token, raw)]), AskContact, None)
    case ReunionDatos =>
      var d := s.data["contacto" := raw];
      Outcome(Session(MenuPrincipal, d),
              MeetingConfirmed(Field(d, "tipoReunion"), Field(d, "fecha"), Field(d, "horario"), d["contacto"]),
              Some(LeadRequest("reunion", d)))
    case Unrecognised(_) =>
      Outcome(s.(step := MenuPrincipal), Welcome, None)
  }

  // ---------------------------------------------------------------------
  // The reference table of the collect steps, independent of Next.
  // ---------------------------------------------------------------------

  /** The field a collect step writes, and the table (if any) its answer goes through. */
  datatype Collect = Collect(field: string, table: Option<Table>, successor: Step)

  function CollectOf(step: Step): Option<Collect> {
    match step
    case CotizacionNombre => Some(Collect("nombre", None, CotizacionEmpresa))
    case CotizacionEmpresa => Some(Collect("empresa", None, CotizacionServicio))
    case CotizacionServicio => Some(Collect("servicio", Some(ServiceLabels), CotizacionPresupuesto))
    case CotizacionPresupuesto => Some(Collect("presupuesto", Some(BudgetLabels), CotizacionFinal))
    case ReunionTipo => Some(Collect("tipoReunion", Some(MeetingTypeLabels), ReunionFecha))
    case ReunionFecha => Some(Collect("fecha", Some(DateLabels), ReunionHorario))
    case ReunionHorario => Some(Collect("horario", Some(TimeSlotLabels), ReunionDatos))
    case ReunionDatos => Some(Collect("contacto", None, MenuPrincipal))
    case _ => None
  }

  function Answer(c: Collect, token: string, raw: string): string {
    match c.table
    case None => raw
    case Some(t) => Lookup(t, token, raw)
  }

  predicate Known(step: Step) {
    !step.Unrecognised?
  }

  // ---------------------------------------------------------------------
  // Properties of one transition
  // ---------------------------------------------------------------------

  /** From `inicio`, or from a step the switch does not list, the reply is the
      welcome menu and the step becomes `menu_principal`; data is untouched. */
  lemma StartWelcomes(kw: Keywords, s: Session, token: string, raw: string)
    requires s.step == Inicio || s.step.Unrecognised?
    ensures Next(kw, s, token, raw) == Outcome(Session(MenuPrincipal, s.data), Welcome, None)
  {
  }

  /** In `menu_principal` only '1', '2' and '3' move, to `servicios`,
      `cotizacion_nombre` and `reunion_tipo`; every other input keeps the step.
      Data is never written and no lead is saved. */
  lemma MainMenuMoves(kw: Keywords, s: Session, token: string, raw: string)
    requires s.step == MenuPrincipal
    ensures var o := Next(kw, s, token, raw);
      o.session.data == s.data && o.lead == None &&
      (o.session.step != MenuPrincipal <==> token in {"1", "2", "3"}) &&
      (token == "1" ==> o.session.step == Servicios && o.reply == Services) &&
      (token == "2" ==> o.session.step == CotizacionNombre && o.reply == AskName) &&
      (token == "3" ==> o.session.step == ReunionTipo && o.reply == AskMeetingType)
  {
  }

  /** Outside the digits the main menu answers by keyword group, price first,
      then hours, then location, and otherwise "not understood". */
  lemma MainMenuReplies(kw: Keywords, s: Session, token: string, raw: string)
    requires s.step == MenuPrincipal
    ensures var r := Next(kw, s, token, raw).reply;
      (token == "4" ==> r == Cases) &&
      (token == "5" ==> r == Advisor) &&
      (token !in {"1", "2", "3", "4", "5"} ==>
        (r == PriceInfo <==> MentionsAny(token, kw.price)) &&
        (r == Hours <==> !MentionsAny(token, kw.price) && MentionsAny(token, kw.hours)) &&
        (r == Location <==> !MentionsAny(token, kw.price) && !MentionsAny(token, kw.hours) &&
                            MentionsAny(token, kw.location)) &&
        (r == NotUnderstood <==> !MentionsAny(token, kw.price) && !MentionsAny(token, kw.hours) &&
                                 !MentionsAny(token, kw.location)))
  {
  }

  /** In `servicios`: '3' shows the cases and returns to the menu, '4' or
      'menu' re-sends the welcome and returns to the menu, '1' and '2' start
      the two flows, and anything else keeps the step. */
  lemma ServicesMenuMoves(kw: Keywords, s: Session, token: string, raw: string)
    requires s.step == Servicios
    ensures var o := Next(kw, s, token, raw);
      o.session.data == s.data && o.lead == None &&
      (token == "1" ==> o.session.step == CotizacionNombre && o.reply == AskName) &&
      (token == "2" ==> o.session.step == ReunionTipo && o.reply == AskMeetingType) &&
      (token == "3" ==> o.session.step == MenuPrincipal && o.reply == Cases) &&
      (token in {"4", "menu"} ==> o.session.step == MenuPrincipal && o.reply == Welcome) &&
      (token !in {"1", "2", "3", "4", "menu"} ==> o.session.step == Servicios && o.reply == InvalidOption)
  {
  }

  /** Every collect step stores its answer under its field, through its table
      when it has one (a recognised digit gives the label, anything else the
      raw text), and advances to its fixed successor. */
  lemma {:induction false} CollectStepsFollowTable(kw: Keywords, s: Session, token: string, raw: string)
    requires CollectOf(s.step).Some?
    ensures var c := CollectOf(s.step).value; var o := Next(kw, s, token, raw);
      o.session == Session(c.successor, s.data[c.field := Answer(c, token, raw)])
  {
    match s.step
    case CotizacionNombre =>
    case CotizacionEmpresa =>
    case CotizacionServicio =>
    case CotizacionPresupuesto =>
    case ReunionTipo =>
    case ReunionFecha =>
    case ReunionHorario =>
    case ReunionDatos =>
  }

  /** At a choice point a recognised digit stores its label; any other token
      stores the raw, untrimmed text. */
  lemma ChoiceStoresLabelOrRaw(kw: Keywords, s: Session, token: string, raw: string)
    requires CollectOf(s.step).Some? && CollectOf(s.step).value.table.Some?
    ensures var c := CollectOf(s.step).value; var t := c.table.value;
      var stored := Next(kw, s, token, raw).session.data[c.field];
      (token in t ==> stored == t[token]) && (token !in t ==> stored == raw)
  {
    CollectStepsFollowTable(kw, s, token, raw);
    var c := CollectOf(s.step).value;
    assert c.table.value.Values !! {""} by {
      match s.step
      case CotizacionServicio =>
      case CotizacionPresupuesto =>
      case ReunionTipo =>
      case ReunionFecha =>
      case ReunionHorario =>
    }
  }

  /** A lead is saved exactly at the two flow ends: a 'cotizacion' lead from
      `cotizacion_presupuesto` and a 'reunion' lead from `reunion_datos`, each
      carrying the session's data after the last field is written. */
  lemma LeadsOnlyAtFlowEnds(kw: Keywords, s: Session, token: string, raw: string)
    ensures var o := Next(kw, s, token, raw);
      (o.lead.Some? <==> s.step in {CotizacionPresupuesto, ReunionDatos}) &&
      (s.step == CotizacionPresupuesto ==>
        o.lead == Some(LeadRequest("cotizacion", o.session.data)) && o.session.step == CotizacionFinal) &&
      (s.step == ReunionDatos ==>
        o.lead == Some(LeadRequest("reunion", o.session.data)) && o.session.step == MenuPrincipal)
  {
  }

  /** `cotizacion_final` always returns to the menu; only an input other than
      'menu' is kept, as `comentarios`, and nothing is saved again. */
  lemma QuoteFinalReturnsToMenu(kw: Keywords, s: Session, token: string, raw: string)
    requires s.step == CotizacionFinal
    ensures var o := Next(kw, s, token, raw);
      o.session.step == MenuPrincipal && o.lead == None &&
      (token == "menu" ==> o.session.data == s.data && o.reply == Welcome) &&
      (token != "menu" ==> o.session.data == s.data["comentarios" := raw] && o.reply == ThanksForComment)
  {
  }

  /** "menu" is not a universal way back: in `menu_principal` it is not
      understood, and in a field-collection step it is stored as the answer. */
  lemma MenuIsNotUniversal(kw: Keywords, data: Data)
    requires !MentionsAny("menu", kw.price) && !MentionsAny("menu", kw.hours) && !MentionsAny("menu", kw.location)
    ensures Next(kw, Session(MenuPrincipal, data), "menu", "menu").reply == NotUnderstood
    ensures Next(kw, Session(MenuPrincipal, data), "menu", "menu").session.step == MenuPrincipal
    ensures Next(kw, Session(CotizacionNombre, data), "menu", "menu").session
         == Session(CotizacionEmpresa, data["nombre" := "menu"])
  {
  }

  /** Whatever step a session holds, the step it moves to is one the switch lists. */
  lemma NextStepKnown(kw: Keywords, s: Session, token: string, raw: string)
    ensures Known(Next(kw, s, token, raw).session.step)
  {
  }

  /** `session.data` is never cleared: every key stays, and the only value that
      changes is the field of the step just handled. Keys stay among the flow's
      field names, so a lead's `tipo` is never overwritten by its data. */
  lemma {:induction false} DataOnlyGrows(kw: Keywords, s: Session, token: string, raw: string)
    ensures var d := Next(kw, s, token, raw).session.data;
      s.data.Keys <= d.Keys &&
      (forall k ::
        (k in s.data && (CollectOf(s.step).None? || k != CollectOf(s.step).value.field) &&
         !(s.step == CotizacionFinal && k == "comentarios")) ==> d[k] == s.data[k])
    ensures s.data.Keys <= FieldNames ==> Next(kw, s, token, raw).session.data.Keys <= FieldNames
  {
    match s.step
    case CotizacionNombre =>
    case CotizacionEmpresa =>
    case CotizacionServicio =>
    case CotizacionPresupuesto =>
    case ReunionTipo =>
    case ReunionFecha =>
    case ReunionHorario =>
    case ReunionDatos =>
    case CotizacionFinal =>
    case Inicio =>
    case MenuPrincipal =>
    case Servicios =>
    case Unrecognised(_) =>
  }

  /** Running a transition again from its own data, at the step it started
      from, gives the same outcome: each step writes one field from the input
      alone, so the second write restores the value the first one stored. */
  lemma {:induction false} RewriteIsHarmless(kw: Keywords, s: Session, token: string, raw: string)
    ensures Next(kw, Session(s.step, Next(kw, s, token, raw).session.data), token, raw) == Next(kw, s, token, raw)
  {
    var d := Next(kw, s, token, raw).session.data;
    match s.step
    case Inicio =>
    case MenuPrincipal =>
    case Servicios =>
    case CotizacionNombre =>
      assert d["nombre" := raw] == d;
    case CotizacionEmpresa =>
      assert d["empresa" := raw] == d;
    case CotizacionServicio =>
      assert d["servicio" := Lookup(ServiceLabels, token, raw)] == d;
    case CotizacionPresupuesto =>
      assert d["presupuesto" := Lookup(BudgetLabels, token, raw)] == d;
    case CotizacionFinal =>
      assert token != "menu" ==> d["comentarios" := raw] == d;
    case ReunionTipo =>
      assert d["tipoReunion" := Lookup(MeetingTypeLabels, token, raw)] == d;
    case ReunionFecha =>
      assert d["fecha" := Lookup(DateLabels, token, raw)] == d;
    case ReunionHorario =>
      assert d["horario" := Lookup(TimeSlotLabels, token, raw)] == d;
    case ReunionDatos =>
      assert d["contacto" := raw] == d;
    case Unrecognised(_) =>
  }

  // ---------------------------------------------------------------------
  // Whole conversations
  // ---------------------------------------------------------------------

  datatype Transcript = Transcript(session: Session, replies: seq<Reply>, leads: seq<LeadRequest>)

  function LeadsOf(o: Outcome): seq<LeadRequest> {
    if o.lead.Some? then [o.lead.value] else []
  }

  /** One inbound text as the engine sees it: the `toLowerCase().trim()` token
      the menus dispatch on, and the raw text the collect steps store. */
  datatype Input = Input(token: string, raw: string)

  function Read(text: string): Input {
    Input(Normalize(text), text)
  }

  /** Feeding a sequence of inputs to one session. */
  function Converse(kw: Keywords, s: Session, inputs: seq<Input>): Transcript
    decreases |inputs|
  {
    if inputs == [] then Transcript(s, [], [])
    else
      var o := Next(kw, s, inputs[0].token, inputs[0].raw);
      var t := Converse(kw, o.session, inputs[1..]);
      Transcript(t.session, [o.reply] + t.replies, LeadsOf(o) + t.leads)
  }

  /** Extending a conversation by one input runs one more transition from
      where it ended. */
  lemma {:induction false} ConverseSnoc(kw: Keywords, s: Session, inputs: seq<Input>, last: Input)
    ensures var t := Converse(kw, s, inputs); var o := Next(kw, t.session, last.token, last.raw);
      Converse(kw, s, inputs + [last]) == Transcript(o.session, t.replies + [o.reply], t.leads + LeadsOf(o))
    decreases |inputs|
  {
    var all := inputs + [last];
    if inputs == [] {
      assert all == [last];
      assert all[1..] == [];
    } else {
      var o0 := Next(kw, s, inputs[0].token, inputs[0].raw);
      assert all[0] == inputs[0];
      assert all[1..] == inputs[1..] + [last];
      ConverseSnoc(kw, o0.session, inputs[1..], last);
      var t := Converse(kw, o0.session, inputs[1..]);
      var o := Next(kw, t.session, last.token, last.raw);
      assert [o0.reply] + (t.replies + [o.reply]) == ([o0.reply] + t.replies) + [o.reply];
      assert LeadsOf(o0) + (t.leads + LeadsOf(o)) == (LeadsOf(o0) + t.leads) + LeadsOf(o);
    }
  }

  /** Every message gets exactly one reply. */
  lemma {:induction false} OneReplyPerMessage(kw: Keywords, s: Session, inputs: seq<Input>)
    ensures |Converse(kw, s, inputs).replies| == |inputs|
    ensures |Converse(kw, s, inputs).leads| <= |inputs|
    decreases |inputs|
  {
    if inputs != [] {
      var o := Next(kw, s, inputs[0].token, inputs[0].raw);
      OneReplyPerMessage(kw, o.session, inputs[1..]);
    }
  }

  /** One message of a conversation at a collect step: the answer is stored, the
      step advances, and the rest of the conversation continues from there. */
  lemma ConverseCollect(kw: Keywords, s: Session, inputs: seq<Input>)
    requires CollectOf(s.step).Some? && |inputs| > 0
    ensures var c := CollectOf(s.step).value;
      var next := Session(c.successor, s.data[c.field := Answer(c, inputs[0].token, inputs[0].raw)]);
      var o := Next(kw, s, inputs[0].token, inputs[0].raw);
      Converse(kw, s, inputs).session == Converse(kw, next, inputs[1..]).session &&
      Converse(kw, s, inputs).leads == LeadsOf(o) + Converse(kw, next, inputs[1..]).leads
  {
    CollectStepsFollowTable(kw, s, inputs[0].token, inputs[0].raw);
  }

  /** The quote flow: name, company, service and budget, from
      `cotizacion_nombre`, saves exactly one 'cotizacion' lead holding all four
      fields and ends in `cotizacion_final`. */
  lemma QuoteFlowSavesOnce(kw: Keywords, data: Data, inputs: seq<Input>)
    requires |inputs| == 4
    ensures var t := Converse(kw, Session(CotizacionNombre, data), inputs);
      var d := data["nombre" := inputs[0].raw]["empresa" := inputs[1].raw]
                   ["servicio" := Lookup(ServiceLabels, inputs[2].token, inputs[2].raw)]
                   ["presupuesto" := Lookup(BudgetLabels, inputs[3].token, inputs[3].raw)];
      t.session == Session(CotizacionFinal, d) &&
      t.leads == [LeadRequest("cotizacion", d)] &&
      {"nombre", "empresa", "servicio", "presupuesto"} <= d.Keys
  {
    var d1 := data["nombre" := inputs[0].raw];
    var d2 := d1["empresa" := inputs[1].raw];
    var d3 := d2["servicio" := Lookup(ServiceLabels, inputs[2].token, inputs[2].raw)];
    var s1, s2, s3 := Session(CotizacionEmpresa, d1), Session(CotizacionServicio, d2),
                      Session(CotizacionPresupuesto, d3);
    var r1 := inputs[1..];
    var r2 := r1[1..];
    var r3 := r2[1..];
    assert r1[0] == inputs[1] && r2[0] == inputs[2] && r3[0] == inputs[3] && r3[1..] == [];
    ConverseCollect(kw, Session(CotizacionNombre, data), inputs);
    ConverseCollect(kw, s1, r1);
    ConverseCollect(kw, s2, r2);
    ConverseCollect(kw, s3, r3);
  }

  /** The last two answers of the meeting flow, time slot and contact. */
  lemma MeetingFlowTail(kw: Keywords, data: Data, inputs: seq<Input>)
    requires |inputs| == 2
    ensures var t := Converse(kw, Session(ReunionHorario, data), inputs);
      var d := data["horario" := Lookup(TimeSlotLabels, inputs[0].token, inputs[0].raw)]
                   ["contacto" := inputs[1].raw];
      t.session == Session(MenuPrincipal, d) &&
      t.leads == [LeadRequest("reunion", d)]
  {
    var d1 := data["horario" := Lookup(TimeSlotLabels, inputs[0].token, inputs[0].raw)];
    var r1 := inputs[1..];
    assert r1[0] == inputs[1] && r1[1..] == [];
    ConverseCollect(kw, Session(ReunionHorario, data), inputs);
    ConverseCollect(kw, Session(ReunionDatos, d1), r1);
  }

  /** The meeting flow: type, date, time slot and contact, from `reunion_tipo`,
      saves exactly one 'reunion' lead and returns to `menu_principal`. */
  lemma MeetingFlowSavesOnce(kw: Keywords, data: Data, inputs: seq<Input>)
    requires |inputs| == 4
    ensures var t := Converse(kw, Session(ReunionTipo, data), inputs);
      var d := data["tipoReunion" := Lookup(MeetingTypeLabels, inputs[0].token, inputs[0].raw)]
                   ["fecha" := Lookup(DateLabels, inputs[1].token, inputs[1].raw)]
                   ["horario" := Lookup(TimeSlotLabels, inputs[2].token, inputs[2].raw)]
                   ["contacto" := inputs[3].raw];
      t.session == Session(MenuPrincipal, d) &&
      t.leads == [LeadRequest("reunion", d)]
  {
    var d1 := data["tipoReunion" := Lookup(MeetingTypeLabels, inputs[0].token, inputs[0].raw)];
    var d2 := d1["fecha" := Lookup(DateLabels, inputs[1].token, inputs[1].raw)];
    var r1 := inputs[1..];
    var r2 := r1[1..];
    assert r1[0] == inputs[1] && r2[0] == inputs[2] && r2[1] == inputs[3];
    MeetingFlowTail(kw, d2, r2);
    ConverseCollect(kw, Session(ReunionFecha, d1), r1);
    ConverseCollect(kw, Session(ReunionTipo, data), inputs);
  }

  /** In a meeting lead the data's `fecha` (the chosen date) replaces the
      timestamp, because the spread of `data` comes after `fecha`. */
  lemma MeetingLeadDateOverridesTimestamp(data: Data, timestamp: string)
    requires "fecha" in data
    ensures LeadRecord("reunion", timestamp, data)["fecha"] == data["fecha"]
  {
  }

  /** A lead's `tipo` is the one passed to `saveLead`, as long as the data keys
      are the flow's field names. */
  lemma LeadTypeIntact(tipo: string, timestamp: string, data: Data)
    requires data.Keys <= FieldNames
    ensures LeadRecord(tipo, timestamp, data)["tipo"] == tipo
  {
  }

  // ---------------------------------------------------------------------
  // The process-wide state: sessions and lead files
  // ---------------------------------------------------------------------

  datatype World = World(sessions: map<string, Session>, files: Files)

  /** The file system after the outcome's lead, if any, is saved at `now`. */
  function Persist(files: Files, lead: Option<LeadRequest>, now: string): Files {
    match lead
    case None => files
    case Some(l) => Saved(files, l.tipo, now, l.data)
  }

  /** `userSessions.get(from)` after the session is created on first contact. */
  function SessionOf(sessions: map<string, Session>, from: string): Session {
    if from in sessions then sessions[from] else Fresh
  }
}
