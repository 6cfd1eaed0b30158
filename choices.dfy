/** The digit-token → label tables used at every choice point of the two
    conversation flows, and the lookup `table[userMessage] || messageText`.
    Both bot variants carry identical copies of these tables. */
module Choices {

  /** A JavaScript object literal from digit token to label. */
  type Table = map<string, string>

  const ServiceLabels: Table := map[
    "1" := "Social Media Management",
    "2" := "Publicidad Digital",
    "3" := "Diseño Web",
    "4" := "Email Marketing",
    "5" := "Paquete Completo"]

  const BudgetLabels: Table := map[
    "1" := "$500 - $1,000 USD",
    "2" := "$1,000 - $3,000 USD",
    "3" := "$3,000 - $5,000 USD",
    "4" := "Más de $5,000 USD",
    "5" := "Por definir"]

  const MeetingTypeLabels: Table := map[
    "1" := "Videollamada (Google Meet/Zoom)",
    "2" := "Llamada telefónica",
    "3" := "Presencial en Cúcuta"]

  const DateLabels: Table := map[
    "1" := "Esta semana",
    "2" := "Próxima semana",
    "3" := "En dos semanas"]

  const TimeSlotLabels: Table := map[
    "1" := "Mañana (9am - 12pm)",
    "2" := "Tarde (2pm - 5pm)",
    "3" := "Flexible"]

  /** `table[token] || raw` with the table read as a dictionary of its own
      entries: a recognised token gives its label (no label is empty, so `||`
      keeps it), anything else gives the raw, untrimmed text. */
  function Lookup(table: Table, token: string, raw: string): (r: string)
    ensures token in table && table[token] != "" ==> r == table[token]
    ensures token !in table ==> r == raw
    ensures r in table.Values || r == raw
  {
    if token in table && table[token] != "" then table[token] else raw
  }

  /** Every digit a flow offers is a key of its table, and only those. */
  lemma TablesAreDigitMenus()
    ensures ServiceLabels.Keys == {"1", "2", "3", "4", "5"}
    ensures BudgetLabels.Keys == {"1", "2", "3", "4", "5"}
    ensures MeetingTypeLabels.Keys == {"1", "2", "3"}
    ensures DateLabels.Keys == {"1", "2", "3"}
    ensures TimeSlotLabels.Keys == {"1", "2", "3"}
  {
  }

  /** `'2'` at the service choice always stores "Publicidad Digital". */
  lemma ServiceTwoIsDigitalAdvertising(raw: string)
    ensures Lookup(ServiceLabels, "2", raw) == "Publicidad Digital"
  {
  }

  // ---------------------------------------------------------------------
  // The lookup as written: a JavaScript property read also finds members
  // inherited from Object.prototype.
  // ---------------------------------------------------------------------

  /** The members every plain object inherits from `Object.prototype`; all of
      them are truthy, so `||` keeps them. */
  const PrototypeMembers: set<string> := {
    "constructor", "__proto__", "hasOwnProperty", "isPrototypeOf",
    "propertyIsEnumerable", "toString", "toLocaleString", "valueOf",
    "__defineGetter__", "__defineSetter__", "__lookupGetter__", "__lookupSetter__"}

  /** What a stored field can hold once the property read is taken literally. */
  datatype Value = Text(text: string) | Inherited(member: string)

  /** `table[token] || raw` exactly as JavaScript evaluates it on an object
      literal: own entries first, then the prototype chain. */
  function LookupAsWritten(table: Table, token: string, raw: string): (v: Value)
    ensures token in table && table[token] != "" ==> v == Text(table[token])
    ensures token !in table && token in PrototypeMembers ==> v == Inherited(token)
    ensures token !in table && token !in PrototypeMembers ==> v == Text(raw)
  {
    if token in table && table[token] != "" then Text(table[token])
    else if token in PrototypeMembers then Inherited(token)
    else Text(raw)
  }

  /** The discrepancy: a customer who answers "constructor" at the service
      choice gets the built-in `Object` function stored instead of their text. */
  lemma ConstructorIsNotStoredAsText()
    ensures LookupAsWritten(ServiceLabels, "constructor", "constructor") == Inherited("constructor")
    ensures LookupAsWritten(ServiceLabels, "constructor", "constructor") != Text("constructor")
  {
  }

  /** The corrected lookup agrees with the one as written on every token that is
      not an inherited member name, and stores the raw text on those. */
  lemma {:induction false} LookupAgreesOffPrototype(table: Table, token: string, raw: string)
    ensures token !in PrototypeMembers ==> LookupAsWritten(table, token, raw) == Text(Lookup(table, token, raw))
    ensures token !in table && token in PrototypeMembers ==> Lookup(table, token, raw) == raw
  {
  }
}
