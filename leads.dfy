/** The lead recorder `saveLead(tipo, data)`, identical in both bot variants:
    read `leads_<tipo>.json`, fall back to an empty list when the file is
    missing or does not parse, push `{tipo, fecha, ...data}`, write the list back.
    The file system is a map from file name to what the file holds. */
module Leads {

  /** A lead as a JSON object of string fields. */
  type Record = map<string, string>

  /** What `JSON.parse` makes of a lead file. */
  datatype LeadFile =
    | Unparseable              // `JSON.parse` throws: the inner catch starts from `[]`
    | NotAList                 // valid JSON but not an array: `leads.push` throws
    | Leads(records: seq<Record>)

  type Files = map<string, LeadFile>

  /** `leads_${tipo}.json` */
  function FileName(tipo: string): string {
    "leads_" + tipo + ".json"
  }

  /** `{tipo, fecha, ...data}`: the spread comes last, so a key of `data` wins. */
  function LeadRecord(tipo: string, fecha: string, data: Record): (r: Record)
    ensures r.Keys == data.Keys + {"tipo", "fecha"}
    ensures forall k :: k in data ==> r[k] == data[k]
    ensures "tipo" !in data ==> r["tipo"] == tipo
    ensures "fecha" !in data ==> r["fecha"] == fecha
  {
    map["tipo" := tipo, "fecha" := fecha] + data
  }

  /** The list the call starts from: `[]` for a missing or unparseable file,
      nothing at all when the content is not a list. */
  function Prior(files: Files, name: string): seq<Record>
    requires name !in files || !files[name].NotAList?
  {
    if name !in files || files[name].Unparseable? then [] else files[name].records
  }

  /** The file system after `saveLead(tipo, data)` at time `fecha`. When the file
      holds JSON that is not a list, `push` throws, the outer catch logs and
      nothing is written. */
  function Saved(files: Files, tipo: string, fecha: string, data: Record): Files {
    var name := FileName(tipo);
    if name in files && files[name].NotAList? then files
    else files[name := Leads(Prior(files, name) + [LeadRecord(tipo, fecha, data)])]
  }

  /** Distinct lead types live in distinct files. */
  lemma FileNameInjective(a: string, b: string)
    requires FileName(a) == FileName(b)
    ensures a == b
  {
    var n := FileName(a);
    assert |a| == |b|;
    assert a == n[6..6 + |a|];
    assert b == n[6..6 + |b|];
  }

  /** Append-only: the list for `tipo` grows by exactly one, prior entries stay
      where they were, and the new record is last. A missing or corrupt file
      counts as empty, so the list then has exactly one entry. */
  lemma SaveAppends(files: Files, tipo: string, fecha: string, data: Record)
    requires var name := FileName(tipo); name !in files || !files[name].NotAList?
    ensures var name := FileName(tipo); var after := Saved(files, tipo, fecha, data);
      name in after && after[name].Leads? &&
      |after[name].records| == |Prior(files, name)| + 1 &&
      after[name].records[..|Prior(files, name)|] == Prior(files, name) &&
      after[name].records[|Prior(files, name)|] == LeadRecord(tipo, fecha, data)
    ensures var name := FileName(tipo);
      (name !in files || files[name].Unparseable?) ==>
        Saved(files, tipo, fecha, data)[name] == Leads([LeadRecord(tipo, fecha, data)])
    ensures var name := FileName(tipo);
      name in files && files[name].Leads? ==>
        |Saved(files, tipo, fecha, data)[name].records| == |files[name].records| + 1
  {
  }

  /** Content that parses but is not a list makes the call a no-op. */
  lemma NotAListLosesTheLead(files: Files, tipo: string, fecha: string, data: Record)
    requires FileName(tipo) in files && files[FileName(tipo)].NotAList?
    ensures Saved(files, tipo, fecha, data) == files
  {
  }

  /** Saving one type of lead never touches the file of another type. */
  lemma OtherTypesUntouched(files: Files, tipo: string, other: string, fecha: string, data: Record)
    requires other != tipo
    ensures var s := Saved(files, tipo, fecha, data);
      (FileName(other) in s <==> FileName(other) in files) &&
      (FileName(other) in files ==> s[FileName(other)] == files[FileName(other)])
  {
    if FileName(other) == FileName(tipo) {
      FileNameInjective(other, tipo);
    }
  }

  /** The store `saveLead` reads and writes: one JSON file per lead type. */
  class LeadStore {
    var files: Files

    constructor (initial: Files)
      ensures files == initial
    {
      files := initial;
    }

    /** `saveLead(tipo, data)`; `fecha` is the clock reading `new Date().toISOString()`. */
    method SaveLead(tipo: string, fecha: string, data: Record)
      modifies this
      ensures files == Saved(old(files), tipo, fecha, data)
    {
      var lead := map["tipo" := tipo, "fecha" := fecha] + data;
      var filename := FileName(tipo);
      var leads: seq<Record> := [];
      if filename in files {
        match files[filename]
        case Unparseable =>
          leads := [];
        case NotAList =>
          // `leads.push` is not a function: the outer catch logs the error.
          return;
        case Leads(parsed) =>
          leads := parsed;
      }
      leads := leads + [lead];
      files := files[filename := Leads(leads)];
    }
  }
}
