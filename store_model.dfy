/**
 * The record store of `JurisFlowDB` as values: the storage slots, and one
 * function per store operation giving the new slot contents and the result.
 * Each operation reads whole collections, changes them in memory and writes
 * them back; a slot that was never written reads as the empty sequence.
 */
module StoreModel {
  import opened Json
  import opened Ids
  import opened Ordering

  /** The storage keys: the six of the store and the legacy `jurisflow_cases_old`. */
  datatype Slot = CasesKey | ClientsKey | UsersKey | DocumentsKey | SendLogKey | TimelineKey | OldCasesKey

  /** The six keys that `init` and `clearAllData` write. */
  const StoreKeys: set<Slot> := {CasesKey, ClientsKey, UsersKey, DocumentsKey, SendLogKey, TimelineKey}

  /** The five collections a snapshot carries. */
  const SnapshotKeys: set<Slot> := {CasesKey, ClientsKey, DocumentsKey, SendLogKey, TimelineKey}

  /** The contents of storage: one sequence per slot, and the keys storage holds. */
  datatype Db = Db(
    cases: seq<Record>,
    clients: seq<Record>,
    users: seq<Record>,
    documents: seq<Record>,
    sendLog: seq<Record>,
    timeline: seq<Record>,
    oldCases: seq<Record>,
    present: set<Slot>)

  /** A key absent from storage reads as `[]` (`JSON.parse(null) || []`). */
  predicate Consistent(db: Db) {
    && (CasesKey !in db.present ==> db.cases == [])
    && (ClientsKey !in db.present ==> db.clients == [])
    && (UsersKey !in db.present ==> db.users == [])
    && (DocumentsKey !in db.present ==> db.documents == [])
    && (SendLogKey !in db.present ==> db.sendLog == [])
    && (TimelineKey !in db.present ==> db.timeline == [])
    && (OldCasesKey !in db.present ==> db.oldCases == [])
  }

  /** The storage after an operation, and what the operation returned. */
  datatype Step<T> = Step(db: Db, out: T)

  const DefaultStatus := "recebido"

  /** `localStorage.setItem(key, JSON.stringify(v))`: slot `k` now holds `v`. */
  function Put(db: Db, k: Slot, v: seq<Record>): (r: Db)
    ensures r.present == db.present + {k}
    ensures Consistent(db) ==> Consistent(r)
  {
    var p := db.present + {k};
    match k
    case CasesKey => db.(cases := v, present := p)
    case ClientsKey => db.(clients := v, present := p)
    case UsersKey => db.(users := v, present := p)
    case DocumentsKey => db.(documents := v, present := p)
    case SendLogKey => db.(sendLog := v, present := p)
    case TimelineKey => db.(timeline := v, present := p)
    case OldCasesKey => db.(oldCases := v, present := p)
  }

  /** `Ok(v)` when the earlier step succeeded, its exception otherwise. */
  function Then(o: Outcome<Record>, v: Record): (r: Outcome<Record>)
    ensures r.Ok? <==> o.Ok?
    ensures r.Ok? ==> r.value == v
    ensures r.Throw? ==> r.error == o.error
  {
    if o.Ok? then Ok(v) else Throw(o.error)
  }

  // ---------- init ----------

  /** `init()`: every missing key is written as `[]`. */
  function Init(db: Db): (r: Db)
    requires Consistent(db)
    ensures Consistent(r)
    ensures r.present == db.present + StoreKeys
    ensures r.(present := db.present) == db
  {
    db.(present := db.present + StoreKeys)
  }

  // ---------- embedded lists inside a case ----------

  /** The items of an embedded list field, or `[]` when the field is not an array. */
  function Items(c: Record, key: string): seq<Value> {
    if FieldTruthy(c, key) && c[key].Arr? then c[key].items else []
  }

  /**
   * `if (!c[key]) c[key] = []; c[key].unshift(v)` (front) or `.push(v)`: a
   * truthy field that is not an array has neither method and throws.
   */
  function WithItem(c: Record, key: string, v: Value, front: bool): (r: Outcome<Record>)
    ensures r.Throw? <==> FieldTruthy(c, key) && !c[key].Arr?
    ensures r.Throw? ==> r.error == TypeError
    ensures r.Ok? ==> r.value.Keys == c.Keys + {key}
    ensures r.Ok? ==> forall k :: k in c && k != key ==> r.value[k] == c[k]
    ensures r.Ok? ==> r.value[key] == Arr(if front then [v] + Items(c, key) else Items(c, key) + [v])
  {
    if !FieldTruthy(c, key) then
      assert Items(c, key) == [] && [v] + [] == [v] == [] + [v];
      Ok(c[key := Arr([v])])
    else if c[key].Arr? then
      Ok(c[key := Arr(if front then [v] + c[key].items else c[key].items + [v])])
    else Throw(TypeError)
  }

  /**
   * The case-side write of `addToTimeline`, `addDocument` and `logSend`: the
   * first case whose `id` is strictly equal to `caseId` gets `v` in its list
   * `key` and the cases are written back; nothing happens when no case matches.
   */
  function EmbedInCase(db: Db, caseId: Value, key: string, v: Value, front: bool): (r: Outcome<Db>)
    ensures FindIndex(db.cases, "id", Some(caseId)) < 0 ==> r == Ok(db)
    ensures r.Ok? ==> r.value == db.(cases := r.value.cases, present := r.value.present)
    ensures r.Ok? ==> |r.value.cases| == |db.cases|
    ensures r.Ok? ==> db.present <= r.value.present <= db.present + {CasesKey}
    ensures r.Ok? ==> forall j :: 0 <= j < |db.cases| && j != FindIndex(db.cases, "id", Some(caseId)) ==>
                        r.value.cases[j] == db.cases[j]
    ensures r.Ok? ==> forall j :: 0 <= j < |db.cases| ==> db.cases[j].Keys <= r.value.cases[j].Keys
    ensures r.Throw? ==> r.error == TypeError
  {
    var i := FindIndex(db.cases, "id", Some(caseId));
    if i < 0 then Ok(db)
    else
      match WithItem(db.cases[i], key, v, front)
      case Throw(e) => Throw(e)
      case Ok(c) => Ok(db.(cases := db.cases[i := c], present := db.present + {CasesKey}))
  }

  // ---------- clients ----------

  /** `{ id, ...clientData, created_at, casos: [] }`. */
  function NewClient(data: Record, now: nat): (c: Record)
    ensures c.Keys == data.Keys + {"id", "created_at", "casos"}
    ensures c["created_at"] == Num(now) && c["casos"] == Arr([])
    ensures c["id"] == if "id" in data then data["id"] else Str(NewId("CLI-", now))
    ensures forall k :: k in data && k != "created_at" && k != "casos" ==> c[k] == data[k]
  {
    Spread(map["id" := Str(NewId("CLI-", now))], data)["created_at" := Num(now)]["casos" := Arr([])]
  }

  /**
   * `registerClient(clientData)`: the first client whose `email` is strictly
   * equal to the caller's is merged with the caller's fields; otherwise a new
   * client is appended.
   */
  function RegisterClient(db: Db, data: Record, now: nat): (r: Step<Record>)
    ensures r.db == db.(clients := r.db.clients, present := db.present + {ClientsKey})
    ensures var i := FindIndex(db.clients, "email", Get(data, "email"));
            i >= 0 ==> r.out == Spread(db.clients[i], data) && r.db.clients == db.clients[i := r.out]
    ensures var i := FindIndex(db.clients, "email", Get(data, "email"));
            i < 0 ==> r.out == NewClient(data, now) && r.db.clients == db.clients + [r.out]
  {
    var i := FindIndex(db.clients, "email", Get(data, "email"));
    if i >= 0 then
      var c := Spread(db.clients[i], data);
      Step(db.(clients := db.clients[i := c], present := db.present + {ClientsKey}), c)
    else
      var c := NewClient(data, now);
      Step(db.(clients := db.clients + [c], present := db.present + {ClientsKey}), c)
  }

  /** `getClientById(id)`. */
  function ClientById(db: Db, id: Value): (r: Option<Record>)
    ensures r.None? <==> forall c :: c in db.clients ==> !StrictEq(Get(c, "id"), Some(id))
    ensures r.Some? ==> r.value in db.clients && "id" in r.value && r.value["id"] == id
    ensures r.Some? ==> exists i :: 0 <= i < |db.clients| && db.clients[i] == r.value &&
                                  forall j :: 0 <= j < i ==> !StrictEq(Get(db.clients[j], "id"), Some(id))
  {
    Find(db.clients, "id", Some(id))
  }

  /** `getClientByEmail(email)`. */
  function ClientByEmail(db: Db, email: Value): (r: Option<Record>)
    ensures r.None? <==> forall c :: c in db.clients ==> !StrictEq(Get(c, "email"), Some(email))
    ensures r.Some? ==> r.value in db.clients && "email" in r.value && r.value["email"] == email
    ensures r.Some? ==> exists i :: 0 <= i < |db.clients| && db.clients[i] == r.value &&
                                  forall j :: 0 <= j < i ==> !StrictEq(Get(db.clients[j], "email"), Some(email))
  {
    Find(db.clients, "email", Some(email))
  }

  // ---------- timeline ----------

  /** `{ id, case_id: caseId, created_at, ...entry }` of `addToTimeline`. */
  function TimelineEntry(caseId: Value, entry: Record, now: nat): (e: Record)
    ensures e.Keys == entry.Keys + {"id", "case_id", "created_at"}
    ensures e["case_id"] == if "case_id" in entry then entry["case_id"] else caseId
    ensures e["created_at"] == if "created_at" in entry then entry["created_at"] else Num(now)
    ensures forall k :: k in entry ==> e[k] == entry[k]
  {
    Spread(map["id" := Str(NewId("TL-", now)), "case_id" := caseId, "created_at" := Num(now)], entry)
  }

  /**
   * `addToTimeline(caseId, entry)`: the entry is appended to the flat
   * timeline, then put at the front of the matching case's embedded timeline.
   */
  function AddToTimeline(db: Db, caseId: Value, entry: Record, now: nat): (r: Step<Outcome<Record>>)
    ensures r.db.timeline == db.timeline + [TimelineEntry(caseId, entry, now)]
    ensures r.db == db.(cases := r.db.cases, timeline := r.db.timeline, present := r.db.present)
    ensures db.present + {TimelineKey} <= r.db.present <= db.present + {TimelineKey, CasesKey}
    ensures |r.db.cases| == |db.cases|
    ensures forall j :: 0 <= j < |db.cases| && j != FindIndex(db.cases, "id", Some(caseId)) ==>
              r.db.cases[j] == db.cases[j]
    ensures forall j :: 0 <= j < |db.cases| ==> db.cases[j].Keys <= r.db.cases[j].Keys
    ensures r.out.Ok? ==> r.out.value == TimelineEntry(caseId, entry, now)
    ensures r.out.Throw? ==> r.out.error == TypeError
  {
    var e := TimelineEntry(caseId, entry, now);
    var db1 := db.(timeline := db.timeline + [e], present := db.present + {TimelineKey});
    match EmbedInCase(db1, caseId, "timeline", Obj(e), true)
    case Ok(db2) => Step(db2, Ok(e))
    case Throw(x) => Step(db1, Throw(x))
  }

  /** `{ id, created_at, ...timelineEntry }` of `updateCaseTimeline` (no `case_id`). */
  function CaseTimelineEntry(entry: Record, now: nat): (e: Record)
    ensures e.Keys == entry.Keys + {"id", "created_at"}
    ensures forall k :: k in entry ==> e[k] == entry[k]
  {
    Spread(map["id" := Str(NewId("TL-", now)), "created_at" := Num(now)], entry)
  }

  /**
   * `updateCaseTimeline(caseId, entry)`: puts a new entry at the front of the
   * matching case's embedded timeline only; `null` when no case matches.
   */
  function UpdateCaseTimeline(db: Db, caseId: Value, entry: Record, now: nat): (r: Step<Outcome<Option<Record>>>)
    ensures r.db.timeline == db.timeline
    ensures r.db == db.(cases := r.db.cases, present := r.db.present)
    ensures FindIndex(db.cases, "id", Some(caseId)) < 0 <==> r.out == Ok(None)
    ensures r.out == Ok(None) ==> r.db == db
    ensures r.out.Throw? ==> r.db == db
    ensures r.out.Ok? && r.out.value.Some? ==> r.out.value.value == CaseTimelineEntry(entry, now)
  {
    var i := FindIndex(db.cases, "id", Some(caseId));
    if i < 0 then Step(db, Ok(None))
    else
      var e := CaseTimelineEntry(entry, now);
      match WithItem(db.cases[i], "timeline", Obj(e), true)
      case Throw(x) => Step(db, Throw(x))
      case Ok(c) => Step(db.(cases := db.cases[i := c], present := db.present + {CasesKey}), Ok(Some(e)))
  }

  /** `r => r[key] === v` as a filter test. */
  function KeyIs(key: string, v: Value): Record -> bool {
    (r: Record) => StrictEq(Get(r, key), Some(v))
  }

  /** `getTimelineByCaseId(caseId)`: the flat entries of that case, newest first. */
  function TimelineByCaseId(db: Db, caseId: Value): (r: seq<Record>)
    ensures NewestFirst(r)
    ensures multiset(r) == multiset(Filter(db.timeline, KeyIs("case_id", caseId)))
  {
    SortNewestFirst(Filter(db.timeline, KeyIs("case_id", caseId)))
  }

  // ---------- cases ----------

  /** The defaults of a new case. */
  function CaseDefaults(now: nat): Record {
    map["id" := Str(NewId("SOL-", now)), "status" := Str(DefaultStatus), "created_at" := Num(now),
        "documentos" := Arr([]), "timeline" := Arr([]), "envios" := Arr([])]
  }

  /** `{ id, status, created_at, documentos: [], timeline: [], envios: [], ...caseData }`. */
  function NewCase(data: Record, now: nat): (c: Record)
    ensures c.Keys == data.Keys + {"id", "status", "created_at", "documentos", "timeline", "envios"}
    ensures forall k :: k in data ==> c[k] == data[k]
    ensures "status" !in data ==> c["status"] == Str(DefaultStatus)
    ensures "id" !in data ==> c["id"] == Str(NewId("SOL-", now))
    ensures "timeline" !in data ==> c["timeline"] == Arr([])
    ensures "documentos" !in data ==> c["documentos"] == Arr([])
    ensures "envios" !in data ==> c["envios"] == Arr([])
  {
    Spread(CaseDefaults(now), data)
  }

  /** The timeline entry `addCase` records. */
  const PedidoRecebido: Record := map[
    "titulo" := Str("Pedido recebido"),
    "descricao" := Str("Novo pedido de orçamento recebido via formulário"),
    "status" := Str(DefaultStatus)]

  /** `addCase(caseData)`: appends the new case, then records 'Pedido recebido' for it. */
  function AddCase(db: Db, data: Record, now: nat): (r: Step<Outcome<Record>>)
    ensures |r.db.cases| == |db.cases| + 1
    ensures r.db.timeline == db.timeline + [TimelineEntry(NewCase(data, now)["id"], PedidoRecebido, now)]
    ensures r.db == db.(cases := r.db.cases, timeline := r.db.timeline, present := r.db.present)
    ensures r.db.present == db.present + {CasesKey, TimelineKey}
    ensures forall j :: 0 <= j < |db.cases| ==> db.cases[j].Keys <= r.db.cases[j].Keys
    ensures NewCase(data, now).Keys <= r.db.cases[|db.cases|].Keys
    ensures r.out.Ok? ==> r.out.value == NewCase(data, now)
  {
    var c := NewCase(data, now);
    var db1 := db.(cases := db.cases + [c], present := db.present + {CasesKey});
    SnocIndices(db.cases, c);
    var t := AddToTimeline(db1, c["id"], PedidoRecebido, now);
    Squeeze(db.present, t.db.present, CasesKey, TimelineKey);
    Step(t.db, Then(t.out, c))
  }

  lemma Squeeze<T>(p: set<T>, r: set<T>, x: T, y: T)
    requires (p + {x}) + {y} <= r <= (p + {x}) + {y, x}
    ensures r == p + {x, y}
  {
  }

  lemma SnocIndices<T>(a: seq<T>, x: T)
    ensures forall j :: 0 <= j < |a| ==> (a + [x])[j] == a[j]
    ensures (a + [x])[|a|] == x
  {
  }

  /** `getCaseById(id)`. */
  function CaseById(db: Db, id: Value): (r: Option<Record>)
    ensures r.None? <==> forall c :: c in db.cases ==> !StrictEq(Get(c, "id"), Some(id))
    ensures r.Some? ==> r.value in db.cases && "id" in r.value && r.value["id"] == id
    ensures r.Some? ==> exists i :: 0 <= i < |db.cases| && db.cases[i] == r.value &&
                                  forall j :: 0 <= j < i ==> !StrictEq(Get(db.cases[j], "id"), Some(id))
  {
    Find(db.cases, "id", Some(id))
  }

  /** `updateCase(id, updates)`: `{...old, ...updates}` for the first matching case, `null` otherwise. */
  function UpdateCase(db: Db, id: Value, updates: Record): (r: Step<Option<Record>>)
    ensures r.out.None? <==> forall c :: c in db.cases ==> !StrictEq(Get(c, "id"), Some(id))
    ensures r.out.None? ==> r.db == db
    ensures r.db == db.(cases := r.db.cases, present := r.db.present)
    ensures |r.db.cases| == |db.cases|
    ensures r.out.Some? ==>
              var i := FindIndex(db.cases, "id", Some(id));
              && r.db.cases == db.cases[i := Spread(db.cases[i], updates)]
              && r.out.value == r.db.cases[i]
              && r.db.present == db.present + {CasesKey}
  {
    var i := FindIndex(db.cases, "id", Some(id));
    if i < 0 then Step(db, None)
    else
      var c := Spread(db.cases[i], updates);
      Step(db.(cases := db.cases[i := c], present := db.present + {CasesKey}), Some(c))
  }

  // ---------- documents ----------

  /** `{ id, case_id: caseId, created_at, status: 'pendente', ...documentData }`. */
  function NewDocument(caseId: Value, data: Record, now: nat): (d: Record)
    ensures d.Keys == data.Keys + {"id", "case_id", "created_at", "status"}
    ensures forall k :: k in data ==> d[k] == data[k]
    ensures d["status"] == if "status" in data then data["status"] else Str("pendente")
    ensures d["case_id"] == if "case_id" in data then data["case_id"] else caseId
  {
    Spread(map["id" := Str(NewId("DOC-", now)), "case_id" := caseId, "created_at" := Num(now),
               "status" := Str("pendente")], data)
  }

  /** The timeline entry `addDocument` records. */
  function DocumentEntry(data: Record): Record {
    map["titulo" := Str("Documento adicionado"),
        "descricao" := Str("Documento \"" + JsString(Get(data, "nome")) + "\" adicionado ao caso"),
        "tipo" := Str("documento")]
  }

  /**
   * `addDocument(caseId, documentData)`: appends the document, appends it to
   * the matching case's `documentos`, then records a 'documento' entry.
   */
  function AddDocument(db: Db, caseId: Value, data: Record, now: nat): (r: Step<Outcome<Record>>)
    ensures r.db.documents == db.documents + [NewDocument(caseId, data, now)]
    ensures r.db.clients == db.clients && r.db.sendLog == db.sendLog && r.db.users == db.users
    ensures r.db.oldCases == db.oldCases
    ensures |r.db.cases| == |db.cases|
    ensures r.out.Ok? ==> r.out.value == NewDocument(caseId, data, now)
    ensures r.out.Ok? ==> r.db.timeline == db.timeline + [TimelineEntry(caseId, DocumentEntry(data), now)]
  {
    var d := NewDocument(caseId, data, now);
    var db1 := db.(documents := db.documents + [d], present := db.present + {DocumentsKey});
    match EmbedInCase(db1, caseId, "documentos", Obj(d), false)
    case Throw(x) => Step(db1, Throw(x))
    case Ok(db2) =>
      var t := AddToTimeline(db2, caseId, DocumentEntry(data), now);
      Step(t.db, Then(t.out, d))
  }

  /** `getDocumentsByCaseId(caseId)`. */
  function DocumentsByCaseId(db: Db, caseId: Value): (r: seq<Record>)
    ensures forall i :: 0 <= i < |r| ==> r[i] in db.documents && StrictEq(Get(r[i], "case_id"), Some(caseId))
    ensures forall d :: d in db.documents && StrictEq(Get(d, "case_id"), Some(caseId)) ==> d in r
    ensures forall d :: multiset(r)[d] ==
                        if StrictEq(Get(d, "case_id"), Some(caseId)) then multiset(db.documents)[d] else 0
  {
    Filter(db.documents, KeyIs("case_id", caseId))
  }

  /**
   * `documentos.findIndex(d => d.id === documentId)` over an embedded list:
   * reading `.id` of a `null` item throws; other non-objects have no `id`.
   */
  function FindEmbeddedIndex(items: seq<Value>, id: Value): (r: Outcome<int>)
    ensures r.Throw? <==> exists j :: 0 <= j < |items| && items[j].Null? &&
                           forall m :: 0 <= m < j ==> !MatchesId(items[m], id)
    ensures r.Ok? ==> -1 <= r.value < |items|
    ensures r.Ok? && r.value >= 0 ==> MatchesId(items[r.value], id)
    ensures r.Ok? ==> forall m :: 0 <= m < |items| && (r.value < 0 || m < r.value) ==> !MatchesId(items[m], id)
  {
    if items == [] then Ok(-1)
    else if items[0].Null? then Throw(TypeError)
    else if MatchesId(items[0], id) then Ok(0)
    else
      match FindEmbeddedIndex(items[1..], id)
      case Throw(x) => Throw(x)
      case Ok(j) => Ok(if j < 0 then -1 else j + 1)
  }

  /** `d.id === id` for an embedded item `d`. */
  predicate MatchesId(d: Value, id: Value) {
    d.Obj? && StrictEq(Get(d.fields, "id"), Some(id))
  }

  /**
   * `updateDocument(documentId, updates)`: merges into the first matching flat
   * document, then overwrites that document's copy inside its case.
   */
  function UpdateDocument(db: Db, id: Value, updates: Record): (r: Step<Outcome<Option<Record>>>)
    ensures FindIndex(db.documents, "id", Some(id)) < 0 <==> r.out == Ok(None)
    ensures r.out == Ok(None) ==> r.db == db
    ensures r.db == db.(cases := r.db.cases, documents := r.db.documents, present := r.db.present)
    ensures |r.db.cases| == |db.cases| && |r.db.documents| == |db.documents|
    ensures r.out != Ok(None) ==>
              var i := FindIndex(db.documents, "id", Some(id));
              r.db.documents == db.documents[i := Spread(db.documents[i], updates)]
    ensures r.out.Ok? && r.out.value.Some? ==>
              r.out.value.value == r.db.documents[FindIndex(db.documents, "id", Some(id))]
  {
    var i := FindIndex(db.documents, "id", Some(id));
    if i < 0 then Step(db, Ok(None))
    else
      var d := Spread(db.documents[i], updates);
      var db1 := db.(documents := db.documents[i := d], present := db.present + {DocumentsKey});
      var ci := FindIndex(db.cases, "id", Get(d, "case_id"));
      if ci < 0 || !FieldTruthy(db.cases[ci], "documentos") then Step(db1, Ok(Some(d)))
      else if !db.cases[ci]["documentos"].Arr? then Step(db1, Throw(TypeError))
      else
        var items := db.cases[ci]["documentos"].items;
        match FindEmbeddedIndex(items, id)
        case Throw(x) => Step(db1, Throw(x))
        case Ok(k) =>
          if k < 0 then Step(db1, Ok(Some(d)))
          else
            var c := db.cases[ci]["documentos" := Arr(items[k := Obj(d)])];
            Step(db1.(cases := db.cases[ci := c], present := db1.present + {CasesKey}), Ok(Some(d)))
  }

  // ---------- send log ----------

  /** `{ id, created_at, status: 'enviado', ...sendData }`. */
  function NewSendLog(data: Record, now: nat): (s: Record)
    ensures s.Keys == data.Keys + {"id", "created_at", "status"}
    ensures forall k :: k in data ==> s[k] == data[k]
    ensures s["status"] == if "status" in data then data["status"] else Str("enviado")
  {
    Spread(map["id" := Str(NewId("SEND-", now)), "created_at" := Num(now), "status" := Str("enviado")], data)
  }

  /** The timeline entry `logSend` records. */
  function EnvioEntry(data: Record): Record {
    map["titulo" := Str("Documentos enviados"),
        "descricao" := Str("Documentos enviados ao cliente via " + JsString(Get(data, "method"))),
        "tipo" := Str("envio"),
        "status" := Str("enviado_ao_cliente")]
  }

  /**
   * `logSend(sendData)`: appends the log; when `sendData.caseId` is truthy,
   * also appends it to that case's `envios` and records an 'envio' entry.
   */
  function LogSend(db: Db, data: Record, now: nat): (r: Step<Outcome<Record>>)
    ensures r.db.sendLog == db.sendLog + [NewSendLog(data, now)]
    ensures r.db.clients == db.clients && r.db.documents == db.documents && r.db.users == db.users
    ensures r.db.oldCases == db.oldCases
    ensures |r.db.cases| == |db.cases|
    ensures !FieldTruthy(data, "caseId") ==> r == Step(db.(sendLog := r.db.sendLog, present := db.present + {SendLogKey}), Ok(NewSendLog(data, now)))
    ensures r.out.Ok? ==> r.out.value == NewSendLog(data, now)
    ensures r.out.Ok? && FieldTruthy(data, "caseId") ==>
              r.db.timeline == db.timeline + [TimelineEntry(data["caseId"], EnvioEntry(data), now)]
  {
    var log := NewSendLog(data, now);
    var db1 := db.(sendLog := db.sendLog + [log], present := db.present + {SendLogKey});
    if !FieldTruthy(data, "caseId") then Step(db1, Ok(log))
    else
      var caseId := data["caseId"];
      match EmbedInCase(db1, caseId, "envios", Obj(log), false)
      case Throw(x) => Step(db1, Throw(x))
      case Ok(db2) =>
        var t := AddToTimeline(db2, caseId, EnvioEntry(data), now);
        Step(t.db, Then(t.out, log))
  }

  /** `getSendLogsByCaseId(caseId)`: matches on the log's `caseId` field. */
  function SendLogsByCaseId(db: Db, caseId: Value): (r: seq<Record>)
    ensures forall i :: 0 <= i < |r| ==> r[i] in db.sendLog && StrictEq(Get(r[i], "caseId"), Some(caseId))
    ensures forall s :: s in db.sendLog && StrictEq(Get(s, "caseId"), Some(caseId)) ==> s in r
    ensures forall s :: multiset(r)[s] ==
                        if StrictEq(Get(s, "caseId"), Some(caseId)) then multiset(db.sendLog)[s] else 0
  {
    Filter(db.sendLog, KeyIs("caseId", caseId))
  }

  // ---------- migration, export, import, clear ----------

  /**
   * `migrateFromOld()`: legacy cases go in front of the current ones and the
   * legacy key is removed; returns how many were migrated.
   */
  function MigrateFromOld(db: Db): (r: Step<nat>)
    ensures r.out == |db.oldCases|
    ensures r.out == 0 ==> r.db == db
    ensures r.out > 0 ==> r.db.cases == db.oldCases + db.cases && r.db.oldCases == []
    ensures r.out > 0 ==> r.db.present == db.present + {CasesKey} - {OldCasesKey}
    ensures r.db == db.(cases := r.db.cases, oldCases := r.db.oldCases, present := r.db.present)
  {
    if |db.oldCases| > 0 then
      Step(db.(cases := db.oldCases + db.cases, oldCases := [],
               present := db.present + {CasesKey} - {OldCasesKey}), |db.oldCases|)
    else Step(db, 0)
  }

  /** A snapshot; a collection field may be missing from an imported one. */
  datatype Snapshot = Snapshot(
    cases: Option<seq<Record>>,
    clients: Option<seq<Record>>,
    documents: Option<seq<Record>>,
    sendLogs: Option<seq<Record>>,
    timeline: Option<seq<Record>>,
    exportedAt: Value,
    version: Option<Value>)

  const SnapshotVersion := "1.0"

  /** `exportData()`: the five collections, the time and the version tag. */
  function ExportData(db: Db, now: nat): (s: Snapshot)
    ensures s.version == Some(Str(SnapshotVersion))
    ensures s.cases == Some(db.cases) && s.clients == Some(db.clients) && s.documents == Some(db.documents)
    ensures s.sendLogs == Some(db.sendLog) && s.timeline == Some(db.timeline)
  {
    Snapshot(Some(db.cases), Some(db.clients), Some(db.documents), Some(db.sendLog), Some(db.timeline),
             Num(now), Some(Str(SnapshotVersion)))
  }

  /** The slot written for a snapshot field: its key when present. */
  function Written(field: Option<seq<Record>>, key: Slot): set<Slot> {
    if field.Some? then {key} else {}
  }

  /** `data.field ? data.field : current`. */
  function Overwrite(field: Option<seq<Record>>, current: seq<Record>): seq<Record> {
    if field.Some? then field.value else current
  }

  /**
   * `importData(data)`: throws on any version other than '1.0' before writing;
   * otherwise each collection present in the snapshot replaces the stored one.
   */
  function ImportData(db: Db, s: Snapshot): (r: Step<Outcome<bool>>)
    ensures s.version != Some(Str(SnapshotVersion)) <==> r.out == Throw(VersionError)
    ensures r.out.Throw? ==> r.db == db
    ensures r.out.Ok? ==> r.out.value
    ensures r.db.users == db.users && r.db.oldCases == db.oldCases
    ensures r.out.Ok? ==> r.db.present == db.present + Written(s.cases, CasesKey) + Written(s.clients, ClientsKey)
                            + Written(s.documents, DocumentsKey) + Written(s.sendLogs, SendLogKey)
                            + Written(s.timeline, TimelineKey)
  {
    if s.version != Some(Str(SnapshotVersion)) then Step(db, Throw(VersionError))
    else
      Step(db.(cases := Overwrite(s.cases, db.cases),
               clients := Overwrite(s.clients, db.clients),
               documents := Overwrite(s.documents, db.documents),
               sendLog := Overwrite(s.sendLogs, db.sendLog),
               timeline := Overwrite(s.timeline, db.timeline),
               present := db.present + Written(s.cases, CasesKey) + Written(s.clients, ClientsKey)
                          + Written(s.documents, DocumentsKey) + Written(s.sendLogs, SendLogKey)
                          + Written(s.timeline, TimelineKey)),
           Ok(true))
  }

  /** `if (data.field) setItem(key, data.field)`. */
  function PutIf(db: Db, k: Slot, field: Option<seq<Record>>): (r: Db)
    ensures Consistent(db) ==> Consistent(r)
  {
    if field.Some? then Put(db, k, field.value) else db
  }

  /** Past the version check, `importData` is its five conditional writes in order. */
  lemma ImportAsWrites(db: Db, s: Snapshot)
    requires s.version == Some(Str(SnapshotVersion))
    ensures ImportData(db, s).db ==
              PutIf(PutIf(PutIf(PutIf(PutIf(db, CasesKey, s.cases), ClientsKey, s.clients),
                                DocumentsKey, s.documents), SendLogKey, s.sendLogs), TimelineKey, s.timeline)
  {
    var d1 := PutIf(db, CasesKey, s.cases);
    assert d1 == db.(cases := Overwrite(s.cases, db.cases), present := db.present + Written(s.cases, CasesKey));
    var d2 := PutIf(d1, ClientsKey, s.clients);
    assert d2 == d1.(clients := Overwrite(s.clients, db.clients), present := d1.present + Written(s.clients, ClientsKey));
    var d3 := PutIf(d2, DocumentsKey, s.documents);
    assert d3 == d2.(documents := Overwrite(s.documents, db.documents),
                     present := d2.present + Written(s.documents, DocumentsKey));
    var d4 := PutIf(d3, SendLogKey, s.sendLogs);
    assert d4 == d3.(sendLog := Overwrite(s.sendLogs, db.sendLog), present := d3.present + Written(s.sendLogs, SendLogKey));
  }

  /** The six keys of `KEYS`, in declaration order. */
  const KeyOrder: seq<Slot> := [CasesKey, ClientsKey, UsersKey, DocumentsKey, SendLogKey, TimelineKey]

  lemma KeyOrderCovers()
    ensures (set j | 0 <= j < |KeyOrder| :: KeyOrder[j]) == StoreKeys
  {
    assert KeyOrder[0] == CasesKey && KeyOrder[1] == ClientsKey && KeyOrder[2] == UsersKey;
    assert KeyOrder[3] == DocumentsKey && KeyOrder[4] == SendLogKey && KeyOrder[5] == TimelineKey;
  }

  /** Storage after `[]` has been written under the first `n` keys of `KeyOrder`. */
  function ClearedUpTo(db: Db, n: nat): (r: Db)
    requires n <= |KeyOrder|
    ensures Consistent(db) ==> Consistent(r)
    ensures r.oldCases == db.oldCases
  {
    if n == 0 then db else Put(ClearedUpTo(db, n - 1), KeyOrder[n - 1], [])
  }

  /** Writing `[]` under every key of `KeyOrder` is `clearAllData`. */
  lemma ClearAsWrites(db: Db)
    ensures ClearedUpTo(db, |KeyOrder|) == ClearAllData(db)
  {
    assert ClearedUpTo(db, 0) == db;
    var d1 := ClearedUpTo(db, 1);
    assert d1 == db.(cases := [], present := db.present + {CasesKey});
    var d2 := ClearedUpTo(db, 2);
    assert d2 == d1.(clients := [], present := d1.present + {ClientsKey});
    var d3 := ClearedUpTo(db, 3);
    assert d3 == d2.(users := [], present := d2.present + {UsersKey});
    var d4 := ClearedUpTo(db, 4);
    assert d4 == d3.(documents := [], present := d3.present + {DocumentsKey});
    var d5 := ClearedUpTo(db, 5);
    assert d5 == d4.(sendLog := [], present := d4.present + {SendLogKey});
    var d6 := ClearedUpTo(db, 6);
    assert d6 == d5.(timeline := [], present := d5.present + {TimelineKey});
    assert d6.present == db.present + StoreKeys;
  }

  /** `clearAllData()`: every key of the store is written as `[]`. */
  function ClearAllData(db: Db): (r: Db)
    ensures r.cases == [] && r.clients == [] && r.users == [] && r.documents == []
    ensures r.sendLog == [] && r.timeline == []
    ensures r.oldCases == db.oldCases && r.present == db.present + StoreKeys
  {
    Db([], [], [], [], [], [], db.oldCases, db.present + StoreKeys)
  }
}
