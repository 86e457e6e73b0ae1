/**
 * The case status table, the table of legal areas and their lookups.
 * A status names its label, colour, icon, description and the statuses a
 * case may move to next; the colours and icons are opaque strings here.
 */
module StatusConfig {
  import opened Json

  /** One entry of the status table; `caption` is the `label` property. */
  datatype StatusInfo = StatusInfo(
    caption: string,
    color: string,
    icon: string,
    description: string,
    nextStatus: seq<string>)

  /** What `getStatusConfig` hands back: a table entry, or the fallback, which has no `nextStatus`. */
  datatype StatusConfigValue =
    | Entry(info: StatusInfo)
    | Fallback(caption: string, color: string, icon: string, description: string)

  /** The statuses, in the order the table declares them. */
  const Statuses: seq<string> := [
    "recebido", "em_andamento", "aguardando_documentos", "enviado_ao_cliente",
    "aguardando_assinatura", "concluido", "arquivado"]

  /** `STATUS_CONFIG`. */
  const Table: map<string, StatusInfo> := map[
    "recebido" := StatusInfo("Recebido", "#3498db", "fas fa-inbox",
      "Pedido recebido, aguardando análise", ["em_andamento", "aguardando_documentos"]),
    "em_andamento" := StatusInfo("Em Andamento", "#f39c12", "fas fa-spinner",
      "Caso em análise/elaboração", ["aguardando_documentos", "enviado_ao_cliente"]),
    "aguardando_documentos" := StatusInfo("Aguardando Documentos", "#9b59b6", "fas fa-file-upload",
      "Aguardando documentos do cliente", ["em_andamento", "enviado_ao_cliente"]),
    "enviado_ao_cliente" := StatusInfo("Enviado ao Cliente", "#27ae60", "fas fa-paper-plane",
      "Documentos enviados para o cliente", ["concluido", "aguardando_assinatura"]),
    "aguardando_assinatura" := StatusInfo("Aguardando Assinatura", "#e67e22", "fas fa-signature",
      "Aguardando assinatura do cliente", ["concluido", "enviado_ao_cliente"]),
    "concluido" := StatusInfo("Concluído", "#2ecc71", "fas fa-check-circle",
      "Caso finalizado com sucesso", ["arquivado"]),
    "arquivado" := StatusInfo("Arquivado", "#95a5a6", "fas fa-archive",
      "Caso arquivado", [])]

  /** The fallback entry for a status the table does not know. */
  const Unknown: StatusConfigValue :=
    Fallback("Desconhecido", "#95a5a6", "fas fa-question-circle", "Status não configurado")

  /** The table's keys are exactly the seven statuses, and none is an inherited name. */
  lemma TableKeys()
    ensures forall s :: s in Table <==> s in Statuses
    ensures forall s :: s in Table ==> s !in PrototypeMembers
  {
    TableKeysAreStatuses();
    StatusesNotInherited();
  }

  lemma TableKeysAreStatuses()
    ensures Table.Keys == set s | s in Statuses
  {
  }

  lemma StatusesNotInherited()
    ensures forall i :: 0 <= i < |Statuses| ==> Statuses[i] !in PrototypeMembers
  {
  }

  /** Every status a table entry lists as a successor is itself a key of the table. */
  lemma NextStatusClosed()
    ensures forall s, t :: s in Table && t in Table[s].nextStatus ==> t in Table
  {
  }

  /**
   * Shape of the transition graph: `arquivado` is terminal, no status lists
   * itself, no status leads back to `recebido`, and no entry repeats a successor.
   */
  lemma TransitionShape()
    ensures Table["arquivado"].nextStatus == []
    ensures forall s :: s in Table ==> s !in Table[s].nextStatus
    ensures forall s :: s in Table ==> "recebido" !in Table[s].nextStatus
    ensures forall s :: s in Table ==> |Table[s].nextStatus| <= 2
  {
  }

  /** `getStatusConfig(status)`, looking up own keys of the table only. */
  function GetStatusConfig(status: string): (r: StatusConfigValue)
    ensures status in Table ==> r == Entry(Table[status])
    ensures status !in Table ==> r == Unknown
  {
    if status in Table then Entry(Table[status]) else Unknown
  }

  /** `STATUS_CONFIG[status]` as JavaScript evaluates it. */
  datatype RawLookup = Own(info: StatusInfo) | Inherited(name: string) | Undefined

  function RawStatusLookup(status: string): (r: RawLookup)
    ensures r.Own? <==> status in Table
    ensures r.Inherited? <==> status in PrototypeMembers
  {
    TableKeys();
    if status in Table then Own(Table[status])
    else if status in PrototypeMembers then Inherited(status)
    else Undefined
  }

  /**
   * `getStatusConfig` as written: `STATUS_CONFIG[status] || fallback`. For an
   * inherited name the truthy inherited member is returned instead of the
   * fallback, so the result has no label, colour or icon.
   */
  function GetStatusConfigAsWritten(status: string): (r: Option<StatusConfigValue>)
    ensures status !in PrototypeMembers ==> r == Some(GetStatusConfig(status))
    ensures status in PrototypeMembers ==> r == None
  {
    match RawStatusLookup(status)
    case Own(info) => Some(Entry(info))
    case Inherited(_) => None
    case Undefined => Some(Unknown)
  }

  /** `getStatusConfig('toString')` yields no configuration, though an unknown status should get the fallback. */
  lemma GetStatusConfigInherited()
    ensures GetStatusConfigAsWritten("toString").None?
    ensures GetStatusConfig("toString") == Unknown
  {
  }

  /** One element of the list `getNextStatusOptions` returns. */
  datatype StatusOption = StatusOption(value: string, caption: string)

  /**
   * `getNextStatusOptions(current)` for a table that is read by own keys only:
   * one option per listed successor, in order, with that successor's label.
   */
  function NextStatusOptions(current: string): (r: seq<StatusOption>)
    ensures current !in Table ==> r == []
    ensures current in Table ==> |r| == |Table[current].nextStatus|
    ensures current in Table ==> forall i :: 0 <= i < |r| ==>
              r[i].value == Table[current].nextStatus[i] && r[i].value in Table &&
              r[i].caption == Table[r[i].value].caption
  {
    NextStatusClosed();
    if current !in Table then []
    else
      var next := Table[current].nextStatus;
      seq(|next|, i requires 0 <= i < |next| => StatusOption(next[i], Table[next[i]].caption))
  }

  /** An option never offers the current status again, and never offers `recebido`. */
  lemma NextStatusOptionsShape(current: string, i: int)
    requires 0 <= i < |NextStatusOptions(current)|
    ensures NextStatusOptions(current)[i].value != current
    ensures NextStatusOptions(current)[i].value != "recebido"
  {
    TransitionShape();
    assert Table[current].nextStatus[i] in Table[current].nextStatus;
  }

  /**
   * `getNextStatusOptions` as written. `STATUS_CONFIG[current]` is truthy for
   * an inherited name, so the guard lets it through and `config.nextStatus.map`
   * is a call on `undefined`.
   */
  function NextStatusOptionsAsWritten(current: string): (r: Outcome<seq<StatusOption>>)
    ensures current !in PrototypeMembers ==> r == Ok(NextStatusOptions(current))
    ensures current in PrototypeMembers ==> r == Throw(TypeError)
  {
    match RawStatusLookup(current)
    case Own(_) => Ok(NextStatusOptions(current))
    case Inherited(_) => Throw(TypeError)
    case Undefined => Ok([])
  }

  /** `getNextStatusOptions('toString')` throws instead of returning no options. */
  lemma NextStatusOptionsInherited()
    ensures NextStatusOptionsAsWritten("toString") == Throw(TypeError)
    ensures NextStatusOptions("toString") == []
  {
  }

  /** A walk along the transition table. */
  predicate Path(p: seq<string>) {
    |p| >= 1 && p[0] in Table &&
    forall i :: 0 <= i < |p| - 1 ==> p[i] in Table && p[i + 1] in Table[p[i]].nextStatus
  }

  /** A walk that ends in `arquivado` extends backwards along any transition into its start. */
  lemma PathPrepend(s: string, p: seq<string>)
    requires Path(p) && s in Table && p[0] in Table[s].nextStatus
    ensures Path([s] + p) && ([s] + p)[0] == s && ([s] + p)[|p|] == p[|p| - 1]
  {
    var q := [s] + p;
    forall i | 0 <= i < |q| - 1 ensures q[i] in Table && q[i + 1] in Table[q[i]].nextStatus {
      if i > 0 { assert q[i] == p[i - 1] && q[i + 1] == p[i]; }
    }
  }

  /** A walk to `arquivado` from each status, built backwards from the terminal status. */
  function WalkToArchived(s: string): (p: seq<string>)
    requires s in Table
    ensures Path(p) && p[0] == s && p[|p| - 1] == "arquivado"
  {
    var p0 := ["arquivado"];
    var p1 := ["concluido"] + p0;
    var p2 := ["enviado_ao_cliente"] + p1;
    var p3 := ["em_andamento"] + p2;
    assert Path(p0);
    PathPrepend("concluido", p0);
    PathPrepend("enviado_ao_cliente", p1);
    PathPrepend("em_andamento", p2);
    if s == "arquivado" then p0
    else if s == "concluido" then p1
    else if s == "enviado_ao_cliente" then p2
    else if s == "em_andamento" then p3
    else
      var q := if s == "aguardando_assinatura" then p1 else if s == "recebido" then p3 else p2;
      PathPrepend(s, q);
      [s] + q
  }

  /** Every status can reach `arquivado`, the one terminal status. */
  lemma ArchivedReachableFromEvery(s: string)
    requires s in Table
    ensures exists p :: Path(p) && p[0] == s && p[|p| - 1] == "arquivado"
  {
    var p := WalkToArchived(s);
  }

  /** Only `arquivado` has no successor. */
  lemma OnlyArchivedTerminal(s: string)
    requires s in Table
    ensures Table[s].nextStatus == [] <==> s == "arquivado"
  {
  }

  /** One legal area. */
  datatype Area = Area(id: string, nome: string, icon: string)

  /** `AREAS_DIREITO`. */
  const Areas: seq<Area> := [
    Area("criminal", "Direito Criminal", "fas fa-gavel"),
    Area("civel", "Direito Cível", "fas fa-balance-scale"),
    Area("familia", "Direito de Família", "fas fa-heart"),
    Area("trabalhista", "Direito Trabalhista", "fas fa-briefcase"),
    Area("empresarial", "Direito Empresarial", "fas fa-building"),
    Area("consumidor", "Direito do Consumidor", "fas fa-shopping-cart"),
    Area("imobiliario", "Direito Imobiliário", "fas fa-home"),
    Area("digital", "Direito Digital", "fas fa-laptop-code"),
    Area("administrativo", "Direito Administrativo", "fas fa-landmark"),
    Area("contratos", "Contratos", "fas fa-file-contract"),
    Area("propriedade", "Propriedade Intelectual", "fas fa-copyright")]

  /** The index of the first area from `from` on whose id is `areaId`, or -1. */
  function FindAreaFrom(areas: seq<Area>, areaId: string, from: nat): (k: int)
    requires from <= |areas|
    ensures k == -1 || from <= k < |areas|
    ensures k == -1 ==> forall i :: from <= i < |areas| ==> areas[i].id != areaId
    ensures k >= 0 ==> areas[k].id == areaId && forall i :: from <= i < k ==> areas[i].id != areaId
    decreases |areas| - from
  {
    if from == |areas| then -1
    else if areas[from].id == areaId then from
    else FindAreaFrom(areas, areaId, from + 1)
  }

  /** `areas.find(a => a.id === areaId)`: the first area with that id. */
  function FindArea(areas: seq<Area>, areaId: string): (r: Option<Area>)
    ensures r.None? <==> forall i :: 0 <= i < |areas| ==> areas[i].id != areaId
    ensures r.Some? ==> exists i :: 0 <= i < |areas| && areas[i] == r.value &&
                          areaId == r.value.id &&
                          forall j :: 0 <= j < i ==> areas[j].id != areaId
  {
    var k := FindAreaFrom(areas, areaId, 0);
    if k < 0 then None else Some(areas[k])
  }

  /** No two areas share an id, so `find` picks the one area with the id. */
  lemma AreaIdsDistinct()
    ensures |Areas| == 11
    ensures forall i, j :: 0 <= i < j < |Areas| ==> Areas[i].id != Areas[j].id
  {
  }

  /** `getAreaName(areaId)`. */
  function AreaName(areaId: string): (r: string)
    ensures (exists i :: 0 <= i < |Areas| && Areas[i].id == areaId && r == Areas[i].nome) ||
            ((forall i :: 0 <= i < |Areas| ==> Areas[i].id != areaId) && r == "Outros")
  {
    var a := FindArea(Areas, areaId);
    if a.Some? then a.value.nome else "Outros"
  }

  /** `getAreaIcon(areaId)`. */
  function AreaIcon(areaId: string): (r: string)
    ensures (exists i :: 0 <= i < |Areas| && Areas[i].id == areaId && r == Areas[i].icon) ||
            ((forall i :: 0 <= i < |Areas| ==> Areas[i].id != areaId) && r == "fas fa-folder")
  {
    var a := FindArea(Areas, areaId);
    if a.Some? then a.value.icon else "fas fa-folder"
  }

  /** Each listed area's id yields that area's name and icon. */
  lemma AreaLookupListed(i: int)
    requires 0 <= i < |Areas|
    ensures AreaName(Areas[i].id) == Areas[i].nome
    ensures AreaIcon(Areas[i].id) == Areas[i].icon
  {
    AreaIdsDistinct();
    var a := FindArea(Areas, Areas[i].id);
    var k :| 0 <= k < |Areas| && Areas[k] == a.value && Areas[i].id == a.value.id &&
             forall j :: 0 <= j < k ==> Areas[j].id != Areas[i].id;
    assert k == i;
  }

  /** Any id that is not listed, `todas` among them, yields the fallbacks. */
  lemma AreaLookupUnlisted(areaId: string)
    requires forall i :: 0 <= i < |Areas| ==> Areas[i].id != areaId
    ensures AreaName(areaId) == "Outros"
    ensures AreaIcon(areaId) == "fas fa-folder"
  {
  }

  lemma AreaTodasUnlisted()
    ensures AreaName("todas") == "Outros" && AreaIcon("todas") == "fas fa-folder"
  {
    AreaLookupUnlisted("todas");
  }
}
