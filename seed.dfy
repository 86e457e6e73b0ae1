/**
 * `initSampleData()`: on a store with no cases and no clients, registers one
 * client, adds two cases for it and two approved documents to the first
 * stored case. An exception in any call ends the sequence there.
 */
module Seed {
  import opened Json
  import opened Ids
  import opened Ordering
  import opened StoreModel
  import opened StoreLemmas
  import Database

  /** The clock reading of each store call, in call order. */
  datatype Clock = Clock(client: nat, case1: nat, case2: nat, doc1: nat, doc2: nat)

  /** The sample client. */
  const SampleClient: Record := map[
    "nome" := Str("João Silva"),
    "email" := Str("joao@exemplo.com"),
    "telefone" := Str("(11) 99999-9999"),
    "cpf" := Str("123.456.789-00"),
    "newsletter" := Bool(true)]

  /** The sample case descriptions and document name, named once. */
  const CollectionRequest: string := "Preciso de assistência para uma ação de cobrança contra uma empresa que não pagou por serviços prestados."
  const DivorceRequest: string := "Necessito de orientação para processo de divórcio consensual com partilha de bens."
  const ContractName: string := "Contrato de Prestação de Serviços"

  /** The first sample case, for the client with id `clientId`. */
  function FirstCaseData(clientId: Value): Record {
    map["cliente_id" := clientId,
        "nome" := Str("João Silva"),
        "email" := Str("joao@exemplo.com"),
        "telefone" := Str("(11) 99999-9999"),
        "area" := Str("civel"),
        "pedido" := Str(CollectionRequest),
        "valor_estimado" := Str("R$ 15.000,00"),
        "urgencia" := Str("media"),
        "urgente" := Bool(false)]
  }

  /** The second sample case, for the same client. */
  function SecondCaseData(clientId: Value): Record {
    map["cliente_id" := clientId,
        "nome" := Str("Maria Santos"),
        "email" := Str("maria@exemplo.com"),
        "telefone" := Str("(11) 98888-8888"),
        "area" := Str("familia"),
        "pedido" := Str(DivorceRequest),
        "valor_estimado" := Str("R$ 8.000,00"),
        "urgencia" := Str("normal"),
        "urgente" := Bool(false)]
  }

  const Contract: Record := map[
    "nome" := Str(ContractName),
    "tipo" := Str("contrato"),
    "status" := Str("aprovado")]

  const PowerOfAttorney: Record := map[
    "nome" := Str("Procuração"),
    "tipo" := Str("procuração"),
    "status" := Str("aprovado")]

  /** `cases.length === 0 && clients.length === 0`. */
  predicate Empty(db: Db) {
    db.cases == [] && db.clients == []
  }

  /** The storage `initSampleData` leaves behind. */
  function SeedSpec(db: Db, t: Clock): Db {
    if !Empty(db) then db
    else
      var client := RegisterClient(db, SampleClient, t.client);
      SeedCases(client.db, client.out["id"], t)
  }

  /** The two `addCase` calls, then the documents for `getCases()[0]`. */
  function SeedCases(db: Db, clientId: Value, t: Clock): Db
    requires db.cases == []
  {
    var s1 := AddCase(db, FirstCaseData(clientId), t.case1);
    if s1.out.Throw? then s1.db
    else
      var s2 := AddCase(s1.db, SecondCaseData(clientId), t.case2);
      if s2.out.Throw? then s2.db
      else SeedDocuments(s2.db, s2.db.cases[0]["id"], t)
  }

  /** The two `addDocument` calls for the case `caseId`. */
  function SeedDocuments(db: Db, caseId: Value, t: Clock): Db {
    var s3 := AddDocument(db, caseId, Contract, t.doc1);
    if s3.out.Throw? then s3.db
    else AddDocument(s3.db, caseId, PowerOfAttorney, t.doc2).db
  }

  /** `initSampleData()` on the store object. */
  method InitSampleData(db: Database.JurisFlowDB, t: Clock)
    requires db.Valid()
    modifies db
    ensures db.Valid()
    ensures db.State() == SeedSpec(old(db.State()), t)
  {
    var cases := db.cases;
    var clients := db.clients;
    if |cases| == 0 && |clients| == 0 {
      var cliente := db.RegisterClient(SampleClient, t.client);
      AddSampleCases(db, cliente["id"], t);
    }
  }

  method AddSampleCases(db: Database.JurisFlowDB, clientId: Value, t: Clock)
    requires db.Valid() && db.cases == []
    modifies db
    ensures db.Valid()
    ensures db.State() == SeedCases(old(db.State()), clientId, t)
  {
    var r := db.AddCase(FirstCaseData(clientId), t.case1);
    if r.Throw? { return; }
    r := db.AddCase(SecondCaseData(clientId), t.case2);
    if r.Throw? { return; }
    var caso := db.cases[0];
    AddSampleDocuments(db, caso["id"], t);
  }

  method AddSampleDocuments(db: Database.JurisFlowDB, caseId: Value, t: Clock)
    requires db.Valid()
    modifies db
    ensures db.Valid()
    ensures db.State() == SeedDocuments(old(db.State()), caseId, t)
  {
    var r := db.AddDocument(caseId, Contract, t.doc1);
    if r.Throw? { return; }
    r := db.AddDocument(caseId, PowerOfAttorney, t.doc2);
  }

  // ---------- what the seed leaves behind ----------

  function Client(t: Clock): Record { NewClient(SampleClient, t.client) }
  function ClientId(t: Clock): Value { Str(NewId("CLI-", t.client)) }
  function Case1(t: Clock): Record { NewCase(FirstCaseData(ClientId(t)), t.case1) }
  function Case2(t: Clock): Record { NewCase(SecondCaseData(ClientId(t)), t.case2) }
  function Case1Id(t: Clock): Value { Str(NewId("SOL-", t.case1)) }
  function Case2Id(t: Clock): Value { Str(NewId("SOL-", t.case2)) }
  function Entry1(t: Clock): Record { TimelineEntry(Case1Id(t), PedidoRecebido, t.case1) }
  function Entry2(t: Clock): Record { TimelineEntry(Case2Id(t), PedidoRecebido, t.case2) }
  function Doc1(t: Clock): Record { NewDocument(Case1Id(t), Contract, t.doc1) }
  function Doc2(t: Clock): Record { NewDocument(Case1Id(t), PowerOfAttorney, t.doc2) }
  function DocEntry1(t: Clock): Record { TimelineEntry(Case1Id(t), DocumentEntry(Contract), t.doc1) }
  function DocEntry2(t: Clock): Record { TimelineEntry(Case1Id(t), DocumentEntry(PowerOfAttorney), t.doc2) }

  /** A store that already has a case or a client is left as it is. */
  lemma SeedGuard(db: Db, t: Clock)
    requires |db.cases| > 0 || |db.clients| > 0
    ensures SeedSpec(db, t) == db
  {
  }

  /** On an empty store the sample client is registered as new. */
  lemma SeedClientStep(db: Db, t: Clock)
    requires Empty(db)
    ensures RegisterClient(db, SampleClient, t.client) ==
              Step(db.(clients := [Client(t)], present := db.present + {ClientsKey}), Client(t))
    ensures Client(t)["id"] == ClientId(t)
  {
  }

  /** The sample cases bring no `id`, `timeline` or `documentos` of their own. */
  lemma FirstCaseKeys(id: Value)
    ensures "id" !in FirstCaseData(id) && "timeline" !in FirstCaseData(id) && "documentos" !in FirstCaseData(id)
  {
  }

  lemma SecondCaseKeys(id: Value)
    ensures "id" !in SecondCaseData(id) && "timeline" !in SecondCaseData(id) && "documentos" !in SecondCaseData(id)
  {
  }

  /** The first case once both cases are in: its own entry embedded, nothing else yet. */
  function StoredCase1(t: Clock): Record { Case1(t)["timeline" := Arr([Obj(Entry1(t))])] }

  /** The first case at the end: both documents, and three entries newest first. */
  function FinalCase1(t: Clock): Record {
    Case1(t)["documentos" := Arr([Obj(Doc1(t)), Obj(Doc2(t))])]
            ["timeline" := Arr([Obj(DocEntry2(t)), Obj(DocEntry1(t)), Obj(Entry1(t))])]
  }

  /** The two `addCase` calls on a store without cases, in two distinct milliseconds. */
  lemma SeedCasesDistinct(db: Db, t: Clock)
    requires db.cases == [] && t.case1 != t.case2
    ensures var s1 := AddCase(db, FirstCaseData(ClientId(t)), t.case1);
            var s2 := AddCase(s1.db, SecondCaseData(ClientId(t)), t.case2);
            && s1.out == Ok(Case1(t)) && s2.out == Ok(Case2(t))
            && s2.db.cases == [StoredCase1(t), Case2(t)["timeline" := Arr([Obj(Entry2(t))])]]
            && s2.db.timeline == db.timeline + [Entry1(t), Entry2(t)]
            && s2.db.clients == db.clients && s2.db.documents == db.documents
            && s2.db.users == db.users && s2.db.sendLog == db.sendLog
  {
    FirstCaseKeys(ClientId(t));
    SecondCaseKeys(ClientId(t));
    AddTwoCases(db, FirstCaseData(ClientId(t)), t.case1, SecondCaseData(ClientId(t)), t.case2);
  }

  /** The first case as the two cases leave it: its own entry, no documents. */
  lemma StoredCase1Lists(t: Clock)
    ensures StoredCase1(t)["documentos"] == Arr([]) && StoredCase1(t)["timeline"] == Arr([Obj(Entry1(t))])
    ensures Items(StoredCase1(t), "documentos") == [] && Items(StoredCase1(t), "timeline") == [Obj(Entry1(t))]
    ensures Get(StoredCase1(t), "id") == Some(Case1Id(t))
  {
    FirstCaseKeys(ClientId(t));
    NewCaseLists(FirstCaseData(ClientId(t)), t.case1, Obj(Entry1(t)));
  }

  /** The two `addDocument` calls for the first case, as the two cases leave it. */
  lemma SeedDocumentsOnFirst(db: Db, t: Clock)
    requires |db.cases| == 2 && db.cases[0] == StoredCase1(t)
    ensures var r := SeedDocuments(db, Case1Id(t), t);
            && r.cases == [FinalCase1(t), db.cases[1]]
            && r.documents == db.documents + [Doc1(t), Doc2(t)]
            && r.timeline == db.timeline + [DocEntry1(t), DocEntry2(t)]
            && r.clients == db.clients && r.users == db.users && r.sendLog == db.sendLog
  {
    StoredCase1Lists(t);
    AddTwoDocuments(db, Case1Id(t), Contract, t.doc1, PowerOfAttorney, t.doc2);
    var d := [Obj(Doc1(t)), Obj(Doc2(t))];
    var e := [Obj(DocEntry2(t)), Obj(DocEntry1(t))];
    EmptyAppend(d);
    PairAppend(e, Obj(Entry1(t)));
    UpdateOverwritten(Case1(t), "documentos", "timeline", Arr([Obj(Entry1(t))]),
                      Arr(d), Arr(e + [Obj(Entry1(t))]));
    UpdateFirstOfPair(db.cases, FinalCase1(t));
  }

  /**
   * On an empty store with distinct readings for the two cases: one client,
   * two cases, two documents and four timeline entries are added, and nothing
   * else changes.
   */
  lemma SeedFromEmpty(db: Db, t: Clock)
    requires Empty(db) && t.case1 != t.case2
    ensures var r := SeedSpec(db, t);
            && r.clients == [Client(t)]
            && r.cases == [FinalCase1(t), Case2(t)["timeline" := Arr([Obj(Entry2(t))])]]
            && r.documents == db.documents + [Doc1(t), Doc2(t)]
            && r.timeline == db.timeline + [Entry1(t), Entry2(t), DocEntry1(t), DocEntry2(t)]
            && r.users == db.users && r.sendLog == db.sendLog
  {
    SeedClientStep(db, t);
    var db1 := RegisterClient(db, SampleClient, t.client).db;
    assert SeedSpec(db, t) == SeedCases(db1, ClientId(t), t);
    SeedCasesDistinct(db1, t);
    var s1 := AddCase(db1, FirstCaseData(ClientId(t)), t.case1);
    var s2 := AddCase(s1.db, SecondCaseData(ClientId(t)), t.case2);
    StoredCase1Lists(t);
    assert SeedCases(db1, ClientId(t), t) == SeedDocuments(s2.db, Case1Id(t), t);
    SeedDocumentsOnFirst(s2.db, t);
    AppendPairs(db.timeline, Entry1(t), Entry2(t), DocEntry1(t), DocEntry2(t));
  }

  /**
   * The seeding when both cases are added in one millisecond: both entries go
   * into the first case, which still receives both documents.
   */
  lemma SeedCountsSameMillisecond(db: Db, t: Clock)
    requires Empty(db) && t.case1 == t.case2
    ensures var r := SeedSpec(db, t);
            && |r.clients| == 1 && |r.cases| == 2
            && |r.documents| == |db.documents| + 2
            && |r.timeline| == |db.timeline| + 4
  {
    SeedClientStep(db, t);
    var db1 := RegisterClient(db, SampleClient, t.client).db;
    assert SeedSpec(db, t) == SeedCases(db1, ClientId(t), t);
    var id := ClientId(t);
    FirstCaseKeys(id);
    SecondCaseKeys(id);
    AddTwoCasesSameMillisecond(db1, FirstCaseData(id), SecondCaseData(id), t.case1);
    var s1 := AddCase(db1, FirstCaseData(id), t.case1);
    var s2 := AddCase(s1.db, SecondCaseData(id), t.case2);
    var e := TimelineEntry(Case1Id(t), PedidoRecebido, t.case1);
    var c := Case1(t)["timeline" := Arr([Obj(e), Obj(e)])];
    assert s2.db.cases == [c, Case2(t)];
    assert c["documentos"] == Arr([]);
    assert Get(c, "id") == Some(Case1Id(t));
    assert SeedCases(db1, id, t) == SeedDocuments(s2.db, Case1Id(t), t);
    AddTwoDocuments(s2.db, Case1Id(t), Contract, t.doc1, PowerOfAttorney, t.doc2);
  }

  /** From an empty store, whatever the clock: exactly 1 client and 2 cases; 2 documents and 4 entries more. */
  lemma SeedCounts(db: Db, t: Clock)
    requires Empty(db)
    ensures var r := SeedSpec(db, t);
            && |r.clients| == 1 && |r.cases| == 2
            && |r.documents| == |db.documents| + 2
            && |r.timeline| == |db.timeline| + 4
  {
    if t.case1 != t.case2 {
      SeedFromEmpty(db, t);
    } else {
      SeedCountsSameMillisecond(db, t);
    }
  }

  /** The four entries: two 'Pedido recebido', one per case, then two 'Documento adicionado' for the first case. */
  lemma SeedEntries(t: Clock)
    ensures Get(Entry1(t), "titulo") == Some(Str("Pedido recebido")) && Get(Entry1(t), "case_id") == Some(Case1Id(t))
    ensures Get(Entry2(t), "titulo") == Some(Str("Pedido recebido")) && Get(Entry2(t), "case_id") == Some(Case2Id(t))
    ensures Get(DocEntry1(t), "titulo") == Some(Str("Documento adicionado")) && Get(DocEntry1(t), "case_id") == Some(Case1Id(t))
    ensures Get(DocEntry2(t), "titulo") == Some(Str("Documento adicionado")) && Get(DocEntry2(t), "case_id") == Some(Case1Id(t))
  {
    PedidoFields();
    DocumentEntryFields(Contract);
    DocumentEntryFields(PowerOfAttorney);
    EntryFields(Case1Id(t), PedidoRecebido, t.case1);
    EntryFields(Case2Id(t), PedidoRecebido, t.case2);
    EntryFields(Case1Id(t), DocumentEntry(Contract), t.doc1);
    EntryFields(Case1Id(t), DocumentEntry(PowerOfAttorney), t.doc2);
  }

  /** Both sample cases point at the registered client. */
  lemma SeedClientLinks(t: Clock)
    ensures Get(Client(t), "id") == Some(ClientId(t))
    ensures Get(FinalCase1(t), "cliente_id") == Some(ClientId(t))
    ensures Get(Case2(t)["timeline" := Arr([Obj(Entry2(t))])], "cliente_id") == Some(ClientId(t))
  {
    var id := ClientId(t);
    assert "id" !in SampleClient;
    assert "cliente_id" in FirstCaseData(id) && FirstCaseData(id)["cliente_id"] == id;
    assert "cliente_id" in SecondCaseData(id) && SecondCaseData(id)["cliente_id"] == id;
    CaseFieldKept(FirstCaseData(id), t.case1, "cliente_id", Arr([Obj(Doc1(t)), Obj(Doc2(t))]),
                  Arr([Obj(DocEntry2(t)), Obj(DocEntry1(t)), Obj(Entry1(t))]));
    CaseFieldKept(SecondCaseData(id), t.case2, "cliente_id", Arr([]), Arr([Obj(Entry2(t))]));
  }

  /** Both documents belong to the first case and are 'aprovado'. */
  lemma SeedDocumentsApproved(t: Clock)
    ensures Get(FinalCase1(t), "id") == Some(Case1Id(t))
    ensures Get(Doc1(t), "case_id") == Some(Case1Id(t)) && Get(Doc1(t), "status") == Some(Str("aprovado"))
    ensures Get(Doc2(t), "case_id") == Some(Case1Id(t)) && Get(Doc2(t), "status") == Some(Str("aprovado"))
  {
    FirstCaseKeys(ClientId(t));
    CaseIdKept(FirstCaseData(ClientId(t)), t.case1, Arr([Obj(Doc1(t)), Obj(Doc2(t))]),
               Arr([Obj(DocEntry2(t)), Obj(DocEntry1(t)), Obj(Entry1(t))]));
    assert "case_id" !in Contract && "status" in Contract;
    assert "case_id" !in PowerOfAttorney && "status" in PowerOfAttorney;
    DocumentFields(Case1Id(t), Contract, t.doc1);
    DocumentFields(Case1Id(t), PowerOfAttorney, t.doc2);
  }

  /**
   * The first case ends with three embedded entries, newest first, when the
   * clock does not run backwards between the calls.
   */
  lemma SeedEmbeddedTimeline(t: Clock)
    requires t.case1 <= t.doc1 <= t.doc2
    ensures Get(FinalCase1(t), "timeline") == Some(Arr([Obj(DocEntry2(t)), Obj(DocEntry1(t)), Obj(Entry1(t))]))
    ensures NewestFirst([DocEntry2(t), DocEntry1(t), Entry1(t)])
  {
    PedidoFields();
    DocumentEntryFields(Contract);
    DocumentEntryFields(PowerOfAttorney);
    EntryFields(Case1Id(t), PedidoRecebido, t.case1);
    EntryFields(Case1Id(t), DocumentEntry(Contract), t.doc1);
    EntryFields(Case1Id(t), DocumentEntry(PowerOfAttorney), t.doc2);
    NewestFirstThree(DocEntry2(t), DocEntry1(t), Entry1(t));
  }

  /**
   * Both cases in the same millisecond: the second gets the first one's id,
   * its 'Pedido recebido' entry goes into the first case, and it is stored
   * with an empty timeline.
   */
  lemma SeedSameMillisecond(db: Db, t: Clock)
    requires db.cases == [] && t.case1 == t.case2
    ensures var s1 := AddCase(db, FirstCaseData(ClientId(t)), t.case1);
            var s2 := AddCase(s1.db, SecondCaseData(ClientId(t)), t.case2);
            && s2.out == Ok(Case2(t))
            && Get(Case2(t), "id") == Get(Case1(t), "id")
            && s2.db.cases == [Case1(t)["timeline" := Arr([Obj(Entry2(t)), Obj(Entry1(t))])], Case2(t)]
            && Get(Case2(t), "timeline") == Some(Arr([]))
  {
    FirstCaseKeys(ClientId(t));
    SecondCaseKeys(ClientId(t));
    AddTwoCasesSameMillisecond(db, FirstCaseData(ClientId(t)), SecondCaseData(ClientId(t)), t.case1);
  }
}
