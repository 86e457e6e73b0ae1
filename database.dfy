/**
 * `JurisFlowDB`: the store object. Its fields are the storage slots; every
 * mutator reads a whole collection, changes the copy and writes it back slot
 * by slot, and is proved to leave the storage the corresponding function of
 * the store model describes.
 */
module Database {
  import opened Json
  import opened StoreModel
  import opened Statistics

  class JurisFlowDB {
    var cases: seq<Record>
    var clients: seq<Record>
    var users: seq<Record>
    var documents: seq<Record>
    var sendLog: seq<Record>
    var timeline: seq<Record>
    var oldCases: seq<Record>
    /** The keys storage holds. */
    var present: set<Slot>

    /** The storage as a value. */
    function State(): Db
      reads this
    {
      Db(cases, clients, users, documents, sendLog, timeline, oldCases, present)
    }

    /** A slot that storage does not hold reads as `[]`. */
    predicate Valid()
      reads this
    {
      Consistent(State())
    }

    /** The module evaluated over existing storage: it runs `init()` at once. */
    constructor Load(stored: Db)
      requires Consistent(stored)
      ensures Valid()
      ensures State() == StoreModel.Init(stored)
    {
      cases, clients, users := stored.cases, stored.clients, stored.users;
      documents, sendLog, timeline := stored.documents, stored.sendLog, stored.timeline;
      oldCases, present := stored.oldCases, stored.present;
      new;
      var initialized := Init();
    }

    /** `localStorage.setItem(key, JSON.stringify(v))`. */
    method SetItem(k: Slot, v: seq<Record>)
      modifies this
      ensures State() == Put(old(State()), k, v)
    {
      match k {
        case CasesKey => cases := v;
        case ClientsKey => clients := v;
        case UsersKey => users := v;
        case DocumentsKey => documents := v;
        case SendLogKey => sendLog := v;
        case TimelineKey => timeline := v;
        case OldCasesKey => oldCases := v;
      }
      present := present + {k};
    }

    /** `init()`: each of the six keys that storage lacks is written as `[]`. */
    method Init() returns (ok: bool)
      requires Valid()
      modifies this
      ensures Valid()
      ensures State() == StoreModel.Init(old(State()))
      ensures ok
    {
      for i := 0 to |KeyOrder|
        invariant Valid()
        invariant State() == old(State()).(present := present)
        invariant present == old(present) + set j | 0 <= j < i :: KeyOrder[j]
      {
        if KeyOrder[i] !in present {
          SetItem(KeyOrder[i], []);
        }
      }
      KeyOrderCovers();
      return true;
    }

    /** `registerClient(clientData)`. */
    method RegisterClient(data: Record, now: nat) returns (client: Record)
      requires Valid()
      modifies this
      ensures Valid()
      ensures State() == StoreModel.RegisterClient(old(State()), data, now).db
      ensures client == StoreModel.RegisterClient(old(State()), data, now).out
    {
      var list := clients;
      var i := FindIndex(list, "email", Get(data, "email"));
      if i >= 0 {
        client := Spread(list[i], data);
        list := list[i := client];
      } else {
        client := NewClient(data, now);
        list := list + [client];
      }
      SetItem(ClientsKey, list);
    }

    /** `addToTimeline(caseId, entry)`. */
    method AddToTimeline(caseId: Value, entry: Record, now: nat) returns (r: Outcome<Record>)
      requires Valid()
      modifies this
      ensures Valid()
      ensures State() == StoreModel.AddToTimeline(old(State()), caseId, entry, now).db
      ensures r == StoreModel.AddToTimeline(old(State()), caseId, entry, now).out
    {
      var e := TimelineEntry(caseId, entry, now);
      var list := timeline;
      list := list + [e];
      SetItem(TimelineKey, list);
      var cs := cases;
      var i := FindIndex(cs, "id", Some(caseId));
      if i >= 0 {
        var c := WithItem(cs[i], "timeline", Obj(e), true);
        if c.Throw? {
          return Throw(c.error);
        }
        cs := cs[i := c.value];
        SetItem(CasesKey, cs);
      }
      return Ok(e);
    }

    /** `addCase(caseData)`. */
    method AddCase(data: Record, now: nat) returns (r: Outcome<Record>)
      requires Valid()
      modifies this
      ensures Valid()
      ensures State() == StoreModel.AddCase(old(State()), data, now).db
      ensures r == StoreModel.AddCase(old(State()), data, now).out
    {
      var c := NewCase(data, now);
      var cs := cases;
      cs := cs + [c];
      SetItem(CasesKey, cs);
      var t := AddToTimeline(c["id"], PedidoRecebido, now);
      if t.Throw? {
        return Throw(t.error);
      }
      return Ok(c);
    }

    /** `updateCase(id, updates)`. */
    method UpdateCase(id: Value, updates: Record) returns (r: Option<Record>)
      requires Valid()
      modifies this
      ensures Valid()
      ensures State() == StoreModel.UpdateCase(old(State()), id, updates).db
      ensures r == StoreModel.UpdateCase(old(State()), id, updates).out
    {
      var cs := cases;
      var i := FindIndex(cs, "id", Some(id));
      if i < 0 {
        return None;
      }
      cs := cs[i := Spread(cs[i], updates)];
      SetItem(CasesKey, cs);
      return Some(cs[i]);
    }

    /** `updateCaseTimeline(caseId, timelineEntry)`. */
    method UpdateCaseTimeline(caseId: Value, entry: Record, now: nat) returns (r: Outcome<Option<Record>>)
      requires Valid()
      modifies this
      ensures Valid()
      ensures State() == StoreModel.UpdateCaseTimeline(old(State()), caseId, entry, now).db
      ensures r == StoreModel.UpdateCaseTimeline(old(State()), caseId, entry, now).out
    {
      var cs := cases;
      var i := FindIndex(cs, "id", Some(caseId));
      if i < 0 {
        return Ok(None);
      }
      var e := CaseTimelineEntry(entry, now);
      var c := WithItem(cs[i], "timeline", Obj(e), true);
      if c.Throw? {
        return Throw(c.error);
      }
      cs := cs[i := c.value];
      SetItem(CasesKey, cs);
      return Ok(Some(e));
    }

    /** `addDocument(caseId, documentData)`. */
    method AddDocument(caseId: Value, data: Record, now: nat) returns (r: Outcome<Record>)
      requires Valid()
      modifies this
      ensures Valid()
      ensures State() == StoreModel.AddDocument(old(State()), caseId, data, now).db
      ensures r == StoreModel.AddDocument(old(State()), caseId, data, now).out
    {
      var d := NewDocument(caseId, data, now);
      var docs := documents;
      docs := docs + [d];
      SetItem(DocumentsKey, docs);
      var cs := cases;
      var i := FindIndex(cs, "id", Some(caseId));
      if i >= 0 {
        var c := WithItem(cs[i], "documentos", Obj(d), false);
        if c.Throw? {
          return Throw(c.error);
        }
        cs := cs[i := c.value];
        SetItem(CasesKey, cs);
      }
      var t := AddToTimeline(caseId, DocumentEntry(data), now);
      if t.Throw? {
        return Throw(t.error);
      }
      return Ok(d);
    }

    /** `updateDocument(documentId, updates)`. */
    method UpdateDocument(id: Value, updates: Record) returns (r: Outcome<Option<Record>>)
      requires Valid()
      modifies this
      ensures Valid()
      ensures State() == StoreModel.UpdateDocument(old(State()), id, updates).db
      ensures r == StoreModel.UpdateDocument(old(State()), id, updates).out
    {
      var docs := documents;
      var i := FindIndex(docs, "id", Some(id));
      if i < 0 {
        return Ok(None);
      }
      var d := Spread(docs[i], updates);
      docs := docs[i := d];
      SetItem(DocumentsKey, docs);
      var cs := cases;
      var ci := FindIndex(cs, "id", Get(d, "case_id"));
      if ci >= 0 && FieldTruthy(cs[ci], "documentos") {
        if !cs[ci]["documentos"].Arr? {
          return Throw(TypeError);
        }
        var items := cs[ci]["documentos"].items;
        var k := FindEmbeddedIndex(items, id);
        if k.Throw? {
          return Throw(k.error);
        }
        if k.value >= 0 {
          cs := cs[ci := cs[ci]["documentos" := Arr(items[k.value := Obj(d)])]];
          SetItem(CasesKey, cs);
        }
      }
      return Ok(Some(d));
    }

    /** `logSend(sendData)`. */
    method LogSend(data: Record, now: nat) returns (r: Outcome<Record>)
      requires Valid()
      modifies this
      ensures Valid()
      ensures State() == StoreModel.LogSend(old(State()), data, now).db
      ensures r == StoreModel.LogSend(old(State()), data, now).out
    {
      var log := NewSendLog(data, now);
      var logs := sendLog;
      logs := logs + [log];
      SetItem(SendLogKey, logs);
      if FieldTruthy(data, "caseId") {
        var caseId := data["caseId"];
        var cs := cases;
        var i := FindIndex(cs, "id", Some(caseId));
        if i >= 0 {
          var c := WithItem(cs[i], "envios", Obj(log), false);
          if c.Throw? {
            return Throw(c.error);
          }
          cs := cs[i := c.value];
          SetItem(CasesKey, cs);
        }
        var t := AddToTimeline(caseId, EnvioEntry(data), now);
        if t.Throw? {
          return Throw(t.error);
        }
      }
      return Ok(log);
    }

    /**
     * `getStatistics()`: one pass over the cases counts statuses and areas
     * into objects created as `{}`. Changes nothing. When no status or area
     * names an inherited member, the result is `Statistics.StatisticsOf`.
     */
    method GetStatistics() returns (st: RawStats)
      ensures st == StatisticsAsWritten(State())
      ensures NoInheritedKeys(State()) ==> st == LiftStats(StatisticsOf(State()))
    {
      var cs := cases;
      var statusCounts: seq<RawCount> := [];
      var areaCounts: seq<RawCount> := [];
      for i := 0 to |cs|
        invariant statusCounts == TallyAsWritten(KeysOf(cs[..i], "status"))
        invariant areaCounts == TallyAsWritten(KeysOf(cs[..i], "area"))
      {
        KeysOfSnoc(cs, i, "status");
        KeysOfSnoc(cs, i, "area");
        statusCounts := BumpAsWritten(statusCounts, JsString(Get(cs[i], "status")));
        areaCounts := BumpAsWritten(areaCounts, JsString(Get(cs[i], "area")));
      }
      assert cs[..|cs|] == cs;
      st := RawStats(|cs|, |clients|, |documents|, statusCounts, areaCounts,
                     |Filter(cs, UrgentTest())|, |Filter(cs, PendingTest())|);
      if NoInheritedKeys(State()) {
        StatisticsAgree(State());
      }
    }

    /** `migrateFromOld()`. */
    method MigrateFromOld() returns (n: nat)
      requires Valid()
      modifies this
      ensures Valid()
      ensures State() == StoreModel.MigrateFromOld(old(State())).db
      ensures n == StoreModel.MigrateFromOld(old(State())).out
    {
      var old_ := oldCases;
      if |old_| > 0 {
        var current := cases;
        SetItem(CasesKey, old_ + current);
        oldCases, present := [], present - {OldCasesKey};
        return |old_|;
      }
      return 0;
    }

    /** `if (data.field) setItem(key, data.field)`. */
    method WriteIf(k: Slot, field: Option<seq<Record>>)
      requires Valid()
      modifies this
      ensures Valid()
      ensures State() == PutIf(old(State()), k, field)
    {
      if field.Some? { SetItem(k, field.value); }
    }

    /** `importData(data)`: the version check, then one write per collection present. */
    method ImportData(s: Snapshot) returns (r: Outcome<bool>)
      requires Valid()
      modifies this
      ensures Valid()
      ensures State() == StoreModel.ImportData(old(State()), s).db
      ensures r == StoreModel.ImportData(old(State()), s).out
    {
      if s.version != Some(Str(SnapshotVersion)) {
        return Throw(VersionError);
      }
      WriteIf(CasesKey, s.cases);
      WriteIf(ClientsKey, s.clients);
      WriteIf(DocumentsKey, s.documents);
      WriteIf(SendLogKey, s.sendLogs);
      WriteIf(TimelineKey, s.timeline);
      ImportAsWrites(old(State()), s);
      return Ok(true);
    }

    /** `clearAllData()`: `[]` is written under each of the six keys. */
    method ClearAllData() returns (ok: bool)
      requires Valid()
      modifies this
      ensures Valid()
      ensures State() == StoreModel.ClearAllData(old(State()))
      ensures ok
    {
      for i := 0 to |KeyOrder|
        invariant Valid()
        invariant State() == ClearedUpTo(old(State()), i)
      {
        SetItem(KeyOrder[i], []);
      }
      ClearAsWrites(old(State()));
      return true;
    }
  }

  /** The status keys of one more case extend the keys of the earlier ones. */
  lemma KeysOfSnoc(cs: seq<Record>, i: int, field: string)
    requires 0 <= i < |cs|
    ensures KeysOf(cs[..i + 1], field) == KeysOf(cs[..i], field) + [JsString(Get(cs[i], field))]
  {
    assert cs[..i + 1][..i] == cs[..i];
  }
}
