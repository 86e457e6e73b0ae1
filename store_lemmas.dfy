/**
 * Properties of the store operations that relate a call's result to the
 * state it started from: which record an operation changes, where its
 * second, embedded copy goes, and how export, clear and import combine.
 */
module StoreLemmas {
  import opened Json
  import opened Ids
  import opened Ordering
  import opened StoreModel

  /** `findIndex` returns the first position whose field matches. */
  lemma FindIndexUnique(s: seq<Record>, key: string, v: Option<Value>, i: int)
    requires 0 <= i < |s| && StrictEq(Get(s[i], key), v)
    requires forall j :: 0 <= j < i ==> !StrictEq(Get(s[j], key), v)
    ensures FindIndex(s, key, v) == i
  {
    var k := FindIndex(s, key, v);
    assert k != -1;
  }

  /** Rewriting the matched record without changing its field keeps the match where it was. */
  lemma FindIndexAfterUpdate(s: seq<Record>, key: string, v: Option<Value>, c: Record)
    requires 0 <= FindIndex(s, key, v)
    requires Get(c, key) == Get(s[FindIndex(s, key, v)], key)
    ensures FindIndex(s[FindIndex(s, key, v) := c], key, v) == FindIndex(s, key, v)
  {
    var i := FindIndex(s, key, v);
    FindIndexUnique(s[i := c], key, v, i);
  }

  /** Appending a record does not move a match that already exists. */
  lemma FindIndexAppend(s: seq<Record>, key: string, v: Option<Value>, x: Record)
    requires 0 <= FindIndex(s, key, v)
    ensures FindIndex(s + [x], key, v) == FindIndex(s, key, v)
  {
    FindIndexUnique(s + [x], key, v, FindIndex(s, key, v));
  }

  /** A successful `WithItem` is the record with that one field replaced. */
  lemma WithItemUpdate(c: Record, key: string, v: Value, front: bool)
    requires !FieldTruthy(c, key) || c[key].Arr?
    ensures WithItem(c, key, v, front) ==
              Ok(c[key := Arr(if front then [v] + Items(c, key) else Items(c, key) + [v])])
  {
    var r := WithItem(c, key, v, front).value;
    assert r.Keys == c[key := Arr([])].Keys;
  }

  /** `EmbedInCase` for a case that exists and whose list field can take the item. */
  lemma EmbedInCaseFound(db: Db, caseId: Value, key: string, v: Value, front: bool)
    requires 0 <= FindIndex(db.cases, "id", Some(caseId))
    requires var c := db.cases[FindIndex(db.cases, "id", Some(caseId))];
             !FieldTruthy(c, key) || c[key].Arr?
    ensures var i := FindIndex(db.cases, "id", Some(caseId));
            var c := db.cases[i];
            EmbedInCase(db, caseId, key, v, front) ==
              Ok(db.(cases := db.cases[i := c[key := Arr(if front then [v] + Items(c, key) else Items(c, key) + [v])]],
                     present := db.present + {CasesKey}))
  {
    var i := FindIndex(db.cases, "id", Some(caseId));
    WithItemUpdate(db.cases[i], key, v, front);
  }

  // ---------- registerClient ----------

  /**
   * An email already on file: the count stays, the first client with that
   * email takes every supplied field and keeps its others, and no other
   * client changes.
   */
  lemma RegisterExistingEmail(db: Db, data: Record, now: nat, j: int)
    requires 0 <= j < |db.clients| && StrictEq(Get(db.clients[j], "email"), Get(data, "email"))
    ensures var r := RegisterClient(db, data, now);
            var i := FindIndex(db.clients, "email", Get(data, "email"));
            && 0 <= i <= j
            && |r.db.clients| == |db.clients|
            && r.db.clients[i] == r.out
            && r.out.Keys == db.clients[i].Keys + data.Keys
            && (forall k :: k in data ==> r.out[k] == data[k])
            && (forall k :: k in db.clients[i] && k !in data ==> r.out[k] == db.clients[i][k])
            && (forall m :: 0 <= m < |db.clients| && m != i ==> r.db.clients[m] == db.clients[m])
  {
  }

  /**
   * A new email: exactly one client is appended, and its `created_at` and
   * `casos` are fresh even when the caller supplied them.
   */
  lemma RegisterNewEmail(db: Db, data: Record, now: nat)
    requires forall c :: c in db.clients ==> !StrictEq(Get(c, "email"), Get(data, "email"))
    ensures var r := RegisterClient(db, data, now);
            && r.db.clients == db.clients + [r.out]
            && r.out["created_at"] == Num(now)
            && r.out["casos"] == Arr([])
            && (forall k :: k in data && k != "created_at" && k != "casos" ==> r.out[k] == data[k])
  {
    assert forall j :: 0 <= j < |db.clients| ==> db.clients[j] in db.clients;
  }

  // ---------- timeline ----------

  /** `addToTimeline` for a case that exists: the entry goes in front of that case's embedded timeline. */
  lemma AddToTimelineEmbeds(db: Db, caseId: Value, entry: Record, now: nat)
    requires 0 <= FindIndex(db.cases, "id", Some(caseId))
    requires var c := db.cases[FindIndex(db.cases, "id", Some(caseId))];
             !FieldTruthy(c, "timeline") || c["timeline"].Arr?
    ensures var i := FindIndex(db.cases, "id", Some(caseId));
            var c := db.cases[i];
            var e := TimelineEntry(caseId, entry, now);
            var r := AddToTimeline(db, caseId, entry, now);
            && r.out == Ok(e)
            && r.db.cases == db.cases[i := c["timeline" := Arr([Obj(e)] + Items(c, "timeline"))]]
            && r.db.timeline == db.timeline + [e]
            && r.db.present == db.present + {TimelineKey, CasesKey}
  {
    var i := FindIndex(db.cases, "id", Some(caseId));
    WithItemUpdate(db.cases[i], "timeline", Obj(TimelineEntry(caseId, entry, now)), true);
  }

  /** `addToTimeline` for an unknown case still appends to the flat timeline and touches no case. */
  lemma AddToTimelineNoCase(db: Db, caseId: Value, entry: Record, now: nat)
    requires forall c :: c in db.cases ==> !StrictEq(Get(c, "id"), Some(caseId))
    ensures var e := TimelineEntry(caseId, entry, now);
            AddToTimeline(db, caseId, entry, now) ==
              Step(db.(timeline := db.timeline + [e], present := db.present + {TimelineKey}), Ok(e))
  {
    assert forall j :: 0 <= j < |db.cases| ==> db.cases[j] in db.cases;
  }

  /** Every flat entry carries the case it was recorded for (unless the caller supplied another). */
  lemma AddToTimelineCaseId(db: Db, caseId: Value, entry: Record, now: nat)
    requires "case_id" !in entry
    ensures var t := AddToTimeline(db, caseId, entry, now).db.timeline;
            |t| == |db.timeline| + 1 && t[|db.timeline|]["case_id"] == caseId
  {
  }

  /**
   * `updateCaseTimeline` for a case that exists: the entry goes in front of
   * its embedded timeline, the flat timeline is untouched.
   */
  lemma UpdateCaseTimelinePrepends(db: Db, caseId: Value, entry: Record, now: nat)
    requires 0 <= FindIndex(db.cases, "id", Some(caseId))
    requires var c := db.cases[FindIndex(db.cases, "id", Some(caseId))];
             !FieldTruthy(c, "timeline") || c["timeline"].Arr?
    ensures var i := FindIndex(db.cases, "id", Some(caseId));
            var c := db.cases[i];
            var e := CaseTimelineEntry(entry, now);
            var r := UpdateCaseTimeline(db, caseId, entry, now);
            && r.out == Ok(Some(e))
            && r.db == db.(cases := db.cases[i := c["timeline" := Arr([Obj(e)] + Items(c, "timeline"))]],
                           present := db.present + {CasesKey})
  {
    var i := FindIndex(db.cases, "id", Some(caseId));
    WithItemUpdate(db.cases[i], "timeline", Obj(CaseTimelineEntry(entry, now)), true);
  }

  /** `getTimelineByCaseId` holds exactly the flat entries with that `case_id`. */
  lemma TimelineByCaseIdMembers(db: Db, caseId: Value, t: Record)
    ensures t in TimelineByCaseId(db, caseId) <==> t in db.timeline && StrictEq(Get(t, "case_id"), Some(caseId))
  {
    var r := TimelineByCaseId(db, caseId);
    var f := Filter(db.timeline, KeyIs("case_id", caseId));
    assert t in r <==> t in multiset(r);
    assert t in f <==> t in multiset(f);
    if t in f {
      var i :| 0 <= i < |f| && f[i] == t;
    }
    if t in db.timeline {
      var i :| 0 <= i < |db.timeline| && db.timeline[i] == t;
    }
  }

  // ---------- cases ----------

  /**
   * `addCase` with an id no stored case has: the case is appended with the
   * 'Pedido recebido' entry at the front of its embedded timeline, and the
   * same entry is appended to the flat timeline.
   */
  lemma AddCaseFresh(db: Db, data: Record, now: nat)
    requires IsPrimitive(NewCase(data, now)["id"])
    requires forall x :: x in db.cases ==> !StrictEq(Get(x, "id"), Some(NewCase(data, now)["id"]))
    requires var c := NewCase(data, now); !FieldTruthy(c, "timeline") || c["timeline"].Arr?
    ensures var c := NewCase(data, now);
            var e := TimelineEntry(c["id"], PedidoRecebido, now);
            var r := AddCase(db, data, now);
            && r.out == Ok(c)
            && r.db.cases == db.cases + [c["timeline" := Arr([Obj(e)] + Items(c, "timeline"))]]
            && r.db.timeline == db.timeline + [e]
            && e["case_id"] == c["id"] && e["titulo"] == Str("Pedido recebido")
  {
    var c := NewCase(data, now);
    var cs := db.cases + [c];
    SnocKeepsPrefix(db.cases, c);
    FindIndexUnique(cs, "id", Some(c["id"]), |db.cases|);
    var db1 := db.(cases := cs, present := db.present + {CasesKey});
    AddToTimelineEmbeds(db1, c["id"], PedidoRecebido, now);
    AddCaseUnfold(db, data, now);
    PedidoEntry(c, now);
    var e := TimelineEntry(c["id"], PedidoRecebido, now);
    var c1 := c["timeline" := Arr([Obj(e)] + Items(c, "timeline"))];
    SnocReplaceLast(db.cases, c, c1);
  }

  /** `addCase` is the append of the new case followed by `addToTimeline` for it. */
  lemma AddCaseUnfold(db: Db, data: Record, now: nat)
    ensures var c := NewCase(data, now);
            var t := AddToTimeline(db.(cases := db.cases + [c], present := db.present + {CasesKey}),
                                   c["id"], PedidoRecebido, now);
            AddCase(db, data, now) == Step(t.db, Then(t.out, c))
  {
  }

  /** The 'Pedido recebido' entry carries the new case's id. */
  lemma PedidoEntry(c: Record, now: nat)
    requires "id" in c
    ensures var e := TimelineEntry(c["id"], PedidoRecebido, now);
            e["case_id"] == c["id"] && e["titulo"] == Str("Pedido recebido")
  {
  }

  /** A case added without its own `id` or `timeline` starts with exactly the one entry. */
  lemma AddCaseFirstEntry(db: Db, data: Record, now: nat)
    requires "id" !in data && "timeline" !in data
    requires forall x :: x in db.cases ==> !StrictEq(Get(x, "id"), Some(NewCase(data, now)["id"]))
    ensures var c := NewCase(data, now);
            var r := AddCase(db, data, now);
            && r.db.cases[|db.cases|]["timeline"] == Arr([Obj(TimelineEntry(c["id"], PedidoRecebido, now))])
            && r.db.cases[..|db.cases|] == db.cases
  {
    var c := NewCase(data, now);
    var e := TimelineEntry(c["id"], PedidoRecebido, now);
    AddCaseFresh(db, data, now);
    assert Items(c, "timeline") == [];
    assert [Obj(e)] + Items(c, "timeline") == [Obj(e)];
    SnocPrefix(db.cases, c["timeline" := Arr([Obj(e)])]);
  }

  /**
   * `addCase` whose id an earlier case already has: the new case is stored
   * without its entry, which instead lands in the earlier case.
   */
  lemma AddCaseIdCollision(db: Db, data: Record, now: nat, j: int)
    requires 0 <= j < |db.cases| && StrictEq(Get(db.cases[j], "id"), Some(NewCase(data, now)["id"]))
    ensures var i := FindIndex(db.cases, "id", Some(NewCase(data, now)["id"]));
            var r := AddCase(db, data, now);
            && 0 <= i <= j
            && r.db.cases[|db.cases|] == NewCase(data, now)
            && (forall m :: 0 <= m < |db.cases| && m != i ==> r.db.cases[m] == db.cases[m])
  {
    var c := NewCase(data, now);
    FindIndexAppend(db.cases, "id", Some(c["id"]), c);
  }

  /**
   * `addCase` of caller data without `id` or `timeline`, when no stored case
   * has the new id: the case is appended with just its own entry embedded.
   */
  lemma AddCaseNoClash(db: Db, data: Record, now: nat)
    requires "id" !in data && "timeline" !in data
    requires forall j :: 0 <= j < |db.cases| ==> Get(db.cases[j], "id") != Some(Str(NewId("SOL-", now)))
    ensures var c := NewCase(data, now);
            var e := TimelineEntry(Str(NewId("SOL-", now)), PedidoRecebido, now);
            var r := AddCase(db, data, now);
            && r.out == Ok(c)
            && r.db.cases == db.cases + [c["timeline" := Arr([Obj(e)])]]
            && r.db.timeline == db.timeline + [e]
            && r.db.clients == db.clients && r.db.documents == db.documents
            && r.db.users == db.users && r.db.sendLog == db.sendLog
  {
    var c := NewCase(data, now);
    forall x | x in db.cases ensures !StrictEq(Get(x, "id"), Some(c["id"])) {
      var j :| 0 <= j < |db.cases| && db.cases[j] == x;
    }
    AddCaseFresh(db, data, now);
    var e := TimelineEntry(Str(NewId("SOL-", now)), PedidoRecebido, now);
    assert Items(c, "timeline") == [];
    assert [Obj(e)] + Items(c, "timeline") == [Obj(e)];
  }

  /** A new case stored with one embedded entry: no documents, that entry, the new id. */
  lemma NewCaseLists(data: Record, now: nat, x: Value)
    requires "id" !in data && "documentos" !in data
    ensures var c := NewCase(data, now)["timeline" := Arr([x])];
            && c["documentos"] == Arr([]) && c["timeline"] == Arr([x])
            && Items(c, "documentos") == [] && Items(c, "timeline") == [x]
            && Get(c, "id") == Some(Str(NewId("SOL-", now)))
  {
  }

  /**
   * Two `addCase` calls on a store without cases, in two distinct
   * milliseconds: both cases are stored in order, each with its own entry.
   */
  lemma AddTwoCases(db: Db, d1: Record, n1: nat, d2: Record, n2: nat)
    requires "id" !in d1 && "timeline" !in d1 && "id" !in d2 && "timeline" !in d2
    requires db.cases == [] && n1 != n2
    ensures var s1 := AddCase(db, d1, n1);
            var s2 := AddCase(s1.db, d2, n2);
            var e1 := TimelineEntry(Str(NewId("SOL-", n1)), PedidoRecebido, n1);
            var e2 := TimelineEntry(Str(NewId("SOL-", n2)), PedidoRecebido, n2);
            && s1.out == Ok(NewCase(d1, n1)) && s2.out == Ok(NewCase(d2, n2))
            && s2.db.cases == [NewCase(d1, n1)["timeline" := Arr([Obj(e1)])], NewCase(d2, n2)["timeline" := Arr([Obj(e2)])]]
            && s2.db.timeline == db.timeline + [e1, e2]
            && s2.db.clients == db.clients && s2.db.documents == db.documents
            && s2.db.users == db.users && s2.db.sendLog == db.sendLog
  {
    var e1 := TimelineEntry(Str(NewId("SOL-", n1)), PedidoRecebido, n1);
    var e2 := TimelineEntry(Str(NewId("SOL-", n2)), PedidoRecebido, n2);
    FirstCaseStored(db, d1, n1, n2);
    var s1 := AddCase(db, d1, n1);
    var c1 := NewCase(d1, n1)["timeline" := Arr([Obj(e1)])];
    AddCaseNoClash(s1.db, d2, n2);
    var c2 := NewCase(d2, n2)["timeline" := Arr([Obj(e2)])];
    SnocPair(s1.db.cases, c1, c2);
    SnocTwice(db.timeline, e1, e2);
  }

  /** The first of two cases into an empty list; its id differs from the second's. */
  lemma FirstCaseStored(db: Db, d1: Record, n1: nat, n2: nat)
    requires "id" !in d1 && "timeline" !in d1
    requires db.cases == [] && n1 != n2
    ensures var s1 := AddCase(db, d1, n1);
            var e1 := TimelineEntry(Str(NewId("SOL-", n1)), PedidoRecebido, n1);
            && s1.out == Ok(NewCase(d1, n1))
            && s1.db.cases == [NewCase(d1, n1)["timeline" := Arr([Obj(e1)])]]
            && s1.db.timeline == db.timeline + [e1]
            && s1.db.clients == db.clients && s1.db.documents == db.documents
            && s1.db.users == db.users && s1.db.sendLog == db.sendLog
            && forall j :: 0 <= j < |s1.db.cases| ==> Get(s1.db.cases[j], "id") != Some(Str(NewId("SOL-", n2)))
  {
    var e1 := TimelineEntry(Str(NewId("SOL-", n1)), PedidoRecebido, n1);
    AddCaseNoClash(db, d1, n1);
    var c1 := NewCase(d1, n1)["timeline" := Arr([Obj(e1)])];
    EmptySnoc(db.cases, c1);
    assert Get(c1, "id") == Some(Str(NewId("SOL-", n1)));
    NewIdInjective("SOL-", n1, n2);
    OnlyRecordLacks([c1], c1, "id", Some(Str(NewId("SOL-", n2))));
  }

  lemma OnlyRecordLacks(s: seq<Record>, c: Record, key: string, v: Option<Value>)
    requires s == [c] && Get(c, key) != v
    ensures forall j :: 0 <= j < |s| ==> Get(s[j], key) != v
  {
  }

  /**
   * `addCase` whose new id the only stored case already has: the new case is
   * appended as it is, and its entry goes in front of the stored case's timeline.
   */
  lemma AddCaseSameId(db: Db, data: Record, now: nat)
    requires "id" !in data && "timeline" !in data
    requires |db.cases| == 1 && Get(db.cases[0], "id") == Some(Str(NewId("SOL-", now)))
    requires !FieldTruthy(db.cases[0], "timeline") || db.cases[0]["timeline"].Arr?
    ensures var c := db.cases[0];
            var e := TimelineEntry(Str(NewId("SOL-", now)), PedidoRecebido, now);
            var r := AddCase(db, data, now);
            && r.out == Ok(NewCase(data, now))
            && r.db.cases == [c["timeline" := Arr([Obj(e)] + Items(c, "timeline"))], NewCase(data, now)]
            && r.db.timeline == db.timeline + [e]
  {
    var id := Str(NewId("SOL-", now));
    var cs := db.cases + [NewCase(data, now)];
    FindIndexUnique(cs, "id", Some(id), 0);
    var db1 := db.(cases := cs, present := db.present + {CasesKey});
    AddToTimelineEmbeds(db1, id, PedidoRecebido, now);
    AddCaseUnfold(db, data, now);
  }

  /**
   * Two `addCase` calls on a store without cases in the same millisecond:
   * the second case gets the first one's id, both entries end up in the
   * first case, and the second is stored with an empty timeline.
   */
  lemma AddTwoCasesSameMillisecond(db: Db, d1: Record, d2: Record, now: nat)
    requires "id" !in d1 && "timeline" !in d1 && "documentos" !in d1 && "id" !in d2 && "timeline" !in d2
    requires db.cases == []
    ensures var s1 := AddCase(db, d1, now);
            var s2 := AddCase(s1.db, d2, now);
            var e := TimelineEntry(Str(NewId("SOL-", now)), PedidoRecebido, now);
            && s1.out == Ok(NewCase(d1, now)) && s2.out == Ok(NewCase(d2, now))
            && Get(NewCase(d2, now), "id") == Get(NewCase(d1, now), "id")
            && s2.db.cases == [NewCase(d1, now)["timeline" := Arr([Obj(e), Obj(e)])], NewCase(d2, now)]
            && Get(NewCase(d2, now), "timeline") == Some(Arr([]))
            && s2.db.timeline == db.timeline + [e, e]
  {
    var e := TimelineEntry(Str(NewId("SOL-", now)), PedidoRecebido, now);
    AddCaseNoClash(db, d1, now);
    var s1 := AddCase(db, d1, now);
    var c1 := NewCase(d1, now)["timeline" := Arr([Obj(e)])];
    EmptySnoc(db.cases, c1);
    NewCaseLists(d1, now, Obj(e));
    AddCaseSameId(s1.db, d2, now);
    SingletonPair(Obj(e), Obj(e));
    UpdateSameKey(NewCase(d1, now), "timeline", Arr([Obj(e)]), Arr([Obj(e), Obj(e)]));
    assert c1["timeline" := Arr([Obj(e)] + Items(c1, "timeline"))] == NewCase(d1, now)["timeline" := Arr([Obj(e), Obj(e)])];
    SnocTwice(db.timeline, e, e);
  }

  /** `updateCase` on a known id changes only that case, to `{...old, ...updates}`. */
  lemma UpdateCaseMerges(db: Db, id: Value, updates: Record, j: int)
    requires 0 <= j < |db.cases| && StrictEq(Get(db.cases[j], "id"), Some(id))
    ensures var r := UpdateCase(db, id, updates);
            var i := FindIndex(db.cases, "id", Some(id));
            && r.out == Some(Spread(db.cases[i], updates))
            && (forall m :: 0 <= m < |db.cases| && m != i ==> r.db.cases[m] == db.cases[m])
            && r.db.clients == db.clients && r.db.documents == db.documents && r.db.timeline == db.timeline
  {
    assert db.cases[j] in db.cases;
  }

  /**
   * Appending an item to a list field of an existing case and then recording
   * an entry for it: the case gets both, in one update.
   */
  lemma EmbedThenRecord(db: Db, caseId: Value, key: string, v: Value, entry: Record, now: nat)
    requires key != "timeline" && key != "id"
    requires 0 <= FindIndex(db.cases, "id", Some(caseId))
    requires var c := db.cases[FindIndex(db.cases, "id", Some(caseId))];
             (!FieldTruthy(c, key) || c[key].Arr?) &&
             (!FieldTruthy(c, "timeline") || c["timeline"].Arr?)
    ensures var i := FindIndex(db.cases, "id", Some(caseId));
            var c := db.cases[i];
            var e := TimelineEntry(caseId, entry, now);
            var m := EmbedInCase(db, caseId, key, v, false);
            && m.Ok?
            && var t := AddToTimeline(m.value, caseId, entry, now);
            && t.out == Ok(e)
            && t.db.timeline == db.timeline + [e]
            && t.db.cases == db.cases[i := c[key := Arr(Items(c, key) + [v])]
                                            ["timeline" := Arr([Obj(e)] + Items(c, "timeline"))]]
  {
    var i := FindIndex(db.cases, "id", Some(caseId));
    var c := db.cases[i];
    EmbedInCaseFound(db, caseId, key, v, false);
    var c1 := c[key := Arr(Items(c, key) + [v])];
    assert Get(c1, "id") == Get(c, "id");
    FindIndexAfterUpdate(db.cases, "id", Some(caseId), c1);
    var db2 := db.(cases := db.cases[i := c1], present := db.present + {CasesKey});
    assert Items(c1, "timeline") == Items(c, "timeline");
    AddToTimelineEmbeds(db2, caseId, entry, now);
    var e := TimelineEntry(caseId, entry, now);
    UpdateTwice(db.cases, i, c1, c1["timeline" := Arr([Obj(e)] + Items(c, "timeline"))]);
  }

  // ---------- documents ----------

  /**
   * `addDocument` for a case that exists: the document is appended to the
   * flat list and to the end of the case's `documentos`, and a 'documento'
   * entry goes in front of the case's timeline and at the end of the flat one.
   */
  lemma AddDocumentToCase(db: Db, caseId: Value, data: Record, now: nat)
    requires 0 <= FindIndex(db.cases, "id", Some(caseId))
    requires var c := db.cases[FindIndex(db.cases, "id", Some(caseId))];
             (!FieldTruthy(c, "documentos") || c["documentos"].Arr?) &&
             (!FieldTruthy(c, "timeline") || c["timeline"].Arr?)
    ensures var i := FindIndex(db.cases, "id", Some(caseId));
            var c := db.cases[i];
            var d := NewDocument(caseId, data, now);
            var e := TimelineEntry(caseId, DocumentEntry(data), now);
            var r := AddDocument(db, caseId, data, now);
            && r.out == Ok(d)
            && r.db.documents == db.documents + [d]
            && r.db.timeline == db.timeline + [e]
            && r.db.cases == db.cases[i := c["documentos" := Arr(Items(c, "documentos") + [Obj(d)])]
                                            ["timeline" := Arr([Obj(e)] + Items(c, "timeline"))]]
            && e["tipo"] == Str("documento")
  {
    var d := NewDocument(caseId, data, now);
    var db1 := db.(documents := db.documents + [d], present := db.present + {DocumentsKey});
    EmbedThenRecord(db1, caseId, "documentos", Obj(d), DocumentEntry(data), now);
    AddDocumentUnfold(db, caseId, data, now);
  }

  /** `addDocument`, when the case-side write succeeds, is followed by `addToTimeline`. */
  lemma AddDocumentUnfold(db: Db, caseId: Value, data: Record, now: nat)
    ensures var d := NewDocument(caseId, data, now);
            var db1 := db.(documents := db.documents + [d], present := db.present + {DocumentsKey});
            var m := EmbedInCase(db1, caseId, "documentos", Obj(d), false);
            m.Ok? ==>
              var t := AddToTimeline(m.value, caseId, DocumentEntry(data), now);
              AddDocument(db, caseId, data, now) == Step(t.db, Then(t.out, d))
  {
  }


  /** A document for the case at position 0 goes into that case. */
  lemma AddDocumentToFirst(db: Db, caseId: Value, data: Record, now: nat)
    requires |db.cases| > 0 && Get(db.cases[0], "id") == Some(caseId) && caseId.Str?
    requires var c := db.cases[0];
             (!FieldTruthy(c, "documentos") || c["documentos"].Arr?) &&
             (!FieldTruthy(c, "timeline") || c["timeline"].Arr?)
    ensures var c := db.cases[0];
            var d := NewDocument(caseId, data, now);
            var e := TimelineEntry(caseId, DocumentEntry(data), now);
            var r := AddDocument(db, caseId, data, now);
            && r.out == Ok(d)
            && r.db.documents == db.documents + [d]
            && r.db.timeline == db.timeline + [e]
            && r.db.cases == db.cases[0 := c["documentos" := Arr(Items(c, "documentos") + [Obj(d)])]
                                            ["timeline" := Arr([Obj(e)] + Items(c, "timeline"))]]
  {
    FindIndexUnique(db.cases, "id", Some(caseId), 0);
    AddDocumentToCase(db, caseId, data, now);
  }

  /** A case whose two lists were just set reads them back and keeps its `id`. */
  lemma CaseListsUpdated(c: Record, docs: seq<Value>, tl: seq<Value>)
    ensures var c3 := c["documentos" := Arr(docs)]["timeline" := Arr(tl)];
            && Items(c3, "documentos") == docs && Items(c3, "timeline") == tl
            && Get(c3, "id") == Get(c, "id")
  {
  }

  /**
   * Two `addDocument` calls for the case at position 0: both documents end up
   * in its `documentos` in call order and both entries in front of its
   * timeline, newest first.
   */
  lemma AddTwoDocuments(db: Db, caseId: Value, d1: Record, n1: nat, d2: Record, n2: nat)
    requires |db.cases| > 0 && Get(db.cases[0], "id") == Some(caseId) && caseId.Str?
    requires var c := db.cases[0];
             (!FieldTruthy(c, "documentos") || c["documentos"].Arr?) &&
             (!FieldTruthy(c, "timeline") || c["timeline"].Arr?)
    ensures var c := db.cases[0];
            var x1 := NewDocument(caseId, d1, n1);
            var x2 := NewDocument(caseId, d2, n2);
            var e1 := TimelineEntry(caseId, DocumentEntry(d1), n1);
            var e2 := TimelineEntry(caseId, DocumentEntry(d2), n2);
            var s3 := AddDocument(db, caseId, d1, n1);
            var s4 := AddDocument(s3.db, caseId, d2, n2);
            && s3.out == Ok(x1) && s4.out == Ok(x2)
            && s4.db.documents == db.documents + [x1, x2]
            && s4.db.timeline == db.timeline + [e1, e2]
            && s4.db.cases == db.cases[0 := c["documentos" := Arr(Items(c, "documentos") + [Obj(x1), Obj(x2)])]
                                             ["timeline" := Arr([Obj(e2), Obj(e1)] + Items(c, "timeline"))]]
            && s4.db.clients == db.clients && s4.db.users == db.users && s4.db.sendLog == db.sendLog
  {
    var c := db.cases[0];
    var x1 := NewDocument(caseId, d1, n1);
    var x2 := NewDocument(caseId, d2, n2);
    var e1 := TimelineEntry(caseId, DocumentEntry(d1), n1);
    var e2 := TimelineEntry(caseId, DocumentEntry(d2), n2);
    AddDocumentToFirst(db, caseId, d1, n1);
    var s3 := AddDocument(db, caseId, d1, n1);
    var docs := Items(c, "documentos");
    var tl := Items(c, "timeline");
    var c3 := c["documentos" := Arr(docs + [Obj(x1)])]["timeline" := Arr([Obj(e1)] + tl)];
    assert s3.db.cases[0] == c3;
    CaseListsUpdated(c, docs + [Obj(x1)], [Obj(e1)] + tl);
    AddDocumentToFirst(s3.db, caseId, d2, n2);
    SnocTwice(docs, Obj(x1), Obj(x2));
    ConsTwice(tl, Obj(e2), Obj(e1));
    SnocTwice(db.documents, x1, x2);
    SnocTwice(db.timeline, e1, e2);
    UpdateTwoKeysTwice(c, "documentos", "timeline", Arr(docs + [Obj(x1)]), Arr([Obj(e1)] + tl),
                       Arr(docs + [Obj(x1), Obj(x2)]), Arr([Obj(e2), Obj(e1)] + tl));
    UpdateTwice(db.cases, 0, c3, c["documentos" := Arr(docs + [Obj(x1), Obj(x2)])]["timeline" := Arr([Obj(e2), Obj(e1)] + tl)]);
  }

  /**
   * `getDocumentsByCaseId` after `addDocument`: the earlier list, in order,
   * then the new document when its `case_id` matches. This holds even when
   * the case-side write throws, since the flat list is saved first.
   */
  lemma AddDocumentListed(db: Db, caseId: Value, data: Record, now: nat, x: Value)
    ensures var d := NewDocument(caseId, data, now);
            DocumentsByCaseId(AddDocument(db, caseId, data, now).db, x) ==
              DocumentsByCaseId(db, x) + (if StrictEq(Get(d, "case_id"), Some(x)) then [d] else [])
  {
    FilterSnoc(db.documents, NewDocument(caseId, data, now), KeyIs("case_id", x));
  }

  /** `addDocument` for an unknown case still stores the document and records the entry. */
  lemma AddDocumentNoCase(db: Db, caseId: Value, data: Record, now: nat)
    requires forall c :: c in db.cases ==> !StrictEq(Get(c, "id"), Some(caseId))
    ensures var d := NewDocument(caseId, data, now);
            var r := AddDocument(db, caseId, data, now);
            && r.out == Ok(d)
            && r.db == db.(documents := db.documents + [d],
                           timeline := db.timeline + [TimelineEntry(caseId, DocumentEntry(data), now)],
                           present := db.present + {DocumentsKey, TimelineKey})
  {
    var d := NewDocument(caseId, data, now);
    AddToTimelineNoCase(db.(documents := db.documents + [d], present := db.present + {DocumentsKey}),
                        caseId, DocumentEntry(data), now);
  }

  /** An added document is `'pendente'` unless the caller says otherwise. */
  lemma AddDocumentStatus(db: Db, caseId: Value, data: Record, now: nat)
    ensures var docs := AddDocument(db, caseId, data, now).db.documents;
            docs[|db.documents|]["status"] == if "status" in data then data["status"] else Str("pendente")
  {
  }

  /**
   * `updateDocument` when the owning case holds a copy of the document: the
   * copy becomes the merged flat record.
   */
  lemma UpdateDocumentSyncsEmbedded(db: Db, id: Value, updates: Record, ci: int, k: int)
    requires 0 <= FindIndex(db.documents, "id", Some(id))
    requires var d := Spread(db.documents[FindIndex(db.documents, "id", Some(id))], updates);
             ci == FindIndex(db.cases, "id", Get(d, "case_id")) && 0 <= ci
    requires "documentos" in db.cases[ci] && db.cases[ci]["documentos"].Arr?
    requires FindEmbeddedIndex(db.cases[ci]["documentos"].items, id) == Ok(k) && 0 <= k
    ensures var i := FindIndex(db.documents, "id", Some(id));
            var r := UpdateDocument(db, id, updates);
            && r.out == Ok(Some(r.db.documents[i]))
            && r.db.documents[i] == Spread(db.documents[i], updates)
            && r.db.cases[ci]["documentos"].Arr?
            && r.db.cases[ci]["documentos"].items ==
                 db.cases[ci]["documentos"].items[k := Obj(r.db.documents[i])]
            && (forall m :: 0 <= m < |db.cases| && m != ci ==> r.db.cases[m] == db.cases[m])
  {
  }

  // ---------- send log ----------

  /**
   * `logSend` for a case that exists: the log is appended to the flat list
   * and to the case's `envios`, and an 'envio' entry is recorded.
   */
  lemma LogSendToCase(db: Db, data: Record, now: nat)
    requires FieldTruthy(data, "caseId")
    requires 0 <= FindIndex(db.cases, "id", Some(data["caseId"]))
    requires var c := db.cases[FindIndex(db.cases, "id", Some(data["caseId"]))];
             (!FieldTruthy(c, "envios") || c["envios"].Arr?) &&
             (!FieldTruthy(c, "timeline") || c["timeline"].Arr?)
    ensures var caseId := data["caseId"];
            var i := FindIndex(db.cases, "id", Some(caseId));
            var c := db.cases[i];
            var s := NewSendLog(data, now);
            var e := TimelineEntry(caseId, EnvioEntry(data), now);
            var r := LogSend(db, data, now);
            && r.out == Ok(s)
            && r.db.sendLog == db.sendLog + [s]
            && r.db.timeline == db.timeline + [e]
            && r.db.cases == db.cases[i := c["envios" := Arr(Items(c, "envios") + [Obj(s)])]
                                            ["timeline" := Arr([Obj(e)] + Items(c, "timeline"))]]
  {
    var s := NewSendLog(data, now);
    var db1 := db.(sendLog := db.sendLog + [s], present := db.present + {SendLogKey});
    EmbedThenRecord(db1, data["caseId"], "envios", Obj(s), EnvioEntry(data), now);
    LogSendUnfold(db, data, now);
  }

  /** `logSend` with a case id, when the case-side write succeeds, is followed by `addToTimeline`. */
  lemma LogSendUnfold(db: Db, data: Record, now: nat)
    requires FieldTruthy(data, "caseId")
    ensures var s := NewSendLog(data, now);
            var db1 := db.(sendLog := db.sendLog + [s], present := db.present + {SendLogKey});
            var m := EmbedInCase(db1, data["caseId"], "envios", Obj(s), false);
            m.Ok? ==>
              var t := AddToTimeline(m.value, data["caseId"], EnvioEntry(data), now);
              LogSend(db, data, now) == Step(t.db, Then(t.out, s))
  {
  }


  /**
   * `getSendLogsByCaseId` after `logSend`: the earlier list, in order, then
   * the new log when its `caseId` matches.
   */
  lemma LogSendListed(db: Db, data: Record, now: nat, x: Value)
    ensures var s := NewSendLog(data, now);
            SendLogsByCaseId(LogSend(db, data, now).db, x) ==
              SendLogsByCaseId(db, x) + (if StrictEq(Get(s, "caseId"), Some(x)) then [s] else [])
  {
    FilterSnoc(db.sendLog, NewSendLog(data, now), KeyIs("caseId", x));
  }

  // ---------- migration, export, import ----------

  /** A second `migrateFromOld` finds nothing to migrate. */
  lemma MigrateIdempotent(db: Db)
    ensures var once := MigrateFromOld(db).db;
            MigrateFromOld(once) == Step(once, 0)
  {
  }

  /** Importing a fresh export restores the five collections; only the written keys change. */
  lemma ImportExportIdentity(db: Db, now: nat)
    ensures ImportData(db, ExportData(db, now)) == Step(db.(present := db.present + SnapshotKeys), Ok(true))
  {
  }

  /**
   * Export, clear, import: the five exported collections come back, the
   * users (never exported) are lost.
   */
  lemma ExportClearImport(db: Db, now: nat)
    ensures var r := ImportData(ClearAllData(db), ExportData(db, now)).db;
            && r.cases == db.cases && r.clients == db.clients && r.documents == db.documents
            && r.sendLog == db.sendLog && r.timeline == db.timeline
            && r.users == [] && r.oldCases == db.oldCases
            && r.present == db.present + StoreKeys
  {
  }

  /** A collection a snapshot lacks keeps its stored value; a present one replaces it. */
  lemma ImportFieldwise(db: Db, s: Snapshot)
    requires s.version == Some(Str(SnapshotVersion))
    ensures var r := ImportData(db, s).db;
            && r.cases == (if s.cases.Some? then s.cases.value else db.cases)
            && r.clients == (if s.clients.Some? then s.clients.value else db.clients)
            && r.documents == (if s.documents.Some? then s.documents.value else db.documents)
            && r.sendLog == (if s.sendLogs.Some? then s.sendLogs.value else db.sendLog)
            && r.timeline == (if s.timeline.Some? then s.timeline.value else db.timeline)
  {
  }

  // ---------- sequence steps, stated once for any element type ----------

  lemma SnocReplaceLast<T>(a: seq<T>, x: T, y: T)
    ensures (a + [x])[|a| := y] == a + [y]
  {
  }

  lemma SnocPrefix<T>(a: seq<T>, x: T)
    ensures (a + [x])[..|a|] == a && (a + [x])[|a|] == x
  {
  }

  lemma SnocKeepsPrefix<T>(a: seq<T>, x: T)
    ensures forall j :: 0 <= j < |a| ==> (a + [x])[j] in a
  {
  }

  lemma EmptySnoc<T>(a: seq<T>, x: T)
    requires a == []
    ensures a + [x] == [x]
  {
  }

  lemma SingletonPair<T>(x: T, y: T)
    ensures [x] + [y] == [x, y]
  {
  }

  lemma SnocPair<T>(a: seq<T>, x: T, y: T)
    requires a == [x]
    ensures a + [y] == [x, y]
  {
  }

  lemma SnocTwice<T>(a: seq<T>, x: T, y: T)
    ensures a + [x] + [y] == a + [x, y]
  {
  }

  lemma EmptyAppend<T>(a: seq<T>)
    ensures [] + a == a
  {
  }

  lemma PairAppend<T>(a: seq<T>, x: T)
    requires |a| == 2
    ensures a + [x] == [a[0], a[1], x]
  {
  }

  lemma UpdateOverwritten<K, V>(m: map<K, V>, k: K, j: K, a: V, b: V, c: V)
    requires k != j
    ensures m[j := a][k := b][j := c] == m[k := b][j := c]
  {
  }

  lemma UpdateFirstOfPair<T>(a: seq<T>, x: T)
    requires |a| == 2
    ensures a[0 := x] == [x, a[1]]
  {
  }

  lemma AppendPairs<T>(a: seq<T>, x: T, y: T, z: T, w: T)
    ensures a + [x, y] + [z, w] == a + [x, y, z, w]
  {
  }

  lemma ConsTwice<T>(a: seq<T>, x: T, y: T)
    ensures [x] + ([y] + a) == [x, y] + a
  {
  }

  lemma UpdateTwice<T>(a: seq<T>, i: nat, x: T, y: T)
    requires i < |a|
    ensures a[i := x][i := y] == a[i := y]
  {
  }

  lemma UpdateTwoKeysTwice<K, V>(m: map<K, V>, k: K, j: K, a: V, b: V, a2: V, b2: V)
    requires k != j
    ensures m[k := a][j := b][k := a2][j := b2] == m[k := a2][j := b2]
  {
  }

  // ---------- fields of the records the store builds ----------

  /** An entry keeps the caller's `titulo` and takes the case id and the clock reading. */
  lemma EntryFields(caseId: Value, entry: Record, now: nat)
    requires "case_id" !in entry && "created_at" !in entry
    ensures var e := TimelineEntry(caseId, entry, now);
            Get(e, "case_id") == Some(caseId) && CreatedAt(e) == now && Get(e, "titulo") == Get(entry, "titulo")
  {
  }

  lemma PedidoFields()
    ensures "case_id" !in PedidoRecebido && "created_at" !in PedidoRecebido
    ensures Get(PedidoRecebido, "titulo") == Some(Str("Pedido recebido"))
  {
  }

  lemma DocumentEntryFields(data: Record)
    ensures "case_id" !in DocumentEntry(data) && "created_at" !in DocumentEntry(data)
    ensures Get(DocumentEntry(data), "titulo") == Some(Str("Documento adicionado"))
  {
  }

  /** A document without its own `case_id` points at the case it was added to. */
  lemma DocumentFields(caseId: Value, data: Record, now: nat)
    requires "case_id" !in data
    ensures var d := NewDocument(caseId, data, now);
            Get(d, "case_id") == Some(caseId) && ("status" in data ==> Get(d, "status") == Get(data, "status"))
  {
  }

  /** A caller field of a new case survives setting its two lists. */
  lemma CaseFieldKept(data: Record, now: nat, k: string, x: Value, y: Value)
    requires k in data && k != "documentos" && k != "timeline"
    ensures Get(NewCase(data, now)["timeline" := y], k) == Some(data[k])
    ensures Get(NewCase(data, now)["documentos" := x]["timeline" := y], k) == Some(data[k])
  {
  }

  /** So does the generated id of a case whose caller data has none. */
  lemma CaseIdKept(data: Record, now: nat, x: Value, y: Value)
    requires "id" !in data
    ensures Get(NewCase(data, now)["documentos" := x]["timeline" := y], "id") == Some(Str(NewId("SOL-", now)))
  {
  }

  lemma NewestFirstThree(a: Record, b: Record, c: Record)
    requires CreatedAt(a) >= CreatedAt(b) >= CreatedAt(c)
    ensures NewestFirst([a, b, c])
  {
  }

  lemma UpdateSameKey<K, V>(m: map<K, V>, k: K, a: V, b: V)
    ensures m[k := a][k := b] == m[k := b]
  {
  }
}
