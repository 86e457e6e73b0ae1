/**
 * `getStatistics()`: totals per collection and per-key counts of the cases.
 * The count objects are keyed by `String(c.status)` / `String(c.area)` and
 * gain keys in the order the cases first show them.
 *
 * The source counts into plain `{}` objects, so a key that names an
 * inherited `Object.prototype` member reads a function instead of
 * `undefined`. `StatisticsAsWritten` models that; `StatisticsOf` is the
 * count the code evidently intends, and the two agree whenever no status or
 * area names an inherited member.
 */
module Statistics {
  import opened Json
  import opened StoreModel

  /** One property of a count object. */
  datatype Count = Count(key: string, n: nat)

  /** `counts[k] = (counts[k] || 0) + 1`. */
  function Bump(counts: seq<Count>, k: string): (r: seq<Count>)
    ensures |r| == |counts| || |r| == |counts| + 1
  {
    if counts == [] then [Count(k, 1)]
    else if counts[0].key == k then [Count(k, counts[0].n + 1)] + counts[1..]
    else [counts[0]] + Bump(counts[1..], k)
  }

  /** The count object after counting every key of `keys`, in order. */
  function Tally(keys: seq<string>): (r: seq<Count>)
    ensures |r| <= |keys|
  {
    if keys == [] then [] else Bump(Tally(keys[..|keys| - 1]), keys[|keys| - 1])
  }

  /** The sum of the counts. */
  function Total(counts: seq<Count>): nat {
    if counts == [] then 0 else counts[0].n + Total(counts[1..])
  }

  /** `counts[k] || 0`. */
  function CountOf(counts: seq<Count>, k: string): nat {
    if counts == [] then 0
    else if counts[0].key == k then counts[0].n
    else CountOf(counts[1..], k)
  }

  /** No key appears twice in a count object. */
  predicate DistinctKeys(counts: seq<Count>) {
    forall i, j :: 0 <= i < j < |counts| ==> counts[i].key != counts[j].key
  }

  /** `String(c[field])` for every case, in order. */
  function KeysOf(cs: seq<Record>, field: string): (ks: seq<string>)
    ensures |ks| == |cs|
    ensures forall i :: 0 <= i < |cs| ==> ks[i] == JsString(Get(cs[i], field))
  {
    seq(|cs|, i requires 0 <= i < |cs| => JsString(Get(cs[i], field)))
  }

  lemma {:induction false} BumpTotal(counts: seq<Count>, k: string)
    ensures Total(Bump(counts, k)) == Total(counts) + 1
  {
    if counts != [] && counts[0].key != k {
      BumpTotal(counts[1..], k);
    }
  }

  lemma {:induction false} BumpCount(counts: seq<Count>, k: string, x: string)
    ensures CountOf(Bump(counts, k), x) == CountOf(counts, x) + (if x == k then 1 else 0)
  {
    if counts != [] && counts[0].key != k {
      BumpCount(counts[1..], k, x);
    }
  }

  /** The keys a count object has. */
  function KeySet(counts: seq<Count>): set<string> {
    if counts == [] then {} else {counts[0].key} + KeySet(counts[1..])
  }

  lemma {:induction false} KeySetHas(counts: seq<Count>, i: int)
    requires 0 <= i < |counts|
    ensures counts[i].key in KeySet(counts)
  {
    if i > 0 {
      KeySetHas(counts[1..], i - 1);
    }
  }

  lemma {:induction false} KeySetLacks(counts: seq<Count>, x: string)
    requires forall i :: 0 <= i < |counts| ==> counts[i].key != x
    ensures x !in KeySet(counts)
  {
    if counts != [] {
      KeySetLacks(counts[1..], x);
    }
  }

  /** Counting `k` adds `k` to the keys and no other key. */
  lemma {:induction false} BumpKeySet(counts: seq<Count>, k: string)
    ensures KeySet(Bump(counts, k)) == KeySet(counts) + {k}
  {
    if counts != [] {
      var r := Bump(counts, k);
      if counts[0].key == k {
        assert r[1..] == counts[1..];
      } else {
        BumpKeySet(counts[1..], k);
        assert r[1..] == Bump(counts[1..], k);
      }
    }
  }

  /** Counting a key keeps the keys distinct. */
  lemma {:induction false} BumpDistinct(counts: seq<Count>, k: string)
    requires DistinctKeys(counts)
    ensures DistinctKeys(Bump(counts, k))
  {
    var r := Bump(counts, k);
    if counts != [] && counts[0].key == k {
      assert forall i :: 0 <= i < |r| ==> r[i].key == counts[i].key;
    } else if counts != [] {
      var tail := counts[1..];
      BumpDistinct(tail, k);
      BumpKeySet(tail, k);
      KeySetLacks(tail, counts[0].key);
      assert r == [counts[0]] + Bump(tail, k);
      forall j | 0 < j < |r| ensures r[0].key != r[j].key {
        KeySetHas(Bump(tail, k), j - 1);
      }
    }
  }

  /** The counts add up to the number of keys counted. */
  lemma {:induction false} TallyTotal(keys: seq<string>)
    ensures Total(Tally(keys)) == |keys|
  {
    if keys != [] {
      TallyTotal(keys[..|keys| - 1]);
      BumpTotal(Tally(keys[..|keys| - 1]), keys[|keys| - 1]);
    }
  }

  /** Each key is counted as often as it occurs. */
  lemma {:induction false} TallyCount(keys: seq<string>, x: string)
    ensures CountOf(Tally(keys), x) == multiset(keys)[x]
  {
    if keys != [] {
      var init := keys[..|keys| - 1];
      assert keys == init + [keys[|keys| - 1]];
      TallyCount(init, x);
      BumpCount(Tally(init), keys[|keys| - 1], x);
    }
  }

  /** The count object has exactly the keys that were counted, and none repeats. */
  lemma {:induction false} TallyKeys(keys: seq<string>)
    ensures DistinctKeys(Tally(keys))
    ensures KeySet(Tally(keys)) == set k | k in keys
  {
    if keys != [] {
      var init := keys[..|keys| - 1];
      TallyKeys(init);
      BumpDistinct(Tally(init), keys[|keys| - 1]);
      BumpKeySet(Tally(init), keys[|keys| - 1]);
      assert keys == init + [keys[|keys| - 1]];
    }
  }

  /** The object `getStatistics` returns. */
  datatype Stats = Stats(
    totalCasos: nat,
    totalClientes: nat,
    totalDocumentos: nat,
    statusCounts: seq<Count>,
    areaCounts: seq<Count>,
    casosUrgentes: nat,
    casosPendentes: nat)

  predicate IsUrgent(c: Record) { FieldTruthy(c, "urgente") }

  predicate IsPending(c: Record) {
    Get(c, "status") == Some(Str("recebido")) || Get(c, "status") == Some(Str("pendente"))
  }

  /** `cases.filter(c => c.urgente)`. */
  function UrgentTest(): Record -> bool { (c: Record) => IsUrgent(c) }

  /** `cases.filter(c => c.status === 'recebido' || c.status === 'pendente')`. */
  function PendingTest(): Record -> bool { (c: Record) => IsPending(c) }

  lemma PassingCases(cs: seq<Record>)
    ensures PassingIndices(cs, UrgentTest()) == set i | 0 <= i < |cs| && IsUrgent(cs[i])
    ensures PassingIndices(cs, PendingTest()) == set i | 0 <= i < |cs| && IsPending(cs[i])
  {
  }

  /** What `getStatistics()` computes from the stored collections, with own-property counting. */
  function StatisticsOf(db: Db): (r: Stats)
    ensures r.totalCasos == |db.cases| && r.totalClientes == |db.clients|
    ensures r.totalDocumentos == |db.documents|
    ensures r.casosUrgentes == |set i | 0 <= i < |db.cases| && IsUrgent(db.cases[i])|
    ensures r.casosPendentes == |set i | 0 <= i < |db.cases| && IsPending(db.cases[i])|
  {
    FilterLength(db.cases, UrgentTest());
    FilterLength(db.cases, PendingTest());
    PassingCases(db.cases);
    Stats(|db.cases|, |db.clients|, |db.documents|,
          Tally(KeysOf(db.cases, "status")), Tally(KeysOf(db.cases, "area")),
          |Filter(db.cases, UrgentTest())|, |Filter(db.cases, PendingTest())|)
  }

  /**
   * Both count objects add up to the number of cases, each status and area
   * is counted as often as cases carry it, and the urgent and pending counts
   * never exceed the number of cases.
   */
  lemma StatisticsConsistent(db: Db)
    ensures var s := StatisticsOf(db);
      && Total(s.statusCounts) == s.totalCasos
      && Total(s.areaCounts) == s.totalCasos
      && DistinctKeys(s.statusCounts) && DistinctKeys(s.areaCounts)
      && s.casosUrgentes <= s.totalCasos
      && s.casosPendentes <= s.totalCasos
  {
    TallyTotal(KeysOf(db.cases, "status"));
    TallyTotal(KeysOf(db.cases, "area"));
    TallyKeys(KeysOf(db.cases, "status"));
    TallyKeys(KeysOf(db.cases, "area"));
  }

  /** `statusCounts[s]` is the number of cases whose status converts to `s`. */
  lemma StatusCountIsOccurrences(db: Db, s: string)
    ensures CountOf(StatisticsOf(db).statusCounts, s) == multiset(KeysOf(db.cases, "status"))[s]
  {
    TallyCount(KeysOf(db.cases, "status"), s);
  }

  // ---------- the count objects as the source builds them ----------

  /** A property value of a count object: a number, or the text `+` made of a function. */
  datatype Tallied = Number(n: nat) | Text(s: string)

  /** One own property of a count object as written. */
  datatype RawCount = RawCount(key: string, value: Tallied)

  /**
   * `String(Object.prototype[k])` for an inherited method, as V8 prints
   * built-in functions; `constructor` is the function `Object`.
   */
  function NativeText(k: string): string {
    "function " + (if k == "constructor" then "Object" else k) + "() { [native code] }"
  }

  /** `v + 1` for a present, truthy property value. */
  function PlusOne(v: Tallied): Tallied {
    match v
    case Number(n) => Number(n + 1)
    case Text(s) => Text(s + "1")
  }

  /**
   * `counts[k] = (counts[k] || 0) + 1` on an object created as `{}`.
   * An own property is incremented. A missing key that names an inherited
   * method reads that function, so `fn + 1` stores its text followed by "1".
   * For `__proto__`, `+ 1` yields a string that the `__proto__` setter
   * ignores, so no property is added.
   */
  function BumpAsWritten(counts: seq<RawCount>, k: string): (r: seq<RawCount>)
    ensures k == "__proto__" ==> r == counts
    ensures |r| <= |counts| + 1
  {
    if k == "__proto__" then counts
    else if counts == [] then
      if k in PrototypeMembers then [RawCount(k, Text(NativeText(k) + "1"))] else [RawCount(k, Number(1))]
    else if counts[0].key == k then [RawCount(k, PlusOne(counts[0].value))] + counts[1..]
    else [counts[0]] + BumpAsWritten(counts[1..], k)
  }

  /** The count object as written after counting every key of `keys`, in order. */
  function TallyAsWritten(keys: seq<string>): (r: seq<RawCount>)
    ensures |r| <= |keys|
  {
    if keys == [] then [] else BumpAsWritten(TallyAsWritten(keys[..|keys| - 1]), keys[|keys| - 1])
  }

  /** Numeric counts viewed as property values. */
  function Lift(counts: seq<Count>): (r: seq<RawCount>)
    ensures |r| == |counts|
    ensures forall i :: 0 <= i < |r| ==> r[i] == RawCount(counts[i].key, Number(counts[i].n))
  {
    if counts == [] then [] else [RawCount(counts[0].key, Number(counts[0].n))] + Lift(counts[1..])
  }

  /** The object `getStatistics` returns, with count objects as written. */
  datatype RawStats = RawStats(
    totalCasos: nat,
    totalClientes: nat,
    totalDocumentos: nat,
    statusCounts: seq<RawCount>,
    areaCounts: seq<RawCount>,
    casosUrgentes: nat,
    casosPendentes: nat)

  function LiftStats(s: Stats): RawStats {
    RawStats(s.totalCasos, s.totalClientes, s.totalDocumentos, Lift(s.statusCounts),
             Lift(s.areaCounts), s.casosUrgentes, s.casosPendentes)
  }

  /** What `getStatistics()` as written computes from the stored collections. */
  function StatisticsAsWritten(db: Db): (r: RawStats)
    ensures r.totalCasos == |db.cases| && r.totalClientes == |db.clients|
    ensures r.totalDocumentos == |db.documents|
    ensures r.casosUrgentes == StatisticsOf(db).casosUrgentes
    ensures r.casosPendentes == StatisticsOf(db).casosPendentes
  {
    RawStats(|db.cases|, |db.clients|, |db.documents|,
             TallyAsWritten(KeysOf(db.cases, "status")), TallyAsWritten(KeysOf(db.cases, "area")),
             |Filter(db.cases, UrgentTest())|, |Filter(db.cases, PendingTest())|)
  }

  /** On a key that is not inherited, the written update is the numeric one. */
  lemma {:induction false} BumpAgrees(counts: seq<Count>, k: string)
    requires k !in PrototypeMembers
    ensures BumpAsWritten(Lift(counts), k) == Lift(Bump(counts, k))
  {
    if counts != [] && counts[0].key != k {
      BumpAgrees(counts[1..], k);
      assert Lift(counts)[1..] == Lift(counts[1..]);
    } else if counts != [] {
      assert Lift(counts)[1..] == Lift(counts[1..]);
    }
  }

  /** With no inherited key among them, the written count object is the numeric one. */
  lemma {:induction false} TallyAgrees(keys: seq<string>)
    requires forall i :: 0 <= i < |keys| ==> keys[i] !in PrototypeMembers
    ensures TallyAsWritten(keys) == Lift(Tally(keys))
  {
    if keys != [] {
      var init := keys[..|keys| - 1];
      TallyAgrees(init);
      BumpAgrees(Tally(init), keys[|keys| - 1]);
    }
  }

  /** No case's status or area converts to the name of an inherited member. */
  predicate NoInheritedKeys(db: Db) {
    forall i :: 0 <= i < |db.cases| ==>
      JsString(Get(db.cases[i], "status")) !in PrototypeMembers &&
      JsString(Get(db.cases[i], "area")) !in PrototypeMembers
  }

  /**
   * When no status or area names an inherited member, the source's result is
   * the numeric one, so the consistency lemmas above hold of it.
   */
  lemma StatisticsAgree(db: Db)
    requires NoInheritedKeys(db)
    ensures StatisticsAsWritten(db) == LiftStats(StatisticsOf(db))
  {
    TallyAgrees(KeysOf(db.cases, "status"));
    TallyAgrees(KeysOf(db.cases, "area"));
  }

  lemma NativeTextToString()
    ensures NativeText("toString") == "function toString() { [native code] }"
  {
  }

  /** Counting an inherited method's name twice, as written and as intended. */
  lemma InheritedTwice(k: string)
    requires k in PrototypeMembers && k != "__proto__"
    ensures TallyAsWritten([k, k]) == [RawCount(k, Text(NativeText(k) + "11"))]
    ensures Tally([k, k]) == [Count(k, 2)]
  {
    var keys := [k, k];
    assert keys[..1] == [k] && [k][..0] == [];
    var fn := NativeText(k);
    assert TallyAsWritten([k]) == [RawCount(k, Text(fn + "1"))];
    ConcatAssoc(fn, "1", "1");
    assert "1" + "1" == "11";
    assert Tally([k]) == [Count(k, 1)];
  }

  /**
   * A case whose status is `'toString'` gets, as its count, the text of the
   * inherited function followed by "1"; a second such case appends another
   * "1". The intended count is 2.
   */
  lemma InheritedStatusCountsAsText(db: Db)
    requires |db.cases| == 2
    requires Get(db.cases[0], "status") == Some(Str("toString"))
    requires Get(db.cases[1], "status") == Some(Str("toString"))
    ensures NativeText("toString") == "function toString() { [native code] }"
    ensures StatisticsAsWritten(db).statusCounts == [RawCount("toString", Text(NativeText("toString") + "11"))]
    ensures StatisticsOf(db).statusCounts == [Count("toString", 2)]
  {
    var keys := KeysOf(db.cases, "status");
    assert keys == ["toString", "toString"];
    InheritedTwice("toString");
    NativeTextToString();
    assert StatisticsAsWritten(db).statusCounts == TallyAsWritten(keys);
    assert StatisticsOf(db).statusCounts == Tally(keys);
  }

  /**
   * A case whose status is `'__proto__'` is counted nowhere: the count object
   * stays empty although `totalCasos` is 1.
   */
  lemma ProtoStatusUncounted(db: Db)
    requires |db.cases| == 1
    requires Get(db.cases[0], "status") == Some(Str("__proto__"))
    ensures StatisticsAsWritten(db).statusCounts == []
    ensures StatisticsAsWritten(db).totalCasos == 1
    ensures StatisticsOf(db).statusCounts == [Count("__proto__", 1)]
  {
    var keys := KeysOf(db.cases, "status");
    assert keys == ["__proto__"];
    assert keys[..0] == [];
  }
}
