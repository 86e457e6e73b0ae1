/**
 * `filterCases(filters)`: the cases passing every active filter, newest
 * first. The search filter calls `toLowerCase` on case fields, which throws
 * on a field that is missing or not a string.
 */
module CaseFilters {
  import opened Json
  import opened Ordering
  import opened StoreModel

  /** `toLowerCase` on the ASCII letters. */
  function Lower(s: string): (r: string)
    ensures |r| == |s|
    ensures forall i :: 0 <= i < |s| ==> r[i] == LowerChar(s[i])
  {
    if s == [] then [] else [LowerChar(s[0])] + Lower(s[1..])
  }

  function LowerChar(c: char): char {
    if 'A' <= c <= 'Z' then (c as int - 'A' as int + 'a' as int) as char else c
  }

  /** `hay.includes(needle)`. */
  predicate Includes(hay: string, needle: string) {
    exists i :: 0 <= i <= |hay| && needle <= hay[i..]
  }

  /** `v.toLowerCase().includes(term)`: only a string has `toLowerCase`. */
  function LowerIncludes(v: Option<Value>, term: string): (r: Outcome<bool>)
    ensures r.Throw? <==> !(v.Some? && v.value.Str?)
    ensures r.Ok? ==> (r.value <==> Includes(Lower(v.value.s), term))
  {
    if v.Some? && v.value.Str? then Ok(Includes(Lower(v.value.s), term)) else Throw(TypeError)
  }

  /** Field `k` of `c` is a string whose lower-case form contains `term`. */
  predicate FieldHas(c: Record, k: string, term: string) {
    Get(c, k).Some? && Get(c, k).value.Str? && Includes(Lower(Get(c, k).value.s), term)
  }

  predicate TextField(c: Record, k: string) {
    Get(c, k).Some? && Get(c, k).value.Str?
  }

  /** Every field the search reads holds a string; `pedido` may instead be falsy. */
  predicate Searchable(c: Record) {
    TextField(c, "nome") && TextField(c, "email") && TextField(c, "id") &&
    (TextField(c, "pedido") || !FieldTruthy(c, "pedido"))
  }

  /**
   * The search predicate on one case:
   * `nome || email || id || (pedido && pedido)`, evaluated left to right.
   */
  function SearchMatch(c: Record, term: string): (r: Outcome<bool>)
    ensures Searchable(c) ==> r.Ok?
    ensures r.Ok? && term != "" ==>
              (r.value <==> FieldHas(c, "nome", term) || FieldHas(c, "email", term) ||
                            FieldHas(c, "id", term) || FieldHas(c, "pedido", term))
  {
    match LowerIncludes(Get(c, "nome"), term)
    case Throw(e) => Throw(e)
    case Ok(true) => Ok(true)
    case Ok(false) =>
      match LowerIncludes(Get(c, "email"), term)
      case Throw(e) => Throw(e)
      case Ok(true) => Ok(true)
      case Ok(false) =>
        match LowerIncludes(Get(c, "id"), term)
        case Throw(e) => Throw(e)
        case Ok(true) => Ok(true)
        case Ok(false) =>
          if FieldTruthy(c, "pedido") then LowerIncludes(Get(c, "pedido"), term) else Ok(false)
  }

  /** `c => <search>` as a filter test. */
  function SearchTest(term: string): Record -> bool {
    (c: Record) => SearchMatch(c, term) == Ok(true)
  }

  /** `cases.filter(c => <search>)`: one throwing case makes the whole call throw. */
  function SearchFilter(cs: seq<Record>, term: string): (r: Outcome<seq<Record>>)
    ensures r.Throw? <==> exists i :: 0 <= i < |cs| && SearchMatch(cs[i], term).Throw?
    ensures r.Ok? ==> r.value == Filter(cs, SearchTest(term))
  {
    if cs == [] then Ok([])
    else
      match SearchMatch(cs[0], term)
      case Throw(e) => Throw(e)
      case Ok(hit) =>
        match SearchFilter(cs[1..], term)
        case Throw(e) =>
          TailIndices(cs);
          Throw(e)
        case Ok(rest) =>
          TailIndices(cs);
          Ok(if hit then [cs[0]] + rest else rest)
  }

  lemma TailIndices<T>(s: seq<T>)
    requires s != []
    ensures forall i :: 0 < i < |s| ==> s[i] == s[1..][i - 1]
  {
  }

  predicate StatusActive(f: Record) { FieldTruthy(f, "status") }
  predicate SearchActive(f: Record) { FieldTruthy(f, "search") }
  predicate AreaActive(f: Record) { FieldTruthy(f, "area") && f["area"] != Str("todas") }
  predicate UrgentActive(f: Record) { FieldTruthy(f, "urgente") }

  predicate StatusPasses(f: Record, c: Record) {
    StatusActive(f) ==> StrictEq(Get(c, "status"), Some(f["status"]))
  }

  predicate AreaPasses(f: Record, c: Record) {
    AreaActive(f) ==> StrictEq(Get(c, "area"), Some(f["area"]))
  }

  predicate UrgentPasses(f: Record, c: Record) {
    UrgentActive(f) ==> Get(c, "urgente") == Some(Bool(true))
  }

  predicate SearchPasses(f: Record, c: Record) {
    SearchActive(f) ==> f["search"].Str? && SearchMatch(c, Lower(f["search"].s)) == Ok(true)
  }

  /** A case that every active filter lets through. */
  predicate Accepts(f: Record, c: Record) {
    StatusPasses(f, c) && SearchPasses(f, c) && AreaPasses(f, c) && UrgentPasses(f, c)
  }

  function StatusTest(f: Record): Record -> bool { (c: Record) => StatusPasses(f, c) }
  function AreaTest(f: Record): Record -> bool { (c: Record) => AreaPasses(f, c) }
  function UrgentTest(f: Record): Record -> bool { (c: Record) => UrgentPasses(f, c) }
  function AcceptsTest(f: Record): Record -> bool { (c: Record) => Accepts(f, c) }

  /** The cases left after the status filter, which runs before the search. */
  function AfterStatus(cs: seq<Record>, f: Record): seq<Record> {
    if StatusActive(f) then Filter(cs, StatusTest(f)) else cs
  }

  /** `filterCases(filters)`. */
  function FilterCases(db: Db, f: Record): (r: Outcome<seq<Record>>)
    ensures r.Ok? ==> NewestFirst(r.value) && |r.value| <= |db.cases|
  {
    var s1 := AfterStatus(db.cases, f);
    var s2 :=
      if !SearchActive(f) then Ok(s1)
      else if !f["search"].Str? then Throw(TypeError)
      else SearchFilter(s1, Lower(f["search"].s));
    match s2
    case Throw(e) => Throw(e)
    case Ok(s2) =>
      var s3 := if AreaActive(f) then Filter(s2, AreaTest(f)) else s2;
      var s4 := if UrgentActive(f) then Filter(s3, UrgentTest(f)) else s3;
      Ok(SortNewestFirst(s4))
  }

  /** Filtering twice keeps what passes both predicates. */
  lemma {:induction false} FilterFilter(s: seq<Record>, p: Record -> bool, q: Record -> bool, pq: Record -> bool)
    requires forall x :: pq(x) == (p(x) && q(x))
    ensures Filter(Filter(s, p), q) == Filter(s, pq)
  {
    if s != [] {
      FilterFilter(s[1..], p, q, pq);
      if p(s[0]) {
        assert Filter(s, p) == [s[0]] + Filter(s[1..], p);
        assert Filter(s, p)[1..] == Filter(s[1..], p);
      }
    }
  }

  /** Filtering by a predicate that holds of every element changes nothing. */
  lemma {:induction false} FilterAll<T(!new)>(s: seq<T>, p: T -> bool)
    requires forall x :: x in s ==> p(x)
    ensures Filter(s, p) == s
  {
    if s != [] {
      assert s[0] in s;
      assert forall x :: x in s[1..] ==> x in s;
      FilterAll(s[1..], p);
      assert s == [s[0]] + s[1..];
    }
  }

  /**
   * When it does not throw, `filterCases` returns exactly the cases that pass
   * every active filter, each once, newest first.
   */
  lemma FilterCasesExact(db: Db, f: Record)
    requires FilterCases(db, f).Ok?
    ensures NewestFirst(FilterCases(db, f).value)
    ensures multiset(FilterCases(db, f).value) == multiset(Filter(db.cases, AcceptsTest(f)))
  {
    var st := StatusTest(f);
    var s12 := (c: Record) => StatusPasses(f, c) && SearchPasses(f, c);
    var s123 := (c: Record) => StatusPasses(f, c) && SearchPasses(f, c) && AreaPasses(f, c);
    var s1 := AfterStatus(db.cases, f);
    if !StatusActive(f) { FilterAll(db.cases, st); }
    assert s1 == Filter(db.cases, st);
    var s2: seq<Record>;
    if !SearchActive(f) {
      s2 := s1;
      FilterFilter(db.cases, st, (c: Record) => true, s12);
      FilterAll(s1, (c: Record) => true);
    } else {
      var term := Lower(f["search"].s);
      s2 := SearchFilter(s1, term).value;
      FilterFilter(db.cases, st, SearchTest(term), s12);
    }
    assert s2 == Filter(db.cases, s12);
    var s3 := if AreaActive(f) then Filter(s2, AreaTest(f)) else s2;
    if !AreaActive(f) { FilterAll(s2, AreaTest(f)); }
    FilterFilter(db.cases, s12, AreaTest(f), s123);
    assert s3 == Filter(db.cases, s123);
    var s4 := if UrgentActive(f) then Filter(s3, UrgentTest(f)) else s3;
    if !UrgentActive(f) { FilterAll(s3, UrgentTest(f)); }
    FilterFilter(db.cases, s123, UrgentTest(f), AcceptsTest(f));
    assert s4 == Filter(db.cases, AcceptsTest(f));
    assert FilterCases(db, f) == Ok(SortNewestFirst(s4));
  }

  /** A case is in the result of `filterCases` exactly when it is stored and passes every active filter. */
  lemma FilterCasesMembers(db: Db, f: Record, c: Record)
    requires FilterCases(db, f).Ok?
    ensures c in FilterCases(db, f).value <==> c in db.cases && Accepts(f, c)
  {
    FilterCasesExact(db, f);
    var r := FilterCases(db, f).value;
    var s := Filter(db.cases, AcceptsTest(f));
    assert c in r <==> c in multiset(r);
    assert c in s <==> c in multiset(s);
    if c in s {
      var i :| 0 <= i < |s| && s[i] == c;
    }
  }

  /**
   * `filterCases` throws exactly when the search term is not a string, or
   * some case left by the status filter has a field that `toLowerCase` is
   * called on and that is missing or not a string.
   */
  lemma FilterCasesThrows(db: Db, f: Record)
    ensures FilterCases(db, f).Throw? <==>
              SearchActive(f) &&
              (!f["search"].Str? ||
               exists c :: c in AfterStatus(db.cases, f) && SearchMatch(c, Lower(f["search"].s)).Throw?)
  {
    if SearchActive(f) && f["search"].Str? {
      var s1 := AfterStatus(db.cases, f);
      var term := Lower(f["search"].s);
      assert (exists c :: c in s1 && SearchMatch(c, term).Throw?) <==>
             (exists i :: 0 <= i < |s1| && SearchMatch(s1[i], term).Throw?);
    }
  }

  /** With no filter at all, every case comes back, newest first. */
  lemma FilterCasesNoFilters(db: Db)
    ensures FilterCases(db, map[]) == Ok(SortNewestFirst(db.cases))
    ensures multiset(FilterCases(db, map[]).value) == multiset(db.cases)
  {
  }

  /** The area `'todas'` is the same as no area filter. */
  lemma FilterCasesTodas(db: Db, f: Record)
    ensures FilterCases(db, f["area" := Str("todas")]) == FilterCases(db, f - {"area"})
  {
    var g := f["area" := Str("todas")];
    var h := f - {"area"};
    assert forall k :: k in g && k != "area" ==> k in h && g[k] == h[k];
    assert StatusActive(g) == StatusActive(h) && SearchActive(g) == SearchActive(h);
    assert UrgentActive(g) == UrgentActive(h) && !AreaActive(g) && !AreaActive(h);
    if StatusActive(g) {
      FilterSame(db.cases, StatusTest(g), StatusTest(h));
    }
    assert AfterStatus(db.cases, g) == AfterStatus(db.cases, h);
    var s1 := AfterStatus(db.cases, g);
    var s2 :=
      if !SearchActive(g) then Ok(s1)
      else if !g["search"].Str? then Throw(TypeError)
      else SearchFilter(s1, Lower(g["search"].s));
    if s2.Ok? && UrgentActive(g) {
      FilterSame(s2.value, UrgentTest(g), UrgentTest(h));
    }
  }

  /** Two predicates that agree everywhere filter alike. */
  lemma {:induction false} FilterSame(s: seq<Record>, p: Record -> bool, q: Record -> bool)
    requires forall x :: p(x) == q(x)
    ensures Filter(s, p) == Filter(s, q)
  {
    if s != [] { FilterSame(s[1..], p, q); }
  }
}
