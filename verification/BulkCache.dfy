/** What the lookup cache of bulk registration holds, and when it changes the result. */
module BulkCache {
  import opened Wrappers
  import opened Strings
  import opened BulkRegister

  // ----- What the cache holds -----

  /** Row k is the first to ask for the channel. */
  predicate FirstLookup(rows: seq<Row>, k: nat, channel: string)
    requires k < |rows|
  {
    && LooksUp(rows[k]) && Channel(rows[k]) == channel
    && forall j :: 0 <= j < k ==> !(LooksUp(rows[j]) && Channel(rows[j]) == channel)
  }

  /** Whether a row is the first to ask does not depend on later rows. */
  lemma FirstBefore(rows: seq<Row>, channel: string)
    requires rows != []
    ensures var n := |rows| - 1;
            forall k: nat :: k < n ==> (FirstLookup(rows, k, channel) <==> FirstLookup(rows[..n], k, channel))
  {
    hide LooksUp, Channel;
    assert forall k :: 0 <= k < |rows| - 1 ==> rows[k] == rows[..|rows| - 1][k];
  }

  lemma LastIsFirst(rows: seq<Row>, channel: string)
    requires rows != []
    ensures var n := |rows| - 1;
            FirstLookup(rows, n, channel)
            <==> LooksUp(rows[n]) && Channel(rows[n]) == channel &&
                   forall k: nat :: k < n ==> !FirstLookup(rows, k, channel)
  {
    hide LooksUp, Channel;
    var n := |rows| - 1;
    if forall k: nat :: k < n ==> !FirstLookup(rows, k, channel) {
      NoLookup(rows, n, channel);
    }
  }

  /** The cache knows exactly the channels asked for, each as its first lookup found it. */
  lemma {:induction false} CacheIsFirst(w: World, rows: seq<Row>, channel: string)
    ensures var cache := Cache(w, rows);
            && (channel in cache <==> exists k: nat :: k < |rows| && FirstLookup(rows, k, channel))
            && forall k: nat :: k < |rows| && FirstLookup(rows, k, channel) ==>
                 cache[channel] == Ask(w.manufacturers(k), channel)
  {
    if rows != [] {
      var n := |rows| - 1;
      CacheIsFirst(w, rows[..n], channel);
      FirstBefore(rows, channel);
      LastIsFirst(rows, channel);
      var before := Cache(w, rows[..n]);
      assert Cache(w, rows) == Remember(before, w.manufacturers(n), rows[n]);
      hide Cache, LooksUp, Channel, FirstLookup, Ask;
    }
  }

  /** If no row is the first to ask, none asks. */
  lemma {:induction false} NoLookup(rows: seq<Row>, n: nat, channel: string)
    requires n <= |rows| && forall k: nat :: k < n ==> !FirstLookup(rows, k, channel)
    ensures forall j :: 0 <= j < n ==> !(LooksUp(rows[j]) && Channel(rows[j]) == channel)
  {
    if n > 0 {
      NoLookup(rows, n - 1, channel);
      assert !FirstLookup(rows, n - 1, channel);
    }
  }

  /** Where one row asks, one is the first to ask. */
  lemma {:induction false} FirstAsk(rows: seq<Row>, i: nat) returns (k: nat)
    requires i < |rows| && LooksUp(rows[i])
    ensures k <= i && FirstLookup(rows, k, Channel(rows[i]))
  {
    hide LooksUp, Channel;
    k := i;
    if j: nat :| j < i && LooksUp(rows[j]) && Channel(rows[j]) == Channel(rows[i]) {
      k := FirstAsk(rows, j);
    }
  }

  /** A row that asks gets the answer of the one row that asked first. */
  lemma AnswerOf(w: World, rows: seq<Row>, i: nat) returns (k: nat)
    requires i < |rows| && LooksUp(rows[i])
    ensures k <= i && FirstLookup(rows, k, Channel(rows[i]))
    ensures forall j: nat :: j <= i && FirstLookup(rows, j, Channel(rows[i])) ==> j == k
    ensures var cache := Cache(w, rows[..i + 1]);
            Channel(rows[i]) in cache && cache[Channel(rows[i])] == Ask(w.manufacturers(k), Channel(rows[i]))
  {
    hide LooksUp, Channel, Cache;
    var ch, head := Channel(rows[i]), rows[..i + 1];
    k := FirstAsk(rows, i);
    CacheIsFirst(w, head, ch);
    assert FirstLookup(head, k, ch);
  }

  // ----- When the cache is transparent -----

  /** The row's channel stood for another manufacturer when it was first asked for than it does at the row. */
  ghost predicate Stale(w: World, rows: seq<Row>, i: nat)
    requires i < |rows|
  {
    var ch := Channel(rows[i]);
    LooksUp(rows[i])
    && exists k: nat :: k <= i && FirstLookup(rows, k, ch)
                        && Stored(Ask(w.manufacturers(k), ch)) != Stored(Ask(w.manufacturers(i), ch))
  }

  /** The loop inserts row i. */
  predicate Inserts(w: World, table: map<string, Charger>, rows: seq<Row>, i: nat)
    requires i < |rows|
  {
    Cached(w, table, rows[..i + 1]).registered > Cached(w, table, rows[..i]).registered
  }

  /** The reports differ at most in the manufacturers of their entries. */
  predicate SameShape(c: Report, u: Report) {
    c.table.Keys == u.table.Keys && c == u.(table := c.table)
  }

  lemma RowShape(c: Report, u: Report, row: Row, a: Lookup, b: Lookup, stored: bool)
    requires SameShape(c, u) && a.Inherited? == b.Inherited?
    ensures SameShape(AddRow(c, row, a, stored), AddRow(u, row, b, stored))
  {
    hide ChargerOf, BadKwh, Serial;
  }

  lemma SameInherited(answers: map<string, Option<int>>, manufacturers: map<string, int>, row: Row)
    ensures LookupIn(answers, row).Inherited? == DirectLookup(manufacturers, row).Inherited?
  {
  }

  lemma {:induction false} LoopShape(w: World, table: map<string, Charger>, rows: seq<Row>)
    ensures SameShape(Cached(w, table, rows), Uncached(w, table, rows))
  {
    if rows != [] {
      hide Cached, Uncached, Cache, Meanwhile, LookupIn, DirectLookup, AddRow, SameShape;
      var n := |rows| - 1;
      LoopShape(w, table, rows[..n]);
      Unfold(w, table, rows, n);
      assert rows[..n + 1] == rows;
      var c, u := Cached(w, table, rows[..n]), Uncached(w, table, rows[..n]);
      MeanwhileAgrees(c, u, w.others(n));
      var a, b := LookupIn(Cache(w, rows), rows[n]), DirectLookup(w.manufacturers(n), rows[n]);
      SameInherited(Cache(w, rows), w.manufacturers(n), rows[n]);
      RowShape(Meanwhile(c, w.others(n)), Meanwhile(u, w.others(n)), rows[n], a, b, w.stored(n));
    }
  }

  /** The row's entry is the same with and without the cache exactly if the row is not stale. */
  lemma EntryAgrees(w: World, rows: seq<Row>)
    requires rows != [] && Serial(rows[|rows| - 1]) != ""
    ensures var n := |rows| - 1;
            ChargerOf(LookupIn(Cache(w, rows), rows[n]), rows[n]) ==
              ChargerOf(DirectLookup(w.manufacturers(n), rows[n]), rows[n])
            <==> !Stale(w, rows, n)
  {
    var n := |rows| - 1;
    assert rows[..n + 1] == rows;
    hide Cache, Channel, Serial, FirstLookup;
    if LooksUp(rows[n]) { var k := AnswerOf(w, rows, n); }
  }

  /** Two loops whose tables agree so far agree after one more row exactly if the row is not inserted, or not stale. */
  lemma RowAgrees(c: Report, u: Report, row: Row, a: Lookup, b: Lookup, stored: bool)
    requires SameShape(c, u) && a.Inherited? == b.Inherited?
    ensures var c', u' := AddRow(c, row, a, stored), AddRow(u, row, b, stored);
            c' == u' <==> c == u && (c'.registered > c.registered ==> ChargerOf(a, row) == ChargerOf(b, row))
  {
    hide ChargerOf, BadKwh, Serial;
    var c', u' := AddRow(c, row, a, stored), AddRow(u, row, b, stored);
    if c != u {
      var serial :| serial in c.table && c.table[serial] != u.table[serial];
      assert serial in c'.table && c'.table[serial] == c.table[serial] && u'.table[serial] == u.table[serial];
    } else if c'.registered > c.registered {
      assert c'.table[Serial(row)] == ChargerOf(a, row) && u'.table[Serial(row)] == ChargerOf(b, row);
    }
  }

  lemma MeanwhileAgrees(c: Report, u: Report, others: map<string, Charger>)
    requires SameShape(c, u)
    ensures var c', u' := Meanwhile(c, others), Meanwhile(u, others);
            && SameShape(c', u') && c'.registered == c.registered && (c' == u' <==> c == u)
  {
    var c', u' := Meanwhile(c, others), Meanwhile(u, others);
    if c != u {
      var serial :| serial in c.table && c.table[serial] != u.table[serial];
      assert c'.table[serial] == c.table[serial] && u'.table[serial] == u.table[serial];
    }
  }

  /** One more row keeps the loops together exactly if it is not inserted, or not stale. */
  lemma StepAgrees(w: World, table: map<string, Charger>, rows: seq<Row>)
    requires rows != []
    ensures var n := |rows| - 1;
            Cached(w, table, rows) == Uncached(w, table, rows)
            <==> Cached(w, table, rows[..n]) == Uncached(w, table, rows[..n])
                 && !(Inserts(w, table, rows, n) && Stale(w, rows, n))
  {
    hide Cached, Uncached, Cache, LookupIn, DirectLookup, AddRow, Meanwhile, Stale, ChargerOf, SameShape, Serial;
    var n := |rows| - 1;
    LoopShape(w, table, rows[..n]);
    Unfold(w, table, rows, n);
    assert rows[..n + 1] == rows;
    var c0, u0 := Cached(w, table, rows[..n]), Uncached(w, table, rows[..n]);
    MeanwhileAgrees(c0, u0, w.others(n));
    var c, u := Meanwhile(c0, w.others(n)), Meanwhile(u0, w.others(n));
    var a, b := LookupIn(Cache(w, rows), rows[n]), DirectLookup(w.manufacturers(n), rows[n]);
    SameInherited(Cache(w, rows), w.manufacturers(n), rows[n]);
    RowAgrees(c, u, rows[n], a, b, w.stored(n));
    BlankRow(c, rows[n], a, w.stored(n));
    if Serial(rows[n]) != "" { EntryAgrees(w, rows); }
  }

  lemma BlankRow(r: Report, row: Row, lookup: Lookup, stored: bool)
    ensures Serial(row) == "" ==> AddRow(r, row, lookup, stored) == r.(skipped := r.skipped + 1)
  {
  }

  /**
   * The cache changes nothing if and only if the loop inserts no stale row, that is no row whose
   * channel has got another manufacturer since it was first asked for.
   */
  lemma {:induction false} CacheTransparentIff(w: World, table: map<string, Charger>, rows: seq<Row>)
    ensures Cached(w, table, rows) == Uncached(w, table, rows)
            <==> forall i: nat :: i < |rows| ==> !(Inserts(w, table, rows, i) && Stale(w, rows, i))
  {
    if rows != [] {
      CacheTransparentIff(w, table, rows[..|rows| - 1]);
      StepAgrees(w, table, rows);
      SameBefore(w, table, rows);
      hide Cached, Uncached, Inserts, Stale;
    }
  }

  lemma SameBefore(w: World, table: map<string, Charger>, rows: seq<Row>)
    requires rows != []
    ensures var n := |rows| - 1;
            forall i: nat :: i < n ==> (Inserts(w, table, rows, i) <==> Inserts(w, table, rows[..n], i))
                                       && (Stale(w, rows, i) <==> Stale(w, rows[..n], i))
  {
    var n := |rows| - 1;
    var before := rows[..n];
    hide Cached, LooksUp, Channel, Stored, Ask;
    forall i: nat | i < n
      ensures Inserts(w, table, rows, i) <==> Inserts(w, table, before, i)
      ensures Stale(w, rows, i) <==> Stale(w, before, i)
    {
      assert before[..i] == rows[..i] && before[..i + 1] == rows[..i + 1];
      assert forall k: nat, ch :: k <= i ==> (FirstLookup(rows, k, ch) <==> FirstLookup(before, k, ch));
    }
  }

  /** Manufacturers are only ever added. */
  ghost predicate OnlyAdded(w: World) {
    forall i: nat, j: nat, ch :: i <= j && ch in w.manufacturers(i) ==>
                                   ch in w.manufacturers(j) && w.manufacturers(j)[ch] == w.manufacturers(i)[ch]
  }

  /** A row is then stale exactly if its manufacturer was created after the channel was first asked for. */
  lemma StaleMeansCreated(w: World, rows: seq<Row>, i: nat, k: nat)
    requires OnlyAdded(w) && k <= i < |rows| && LooksUp(rows[i]) && FirstLookup(rows, k, Channel(rows[i]))
    ensures var ch := Channel(rows[i]);
            Stale(w, rows, i)
            <==> ch !in w.manufacturers(k) && ch in w.manufacturers(i) && w.manufacturers(i)[ch] != 0
  {
    hide LooksUp, Channel;
    assert forall j: nat :: j <= i && FirstLookup(rows, j, Channel(rows[i])) ==> j == k;
  }

  /** Two rows of a channel, whose manufacturer is created in between: the second charger gets no manufacturer. */
  lemma CreatedBetweenIsMissed(a: string, b: string, id: int)
    requires Trim(a) != "" && Trim(b) != "" && Trim(a) != Trim(b) && id != 0
    ensures var w := World(i => if i == 0 then map[] else map["m" := id], i => map[], i => true);
            var rows := [Row(Some(a), Some("m"), None), Row(Some(b), Some("m"), None)];
            && OnlyAdded(w)
            && Cached(w, map[], rows).table == map[Trim(a) := Charger(None, None), Trim(b) := Charger(None, None)]
            && Uncached(w, map[], rows).table == map[Trim(a) := Charger(None, None), Trim(b) := Charger(Some(id), None)]
  {
    hide Cached, Uncached, Cache, Trim, AddRow, Meanwhile, LookupIn, DirectLookup;
    var w := World(i => if i == 0 then map[] else map["m" := id], i => map[], i => true);
    var x, y := Row(Some(a), Some("m"), None), Row(Some(b), Some("m"), None);
    var rows := [x, y];
    assert rows[..0] == [] && rows[..1] == [x] && rows[..2] == rows;
    Unfold(w, map[], rows, 0);
    Unfold(w, map[], rows, 1);
    NothingYet(w, map[]);
    var empty := Report(map[], 0, 0, 0, []);
    Undisturbed(empty);
    PlainLookup(map["m" := None], map[], x);
    assert Cache(w, rows[..1]) == map["m" := None] by { PlainName(); }
    AddPlain(empty, a, Absent);
    var first := Report(map[Trim(a) := Charger(None, None)], 1, 0, 0, []);
    assert Cached(w, map[], rows[..1]) == first && Uncached(w, map[], rows[..1]) == first;
    Undisturbed(first);
    assert Cache(w, rows) == map["m" := None] by { PlainName(); }
    PlainLookup(map["m" := None], map["m" := id], y);
    AddPlain(first, b, Absent);
    AddPlain(first, b, Found(id));
  }

  lemma Undisturbed(r: Report)
    ensures Meanwhile(r, map[]) == r
  {
    var none: map<string, Charger> := map[];
    assert none + r.table == r.table;
  }

  lemma PlainLookup(answers: map<string, Option<int>>, manufacturers: map<string, int>, row: Row)
    requires row.channelId == Some("m") && answers == map["m" := None]
    ensures LookupIn(answers, row) == Absent
    ensures DirectLookup(manufacturers, row) == if "m" in manufacturers then Found(manufacturers["m"]) else Absent
  {
    PlainName();
    hide Trim;
  }

  lemma AddPlain(r: Report, serial: string, lookup: Lookup)
    requires Trim(serial) != "" && Trim(serial) !in r.table && !lookup.Inherited?
    ensures AddRow(r, Row(Some(serial), Some("m"), None), lookup, true)
            == r.(registered := r.registered + 1,
                  table := r.table[Trim(serial) :=
                      Charger(if lookup.Found? then Stored(Some(lookup.id)) else None, None)])
  {
    hide Trim;
  }

  lemma PlainName()
    ensures Trim("m") == "m" && "m" !in INHERITED_NAMES
  {
    assert TrimStart("m") == "m" && TrimEnd("m") == "m";
  }
}
