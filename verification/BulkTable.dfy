/** What bulk registration reports, and what it leaves in the table. */
module BulkTable {
  import opened Wrappers
  import opened Strings
  import opened BulkRegister
  import opened BulkCache

  // ----- What the report says -----

  function Blanks(rows: seq<Row>): nat {
    if rows == [] then 0 else Blanks(rows[..|rows| - 1]) + (if Serial(rows[|rows| - 1]) == "" then 1 else 0)
  }

  /** The counters of a report, as far as they have to balance. */
  datatype Tally = Tally(rows: int, grown: int, silent: int)

  function TallyOf(r: Report): Tally {
    Tally(r.registered + r.skipped, |r.table| - r.registered - r.foreign, r.skipped - |r.errors|)
  }

  lemma {:induction false} TallyBalances(w: World, table: map<string, Charger>, rows: seq<Row>)
    ensures TallyOf(Cached(w, table, rows)) == Tally(|rows|, |table|, Blanks(rows))
  {
    hide *;
    if rows == [] {
      NothingYet(w, table);
      TallyGives(Cached(w, table, []));
      NoBlanks();
    } else {
      var n := |rows| - 1;
      var head := Cached(w, table, rows[..n]);
      TallyBalances(w, table, rows[..n]);
      Unfold(w, table, rows, n);
      assert rows[..n + 1] == rows;
      MeanwhileTally(head, w.others(n));
      RowTally(Meanwhile(head, w.others(n)), rows[n], LookupIn(Cache(w, rows), rows[n]), w.stored(n));
      OneMoreBlank(rows);
    }
  }

  lemma NoBlanks()
    ensures Blanks([]) == 0
  {
  }

  lemma OneMoreBlank(rows: seq<Row>)
    requires rows != []
    ensures Blanks(rows) == Blanks(rows[..|rows| - 1]) + if Serial(rows[|rows| - 1]) == "" then 1 else 0
  {
  }

  /**
   * Every row is counted once; the table grows by the registered rows and by what others register; every
   * skipped row but the blank ones has its error.
   */
  lemma ReportBalances(w: World, table: map<string, Charger>, rows: seq<Row>)
    ensures var r := Cached(w, table, rows);
            && r.registered + r.skipped == |rows|
            && |r.table| == |table| + r.registered + r.foreign
            && |r.errors| + Blanks(rows) == r.skipped
  {
    hide *;
    TallyBalances(w, table, rows);
    TallyGives(Cached(w, table, rows));
  }

  lemma TallyGives(r: Report)
    ensures TallyOf(r) == Tally(r.registered + r.skipped, |r.table| - r.registered - r.foreign, r.skipped - |r.errors|)
  {
  }

  lemma RowTally(r: Report, row: Row, lookup: Lookup, stored: bool)
    ensures var t := TallyOf(r);
            TallyOf(AddRow(r, row, lookup, stored))
            == Tally(t.rows + 1, t.grown, t.silent + if Serial(row) == "" then 1 else 0)
  {
    hide ChargerOf, BadKwh, Serial;
  }

  lemma MeanwhileTally(r: Report, others: map<string, Charger>)
    ensures TallyOf(Meanwhile(r, others)) == TallyOf(r)
  {
    var added := others.Keys - r.table.Keys;
    assert (others + r.table).Keys == r.table.Keys + added;
  }

  /** Why a row that is not inserted is not: the first of these that applies. */
  predicate ReasonFits(table: map<string, Charger>, row: Row, reason: Reason) {
    var badKwh := row.chargingKwh.Some? && (row.chargingKwh.value.NotFinite? || row.chargingKwh.value.value < 0.0);
    if badKwh then reason == InvalidKwh
    else if Trim(row.serialNumber.GetOr("")) in table then reason == AlreadyRegistered
    else if row.channelId.Some? && row.channelId.value != "" && Trim(row.channelId.value) in INHERITED_NAMES then
      reason == InvalidManufacturer
    else reason == NotStored
  }

  /**
   * A row is inserted or skipped. A row without a serial is skipped silently, any other skipped row adds one
   * error, with its serial and the reason, which is NotStored only if the database refused the row.
   */
  ghost predicate Treated(before: Report, known: map<string, Charger>, row: Row, stored: bool, after: Report) {
    var serial := Trim(row.serialNumber.GetOr(""));
    if serial == "" then after.errors == before.errors && after.skipped == before.skipped + 1
    else if after.registered == before.registered then
      && after.skipped == before.skipped + 1
      && exists reason :: ReasonFits(known, row, reason) && (reason == NotStored ==> !stored)
                          && after.errors == before.errors + [RowError(serial, reason)]
    else
      && after.registered == before.registered + 1 && after.errors == before.errors
      && after.skipped == before.skipped && serial !in known && serial in after.table && stored
  }

  lemma RowTreated(r: Report, row: Row, answers: map<string, Option<int>>, stored: bool)
    ensures Treated(r, r.table, row, stored, AddRow(r, row, LookupIn(answers, row), stored))
  {
    hide Trim, ChargerOf;
    var refusal := Refusal(r.table, LookupIn(answers, row), row, stored);
    if refusal.Some? { assert ReasonFits(r.table, row, refusal.value); }
  }

  lemma TreatedMeanwhile(r: Report, others: map<string, Charger>, row: Row, stored: bool, after: Report)
    requires Treated(Meanwhile(r, others), Meanwhile(r, others).table, row, stored, after)
    ensures Treated(r, others + r.table, row, stored, after)
  {
    MeanwhileIs(r, others);
    hide Trim, ReasonFits, Meanwhile;
  }

  /** Every row is treated like that, with what is known when it is its turn. */
  lemma ErrorsAreExact(w: World, table: map<string, Charger>, rows: seq<Row>, i: nat)
    requires i < |rows|
    ensures var before, after := Cached(w, table, rows[..i]), Cached(w, table, rows[..i + 1]);
            Treated(before, w.others(i) + before.table, rows[i], w.stored(i), after)
  {
    hide *;
    Unfold(w, table, rows, i);
    var before, answers := Cached(w, table, rows[..i]), Cache(w, rows[..i + 1]);
    RowTreated(Meanwhile(before, w.others(i)), rows[i], answers, w.stored(i));
    TreatedMeanwhile(before, w.others(i), rows[i], w.stored(i), Cached(w, table, rows[..i + 1]));
  }

  // ----- What the table holds -----

  /** The row can be inserted: serial, charging value and channel name are acceptable, and the database takes it. */
  predicate Acceptable(row: Row, stored: bool) {
    stored && Serial(row) != "" && !BadKwh(row) && !(NamesChannel(row) && Channel(row) in INHERITED_NAMES)
  }

  /** At row i the serial is registered by another call, or by the row, if nobody has registered it before. */
  predicate Claims(w: World, rows: seq<Row>, i: nat, serial: string)
    requires i < |rows|
  {
    serial in w.others(i) || (Acceptable(rows[i], w.stored(i)) && Serial(rows[i]) == serial)
  }

  predicate FirstClaim(w: World, rows: seq<Row>, i: nat, serial: string)
    requires i < |rows|
  {
    Claims(w, rows, i, serial) && forall j: nat :: j < i ==> !Claims(w, rows, j, serial)
  }

  /** The entry stores the row's reading, and the manufacturer that its channel had when it was first asked for. */
  ghost predicate Stores(w: World, charger: Charger, rows: seq<Row>, i: nat)
    requires i < |rows|
  {
    var row := rows[i];
    && (charger.chargingKwh.Some? <==> row.chargingKwh.Some?)
    && (charger.chargingKwh.Some? ==> row.chargingKwh == Some(Finite(charger.chargingKwh.value)))
    && (if LooksUp(row)
        then exists k: nat :: k <= i && FirstLookup(rows, k, Channel(row))
                              && charger.manufacturerId == Stored(Ask(w.manufacturers(k), Channel(row)))
        else charger.manufacturerId.None?)
  }

  /** The entry of the claim at row i: the other call's, or one from that row. */
  ghost predicate EntryOf(w: World, rows: seq<Row>, i: nat, serial: string, charger: Charger)
    requires i < |rows|
  {
    if serial in w.others(i) then charger == w.others(i)[serial] else Stores(w, charger, rows, i)
  }

  lemma EntryStores(w: World, rows: seq<Row>, i: nat)
    requires i < |rows| && Acceptable(rows[i], w.stored(i))
    ensures Stores(w, ChargerOf(LookupIn(Cache(w, rows[..i + 1]), rows[i]), rows[i]), rows, i)
  {
    hide Cache, Channel, Serial, FirstLookup;
    if LooksUp(rows[i]) { var k := AnswerOf(w, rows, i); }
  }

  /** One row: who is in the table stays, and a serial comes in exactly by a claim. */
  lemma RowEffect(w: World, r: Report, rows: seq<Row>, i: nat, serial: string)
    requires i < |rows|
    ensures var lookup := LookupIn(Cache(w, rows[..i + 1]), rows[i]);
            var t := AddRow(Meanwhile(r, w.others(i)), rows[i], lookup, w.stored(i)).table;
            if serial in r.table then serial in t && t[serial] == r.table[serial]
            else
              && (serial in t <==> Claims(w, rows, i, serial))
              && (serial in t ==> EntryOf(w, rows, i, serial, t[serial]))
  {
    if Acceptable(rows[i], w.stored(i)) { EntryStores(w, rows, i); }
    hide Cache, Stores, ChargerOf, Channel, Serial;
  }

  /** The table holds the serial exactly if one of the first n rows sees a first claim, with that claim's entry. */
  ghost predicate Decided(w: World, rows: seq<Row>, n: nat, serial: string, table: map<string, Charger>)
    requires n <= |rows|
  {
    && (serial in table <==> exists i: nat :: i < n && FirstClaim(w, rows, i, serial))
    && forall i: nat :: i < n && FirstClaim(w, rows, i, serial) ==> EntryOf(w, rows, i, serial, table[serial])
  }

  lemma NoneDecided(w: World, rows: seq<Row>, serial: string, table: map<string, Charger>)
    requires serial !in table
    ensures Decided(w, rows, 0, serial, table)
  {
    hide FirstClaim;
  }

  lemma OneMoreRow(w: World, rows: seq<Row>, n: nat, serial: string, before: map<string, Charger>,
                   after: map<string, Charger>)
    requires n < |rows| && Decided(w, rows, n, serial, before)
    requires if serial in before then serial in after && after[serial] == before[serial]
             else
               && (serial in after <==> Claims(w, rows, n, serial))
               && (serial in after ==> EntryOf(w, rows, n, serial, after[serial]))
    ensures Decided(w, rows, n + 1, serial, after)
  {
    LastClaim(w, rows, n, serial);
    hide Claims, FirstClaim, EntryOf;
    if i: nat :| i < n && FirstClaim(w, rows, i, serial) {
      assert serial in before && !FirstClaim(w, rows, n, serial);
    } else {
      assert serial !in before;
    }
  }

  /**
   * Registered serials keep their entry. A new serial comes in exactly if another call or an acceptable
   * row claims it, and the first claim decides its entry.
   */
  lemma {:induction false} TableIsExact(w: World, table: map<string, Charger>, rows: seq<Row>, n: nat, serial: string)
    requires n <= |rows|
    ensures var t := Cached(w, table, rows[..n]).table;
            if serial in table then serial in t && t[serial] == table[serial] else Decided(w, rows, n, serial, t)
  {
    hide Cached, Uncached, Cache, Meanwhile, AddRow, LookupIn, DirectLookup, Claims, EntryOf, Remember, Decided;
    if n == 0 {
      assert rows[..0] == [];
      NothingYet(w, table);
      if serial !in table { NoneDecided(w, rows, serial, table); }
    } else {
      TableIsExact(w, table, rows, n - 1, serial);
      Unfold(w, table, rows, n - 1);
      var before, after := Cached(w, table, rows[..n - 1]), Cached(w, table, rows[..n]);
      RowEffect(w, before, rows, n - 1, serial);
      if serial !in table { OneMoreRow(w, rows, n - 1, serial, before.table, after.table); }
    }
  }

  /** The row makes the first claim exactly if it claims the serial and no earlier row makes the first claim. */
  lemma LastClaim(w: World, rows: seq<Row>, n: nat, serial: string)
    requires n < |rows|
    ensures FirstClaim(w, rows, n, serial)
            <==> Claims(w, rows, n, serial) && forall i: nat :: i < n ==> !FirstClaim(w, rows, i, serial)
  {
    hide Claims;
    if forall i: nat :: i < n ==> !FirstClaim(w, rows, i, serial) { NoClaim(w, rows, n, serial); }
  }

  lemma {:induction false} NoClaim(w: World, rows: seq<Row>, n: nat, serial: string)
    requires n <= |rows| && forall i: nat :: i < n ==> !FirstClaim(w, rows, i, serial)
    ensures forall j: nat :: j < n ==> !Claims(w, rows, j, serial)
  {
    if n > 0 {
      NoClaim(w, rows, n - 1, serial);
      assert !FirstClaim(w, rows, n - 1, serial);
    }
  }

  /** A manufacturer whose channel is named like an inherited property cannot have chargers registered in bulk. */
  lemma InheritedNameRejected(w: World, serial: string)
    requires Trim(serial) != "" && w.others(0) == map[]
    ensures Cached(w, map[], [Row(Some(serial), Some("constructor"), None)])
            == Report(map[], 0, 1, 0, [RowError(Trim(serial), InvalidManufacturer)])
  {
    var rows := [Row(Some(serial), Some("constructor"), None)];
    assert rows[..0] == [] && rows[..1] == rows;
    assert Trim("constructor") == "constructor" by { assert TrimStart("constructor") == "constructor"; }
    NothingYet(w, map[]);
    Unfold(w, map[], rows, 0);
    var none: map<string, Charger> := map[];
    assert none + none == none;
    hide Cached, Uncached, Cache, Trim, Remember;
  }
}
