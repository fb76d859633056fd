/**
 * Bulk registration: a loop with counters, an error list and a cache of manufacturer lookups. Every row
 * awaits the database, so between two rows manufacturers can be created and other calls can register
 * chargers. The loop is compared with the one that looks every row's manufacturer up directly.
 */
module BulkRegister {
  import opened Wrappers
  import opened Strings

  datatype Kwh = Finite(value: real) | NotFinite

  datatype Row = Row(serialNumber: Option<string>, channelId: Option<string>, chargingKwh: Option<Kwh>)

  datatype Charger = Charger(manufacturerId: Option<int>, chargingKwh: Option<real>)

  /** NotStored is whatever the database has against the new row, such as a serial that is too long. */
  datatype Reason = InvalidKwh | AlreadyRegistered | InvalidManufacturer | NotStored

  datatype RowError = RowError(serialNumber: string, reason: Reason)

  /**
   * The table after the rows so far, the counters and the error list. foreign counts the chargers that others
   * registered.
   */
  datatype Report = Report(table: map<string, Charger>, registered: nat, skipped: nat, foreign: nat,
                           errors: seq<RowError>)

  /**
   * A manufacturer id as the loop gets it: none, a number, or the non-number that an object used as a
   * cache yields for a name it inherits.
   */
  datatype Lookup = Absent | Found(id: int) | Inherited

  /**
   * What the loop finds at row i: the manufacturers by channel at its lookup, the chargers that others
   * have registered since the row before, and whether the database takes its insert.
   */
  datatype World = World(manufacturers: nat -> map<string, int>, others: nat -> map<string, Charger>,
                         stored: nat -> bool)

  /** The property names that every plain object has without being given them. */
  const INHERITED_NAMES: set<string> :=
    {"constructor", "__defineGetter__", "__defineSetter__", "hasOwnProperty", "__lookupGetter__", "__lookupSetter__",
     "isPrototypeOf", "propertyIsEnumerable", "toString", "valueOf", "__proto__", "toLocaleString"}

  // ----- One row -----

  function Serial(row: Row): string {
    Trim(row.serialNumber.GetOr(""))
  }

  predicate NamesChannel(row: Row) {
    row.channelId.Some? && row.channelId.value != ""
  }

  function Channel(row: Row): string {
    Trim(row.channelId.GetOr(""))
  }

  /** The row asks for its manufacturer; names every object inherits never reach the table. */
  predicate LooksUp(row: Row) {
    Serial(row) != "" && NamesChannel(row) && Channel(row) !in INHERITED_NAMES
  }

  predicate BadKwh(row: Row) {
    row.chargingKwh.Some? && (row.chargingKwh.value.NotFinite? || row.chargingKwh.value.value < 0.0)
  }

  function Ask(manufacturers: map<string, int>, channel: string): Option<int> {
    if channel in manufacturers then Some(manufacturers[channel]) else None
  }

  /** What the answers to the lookups so far make of the row's channel. */
  function LookupIn(answers: map<string, Option<int>>, row: Row): Lookup {
    if !NamesChannel(row) then Absent
    else if Channel(row) in INHERITED_NAMES then Inherited
    else if Channel(row) in answers && answers[Channel(row)].Some? then Found(answers[Channel(row)].value)
    else Absent
  }

  /** The row's manufacturer as the table has it now. */
  function DirectLookup(manufacturers: map<string, int>, row: Row): Lookup {
    LookupIn(map[Channel(row) := Ask(manufacturers, Channel(row))], row)
  }

  /** A zero manufacturer id is not stored. */
  function Stored(id: Option<int>): Option<int> {
    if id == Some(0) then None else id
  }

  function ChargerOf(lookup: Lookup, row: Row): Charger {
    Charger(if lookup.Found? then Stored(Some(lookup.id)) else None,
            if row.chargingKwh.Some? && row.chargingKwh.value.Finite? then Some(row.chargingKwh.value.value) else None)
  }

  /** Why a row with a serial number is not inserted. */
  function Refusal(table: map<string, Charger>, lookup: Lookup, row: Row, stored: bool): Option<Reason> {
    if BadKwh(row) then Some(InvalidKwh)
    else if Serial(row) in table then Some(AlreadyRegistered)
    else if lookup.Inherited? then Some(InvalidManufacturer)
    else if !stored then Some(NotStored)
    else None
  }

  /** Other calls have registered chargers; a registered serial keeps its entry. */
  function Meanwhile(r: Report, others: map<string, Charger>): Report {
    r.(table := others + r.table, foreign := r.foreign + |others.Keys - r.table.Keys|)
  }

  function AddRow(r: Report, row: Row, lookup: Lookup, stored: bool): Report {
    if Serial(row) == "" then r.(skipped := r.skipped + 1)
    else
      match Refusal(r.table, lookup, row, stored)
      case Some(reason) => r.(skipped := r.skipped + 1, errors := r.errors + [RowError(Serial(row), reason)])
      case None => r.(registered := r.registered + 1, table := r.table[Serial(row) := ChargerOf(lookup, row)])
  }

  // ----- The loop, with its cache and without -----

  function Remember(cache: map<string, Option<int>>, manufacturers: map<string, int>, row: Row)
    : map<string, Option<int>>
  {
    if LooksUp(row) && Channel(row) !in cache then cache[Channel(row) := Ask(manufacturers, Channel(row))] else cache
  }

  /** The cache after these rows. */
  function Cache(w: World, rows: seq<Row>): map<string, Option<int>> {
    if rows == [] then map[]
    else Remember(Cache(w, rows[..|rows| - 1]), w.manufacturers(|rows| - 1), rows[|rows| - 1])
  }

  function Cached(w: World, table: map<string, Charger>, rows: seq<Row>): Report {
    if rows == [] then Report(table, 0, 0, 0, [])
    else
      var n := |rows| - 1;
      AddRow(Meanwhile(Cached(w, table, rows[..n]), w.others(n)), rows[n], LookupIn(Cache(w, rows), rows[n]),
             w.stored(n))
  }

  function Uncached(w: World, table: map<string, Charger>, rows: seq<Row>): Report {
    if rows == [] then Report(table, 0, 0, 0, [])
    else
      var n := |rows| - 1;
      AddRow(Meanwhile(Uncached(w, table, rows[..n]), w.others(n)), rows[n], DirectLookup(w.manufacturers(n), rows[n]),
             w.stored(n))
  }

  lemma NothingYet(w: World, table: map<string, Charger>)
    ensures Cache(w, []) == map[] && Cached(w, table, []) == Uncached(w, table, []) == Report(table, 0, 0, 0, [])
  {
  }

  /** The loops row by row. */
  lemma Unfold(w: World, table: map<string, Charger>, rows: seq<Row>, i: nat)
    requires i < |rows|
    ensures Cache(w, rows[..i + 1]) == Remember(Cache(w, rows[..i]), w.manufacturers(i), rows[i])
    ensures Cached(w, table, rows[..i + 1])
            == AddRow(Meanwhile(Cached(w, table, rows[..i]), w.others(i)), rows[i],
                      LookupIn(Cache(w, rows[..i + 1]), rows[i]), w.stored(i))
    ensures Uncached(w, table, rows[..i + 1])
            == AddRow(Meanwhile(Uncached(w, table, rows[..i]), w.others(i)), rows[i],
                      DirectLookup(w.manufacturers(i), rows[i]), w.stored(i))
  {
    assert rows[..i + 1][..i] == rows[..i];
    hide AddRow, Meanwhile, LookupIn, DirectLookup, Remember;
  }

  lemma BlankAsksNothing(cache: map<string, Option<int>>, manufacturers: map<string, int>, row: Row)
    ensures Serial(row) == "" ==> Remember(cache, manufacturers, row) == cache
  {
  }

  lemma MeanwhileIs(r: Report, others: map<string, Charger>)
    ensures Meanwhile(r, others) == r.(table := others + r.table, foreign := r.foreign + |others.Keys - r.table.Keys|)
  {
  }

  class ProvisioningTable {
    var table: map<string, Charger>

    /** Registrations of other calls. */
    method TakeOthers(others: map<string, Charger>) returns (count: nat)
      modifies this
      ensures table == others + old(table) && count == |others.Keys - old(table).Keys|
    {
      count := |others.Keys - table.Keys|;
      table := others + table;
    }

    /** register, without a client id. */
    method RegisterSerial(serial: string, lookup: Lookup, chargingKwh: Option<real>, stored: bool)
      returns (failure: Option<Reason>)
      modifies this
      ensures failure == if serial in old(table) then Some(AlreadyRegistered)
                         else if lookup.Inherited? then Some(InvalidManufacturer)
                         else if !stored then Some(NotStored) else None
      ensures var id := if lookup.Found? then Stored(Some(lookup.id)) else None;
              table == if failure.Some? then old(table) else old(table)[serial := Charger(id, chargingKwh)]
    {
      if serial in table { return Some(AlreadyRegistered); }
      if lookup.Inherited? { return Some(InvalidManufacturer); }
      if !stored { return Some(NotStored); }
      var manufacturerId := if lookup.Found? && lookup.id != 0 then Some(lookup.id) else None;
      table := table[serial := Charger(manufacturerId, chargingKwh)];
      return None;
    }

    /** The lookup of one row through the cache. */
    method LookUp(manufacturers: map<string, int>, cache: map<string, Option<int>>, row: Row)
      returns (lookup: Lookup, cache': map<string, Option<int>>)
      requires Serial(row) != ""
      ensures cache' == Remember(cache, manufacturers, row) && lookup == LookupIn(cache', row)
    {
      cache' := cache;
      if row.channelId.None? || row.channelId.value == "" { return Absent, cache'; }
      var ch := Trim(row.channelId.value);
      if ch in INHERITED_NAMES { return Inherited, cache'; }
      if ch !in cache' {
        cache' := cache'[ch := if ch in manufacturers then Some(manufacturers[ch]) else None];
      }
      return if cache'[ch].Some? then Found(cache'[ch].value) else Absent, cache';
    }

    /** What the loop does with a row that has a serial number, once its lookup is answered. */
    method TryRow(row: Row, lookup: Lookup, stored: bool) returns (failure: Option<Reason>)
      modifies this
      ensures failure == Refusal(old(table), lookup, row, stored)
      ensures table == if failure.Some? then old(table) else old(table)[Serial(row) := ChargerOf(lookup, row)]
    {
      if row.chargingKwh.Some? && (row.chargingKwh.value.NotFinite? || row.chargingKwh.value.value < 0.0) {
        return Some(InvalidKwh);
      }
      var chargingKwh := if row.chargingKwh.Some? then Some(row.chargingKwh.value.value) else None;
      failure := RegisterSerial(Trim(row.serialNumber.GetOr("")), lookup, chargingKwh, stored);
    }

    /** The loop, whatever the world does between its rows. */
    method BulkRegister(w: World, rows: seq<Row>)
      returns (total: nat, registered: nat, skipped: nat, errors: seq<RowError>, ghost foreign: nat)
      modifies this
      ensures total == |rows|
      ensures Report(table, registered, skipped, foreign, errors) == Cached(w, old(table), rows)
    {
      hide Cached, Uncached, Cache, Remember, LookupIn, Refusal, ChargerOf, Trim, Meanwhile, LooksUp;
      registered, skipped, foreign, errors := 0, 0, 0, [];
      assert rows[..0] == [];
      NothingYet(w, table);
      var channelCache: map<string, Option<int>> := map[];
      var i := 0;
      while i < |rows|
        invariant 0 <= i <= |rows|
        invariant channelCache == Cache(w, rows[..i])
        invariant Report(table, registered, skipped, foreign, errors) == Cached(w, old(table), rows[..i])
      {
        var row := rows[i];
        Unfold(w, old(table), rows, i);
        BlankAsksNothing(channelCache, w.manufacturers(i), row);
        var count := TakeOthers(w.others(i));
        foreign := foreign + count;
        MeanwhileIs(Cached(w, old(table), rows[..i]), w.others(i));
        i := i + 1;
        var sn := Trim(row.serialNumber.GetOr(""));
        if sn == "" {
          skipped := skipped + 1;
          continue;
        }
        var lookup;
        lookup, channelCache := LookUp(w.manufacturers(i - 1), channelCache, row);
        var failure := TryRow(row, lookup, w.stored(i - 1));
        if failure.None? {
          registered := registered + 1;
        } else {
          errors := errors + [RowError(sn, failure.value)];
          skipped := skipped + 1;
        }
      }
      assert rows[..|rows|] == rows;
      return |rows|, registered, skipped, errors, foreign;
    }
  }
}
