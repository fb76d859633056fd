/** Registration, provisioning and revocation of chargers, and the deletion of stations. */
module Provisioning {
  import opened Wrappers
  import opened Events
  import opened StationIds

  datatype Status = Registered | Provisioned | Rejected | Revoked

  datatype Record = Record(manufacturerId: Option<int>, status: Status, stationId: Option<StationId>,
                           clientId: Option<StationId>)

  /** A provisioning call in flight: the record it read, and the id it will commit once it has one. */
  datatype Request = Request(serial: string, chosen: Option<StationId>)

  /**
   * stations maps a station to its password hash, absent until provisioned. sequence is the counter
   * row, absent before the first use. used and issued list the calls made and the numbers drawn.
   */
  datatype State = State(records: map<string, Record>, stations: map<StationId, Option<string>>, sequence: Option<nat>,
                         requests: map<nat, Request>, used: set<nat>, issued: seq<nat>)

  const Init := State(map[], map[], None, map[], {}, [])

  datatype Refusal = NotFound | Forbidden | Conflict | Failed

  datatype Reply = Refused(why: Refusal) | Granted(stationId: StationId)

  /** A provisioning call is a Read, a Draw if it knows no id yet, and a Commit; anything can happen between them. */
  datatype Step =
    | Register(serial: string, clientId: Option<StationId>, manufacturerId: Option<int>)
    | Read(request: nat, serial: string, manufacturerId: Option<int>)
    | Draw(request: nat)
    | Commit(request: nat, hash: string, ok: bool)
    | Revoke(serial: string)
    | Reject(serial: string)
    | DeleteRecord(serial: string)
    | DeleteStation(stationId: StationId)
    | Crash

  // ----- generateStationId -----

  function NextNumber(sequence: Option<nat>): nat {
    match sequence
    case None => FIRST_NUMBER
    case Some(n) => n + 1
  }

  // ----- register -----

  function DoRegister(s: State, serial: string, clientId: Option<StationId>, manufacturerId: Option<int>)
    : (State, Option<Refusal>)
  {
    if serial in s.records then (s, Some(Conflict))
    else if clientId.Some? && clientId.value != "" then
      var id := clientId.value;
      if id in s.stations || Owned(s.records, id) then (s, Some(Conflict))
      else (s.(stations := s.stations[id := None],
               records := s.records[serial := Record(manufacturerId, Registered, Some(id), Some(id))]), None)
    else (s.(records := s.records[serial := Record(manufacturerId, Registered, None, None)]), None)
  }

  /** The unique key on a record's stationId or clientId is taken. */
  predicate Owned(records: map<string, Record>, id: StationId) {
    exists serial :: serial in records
                     && (records[serial].stationId == Some(id) || records[serial].clientId == Some(id))
  }

  // ----- provision -----

  function Refuses(s: State, serial: string, manufacturerId: Option<int>): Option<Refusal> {
    if serial !in s.records then Some(NotFound)
    else if manufacturerId.Some? && s.records[serial].manufacturerId != manufacturerId then Some(NotFound)
    else if s.records[serial].status == Rejected || s.records[serial].status == Revoked then Some(Forbidden)
    else None
  }

  /** The id that a record gives: its own, else the one reserved for it. */
  function KnownId(record: Record): Option<StationId> {
    if record.stationId.Some? then record.stationId else record.clientId
  }

  function DoRead(s: State, r: nat, serial: string, manufacturerId: Option<int>): (State, Option<Refusal>) {
    if r in s.used then (s, None)
    else
      var refusal := Refuses(s, serial, manufacturerId);
      var seen := s.(used := s.used + {r});
      if refusal.Some? then (seen, refusal)
      else (seen.(requests := s.requests[r := Request(serial, KnownId(s.records[serial]))]), None)
  }

  /** Without a known id a number is drawn, and stays drawn whatever happens next. */
  function DoDraw(s: State, r: nat): State {
    if r in s.requests && s.requests[r].chosen.None? then
      var number := NextNumber(s.sequence);
      s.(sequence := Some(number), issued := s.issued + [number],
         requests := s.requests[r := s.requests[r].(chosen := Some(StationIdOf(number)))])
    else s
  }

  /** Another record holds the id, so that the unique key makes the transaction fail. */
  predicate HeldElsewhere(records: map<string, Record>, serial: string, id: StationId) {
    exists other :: other in records && other != serial && records[other].stationId == Some(id)
  }

  /** Station and record are written by key; what the record holds by now is not looked at. */
  function DoCommit(s: State, r: nat, hash: string, ok: bool): (State, Reply) {
    if r !in s.requests || s.requests[r].chosen.None? then (s, Refused(Failed))
    else
      var serial, id := s.requests[r].serial, s.requests[r].chosen.value;
      var done := s.(requests := s.requests - {r});
      if !ok || serial !in s.records || HeldElsewhere(s.records, serial, id) then (done, Refused(Failed))
      else (done.(stations := s.stations[id := Some(hash)],
                  records := s.records[serial := s.records[serial].(stationId := Some(id), status := Provisioned)]),
            Granted(id))
  }

  function SetStatus(s: State, serial: string, status: Status): State {
    if serial in s.records then s.(records := s.records[serial := s.records[serial].(status := status)]) else s
  }

  /** Deleting a station unlinks its provisioning record but keeps it. */
  function DoDeleteStation(s: State, id: StationId): State {
    if id !in s.stations then s
    else
      s.(stations := s.stations - {id},
         records := map serial | serial in s.records ::
                      if s.records[serial].stationId == Some(id) then s.records[serial].(stationId := None)
                      else s.records[serial])
  }

  function Next(s: State, step: Step): State {
    match step
    case Register(serial, clientId, manufacturerId) => DoRegister(s, serial, clientId, manufacturerId).0
    case Read(r, serial, manufacturerId) => DoRead(s, r, serial, manufacturerId).0
    case Draw(r) => DoDraw(s, r)
    case Commit(r, hash, ok) => DoCommit(s, r, hash, ok).0
    case Revoke(serial) => SetStatus(s, serial, Revoked)
    case Reject(serial) => SetStatus(s, serial, Rejected)
    case DeleteRecord(serial) => s.(records := s.records - {serial})
    case DeleteStation(id) => DoDeleteStation(s, id)
    case Crash => s.(requests := map[])
  }

  function Run(s: State, steps: seq<Step>): State
    decreases |steps|
  {
    if steps == [] then s else Run(Next(s, steps[0]), steps[1..])
  }

  lemma {:induction false} RunConcat(s: State, a: seq<Step>, b: seq<Step>)
    ensures Run(s, a + b) == Run(Run(s, a), b)
    decreases |a|
  {
    if a == [] {
      assert a + b == b;
    } else {
      assert (a + b)[1..] == a[1..] + b;
      RunConcat(Next(s, a[0]), a[1..], b);
    }
  }

  // ----- The invariant -----

  ghost predicate UniqueStations(records: map<string, Record>) {
    forall a, b :: a in records && b in records && a != b && records[a].stationId.Some? ==>
                     records[a].stationId != records[b].stationId
  }

  lemma LinkKeepsUnique(records: map<string, Record>, serial: string, record: Record)
    requires UniqueStations(records)
    requires record.stationId.Some? ==> !HeldElsewhere(records, serial, record.stationId.value)
    ensures UniqueStations(records[serial := record])
  {
    var after := records[serial := record];
    forall a, b | a in after && b in after && a != b && after[a].stationId.Some?
      ensures after[a].stationId != after[b].stationId
    {
      if a == serial {
        assert b in records && records[b].stationId != Some(record.stationId.value);
      } else if b == serial {
        assert a in records;
      }
    }
  }

  lemma UnlinkKeepsUnique(records: map<string, Record>, after: map<string, Record>)
    requires UniqueStations(records) && after.Keys <= records.Keys
    requires forall a :: a in after && after[a].stationId.Some? ==> after[a].stationId == records[a].stationId
    ensures UniqueStations(after)
  {
    forall a, b | a in after && b in after && a != b && after[a].stationId.Some?
      ensures after[a].stationId != after[b].stationId
    {
      assert a in records && b in records && records[a].stationId != records[b].stationId;
    }
  }

  lemma OwnerIsUnique(records: map<string, Record>, serial: string, id: StationId)
    requires UniqueStations(records) && serial in records && records[serial].stationId == Some(id)
    ensures !HeldElsewhere(records, serial, id)
  {
    forall other | other in records && other != serial ensures records[other].stationId != Some(id) {
      assert records[serial].stationId != records[other].stationId;
    }
  }

  /** Numbers are drawn in increasing order, up to the counter. */
  ghost predicate Numbered(issued: seq<nat>, sequence: Option<nat>) {
    && (forall i, j :: 0 <= i < j < |issued| ==> issued[i] < issued[j])
    && (forall n :: n in issued ==> sequence.Some? && FIRST_NUMBER <= n <= sequence.value)
    && (sequence.Some? ==> sequence.value >= FIRST_NUMBER)
  }

  lemma DrawKeepsNumbered(issued: seq<nat>, sequence: Option<nat>)
    requires Numbered(issued, sequence)
    ensures Numbered(issued + [NextNumber(sequence)], Some(NextNumber(sequence)))
    ensures NextNumber(sequence) !in issued
  {
    forall i | 0 <= i < |issued| ensures issued[i] < NextNumber(sequence) {
      assert issued[i] in issued;
    }
  }

  ghost predicate Inv(s: State) {
    && Numbered(s.issued, s.sequence)
    // a station belongs to one record, and a provisioned record's station exists with a password
    && UniqueStations(s.records)
    && (forall a :: a in s.records ==> Backed(s.records[a], s.stations))
  }

  predicate Backed(record: Record, stations: map<StationId, Option<string>>) {
    record.stationId.Some? ==>
      record.stationId.value in stations && (record.status == Provisioned ==> stations[record.stationId.value].Some?)
  }

  lemma RegisterKeeps(s: State, serial: string, clientId: Option<StationId>, manufacturerId: Option<int>)
    requires Inv(s)
    ensures Inv(DoRegister(s, serial, clientId, manufacturerId).0)
  {
    if clientId.Some? && !Owned(s.records, clientId.value) {
      LinkKeepsUnique(s.records, serial, Record(manufacturerId, Registered, clientId, clientId));
    }
    LinkKeepsUnique(s.records, serial, Record(manufacturerId, Registered, None, None));
    hide Owned, UniqueStations, Numbered;
  }

  lemma DrawKeeps(s: State, r: nat)
    requires Inv(s)
    ensures Inv(DoDraw(s, r))
  {
    DrawKeepsNumbered(s.issued, s.sequence);
    hide UniqueStations, StationIdOf, Numbered;
  }

  lemma CommitKeeps(s: State, r: nat, hash: string, ok: bool)
    requires Inv(s)
    ensures Inv(DoCommit(s, r, hash, ok).0)
  {
    if r in s.requests && s.requests[r].chosen.Some? && s.requests[r].serial in s.records {
      var serial, id := s.requests[r].serial, s.requests[r].chosen.value;
      if !HeldElsewhere(s.records, serial, id) {
        LinkKeepsUnique(s.records, serial, s.records[serial].(stationId := Some(id), status := Provisioned));
      }
    }
    hide UniqueStations, HeldElsewhere, Numbered;
  }

  lemma DeleteStationKeeps(s: State, id: StationId)
    requires Inv(s)
    ensures Inv(DoDeleteStation(s, id))
  {
    UnlinkKeepsUnique(s.records, DoDeleteStation(s, id).records);
    hide UniqueStations, Numbered;
  }

  lemma DeleteRecordKeeps(s: State, serial: string)
    requires Inv(s)
    ensures Inv(s.(records := s.records - {serial}))
  {
    UnlinkKeepsUnique(s.records, s.records - {serial});
    hide UniqueStations, Numbered;
  }

  lemma SetStatusKeeps(s: State, serial: string, status: Status)
    requires Inv(s) && status != Provisioned
    ensures Inv(SetStatus(s, serial, status))
  {
    UnlinkKeepsUnique(s.records, SetStatus(s, serial, status).records);
    hide UniqueStations, Numbered;
  }

  lemma NextKeeps(s: State, step: Step)
    requires Inv(s)
    ensures Inv(Next(s, step))
  {
    hide DoRegister, DoDraw, DoCommit, DoDeleteStation, SetStatus;
    match step
    case Register(serial, clientId, manufacturerId) => RegisterKeeps(s, serial, clientId, manufacturerId);
    case Read(r, serial, manufacturerId) =>
    case Draw(r) => DrawKeeps(s, r);
    case Commit(r, hash, ok) => CommitKeeps(s, r, hash, ok);
    case Revoke(serial) => SetStatusKeeps(s, serial, Revoked);
    case Reject(serial) => SetStatusKeeps(s, serial, Rejected);
    case DeleteRecord(serial) => DeleteRecordKeeps(s, serial);
    case DeleteStation(id) => DeleteStationKeeps(s, id);
    case Crash =>
  }

  lemma {:induction false} RunKeeps(s: State, steps: seq<Step>)
    requires Inv(s)
    ensures Inv(Run(s, steps))
    decreases |steps|
  {
    if steps != [] {
      NextKeeps(s, steps[0]);
      RunKeeps(Next(s, steps[0]), steps[1..]);
    }
  }

  // ----- Theorems about every run -----

  /** No generated id is ever issued twice. */
  lemma IssuedIdsDistinct(steps: seq<Step>, i: nat, j: nat)
    requires i < j < |Run(Init, steps).issued|
    ensures StationIdOf(Run(Init, steps).issued[i]) != StationIdOf(Run(Init, steps).issued[j])
  {
    RunKeeps(Init, steps);
    StationIdRoundTrip(Run(Init, steps).issued[i]);
    StationIdRoundTrip(Run(Init, steps).issued[j]);
  }

  predicate Unlinks(step: Step, serial: string, id: StationId) {
    (step.DeleteRecord? && step.serial == serial) || (step.DeleteStation? && step.stationId == id)
  }

  /** A provisioning call of the record is in flight that holds another id, or will draw one. */
  ghost predicate Stale(s: State, serial: string, id: StationId) {
    exists r :: r in s.requests && s.requests[r].serial == serial && s.requests[r].chosen != Some(id)
  }

  ghost predicate Linked(s: State, serial: string, id: StationId) {
    serial in s.records && s.records[serial].stationId == Some(id)
  }

  lemma LinkStep(s: State, step: Step, serial: string, id: StationId)
    requires Linked(s, serial, id) && !Stale(s, serial, id) && !Unlinks(step, serial, id)
    ensures Linked(Next(s, step), serial, id) && !Stale(Next(s, step), serial, id)
  {
    var s' := Next(s, step);
    forall r | r in s'.requests && s'.requests[r].serial == serial ensures s'.requests[r].chosen == Some(id) {
      assert r in s.requests && s.requests[r].serial == serial ==> s.requests[r].chosen == Some(id);
    }
  }

  lemma {:induction false} LinkStays(s: State, steps: seq<Step>, serial: string, id: StationId)
    requires Linked(s, serial, id) && !Stale(s, serial, id)
    requires forall step :: step in steps ==> !Unlinks(step, serial, id)
    ensures Linked(Run(s, steps), serial, id) && !Stale(Run(s, steps), serial, id)
    decreases |steps|
  {
    if steps != [] {
      LinkStep(s, steps[0], serial, id);
      LinkStays(Next(s, steps[0]), steps[1..], serial, id);
    }
  }

  /**
   * With no other provisioning of the record in flight, its station id is what every later
   * provisioning returns until the record or that station is deleted; a provisioning then fails only
   * with its transaction, and rotates that station's password and nothing else's.
   */
  lemma StationIdStable(before: seq<Step>, serial: string, id: StationId, after: seq<Step>, r: nat, hash: string,
                        ok: bool)
    requires var s := Run(Init, before); Linked(s, serial, id) && !Stale(s, serial, id)
    requires forall step :: step in after ==> !Unlinks(step, serial, id)
    requires var s := Run(Run(Init, before), after); r in s.requests && s.requests[r].serial == serial
    ensures var s := Run(Run(Init, before), after);
            var (s', reply) := DoCommit(s, r, hash, ok);
            && Linked(s', serial, id)
            && reply == (if ok then Granted(id) else Refused(Failed))
            && s'.stations == if ok then s.stations[id := Some(hash)] else s.stations
  {
    LinkStays(Run(Init, before), after, serial, id);
    RunKeeps(Init, before);
    RunKeeps(Run(Init, before), after);
    var s := Run(Run(Init, before), after);
    OwnerIsUnique(s.records, serial, id);
    hide UniqueStations, HeldElsewhere, Run, StationIdOf, Numbered;
  }

  /** A provisioning that commits while no other one of its record is in flight settles the id. */
  lemma SoleProvisioningSettles(s: State, r: nat, hash: string, ok: bool)
    requires r in s.requests
    requires forall q :: q in s.requests && q != r ==> s.requests[q].serial != s.requests[r].serial
    ensures var (s', reply) := DoCommit(s, r, hash, ok);
            reply.Granted? ==> Linked(s', s.requests[r].serial, reply.stationId)
                               && !Stale(s', s.requests[r].serial, reply.stationId)
  {
  }

  // ----- The condition is exact -----

  /** The id that a provisioning in flight would commit if it went on now. */
  function Target(s: State, r: nat): StationId
    requires r in s.requests
  {
    s.requests[r].chosen.GetOr(StationIdOf(NextNumber(s.sequence)))
  }

  predicate Keeps(step: Step, serial: string) {
    !step.DeleteStation? && !step.Reject? && (step.DeleteRecord? ==> step.serial != serial)
  }

  /** At most one record stands in the way of an id, and it can be deleted. */
  lemma ClearWay(s: State, serial: string, id: StationId) returns (steps: seq<Step>)
    requires Inv(s) && serial in s.records
    ensures forall step :: step in steps ==> Keeps(step, serial)
    ensures var s' := Run(s, steps);
            && s' == s.(records := s'.records) && !HeldElsewhere(s'.records, serial, id)
            && serial in s'.records && s'.records[serial] == s.records[serial]
  {
    steps := [];
    if HeldElsewhere(s.records, serial, id) {
      var other :| other in s.records && other != serial && s.records[other].stationId == Some(id);
      OwnerIsUnique(s.records, other, id);
      steps := [DeleteRecord(other)];
      assert Run(s, steps) == Next(s, steps[0]);
    }
  }

  /** Any provisioning in flight can still overwrite its record. */
  lemma CanCommit(s: State, r: nat) returns (steps: seq<Step>)
    requires Inv(s) && r in s.requests && s.requests[r].serial in s.records
    ensures forall step :: step in steps ==> Keeps(step, s.requests[r].serial)
    ensures Linked(Run(s, steps), s.requests[r].serial, Target(s, r))
    ensures Run(s, steps).records[s.requests[r].serial].status == Provisioned
  {
    var serial := s.requests[r].serial;
    var way := ClearWay(s, serial, Target(s, r));
    var s1 := Run(s, way);
    var rest := [Draw(r), Commit(r, "", true)];
    assert rest[1..] == [Commit(r, "", true)];
    var s2 := Next(s1, Draw(r));
    assert s2.requests[r] == Request(serial, Some(Target(s, r))) && s2.records == s1.records;
    assert Run(s2, [Commit(r, "", true)]) == Next(s2, Commit(r, "", true));
    RunConcat(s, way, rest);
    steps := way + rest;
    hide HeldElsewhere;
  }

  lemma FreshSerial(serials: set<string>) returns (unused: string)
    ensures unused !in serials
  {
    unused := "";
    var rest := serials;
    while rest != {}
      invariant forall serial :: serial in serials ==> serial in rest || |serial| < |unused|
    {
      var serial :| serial in rest;
      rest := rest - {serial};
      if |serial| >= |unused| { unused := serial + "0"; }
    }
  }

  lemma FreshRequest(used: set<nat>) returns (unused: nat)
    ensures unused !in used
  {
    unused := 0;
    var rest := used;
    while rest != {}
      invariant forall r :: r in used ==> r in rest || r < unused
    {
      var r :| r in rest;
      rest := rest - {r};
      if r >= unused { unused := r + 1; }
    }
  }

  /** A new charger can be registered and draw the next number first. */
  lemma Overtake(s: State, r: nat, id: StationId) returns (steps: seq<Step>)
    requires Inv(s) && r in s.requests && r in s.used && s.requests[r].chosen.None?
    requires s.requests[r].serial in s.records && Target(s, r) == id
    ensures forall step :: step in steps ==> Keeps(step, s.requests[r].serial)
    ensures var s' := Run(s, steps);
            && r in s'.requests && s'.requests[r] == s.requests[r] && Target(s', r) != id
            && s.requests[r].serial in s'.records && Inv(s')
  {
    hide StationIdOf, FromDecimal;
    var serial := FreshSerial(s.records.Keys);
    var q := FreshRequest(s.used);
    var a, b, c := Register(serial, None, None), Read(q, serial, None), Draw(q);
    steps := [a, b, c];
    RunKeeps(s, steps);
    StationIdRoundTrip(NextNumber(s.sequence));
    StationIdRoundTrip(NextNumber(s.sequence) + 1);
    hide Inv;
    assert steps[1..] == [b, c] && [b, c][1..] == [c];
    var s1 := Next(s, a);
    assert s1 == s.(records := s.records[serial := Record(None, Registered, None, None)]);
    var s2 := Next(s1, b);
    assert s2 == s1.(requests := s.requests[q := Request(serial, None)], used := s.used + {q});
    assert Run(s2, [c]) == Next(s2, c);
    assert Run(s1, [b, c]) == Next(s2, c);
  }

  /**
   * The station id of a record is permanent, short of deletions, if and only if no provisioning of the
   * record is in flight with another id or with none.
   */
  lemma IdIsPermanentIff(before: seq<Step>, serial: string, id: StationId)
    requires Linked(Run(Init, before), serial, id)
    ensures var s := Run(Init, before);
            !Stale(s, serial, id)
            <==> forall after :: (forall step :: step in after ==> !Unlinks(step, serial, id)) ==>
                                   Linked(Run(s, after), serial, id)
  {
    var s := Run(Init, before);
    if Stale(s, serial, id) {
      RunKeeps(Init, before);
      RequestsUsed(Init, before);
      var r :| r in s.requests && s.requests[r].serial == serial && s.requests[r].chosen != Some(id);
      var first := [];
      if Target(s, r) == id { first := Overtake(s, r, id); }
      var rest := CanCommit(Run(s, first), r);
      RunConcat(s, first, rest);
      var after := first + rest;
      assert !Linked(Run(s, after), serial, id);
      assert forall step :: step in after ==> !Unlinks(step, serial, id);
    } else {
      forall after | forall step :: step in after ==> !Unlinks(step, serial, id)
        ensures Linked(Run(s, after), serial, id)
      {
        LinkStays(s, after, serial, id);
      }
    }
  }

  lemma {:induction false} RequestsUsed(s: State, steps: seq<Step>)
    requires s.requests.Keys <= s.used
    ensures Run(s, steps).requests.Keys <= Run(s, steps).used
    decreases |steps|
  {
    if steps != [] { RequestsUsed(Next(s, steps[0]), steps[1..]); }
  }

  /** Of two provisionings with different ids both succeed, and the second replaces the id that the first returned. */
  lemma SecondCommitReplaces(s: State, a: nat, b: nat, h0: string, h1: string)
    requires a != b && a in s.requests && b in s.requests && s.requests[a].serial == s.requests[b].serial
    requires s.requests[a].serial in s.records && s.requests[a].chosen.Some? && s.requests[b].chosen.Some?
    requires s.requests[a].chosen != s.requests[b].chosen
    requires !HeldElsewhere(s.records, s.requests[a].serial, s.requests[a].chosen.value)
    requires !HeldElsewhere(s.records, s.requests[a].serial, s.requests[b].chosen.value)
    ensures var (s1, first) := DoCommit(s, a, h0, true);
            var (s2, second) := DoCommit(s1, b, h1, true);
            && first.Granted? && second.Granted? && first != second
            && Linked(s1, s.requests[a].serial, first.stationId) && Linked(s2, s.requests[a].serial, second.stationId)
            && first.stationId in s2.stations && s2.stations[first.stationId] == Some(h0)
  {
  }

  /**
   * So two overlapping calls for a charger without an id replace it, with nothing deleted, and the
   * station of the first id stays beside it, linked to no record.
   */
  lemma OverlappingCallsReplaceId(serial: string, h0: string, h1: string)
    ensures var steps := [Register(serial, None, None), Read(0, serial, None), Read(1, serial, None), Draw(0), Draw(1)];
            var (s1, first) := DoCommit(Run(Init, steps), 0, h0, true);
            var (s2, second) := DoCommit(s1, 1, h1, true);
            && first.Granted? && second.Granted? && first != second
            && Linked(s1, serial, first.stationId) && Linked(s2, serial, second.stationId)
            && first.stationId in s2.stations && s2.stations[first.stationId] == Some(h0)
  {
    hide StationIdOf, Run, DoCommit, FromDecimal;
    StationIdRoundTrip(FIRST_NUMBER);
    StationIdRoundTrip(FIRST_NUMBER + 1);
    TwoDraws(serial);
    var s := Run(Init, [Register(serial, None, None), Read(0, serial, None), Read(1, serial, None), Draw(0), Draw(1)]);
    SecondCommitReplaces(s, 0, 1, h0, h1);
    hide Linked;
  }

  lemma TwoDraws(serial: string)
    ensures var x, y := StationIdOf(FIRST_NUMBER), StationIdOf(FIRST_NUMBER + 1);
            Run(Init, [Register(serial, None, None), Read(0, serial, None), Read(1, serial, None), Draw(0), Draw(1)])
            == State(map[serial := Record(None, Registered, None, None)], map[], Some(FIRST_NUMBER + 1),
                     map[0 := Request(serial, Some(x)), 1 := Request(serial, Some(y))], {0, 1},
                     [FIRST_NUMBER, FIRST_NUMBER + 1])
  {
    hide StationIdOf;
    var a, b, c, d, e := Register(serial, None, None), Read(0, serial, None), Read(1, serial, None), Draw(0), Draw(1);
    assert [a, b, c, d, e][1..] == [b, c, d, e] && [b, c, d, e][1..] == [c, d, e] && [c, d, e][1..] == [d, e];
    assert [d, e][1..] == [e];
    var s3 := Next(Next(Next(Init, a), b), c);
    assert s3 == State(map[serial := Record(None, Registered, None, None)], map[], None,
                       map[0 := Request(serial, None), 1 := Request(serial, None)], {0, 1}, []);
    var s5 := Next(Next(s3, d), e);
    assert Run(Next(s3, d), [e]) == s5;
    assert Run(s3, [d, e]) == s5;
    assert Run(Next(Next(Init, a), b), [c, d, e]) == Run(s3, [d, e]);
    assert Run(Next(Init, a), [b, c, d, e]) == Run(s3, [d, e]);
  }

  // ----- Revocation -----

  predicate Rewrites(step: Step, serial: string) {
    (step.DeleteRecord? && step.serial == serial) || (step.Reject? && step.serial == serial)
  }

  ghost predicate RevokedAt(s: State, serial: string) {
    serial in s.records && s.records[serial].status == Revoked
  }

  ghost predicate InFlight(s: State, serial: string) {
    exists r :: r in s.requests && s.requests[r].serial == serial
  }

  lemma {:induction false} RevocationStays(s: State, steps: seq<Step>, serial: string)
    requires RevokedAt(s, serial) && !InFlight(s, serial)
    requires forall step :: step in steps ==> !Rewrites(step, serial)
    ensures RevokedAt(Run(s, steps), serial)
    decreases |steps|
  {
    if steps != [] {
      var s' := Next(s, steps[0]);
      assert !Rewrites(steps[0], serial);
      forall r | r in s'.requests ensures s'.requests[r].serial != serial {
        if r in s.requests { assert s.requests[r].serial != serial; }
      }
      RevocationStays(s', steps[1..], serial);
    }
  }

  /** A revocation holds, short of an operator's own changes, iff no provisioning of the charger was in flight. */
  lemma RevocationHoldsIff(before: seq<Step>, serial: string)
    requires RevokedAt(Run(Init, before), serial)
    ensures var s := Run(Init, before);
            !InFlight(s, serial)
            <==> forall after :: (forall step :: step in after ==> !Rewrites(step, serial)) ==>
                   RevokedAt(Run(s, after), serial)
  {
    var s := Run(Init, before);
    if InFlight(s, serial) {
      RunKeeps(Init, before);
      var r :| r in s.requests && s.requests[r].serial == serial;
      var after := CanCommit(s, r);
      assert !RevokedAt(Run(s, after), serial);
      assert forall step :: step in after ==> !Rewrites(step, serial);
    } else {
      forall after | forall step :: step in after ==> !Rewrites(step, serial)
        ensures RevokedAt(Run(s, after), serial)
      {
        RevocationStays(s, after, serial);
      }
    }
  }

  // ----- The class -----

  class ProvisionService {
    var records: map<string, Record>
    var stations: map<StationId, Option<string>>
    var sequence: Option<nat>
    var requests: map<nat, Request>
    ghost var used: set<nat>
    ghost var issued: seq<nat>

    constructor ()
      ensures Current() == Init
    {
      records, stations, sequence, requests := map[], map[], None, map[];
      used, issued := {}, [];
    }

    ghost function Current(): State
      reads this
    {
      State(records, stations, sequence, requests, used, issued)
    }

    /** Increments the counter row, or creates it, and prints the number. */
    method GenerateStationId() returns (id: StationId)
      requires Inv(Current())
      modifies this`sequence, this`issued
      ensures sequence == Some(NextNumber(old(sequence))) && issued == old(issued) + [sequence.value]
      ensures id == StationIdOf(sequence.value)
      ensures forall i :: 0 <= i < |old(issued)| ==> id != StationIdOf(old(issued)[i])
      ensures Inv(Current())
    {
      DrawKeepsNumbered(issued, sequence);
      hide Numbered;
      var number := if sequence.None? then FIRST_NUMBER else sequence.value + 1;
      forall i | 0 <= i < |issued| ensures StationIdOf(number) != StationIdOf(issued[i]) {
        StationIdRoundTrip(number);
        StationIdRoundTrip(issued[i]);
      }
      sequence := Some(number);
      issued := issued + [number];
      id := "EN" + PadStart(ToDecimal(number), WIDTH);
    }

    method RegisterCharger(serial: string, clientId: Option<StationId>, manufacturerId: Option<int>)
      returns (refusal: Option<Refusal>)
      modifies this`records, this`stations
      ensures (Current(), refusal) == DoRegister(old(Current()), serial, clientId, manufacturerId)
    {
      if serial in records { return Some(Conflict); }
      if clientId.Some? && clientId.value != "" {
        var id := clientId.value;
        if id in stations || Owned(records, id) { return Some(Conflict); }
        stations := stations[id := None];
        records := records[serial := Record(manufacturerId, Registered, Some(id), Some(id))];
        return None;
      }
      records := records[serial := Record(manufacturerId, Registered, None, None)];
      return None;
    }

    /** provision up to its first await: the refusals in their order, then the id if the record gives one. */
    method BeginProvision(r: nat, serial: string, manufacturerId: Option<int>) returns (refusal: Option<Refusal>)
      requires r !in used
      modifies this`requests, this`used
      ensures (Current(), refusal) == DoRead(old(Current()), r, serial, manufacturerId)
    {
      used := used + {r};
      if serial !in records { return Some(NotFound); }
      var record := records[serial];
      if manufacturerId.Some? && record.manufacturerId != manufacturerId { return Some(NotFound); }
      if record.status == Rejected || record.status == Revoked { return Some(Forbidden); }
      var chosen := if record.stationId.Some? then record.stationId else record.clientId;
      requests := requests[r := Request(serial, chosen)];
      return None;
    }

    /** The id of a call whose record gave none. */
    method DrawStationId(r: nat)
      requires Inv(Current()) && r in requests
      modifies this`sequence, this`issued, this`requests
      ensures Current() == Next(old(Current()), Draw(r)) && Inv(Current())
      ensures r in requests && requests[r].chosen.Some?
    {
      if requests[r].chosen.None? {
        var id := GenerateStationId();
        requests := requests[r := requests[r].(chosen := Some(id))];
      }
    }

    /** The transaction at the end of provision. */
    method CommitProvision(r: nat, hash: string, ok: bool) returns (reply: Reply)
      requires Inv(Current()) && r in requests && requests[r].chosen.Some?
      modifies this`records, this`stations, this`requests
      ensures (Current(), reply) == DoCommit(old(Current()), r, hash, ok) && Inv(Current())
    {
      CommitKeeps(Current(), r, hash, ok);
      hide Inv;
      var serial, stationId := requests[r].serial, requests[r].chosen.value;
      requests := requests - {r};
      if !ok || serial !in records || HeldElsewhere(records, serial, stationId) { return Refused(Failed); }
      stations := stations[stationId := Some(hash)];
      records := records[serial := records[serial].(stationId := Some(stationId), status := Provisioned)];
      return Granted(stationId);
    }

    /** provision without interruption: a granted id is the record's, and its station has the new password. */
    method ProvisionCharger(r: nat, serial: string, manufacturerId: Option<int>, hash: string, ok: bool)
      returns (reply: Reply)
      requires Inv(Current()) && r !in used && r !in requests
      modifies this
      ensures Inv(Current())
      ensures Current() == Next(Next(Next(old(Current()), Read(r, serial, manufacturerId)), Draw(r)),
                                Commit(r, hash, ok))
      ensures reply.Granted? ==> Linked(Current(), serial, reply.stationId) && reply.stationId in stations
                                 && stations[reply.stationId] == Some(hash)
      ensures var refusal := Refuses(old(Current()), serial, manufacturerId);
              reply.Refused? ==> reply.why == refusal.GetOr(Failed)
    {
      NextKeeps(Current(), Read(r, serial, manufacturerId));
      hide Inv;
      var refusal := BeginProvision(r, serial, manufacturerId);
      if refusal.Some? { return Refused(refusal.value); }
      DrawStationId(r);
      reply := CommitProvision(r, hash, ok);
    }

    method RevokeCharger(serial: string)
      modifies this`records
      ensures Current() == Next(old(Current()), Revoke(serial))
    {
      if serial in records {
        records := records[serial := records[serial].(status := Revoked)];
      }
    }
  }
}
