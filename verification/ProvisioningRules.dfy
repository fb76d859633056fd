/** Who may register and provision a charger, and what each call writes. */
module ProvisioningRules {
  import opened Wrappers
  import opened Events
  import opened StationIds
  import opened Provisioning

  lemma {:induction false} RunSnoc(s: State, steps: seq<Step>)
    requires steps != []
    ensures var n := |steps| - 1; Run(s, steps) == Next(Run(s, steps[..n]), steps[n])
    decreases |steps|
  {
    hide Next;
    if |steps| > 1 {
      RunSnoc(Next(s, steps[0]), steps[1..]);
      assert steps[1..][..|steps| - 2] == steps[..|steps| - 1][1..];
    } else {
      assert steps[..0] == [] && Run(Next(s, steps[0]), steps[1..]) == Next(s, steps[0]);
    }
  }

  // ----- Registration -----

  predicate Holds(record: Record, id: StationId) {
    record.stationId == Some(id) || record.clientId == Some(id)
  }

  /** The client id is the one of a station, or of another charger's record. */
  ghost predicate IdInUse(s: State, id: StationId) {
    id in s.stations
    || exists serial :: serial in s.records && Holds(s.records[serial], id)
  }

  /**
   * A registration is refused exactly if the serial is registered or its client id is in use. Otherwise the
   * charger is registered for its manufacturer, and a client id that is not empty is its own and gets a
   * station without a password; nothing else changes.
   */
  lemma RegistersIff(s: State, serial: string, clientId: Option<StationId>, manufacturerId: Option<int>)
    ensures var (s', refusal) := DoRegister(s, serial, clientId, manufacturerId);
            var given := clientId.Some? && clientId.value != "";
            && (refusal.Some? <==> serial in s.records || (given && IdInUse(s, clientId.value)))
            && (refusal.Some? ==> refusal == Some(Conflict) && s' == s)
            && (refusal.None? ==>
                  && serial in s'.records && s'.records == s.records[serial := s'.records[serial]]
                  && s'.records[serial].status == Registered && s'.records[serial].manufacturerId == manufacturerId
                  && s'.records[serial].clientId == (if given then clientId else None)
                  && s'.records[serial].stationId == (if given then clientId else None)
                  && s'.stations == (if given then s.stations[clientId.value := None] else s.stations)
                  && s' == s.(records := s'.records, stations := s'.stations))
  {
  }

  // ----- Provisioning -----

  /** The manufacturer asks for a charger that is not its own. */
  predicate Foreign(record: Record, manufacturerId: Option<int>) {
    manufacturerId.Some? && record.manufacturerId != manufacturerId
  }

  /**
   * A provisioning is refused as not found exactly if the charger is not registered or belongs to another
   * manufacturer, and else as forbidden exactly if it is rejected or revoked. A call that goes on holds the
   * record's station id, or else its client id.
   */
  lemma ProvisionsIff(s: State, r: nat, serial: string, manufacturerId: Option<int>)
    requires r !in s.used
    ensures var (s', refusal) := DoRead(s, r, serial, manufacturerId);
            && (refusal == Some(NotFound) <==> serial !in s.records || Foreign(s.records[serial], manufacturerId))
            && (refusal == Some(Forbidden) <==>
                  serial in s.records && !Foreign(s.records[serial], manufacturerId)
                  && (s.records[serial].status == Rejected || s.records[serial].status == Revoked))
            && refusal != Some(Conflict) && refusal != Some(Failed)
            && (s'.records, s'.stations, s'.sequence, s'.issued) == (s.records, s.stations, s.sequence, s.issued)
            && (if refusal.Some? then s'.requests == s.requests
                else
                  && r in s'.requests && s'.requests == s.requests[r := s'.requests[r]]
                  && s'.requests[r].serial == serial
                  && s'.requests[r].chosen == if s.records[serial].stationId.Some? then s.records[serial].stationId
                                              else s.records[serial].clientId)
  {
  }

  /**
   * A commit is granted exactly if its transaction goes through, the charger is still registered, and no other
   * charger has the station; it then writes its id and password, and leaves the charger's manufacturer and
   * client id, and all other chargers, as they were.
   */
  lemma CommitsIff(s: State, r: nat, hash: string, ok: bool)
    requires r in s.requests && s.requests[r].chosen.Some?
    ensures var (s', reply) := DoCommit(s, r, hash, ok);
            var serial, id := s.requests[r].serial, s.requests[r].chosen.value;
            && reply == (if ok && serial in s.records && (forall other :: other in s.records && other != serial ==>
                              s.records[other].stationId != Some(id))
                         then Granted(id) else Refused(Failed))
            && s'.requests == s.requests - {r}
            && (s'.sequence, s'.issued) == (s.sequence, s.issued)
            && (if reply.Refused? then s'.records == s.records && s'.stations == s.stations
                else
                  && s'.stations == s.stations[id := Some(hash)]
                  && serial in s'.records && s'.records == s.records[serial := s'.records[serial]]
                  && s'.records[serial].stationId == Some(id) && s'.records[serial].status == Provisioned
                  && s'.records[serial].manufacturerId == s.records[serial].manufacturerId
                  && s'.records[serial].clientId == s.records[serial].clientId)
  {
  }

  /** In every run, the numbers issued are 1000001 and its successors, one after the other. */
  lemma NumbersConsecutive(steps: seq<Step>, i: nat)
    requires i < |Run(Init, steps).issued|
    ensures Run(Init, steps).issued[i] == 1000001 + i
  {
    RunCounts(steps);
  }

  ghost predicate Counted(s: State) {
    && (forall i :: 0 <= i < |s.issued| ==> s.issued[i] == 1000001 + i)
    && s.sequence == if s.issued == [] then None else Some(1000000 + |s.issued|)
  }

  lemma {:induction false} RunCounts(steps: seq<Step>)
    ensures Counted(Run(Init, steps))
  {
    if steps != [] {
      var n := |steps| - 1;
      RunCounts(steps[..n]);
      RunSnoc(Init, steps);
      StepCounts(Run(Init, steps[..n]), steps[n]);
      hide Run, Next;
    }
  }

  lemma StepCounts(s: State, step: Step)
    requires Counted(s)
    ensures Counted(Next(s, step))
  {
    hide StationIdOf, HeldElsewhere, Owned;
  }

  /** A call without an id draws the next number, prints it, and keeps it; a call with an id keeps that. */
  lemma DrawsOnce(s: State, r: nat)
    requires r in s.requests
    ensures var s' := Next(s, Draw(r));
            && (s'.records, s'.stations, s'.used) == (s.records, s.stations, s.used)
            && (if s.requests[r].chosen.Some? then s' == s
                else
                  && |s'.issued| == |s.issued| + 1 && s'.issued[..|s.issued|] == s.issued
                  && s'.requests == s.requests[r := Request(s.requests[r].serial,
                                                            Some(StationIdOf(s'.issued[|s.issued|])))])
  {
    hide StationIdOf;
  }

  // ----- What a record keeps -----

  /** In every run, a charger's manufacturer and client id are those that it was registered with. */
  lemma {:induction false} RecordsAreRegistered(steps: seq<Step>, serial: string)
    requires serial in Run(Init, steps).records
    ensures var record := Run(Init, steps).records[serial];
            exists clientId :: Register(serial, clientId, record.manufacturerId) in steps
                               && record.clientId == if clientId == Some("") then None else clientId
  {
    if steps == [] { assert false; }
    var n := |steps| - 1;
    var s := Run(Init, steps[..n]);
    RunSnoc(Init, steps);
    RecordStep(s, steps[n], serial);
    if serial in s.records { RecordsAreRegistered(steps[..n], serial); }
    hide Next, Run;
  }

  lemma RecordStep(s: State, step: Step, serial: string)
    requires serial in Next(s, step).records
    ensures var record := Next(s, step).records[serial];
            if serial in s.records then
              (record.manufacturerId, record.clientId) == (s.records[serial].manufacturerId, s.records[serial].clientId)
            else
              step.Register? && step.serial == serial && step.manufacturerId == record.manufacturerId
              && record.clientId == if step.clientId == Some("") then None else step.clientId
  {
    hide StationIdOf, HeldElsewhere;
  }

  // ----- Operators -----

  /** Revoking, rejecting and deleting change what they name and nothing else. */
  lemma OperatorsWriteOneThing(s: State, serial: string, id: StationId)
    ensures Next(s, Revoke(serial)) == if serial !in s.records then s
                                       else s.(records := s.records[serial := s.records[serial].(status := Revoked)])
    ensures Next(s, Reject(serial)) == if serial !in s.records then s
                                       else s.(records := s.records[serial := s.records[serial].(status := Rejected)])
    ensures var s' := Next(s, DeleteStation(id));
            && s'.stations == s.stations - {id} && s' == s.(stations := s'.stations, records := s'.records)
            && s'.records.Keys == s.records.Keys
            && forall other :: other in s.records ==>
                 s'.records[other] == if id in s.stations && s.records[other].stationId == Some(id)
                                      then s.records[other].(stationId := None) else s.records[other]
  {
  }

  ghost predicate Barred(s: State, serial: string) {
    serial in s.records && (s.records[serial].status == Revoked || s.records[serial].status == Rejected)
    && !InFlight(s, serial)
  }

  lemma BarredStep(s: State, step: Step, serial: string)
    requires Barred(s, serial) && !(step.DeleteRecord? && step.serial == serial)
    ensures Barred(Next(s, step), serial)
  {
    hide StationIdOf, HeldElsewhere, Owned;
    var s' := Next(s, step);
    forall r | r in s'.requests ensures s'.requests[r].serial != serial {
      if r in s.requests { assert s.requests[r].serial != serial; }
    }
  }

  /**
   * Once a charger is revoked or rejected with no provisioning of it in flight, every later provisioning of it
   * is refused, until its record is deleted.
   */
  lemma {:induction false} BarredStaysRefused(s: State, after: seq<Step>, serial: string, r: nat,
                                              manufacturerId: Option<int>)
    requires Barred(s, serial) && (forall step :: step in after ==> !(step.DeleteRecord? && step.serial == serial))
    requires r !in Run(s, after).used
    ensures DoRead(Run(s, after), r, serial, manufacturerId).1.Some?
    decreases |after|
  {
    if after != [] {
      assert after[0] in after;
      BarredStep(s, after[0], serial);
      hide Next, Barred;
      BarredStaysRefused(Next(s, after[0]), after[1..], serial, r, manufacturerId);
    }
  }

  /**
   * A crash ends the provisionings in flight: from then on a record's station id and a revocation hold until an
   * operator changes them.
   */
  lemma CrashSettles(before: seq<Step>, serial: string, id: StationId, after: seq<Step>)
    ensures var s := Run(Init, before);
            && Next(s, Crash) == s.(requests := map[])
            && (Linked(s, serial, id) && (forall step :: step in after ==> !Unlinks(step, serial, id)) ==>
                  Linked(Run(Next(s, Crash), after), serial, id))
            && (RevokedAt(s, serial) && (forall step :: step in after ==> !Rewrites(step, serial)) ==>
                  RevokedAt(Run(Next(s, Crash), after), serial))
  {
    var s := Next(Run(Init, before), Crash);
    if Linked(s, serial, id) && forall step :: step in after ==> !Unlinks(step, serial, id) {
      LinkStays(s, after, serial, id);
    }
    if RevokedAt(s, serial) && forall step :: step in after ==> !Rewrites(step, serial) {
      RevocationStays(s, after, serial);
    }
    hide Run;
  }
}
