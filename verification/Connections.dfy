/**
 * The registry of charger connections, with sockets replaced while close and error events of the
 * old ones are still in flight.
 */
module Connections {
  import opened Wrappers
  import opened Events

  type Socket = nat

  datatype Ready = Open | Closing | Closed

  /** `station` is fixed when the socket's handlers are attached. */
  datatype SocketInfo = SocketInfo(station: StationId, ready: Ready)

  datatype Offline = Offline(station: StationId, socket: Socket)

  /**
   * offline: the StationOffline events written, with the socket whose close wrote each.
   * latest: the last socket registered for a station. hit: the sockets that a close, an error or a
   * forced disconnect has reached. No step reads these three.
   */
  datatype State = State(connections: map<StationId, Socket>, sockets: map<Socket, SocketInfo>, replaced: set<Socket>,
                         offline: seq<Offline>, latest: map<StationId, Socket>, hit: set<Socket>)

  const Init := State(map[], map[], {}, [], map[], {})

  datatype Step =
    | Connect(station: StationId, socket: Socket)
    | PeerCloses(socket: Socket)
    | GraceExpires(socket: Socket)
    | Close(socket: Socket, stored: bool)
    | Error(socket: Socket)
    | ForceDisconnect(station: StationId)

  function SetReady(sockets: map<Socket, SocketInfo>, w: Socket, ready: Ready): map<Socket, SocketInfo> {
    if w in sockets then sockets[w := sockets[w].(ready := ready)] else sockets
  }

  /** close and terminate on a socket: an open one starts closing; its close event comes later. */
  function BeginClose(sockets: map<Socket, SocketInfo>, w: Socket): map<Socket, SocketInfo> {
    if w in sockets && sockets[w].ready == Open then SetReady(sockets, w, Closing) else sockets
  }

  predicate Current(s: State, w: Socket) {
    w in s.sockets && s.sockets[w].station in s.connections && s.connections[s.sockets[w].station] == w
  }

  function Unregister(s: State, station: StationId): State {
    s.(connections := s.connections - {station})
  }

  /** A new connection replaces an existing one, which starts closing. */
  function DoConnect(s: State, station: StationId, w: Socket): State {
    if w in s.sockets then s
    else
      var old' := if station in s.connections then {s.connections[station]} else {};
      var closing := if station in s.connections then BeginClose(s.sockets, s.connections[station]) else s.sockets;
      s.(connections := s.connections[station := w], sockets := closing[w := SocketInfo(station, Open)],
         replaced := s.replaced + old', latest := s.latest[station := w])
  }

  /** The close event, once per socket; only the current socket's close counts as a disconnect. */
  function DoClose(s: State, w: Socket, stored: bool): State {
    if w !in s.sockets || s.sockets[w].ready == Closed then s
    else
      var station := s.sockets[w].station;
      var closed := s.(sockets := SetReady(s.sockets, w, Closed), hit := s.hit + {w});
      if !Current(s, w) then closed
      else Unregister(closed, station).(offline := if stored then s.offline + [Offline(station, w)] else s.offline)
  }

  function DoError(s: State, w: Socket): State {
    if w !in s.sockets then s
    else
      var seen := s.(hit := s.hit + {w});
      if Current(s, w) then Unregister(seen, s.sockets[w].station) else seen
  }

  function DoForceDisconnect(s: State, station: StationId): State {
    if station !in s.connections then s
    else
      var w := s.connections[station];
      Unregister(s.(sockets := BeginClose(s.sockets, w), hit := s.hit + {w}), station)
  }

  function Next(s: State, step: Step): State {
    match step
    case Connect(station, w) => DoConnect(s, station, w)
    case PeerCloses(w) => s.(sockets := BeginClose(s.sockets, w))
    case GraceExpires(w) => if w in s.replaced then s.(sockets := BeginClose(s.sockets, w)) else s
    case Close(w, stored) => DoClose(s, w, stored)
    case Error(w) => DoError(s, w)
    case ForceDisconnect(station) => DoForceDisconnect(s, station)
  }

  function Run(s: State, steps: seq<Step>): State
    decreases |steps|
  {
    if steps == [] then s else Run(Next(s, steps[0]), steps[1..])
  }

  // ----- The invariant -----

  /** The registry against the history: registered means latest and not yet hit. */
  ghost predicate Exact(s: State) {
    && s.connections.Keys <= s.latest.Keys
    && (forall station :: station in s.latest ==>
          && s.latest[station] in s.sockets && s.sockets[s.latest[station]].station == station
          && (station in s.connections <==> s.latest[station] !in s.hit)
          && (station in s.connections ==> s.connections[station] == s.latest[station]))
  }

  /** Each offline event belongs to a socket of its station that has closed, and no socket has two. */
  ghost predicate OfflineOk(s: State) {
    && (forall e :: e in s.offline ==> e.socket in s.sockets && s.sockets[e.socket] == SocketInfo(e.station, Closed))
    && (forall i, j :: 0 <= i < j < |s.offline| ==> s.offline[i].socket != s.offline[j].socket)
  }

  ghost predicate Inv(s: State) {
    && Exact(s) && OfflineOk(s)
    && (forall w :: w in s.sockets ==> s.sockets[w].station in s.latest)
    && (forall w :: w in s.replaced ==> w in s.sockets && s.latest[s.sockets[w].station] != w)
    && (forall w :: w in s.hit ==> w in s.sockets)
    && (forall w :: w in s.sockets && s.sockets[w].ready == Closed ==> w in s.hit)
  }

  lemma BeginCloseKeeps(s: State, w: Socket)
    requires Inv(s)
    ensures Inv(s.(sockets := BeginClose(s.sockets, w)))
  {
    var s' := s.(sockets := BeginClose(s.sockets, w));
    assert forall x :: x in s.sockets ==> x in s'.sockets && s'.sockets[x].station == s.sockets[x].station;
    assert forall e :: e in s.offline ==> s'.sockets[e.socket] == s.sockets[e.socket];
  }

  lemma RegisterKeeps(s: State, station: StationId, w: Socket)
    requires Inv(s) && w !in s.sockets
    ensures var old' := if station in s.connections then {s.connections[station]} else {};
            Inv(s.(connections := s.connections[station := w], sockets := s.sockets[w := SocketInfo(station, Open)],
                   replaced := s.replaced + old', latest := s.latest[station := w]))
  {
    assert forall e :: e in s.offline ==> e.socket != w;
    if station in s.connections {
      assert station in s.latest;
    }
  }

  lemma ConnectKeeps(s: State, station: StationId, w: Socket)
    requires Inv(s)
    ensures Inv(DoConnect(s, station, w))
  {
    if w !in s.sockets {
      if station in s.connections {
        BeginCloseKeeps(s, s.connections[station]);
        RegisterKeeps(s.(sockets := BeginClose(s.sockets, s.connections[station])), station, w);
      } else {
        RegisterKeeps(s, station, w);
      }
      hide Inv;
    }
  }

  /** An event on w hits it, and unregisters it if it is the current socket of its station. */
  lemma HitKeeps(s: State, w: Socket)
    requires Inv(s) && w in s.sockets
    ensures var seen := s.(hit := s.hit + {w});
            Inv(if Current(s, w) then Unregister(seen, s.sockets[w].station) else seen)
  {
  }

  lemma ClosedKeeps(s: State, w: Socket, events: seq<Offline>)
    requires Inv(s) && w in s.sockets && w in s.hit && s.sockets[w].ready != Closed
    requires events == [] || events == [Offline(s.sockets[w].station, w)]
    ensures Inv(s.(sockets := SetReady(s.sockets, w, Closed), offline := s.offline + events))
  {
    var s' := s.(sockets := SetReady(s.sockets, w, Closed), offline := s.offline + events);
    forall i | 0 <= i < |s.offline| ensures s.offline[i].socket != w {
      assert s.offline[i] in s.offline;
    }
    assert forall x :: x in s.sockets ==> x in s'.sockets && s'.sockets[x].station == s.sockets[x].station;
  }

  lemma CloseKeeps(s: State, w: Socket, stored: bool)
    requires Inv(s)
    ensures Inv(DoClose(s, w, stored))
  {
    if w in s.sockets && s.sockets[w].ready != Closed {
      HitKeeps(s, w);
      var station := s.sockets[w].station;
      var seen := s.(hit := s.hit + {w});
      var h := if Current(s, w) then Unregister(seen, station) else seen;
      var events := if Current(s, w) && stored then [Offline(station, w)] else [];
      ClosedKeeps(h, w, events);
      assert s.offline + [] == s.offline;
      hide Inv;
    }
  }

  lemma NextKeeps(s: State, step: Step)
    requires Inv(s)
    ensures Inv(Next(s, step))
  {
    match step
    case Connect(station, w) => ConnectKeeps(s, station, w);
    case PeerCloses(w) => BeginCloseKeeps(s, w);
    case GraceExpires(w) => BeginCloseKeeps(s, w);
    case Close(w, stored) => CloseKeeps(s, w, stored);
    case Error(w) => if w in s.sockets { HitKeeps(s, w); }
    case ForceDisconnect(station) =>
      if station in s.connections {
        var w := s.connections[station];
        assert station in s.latest;
        BeginCloseKeeps(s, w);
        HitKeeps(s.(sockets := BeginClose(s.sockets, w)), w);
      }
  }

  lemma {:induction false} RunKeeps(s: State, steps: seq<Step>)
    requires Inv(s)
    ensures Inv(Run(s, steps))
    decreases |steps|
  {
    if steps != [] {
      NextKeeps(s, steps[0]);
      RunKeeps(Next(s, steps[0]), steps[1..]);
    }
  }

  // ----- Theorems about every run -----

  /** The registry holds w for a station iff w is the latest socket registered for it and nothing has hit w. */
  lemma RegistryIsExact(steps: seq<Step>, station: StationId, w: Socket)
    ensures var s := Run(Init, steps);
            (station in s.connections && s.connections[station] == w)
            <==> (station in s.latest && s.latest[station] == w && w !in s.hit)
  {
    RunKeeps(Init, steps);
  }

  /** A late close or error of a replaced socket leaves the registry and the offline log alone. */
  lemma StaleEventsIgnored(steps: seq<Step>, w: Socket, stored: bool)
    requires var s := Run(Init, steps);
             w in s.sockets && s.sockets[w].station in s.latest && s.latest[s.sockets[w].station] != w
    ensures var s := Run(Init, steps);
            && DoClose(s, w, stored).connections == s.connections && DoClose(s, w, stored).offline == s.offline
            && DoError(s, w).connections == s.connections && DoError(s, w).offline == s.offline
  {
    RunKeeps(Init, steps);
  }

  /** Nothing of this step concerns the station's socket w itself, or registers another for the station. */
  predicate Spares(step: Step, station: StationId, w: Socket) {
    match step
    case Connect(st, _) => st != station
    case PeerCloses(x) => x != w
    case GraceExpires(_) => true
    case Close(x, _) => x != w
    case Error(x) => x != w
    case ForceDisconnect(st) => st != station
  }

  /** Once registered, a connection survives whatever happens to all other sockets. */
  lemma ConnectionSurvives(before: seq<Step>, station: StationId, w: Socket, after: seq<Step>)
    requires w !in Run(Init, before).sockets
    requires forall step :: step in after ==> Spares(step, station, w)
    ensures var s := Run(Next(Run(Init, before), Connect(station, w)), after);
            && station in s.connections && s.connections[station] == w
            && w in s.sockets && s.sockets[w].ready == Open
  {
    RunKeeps(Init, before);
    NextKeeps(Run(Init, before), Connect(station, w));
    SparedRun(Next(Run(Init, before), Connect(station, w)), after, station, w);
  }

  ghost predicate OpenAt(s: State, station: StationId, w: Socket) {
    station in s.connections && s.connections[station] == w && w in s.sockets && s.sockets[w].ready == Open
  }

  lemma SparedStep(s: State, step: Step, station: StationId, w: Socket)
    requires Inv(s) && Spares(step, station, w) && OpenAt(s, station, w)
    ensures OpenAt(Next(s, step), station, w)
  {
  }

  lemma {:induction false} SparedRun(s: State, steps: seq<Step>, station: StationId, w: Socket)
    requires Inv(s) && (forall step :: step in steps ==> Spares(step, station, w)) && OpenAt(s, station, w)
    ensures OpenAt(Run(s, steps), station, w)
    decreases |steps|
  {
    if steps != [] {
      SparedStep(s, steps[0], station, w);
      NextKeeps(s, steps[0]);
      SparedRun(Next(s, steps[0]), steps[1..], station, w);
    }
  }

  /** A socket yields at most one StationOffline. */
  lemma OneOfflinePerSocket(steps: seq<Step>, i: nat, j: nat)
    requires i < j < |Run(Init, steps).offline|
    ensures Run(Init, steps).offline[i].socket != Run(Init, steps).offline[j].socket
  {
    RunKeeps(Init, steps);
  }

  /**
   * A step writes StationOffline exactly if it is the first close of the station's registered socket and the
   * event can be stored, and the entry goes in any case.
   */
  lemma OfflineIffCurrentCloses(s: State, step: Step)
    requires Inv(s)
    ensures Next(s, step).offline != s.offline
            <==> step.Close? && step.stored && step.socket in s.sockets && s.sockets[step.socket].ready != Closed
                 && var station := s.sockets[step.socket].station;
                    station in s.connections && s.connections[station] == step.socket
    ensures Next(s, step).offline != s.offline ==>
              var station := s.sockets[step.socket].station;
              && step.socket !in s.hit && station !in Next(s, step).connections
              && Next(s, step).offline == s.offline + [Offline(station, step.socket)]
  {
    assert forall e :: |s.offline + [e]| == |s.offline| + 1;
  }

  predicate NotOpen(s: State, w: Socket) {
    w in s.sockets && s.sockets[w].ready != Open
  }

  /** The step closes the socket or makes it close: its own events, a replacement, or a forced disconnect. */
  predicate Shuts(s: State, step: Step, w: Socket) {
    match step
    case Connect(station, x) => x !in s.sockets && station in s.connections && s.connections[station] == w
    case PeerCloses(x) => x == w
    case GraceExpires(x) => x == w && w in s.replaced
    case Close(x, _) => x == w
    case Error(_) => false
    case ForceDisconnect(station) => station in s.connections && s.connections[station] == w
  }

  /** An open socket leaves that state exactly by these steps, and it is closed exactly after its close event. */
  lemma ShutsIff(s: State, step: Step, w: Socket)
    requires Inv(s) && w in s.sockets
    ensures w in Next(s, step).sockets
    ensures s.sockets[w].ready == Open ==> (Next(s, step).sockets[w].ready != Open <==> Shuts(s, step, w))
    ensures Next(s, step).sockets[w].ready == Closed
            <==> s.sockets[w].ready == Closed || (step.Close? && step.socket == w)
  {
  }

  lemma StepKeepsShut(s: State, step: Step, w: Socket)
    requires NotOpen(s, w)
    ensures NotOpen(Next(s, step), w)
  {
  }

  lemma {:induction false} StaysShut(s: State, steps: seq<Step>, w: Socket)
    requires NotOpen(s, w)
    ensures NotOpen(Run(s, steps), w)
    decreases |steps|
  {
    if steps != [] {
      StepKeepsShut(s, steps[0], w);
      hide Next;
      StaysShut(Next(s, steps[0]), steps[1..], w);
    }
  }

  /**
   * A new socket is open and registered, the one that it replaces starts closing and is never open again,
   * and no other socket and no other station's entry changes.
   */
  lemma ReplacedCloses(before: seq<Step>, station: StationId, w: Socket, after: seq<Step>)
    requires w !in Run(Init, before).sockets
    ensures var s := Run(Init, before);
            var s' := Next(s, Connect(station, w));
            && s'.connections == s.connections[station := w] && s'.offline == s.offline
            && w in s'.sockets && s'.sockets[w] == SocketInfo(station, Open)
            && (station in s.connections ==> NotOpen(Run(s', after), s.connections[station]))
            && forall x :: x in s.sockets && !(station in s.connections && s.connections[station] == x) ==>
                 x in s'.sockets && s'.sockets[x] == s.sockets[x]
  {
    RunKeeps(Init, before);
    var s := Run(Init, before);
    var s' := Next(s, Connect(station, w));
    if station in s.connections {
      assert NotOpen(s', s.connections[station]);
      StaysShut(s', after, s.connections[station]);
    }
    hide Run;
  }

  /**
   * A forced disconnect unregisters the station's socket, which starts closing and is never open again, and
   * touches no other station; without a registered socket it does nothing.
   */
  lemma DisconnectCloses(before: seq<Step>, station: StationId, after: seq<Step>)
    ensures var s := Run(Init, before);
            var s' := Next(s, ForceDisconnect(station));
            && s'.connections == s.connections - {station} && s'.offline == s.offline
            && (station in s.connections ==> NotOpen(Run(s', after), s.connections[station]))
            && forall x :: x in s.sockets && !(station in s.connections && s.connections[station] == x) ==>
                 x in s'.sockets && s'.sockets[x] == s.sockets[x]
  {
    RunKeeps(Init, before);
    var s := Run(Init, before);
    var s' := Next(s, ForceDisconnect(station));
    if station in s.connections {
      assert NotOpen(s', s.connections[station]);
      StaysShut(s', after, s.connections[station]);
    }
    hide Run;
  }

  // ----- The class -----

  class ConnectionManager {
    var connections: map<StationId, Socket>
    var sockets: map<Socket, SocketInfo>
    ghost var replaced: set<Socket>
    var offline: seq<Offline>
    ghost var latest: map<StationId, Socket>
    ghost var hit: set<Socket>

    constructor ()
      ensures Registry() == Init
    {
      connections, sockets, offline := map[], map[], [];
      replaced, latest, hit := {}, map[], {};
    }

    ghost function Registry(): State
      reads this
    {
      State(connections, sockets, replaced, offline, latest, hit)
    }

    /** The server's connection event, which registers the socket. */
    method Register(station: StationId, w: Socket)
      requires w !in sockets
      modifies this
      ensures Registry() == Next(old(Registry()), Connect(station, w))
    {
      var existing := Get(station);
      if existing.Some? {
        sockets := BeginClose(sockets, existing.value);
        replaced := replaced + {existing.value};
      }
      sockets := sockets[w := SocketInfo(station, Open)];
      connections := connections[station := w];
      latest := latest[station := w];
    }

    method UnregisterStation(station: StationId)
      modifies this`connections
      ensures connections == old(connections) - {station}
    {
      connections := connections - {station};
    }

    method Get(station: StationId) returns (w: Option<Socket>)
      ensures w == if station in connections then Some(connections[station]) else None
    {
      if station in connections { return Some(connections[station]); }
      return None;
    }

    /** Connected means: the latest socket, hit by nothing, is open. */
    method IsConnected(station: StationId) returns (b: bool)
      requires Inv(Registry())
      ensures b <==> station in latest && latest[station] !in hit && sockets[latest[station]].ready == Open
    {
      var w := Get(station);
      return w.Some? && w.value in sockets && sockets[w.value].ready == Open;
    }

    method OnClose(w: Socket, stored: bool)
      requires w in sockets && sockets[w].ready != Closed
      modifies this
      ensures Registry() == Next(old(Registry()), Close(w, stored))
    {
      var station := sockets[w].station;
      sockets := sockets[w := sockets[w].(ready := Closed)];
      hit := hit + {w};
      var current := Get(station);
      if current != Some(w) { return; }
      UnregisterStation(station);
      if stored {
        offline := offline + [Offline(station, w)];
      }
    }

    method OnError(w: Socket)
      requires w in sockets
      modifies this
      ensures Registry() == Next(old(Registry()), Error(w))
    {
      hit := hit + {w};
      var current := Get(sockets[w].station);
      if current == Some(w) {
        UnregisterStation(sockets[w].station);
      }
    }

    method Disconnect(station: StationId)
      modifies this
      ensures Registry() == Next(old(Registry()), ForceDisconnect(station))
    {
      var w := Get(station);
      if w.Some? {
        sockets := BeginClose(sockets, w.value);
        hit := hit + {w.value};
        UnregisterStation(station);
      }
    }
  }
}
