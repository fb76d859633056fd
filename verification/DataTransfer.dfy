/** The registry of vendor message handlers, which keeps two-level keys in one string-keyed map. */
module DataTransfer {
  import opened Wrappers

  /** Handlers are known by number; what calling one does is a parameter where it matters. */
  type Handler = nat

  const DEFAULT_MARKER: string := "__default__"

  datatype Table = Table(handlers: map<string, Handler>, known: set<string>)

  datatype Registration = Registration(vendorId: string, messageId: Option<string>, handler: Handler)

  function MakeKey(vendorId: string, messageId: Option<string>): string {
    vendorId + "::" + messageId.GetOr(DEFAULT_MARKER)
  }

  function Register(t: Table, r: Registration): Table {
    Table(t.handlers[MakeKey(r.vendorId, r.messageId) := r.handler], t.known + {r.vendorId})
  }

  function RegisterAll(log: seq<Registration>): Table {
    if log == [] then Table(map[], {}) else Register(RegisterAll(log[..|log| - 1]), log[|log| - 1])
  }

  function Get(handlers: map<string, Handler>, key: string): Option<Handler> {
    if key in handlers then Some(handlers[key]) else None
  }

  /** An absent or empty message id asks for the vendor's default only. */
  function Resolve(t: Table, vendorId: string, messageId: Option<string>): Option<Handler> {
    var named := messageId.Some? && messageId.value != "";
    var specific := if named then Get(t.handlers, MakeKey(vendorId, messageId)) else None;
    if specific.Some? then specific else Get(t.handlers, MakeKey(vendorId, None))
  }

  // ----- The two-level map it stands for -----

  /** The last handler registered for exactly this vendor and message id. */
  function LastFor(log: seq<Registration>, vendorId: string, messageId: Option<string>): Option<Handler> {
    if log == [] then None
    else
      var last := log[|log| - 1];
      if last.vendorId == vendorId && last.messageId == messageId then Some(last.handler)
      else LastFor(log[..|log| - 1], vendorId, messageId)
  }

  function TwoLevel(log: seq<Registration>, vendorId: string, messageId: Option<string>): Option<Handler> {
    var specific := if messageId.Some? && messageId.value != "" then LastFor(log, vendorId, messageId) else None;
    if specific.Some? then specific else LastFor(log, vendorId, None)
  }

  ghost predicate Registered(log: seq<Registration>, vendorId: string) {
    exists r :: r in log && r.vendorId == vendorId
  }

  // ----- When string keys tell vendors and messages apart -----

  predicate SeparatorAt(key: string, i: nat) {
    i + 1 < |key| && key[i] == ':' && key[i + 1] == ':'
  }

  /** The vendor id neither contains the separator nor can merge with it. */
  ghost predicate Separable(vendorId: string) {
    (forall i: nat :: !SeparatorAt(vendorId, i)) && (vendorId != "" ==> vendorId[|vendorId| - 1] != ':')
  }

  lemma FirstSeparator(vendorId: string, message: string)
    requires Separable(vendorId)
    ensures SeparatorAt(vendorId + "::" + message, |vendorId|)
    ensures forall i: nat :: i < |vendorId| ==> !SeparatorAt(vendorId + "::" + message, i)
  {
    forall i: nat | i < |vendorId| ensures !SeparatorAt(vendorId + "::" + message, i) {
      assert !SeparatorAt(vendorId, i);
    }
  }

  /** Keys of separable vendors are equal only for the same vendor and the same message text. */
  lemma KeysApart(v: string, m: string, v': string, m': string)
    requires Separable(v) && Separable(v') && v + "::" + m == v' + "::" + m'
    ensures v == v' && m == m'
  {
    var key := v + "::" + m;
    FirstSeparator(v, m);
    FirstSeparator(v', m');
    assert |v| == |v'|;
    assert v == key[..|v|] && v' == key[..|v'|];
    assert m == key[|v| + 2..] && m' == key[|v'| + 2..];
  }

  /** A vendor id with a separator shares keys with its part before the first one. */
  lemma SplitAtFirst(v: string, i: nat, m: string)
    requires SeparatorAt(v, i) && forall j: nat :: j < i ==> !SeparatorAt(v, j)
    ensures Separable(v[..i]) && v[..i] != v && v[..i] + "::" + (v[i + 2..] + "::" + m) == v + "::" + m
    ensures v[i + 2..] + "::" + m != DEFAULT_MARKER
  {
    assert v == v[..i] + "::" + v[i + 2..];
    forall j: nat ensures !SeparatorAt(v[..i], j) {
      if j < i { assert !SeparatorAt(v, j); }
    }
    if i > 0 { assert !SeparatorAt(v, i - 1); }
    assert (v[i + 2..] + "::" + m)[|v| - i - 2] == ':' && ':' !in DEFAULT_MARKER;
  }

  /** One without a separator that ends in a colon shares keys with what stands before the colon. */
  lemma SplitAtEnd(v: string, m: string)
    requires v != "" && v[|v| - 1] == ':' && forall i: nat :: !SeparatorAt(v, i)
    ensures var v' := v[..|v| - 1];
            Separable(v') && v' != v && v' + "::" + (":" + m) == v + "::" + m && ":" + m != DEFAULT_MARKER
  {
    var v' := v[..|v| - 1];
    assert v == v' + ":";
    forall i: nat ensures !SeparatorAt(v', i) {
      assert !SeparatorAt(v, i);
    }
    if v' != "" { assert !SeparatorAt(v, |v'| - 1); }
    assert v' + "::" + (":" + m) == v' + ":" + "::" + m;
    assert (":" + m)[0] == ':' && ':' !in DEFAULT_MARKER;
  }

  /** So any vendor id that is not separable shares each of its keys with one that is. */
  lemma UnseparableCollides(v: string, m: string) returns (v': string, m': string)
    requires !Separable(v)
    ensures v' != v && Separable(v') && m' != DEFAULT_MARKER && v' + "::" + m' == v + "::" + m
  {
    if some: nat :| SeparatorAt(v, some) {
      var i := FirstAt(v, some);
      SplitAtFirst(v, i, m);
      v', m' := v[..i], v[i + 2..] + "::" + m;
    } else {
      SplitAtEnd(v, m);
      v', m' := v[..|v| - 1], ":" + m;
    }
  }

  lemma {:induction false} FirstAt(key: string, i: nat) returns (first: nat)
    requires SeparatorAt(key, i)
    ensures SeparatorAt(key, first) && forall j: nat :: j < first ==> !SeparatorAt(key, j)
  {
    if j: nat :| j < i && SeparatorAt(key, j) {
      first := FirstAt(key, j);
    } else {
      first := i;
    }
  }

  // ----- Refinement -----

  /** What the registry asks of its callers: separable vendors, and no message id equal to the default marker. */
  ghost predicate CleanLog(log: seq<Registration>) {
    forall r :: r in log ==> Separable(r.vendorId) && r.messageId != Some(DEFAULT_MARKER)
  }

  lemma {:induction false} GetIsLast(log: seq<Registration>, vendorId: string, messageId: Option<string>)
    requires CleanLog(log) && Separable(vendorId) && messageId != Some(DEFAULT_MARKER)
    ensures Get(RegisterAll(log).handlers, MakeKey(vendorId, messageId)) == LastFor(log, vendorId, messageId)
  {
    if log != [] {
      var rest, last := log[..|log| - 1], log[|log| - 1];
      GetIsLast(rest, vendorId, messageId);
      assert Separable(last.vendorId);
      if MakeKey(last.vendorId, last.messageId) == MakeKey(vendorId, messageId) {
        KeysApart(last.vendorId, last.messageId.GetOr(DEFAULT_MARKER), vendorId, messageId.GetOr(DEFAULT_MARKER));
      }
    }
  }

  /**
   * For every sequence of registrations, resolving gives the last handler for that exact pair, else
   * the vendor's default, else nothing.
   */
  lemma ResolveIsTwoLevel(log: seq<Registration>, vendorId: string, messageId: Option<string>)
    requires CleanLog(log) && Separable(vendorId) && messageId != Some(DEFAULT_MARKER)
    ensures Resolve(RegisterAll(log), vendorId, messageId) == TwoLevel(log, vendorId, messageId)
  {
    GetIsLast(log, vendorId, messageId);
    GetIsLast(log, vendorId, None);
  }

  /** The other condition is needed too: a handler registered under the marker answers as the default. */
  lemma MarkerIsDefault(vendorId: string, h: Handler)
    ensures var log := [Registration(vendorId, Some("__default__"), h)];
            Resolve(RegisterAll(log), vendorId, None) == Some(h) && TwoLevel(log, vendorId, None) == None
  {
    var log := [Registration(vendorId, Some("__default__"), h)];
    assert log[..0] == [];
    assert LastFor(log[..0], vendorId, None) == None;
  }

  /** With clean registrations for other vendors only, a message of vendor v reaches one of their handlers. */
  ghost predicate Strays(log: seq<Registration>, v: string, messageId: Option<string>) {
    CleanLog(log) && !Registered(log, v) && Resolve(RegisterAll(log), v, messageId).Some?
  }

  /** Separable vendor ids are exactly those whose messages never reach a handler registered for others. */
  lemma SeparableIffIsolated(v: string)
    ensures Separable(v) <==> forall log, messageId :: !Strays(log, v, messageId)
  {
    if Separable(v) {
      forall log, messageId | CleanLog(log) && !Registered(log, v)
        ensures Resolve(RegisterAll(log), v, messageId).None?
      {
        var asked := if messageId == Some(DEFAULT_MARKER) then None else messageId;
        assert Resolve(RegisterAll(log), v, messageId) == Resolve(RegisterAll(log), v, asked);
        ResolveIsTwoLevel(log, v, asked);
        if LastFor(log, v, asked).Some? { LastIsRegistered(log, v, asked); }
        if LastFor(log, v, None).Some? { LastIsRegistered(log, v, None); }
      }
    } else {
      var v', m' := UnseparableCollides(v, DEFAULT_MARKER);
      var log := [Registration(v', Some(m'), 0)];
      assert log[..0] == [];
      assert MakeKey(v', Some(m')) == MakeKey(v, None);
      assert Strays(log, v, None);
    }
  }

  /** A charger naming an unseparable vendor can reach a handler registered for another vendor. */
  lemma ForeignHandlerReached(h: Handler)
    ensures var log := [Registration("a", Some("b::c"), h)];
            Resolve(RegisterAll(log), "a::b", Some("c")) == Some(h) && !Registered(log, "a::b")
  {
    var log := [Registration("a", Some("b::c"), h)];
    assert log[..0] == [];
    assert MakeKey("a", Some("b::c")) == MakeKey("a::b", Some("c"));
  }

  // ----- The message handler -----

  datatype Response = Response(status: string, data: Option<string>)

  datatype Reply = Handled(response: Response) | Rejected | UnknownMessageId | UnknownVendorId

  /** `call` is what the handlers do with this message; None when one throws. */
  function Dispatch(t: Table, vendorId: string, messageId: Option<string>, call: Handler -> Option<Response>): Reply {
    match Resolve(t, vendorId, messageId)
    case Some(h) => (match call(h) case Some(response) => Handled(response) case None => Rejected)
    case None => if vendorId in t.known then UnknownMessageId else UnknownVendorId
  }

  lemma {:induction false} KnownAreRegistered(log: seq<Registration>, vendorId: string)
    ensures vendorId in RegisterAll(log).known <==> Registered(log, vendorId)
  {
    if log != [] {
      var rest, last := log[..|log| - 1], log[|log| - 1];
      KnownAreRegistered(rest, vendorId);
      assert log == rest + [last];
      assert last in log && forall r :: r in log <==> r in rest || r == last;
    }
  }

  lemma {:induction false} LastIsRegistered(log: seq<Registration>, vendorId: string, messageId: Option<string>)
    requires LastFor(log, vendorId, messageId).Some?
    ensures Registered(log, vendorId)
  {
    var last := log[|log| - 1];
    if last.vendorId == vendorId && last.messageId == messageId {
      assert last in log;
    } else {
      LastIsRegistered(log[..|log| - 1], vendorId, messageId);
      var r :| r in log[..|log| - 1] && r.vendorId == vendorId;
      assert r in log;
    }
  }

  /**
   * A message is answered by the last handler registered for it, or rejected if that throws; UnknownVendorId is
   * answered exactly for vendors never registered, UnknownMessageId exactly for registered ones without a handler.
   */
  lemma RepliesExact(log: seq<Registration>, vendorId: string, messageId: Option<string>,
                            call: Handler -> Option<Response>)
    requires CleanLog(log) && Separable(vendorId) && messageId != Some(DEFAULT_MARKER)
    ensures var reply := Dispatch(RegisterAll(log), vendorId, messageId, call);
            && (reply == UnknownVendorId <==> !Registered(log, vendorId))
            && (reply == UnknownMessageId <==> Registered(log, vendorId) && TwoLevel(log, vendorId, messageId).None?)
            && (forall response :: reply == Handled(response) <==>
                  TwoLevel(log, vendorId, messageId).Some?
                  && call(TwoLevel(log, vendorId, messageId).value) == Some(response))
  {
    ResolveIsTwoLevel(log, vendorId, messageId);
    KnownAreRegistered(log, vendorId);
    if LastFor(log, vendorId, messageId).Some? { LastIsRegistered(log, vendorId, messageId); }
    if LastFor(log, vendorId, None).Some? { LastIsRegistered(log, vendorId, None); }
  }

  // ----- The class -----

  class DataTransferRegistry {
    var handlers: map<string, Handler>
    var knownVendorIds: set<string>
    ghost var log: seq<Registration>

    ghost predicate Valid()
      reads this
    {
      Table(handlers, knownVendorIds) == RegisterAll(log)
    }

    constructor ()
      ensures Valid() && log == []
    {
      handlers, knownVendorIds, log := map[], {}, [];
    }

    /** The answer says whether a handler was overwritten. */
    method RegisterHandler(vendorId: string, messageId: Option<string>, handler: Handler) returns (overwritten: bool)
      requires Valid()
      modifies this
      ensures Valid() && log == old(log) + [Registration(vendorId, messageId, handler)]
      ensures overwritten == (MakeKey(vendorId, messageId) in old(handlers))
    {
      var key := MakeKey(vendorId, messageId);
      overwritten := key in handlers;
      handlers := handlers[key := handler];
      knownVendorIds := knownVendorIds + {vendorId};
      log := log + [Registration(vendorId, messageId, handler)];
      assert log[..|log| - 1] == old(log);
    }

    method ResolveHandler(vendorId: string, messageId: Option<string>) returns (h: Option<Handler>)
      requires Valid()
      ensures h == Resolve(RegisterAll(log), vendorId, messageId)
      ensures CleanLog(log) && Separable(vendorId) && messageId != Some(DEFAULT_MARKER) ==>
                h == TwoLevel(log, vendorId, messageId)
    {
      if CleanLog(log) && Separable(vendorId) && messageId != Some(DEFAULT_MARKER) {
        ResolveIsTwoLevel(log, vendorId, messageId);
      }
      if messageId.Some? && messageId.value != "" {
        var key := MakeKey(vendorId, messageId);
        if key in handlers { return Some(handlers[key]); }
      }
      var fallback := MakeKey(vendorId, None);
      if fallback in handlers { return Some(handlers[fallback]); }
      return None;
    }
  }
}
