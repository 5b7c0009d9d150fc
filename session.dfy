/** A device handle over its lifetime: any sequence of public calls and delivered
    change events, and what holds of every such sequence — the identity never
    changes, a binding is never lost and never redone, the property snapshot is
    read at most once, and the cache changes only by a fetch or an event. */
module Session {
  import opened Remote
  import opened DeviceSpec

  /** One thing that can happen to a handle: a public `Device` call, or a
      change event arriving from the bus. */
  datatype Op =
    | Register
    | ReadAddress | ReadName | ReadIcon | ReadDeviceClass | ReadPaired | ReadAlias | ReadLegacyPairing
    | ReadUuids | ReadConnected | ReadTrusted | ReadBlocked
    | SetTrusted(trusted: bool)
    | SetBlocked(blocked: bool)
    | SetAlias(alias: string)
    | Discover(pattern: string)
    | CancelDiscoveryOp
    | DisconnectOp
    | Event(property: string, value: Variant)
  {
    /** Reads of the remote-only fields, which fetch on first use. */
    predicate IsRemoteRead()
    {
      ReadUuids? || ReadConnected? || ReadTrusted? || ReadBlocked?
    }
  }

  /** The effect of a whole sequence of operations. */
  datatype Trace = Trace(state: State, calls: seq<Call>, emitted: seq<Notification>)

  function Effect<T>(r: Step<T>): (e: Step<()>)
  {
    Step((), r.state, r.calls, r.emitted)
  }

  /** One operation. A change event reaches the slot only once the handle is
      bound, because the subscription is made while binding. */
  function Apply(s: State, adapter: Adapter, bus: Bus, op: Op): (r: Step<()>)
  {
    match op
    case Register => Effect(Bind(s, adapter))
    case ReadAddress => Step((), s, [], [])
    case ReadName => Step((), s, [], [])
    case ReadIcon => Step((), s, [], [])
    case ReadDeviceClass => Step((), s, [], [])
    case ReadPaired => Step((), s, [], [])
    case ReadAlias => Step((), s, [], [])
    case ReadLegacyPairing => Step((), s, [], [])
    case ReadUuids => EnsureFetched(s, adapter, bus)
    case ReadConnected => EnsureFetched(s, adapter, bus)
    case ReadTrusted => EnsureFetched(s, adapter, bus)
    case ReadBlocked => EnsureFetched(s, adapter, bus)
    case SetTrusted(b) => Write(s, adapter, "Trusted", Bool(b))
    case SetBlocked(b) => Write(s, adapter, "Blocked", Bool(b))
    case SetAlias(a) => Write(s, adapter, "Alias", Text(a))
    case Discover(pattern) => Effect(DeviceSpec.DiscoverServices(s, adapter, bus, pattern))
    case CancelDiscoveryOp => DeviceSpec.CancelDiscovery(s)
    case DisconnectOp => DeviceSpec.Disconnect(s)
    case Event(property, value) =>
      if s.binding.Some? then PropertyChanged(s, property, value) else Step((), s, [], [])
  }

  /** A sequence of operations, applied in order. `adapters[i]` is how the
      parent adapter answers lookup and creation at the time of `ops[i]`: the
      daemon may learn of the device between two calls. */
  function Run(s: State, adapters: seq<Adapter>, bus: Bus, ops: seq<Op>): (t: Trace)
    requires |adapters| == |ops|
    decreases |ops|
  {
    if ops == [] then Trace(s, [], [])
    else
      var first := Apply(s, adapters[0], bus, ops[0]);
      var rest := Run(first.state, adapters[1..], bus, ops[1..]);
      Trace(rest.state, first.calls + rest.calls, first.emitted + rest.emitted)
  }

  /** The number of `GetProperties` calls in a call log. */
  function Fetches(calls: seq<Call>): (n: nat)
  {
    if calls == [] then 0
    else (if calls[0].GetProperties? then 1 else 0) + Fetches(calls[1..])
  }

  /** No lookup and no creation request in a call log. */
  predicate NoBindingCalls(calls: seq<Call>)
  {
    forall i :: 0 <= i < |calls| ==> !calls[i].FindDevice? && !calls[i].CreateDevice?
  }

  /** The number of change events for a known property name. */
  function KnownEvents(ops: seq<Op>): (n: nat)
  {
    if ops == [] then 0
    else (if ops[0].Event? && ops[0].property in KnownProperties then 1 else 0) + KnownEvents(ops[1..])
  }

  lemma {:induction false} FetchesAppend(a: seq<Call>, b: seq<Call>)
    ensures Fetches(a + b) == Fetches(a) + Fetches(b)
    decreases |a|
  {
    if a == [] {
      assert a + b == b;
    } else {
      assert (a + b)[1..] == a[1..] + b;
      FetchesAppend(a[1..], b);
    }
  }

  lemma NoBindingCallsAppend(a: seq<Call>, b: seq<Call>)
    requires NoBindingCalls(a) && NoBindingCalls(b)
    ensures NoBindingCalls(a + b)
  {
    forall i | 0 <= i < |a + b|
      ensures !(a + b)[i].FindDevice? && !(a + b)[i].CreateDevice?
    {
      if i >= |a| {
        assert (a + b)[i] == b[i - |a|];
      }
    }
  }

  /** Every operation keeps the handle invariant. */
  lemma ApplyPreservesInv(s: State, adapter: Adapter, bus: Bus, op: Op)
    requires Inv(s)
    ensures Inv(Apply(s, adapter, bus, op).state)
  {
  }

  /** One operation issues a `GetProperties` exactly when it turns the fetched
      flag on, and nothing ever turns it off. */
  lemma ApplyFetchCount(s: State, adapter: Adapter, bus: Bus, op: Op)
    requires Inv(s)
    ensures var r := Apply(s, adapter, bus, op);
            (s.cache.fetched ==> r.state.cache.fetched) &&
            Fetches(r.calls) == (if !s.cache.fetched && r.state.cache.fetched then 1 else 0)
  {
    match op
    case Register => BindFetchesNothing(s, adapter);
    case ReadUuids => FetchCountOfEnsureFetched(s, adapter, bus);
    case ReadConnected => FetchCountOfEnsureFetched(s, adapter, bus);
    case ReadTrusted => FetchCountOfEnsureFetched(s, adapter, bus);
    case ReadBlocked => FetchCountOfEnsureFetched(s, adapter, bus);
    case SetTrusted(v) => WriteFetchesNothing(s, adapter, "Trusted", Bool(v));
    case SetBlocked(v) => WriteFetchesNothing(s, adapter, "Blocked", Bool(v));
    case SetAlias(a) => WriteFetchesNothing(s, adapter, "Alias", Text(a));
    case Discover(pattern) => DiscoverFetchesNothing(s, adapter, bus, pattern);
    case CancelDiscoveryOp => assert Fetches(Apply(s, adapter, bus, op).calls) == 0;
    case DisconnectOp => assert Fetches(Apply(s, adapter, bus, op).calls) == 0;
    case Event(_, _) =>
    case _ =>
  }

  lemma WriteFetchesNothing(s: State, adapter: Adapter, property: string, value: Variant)
    ensures Fetches(Write(s, adapter, property, value).calls) == 0
  {
    var b := Bind(s, adapter);
    BindFetchesNothing(s, adapter);
    if b.result {
      FetchesAppend(b.calls, [SetProperty(b.state.binding.value, property, value)]);
    }
  }

  lemma DiscoverFetchesNothing(s: State, adapter: Adapter, bus: Bus, pattern: string)
    ensures Fetches(DeviceSpec.DiscoverServices(s, adapter, bus, pattern).calls) == 0
  {
    var b := Bind(s, adapter);
    BindFetchesNothing(s, adapter);
    if b.result {
      FetchesAppend(b.calls, [Call.DiscoverServices(b.state.binding.value, pattern)]);
    }
  }

  lemma BindFetchesNothing(s: State, adapter: Adapter)
    ensures Fetches(Bind(s, adapter).calls) == 0
  {
    var calls := Bind(s, adapter).calls;
    if s.binding.None? {
      if adapter.findDevice(s.id.address) != "" {
        assert calls == [Call.FindDevice(s.id.address)];
        assert calls[1..] == [];
      } else {
        assert calls == [Call.FindDevice(s.id.address), Call.CreateDevice(s.id.address)];
        assert calls[1..] == [Call.CreateDevice(s.id.address)];
        assert calls[1..][1..] == [];
        assert Fetches(calls[1..]) == 0;
      }
    }
  }

  lemma FetchCountOfEnsureFetched(s: State, adapter: Adapter, bus: Bus)
    requires Inv(s)
    ensures var r := EnsureFetched(s, adapter, bus);
            (s.cache.fetched ==> r.state.cache.fetched) &&
            Fetches(r.calls) == (if !s.cache.fetched && r.state.cache.fetched then 1 else 0)
  {
    var b := Bind(s, adapter);
    BindFetchesNothing(s, adapter);
    if !s.cache.fetched && b.result {
      FetchesAppend(b.calls, [Call.GetProperties(b.state.binding.value)]);
    }
  }

  /** The invariant holds after any sequence of operations. */
  lemma {:induction false} RunPreservesInv(s: State, adapters: seq<Adapter>, bus: Bus, ops: seq<Op>)
    requires |adapters| == |ops|
    requires Inv(s)
    ensures Inv(Run(s, adapters, bus, ops).state)
    decreases |ops|
  {
    if ops != [] {
      ApplyPreservesInv(s, adapters[0], bus, ops[0]);
      RunPreservesInv(Apply(s, adapters[0], bus, ops[0]).state, adapters[1..], bus, ops[1..]);
    }
  }

  lemma ApplyKeepsIdentity(s: State, adapter: Adapter, bus: Bus, op: Op)
    ensures Apply(s, adapter, bus, op).state.id == s.id
  {
  }

  lemma ApplyKeepsBinding(s: State, adapter: Adapter, bus: Bus, op: Op)
    requires s.binding.Some?
    ensures Apply(s, adapter, bus, op).state.binding == s.binding
    ensures NoBindingCalls(Apply(s, adapter, bus, op).calls)
  {
  }

  /** The address and the other fields supplied at construction, except the
      paired flag and the alias, which change events update, never change. */
  lemma {:induction false} RunKeepsIdentity(s: State, adapters: seq<Adapter>, bus: Bus, ops: seq<Op>)
    requires |adapters| == |ops|
    ensures Run(s, adapters, bus, ops).state.id == s.id
    decreases |ops|
  {
    if ops != [] {
      ApplyKeepsIdentity(s, adapters[0], bus, ops[0]);
      RunKeepsIdentity(Apply(s, adapters[0], bus, ops[0]).state, adapters[1..], bus, ops[1..]);
    }
  }

  /** Once bound, a handle stays bound to the same object and never again asks
      the adapter to look up or create its device. */
  lemma {:induction false} RunKeepsBinding(s: State, adapters: seq<Adapter>, bus: Bus, ops: seq<Op>)
    requires |adapters| == |ops|
    requires s.binding.Some?
    ensures Run(s, adapters, bus, ops).state.binding == s.binding
    ensures NoBindingCalls(Run(s, adapters, bus, ops).calls)
    decreases |ops|
  {
    if ops != [] {
      var first := Apply(s, adapters[0], bus, ops[0]);
      ApplyKeepsBinding(s, adapters[0], bus, ops[0]);
      RunKeepsBinding(first.state, adapters[1..], bus, ops[1..]);
      NoBindingCallsAppend(first.calls, Run(first.state, adapters[1..], bus, ops[1..]).calls);
    }
  }

  /** Over any sequence of operations the property snapshot is requested
      exactly once if the sequence turns the fetched flag on, and never
      otherwise; in particular at most once per handle, and never again once
      fetched. */
  lemma {:induction false} RunFetchesAtMostOnce(s: State, adapters: seq<Adapter>, bus: Bus, ops: seq<Op>)
    requires |adapters| == |ops|
    requires Inv(s)
    ensures var t := Run(s, adapters, bus, ops);
            (s.cache.fetched ==> t.state.cache.fetched) &&
            Fetches(t.calls) == (if !s.cache.fetched && t.state.cache.fetched then 1 else 0)
    decreases |ops|
  {
    if ops != [] {
      var first := Apply(s, adapters[0], bus, ops[0]);
      ApplyFetchCount(s, adapters[0], bus, ops[0]);
      ApplyPreservesInv(s, adapters[0], bus, ops[0]);
      RunFetchesAtMostOnce(first.state, adapters[1..], bus, ops[1..]);
      FetchesAppend(first.calls, Run(first.state, adapters[1..], bus, ops[1..]).calls);
    }
  }

  lemma ApplyCacheChangesOnlyByFetchOrEvent(s: State, adapter: Adapter, bus: Bus, op: Op)
    requires !op.IsRemoteRead() && !op.Event?
    ensures Apply(s, adapter, bus, op).state.cache == s.cache
    ensures Apply(s, adapter, bus, op).emitted == []
  {
    match op
    case Register =>
    case SetTrusted(_) =>
    case SetBlocked(_) =>
    case SetAlias(_) =>
    case Discover(_) =>
    case CancelDiscoveryOp =>
    case DisconnectOp =>
    case _ =>
  }

  /** Without remote-only reads and change events the cache, including the
      fetched flag, ends as it began, and nothing is emitted. */
  lemma {:induction false} RunCacheChangesOnlyByFetchOrEvent(s: State, adapters: seq<Adapter>, bus: Bus, ops: seq<Op>)
    requires |adapters| == |ops|
    requires forall i :: 0 <= i < |ops| ==> !ops[i].IsRemoteRead() && !ops[i].Event?
    ensures Run(s, adapters, bus, ops).state.cache == s.cache
    ensures Run(s, adapters, bus, ops).emitted == []
    decreases |ops|
  {
    if ops != [] {
      var first := Apply(s, adapters[0], bus, ops[0]);
      ApplyCacheChangesOnlyByFetchOrEvent(s, adapters[0], bus, ops[0]);
      RunCacheChangesOnlyByFetchOrEvent(first.state, adapters[1..], bus, ops[1..]);
    }
  }

  /** Change events alone never fetch, never bind, never call the remote side
      and never touch the fetched flag or the UUID list; each event for a known
      property emits exactly one notification. */
  lemma {:induction false} EventsNeverFetch(s: State, adapters: seq<Adapter>, bus: Bus, ops: seq<Op>)
    requires |adapters| == |ops|
    requires forall i :: 0 <= i < |ops| ==> ops[i].Event?
    ensures var t := Run(s, adapters, bus, ops);
            t.calls == [] && t.state.cache.fetched == s.cache.fetched && t.state.cache.uuids == s.cache.uuids &&
            t.state.binding == s.binding
    ensures s.binding.Some? ==> |Run(s, adapters, bus, ops).emitted| == KnownEvents(ops)
    decreases |ops|
  {
    if ops != [] {
      assert ops[0].Event?;
      ApplyEvent(s, adapters[0], bus, ops[0].property, ops[0].value);
      EventsNeverFetch(Apply(s, adapters[0], bus, ops[0]).state, adapters[1..], bus, ops[1..]);
    }
  }

  lemma ApplyEvent(s: State, adapter: Adapter, bus: Bus, property: string, value: Variant)
    ensures var r := Apply(s, adapter, bus, Event(property, value));
            r.calls == [] && r.state.cache.fetched == s.cache.fetched && r.state.cache.uuids == s.cache.uuids &&
            r.state.binding == s.binding &&
            (s.binding.Some? ==> |r.emitted| == if property in KnownProperties then 1 else 0)
  {
  }

  /** Two events for the same property: the later value wins, and both
      notifications are emitted in arrival order. */
  lemma LastEventWins(s: State, property: string, v1: Variant, v2: Variant)
    ensures var first := PropertyChanged(s, property, v1);
            var second := PropertyChanged(first.state, property, v2);
            second.state == PropertyChanged(s, property, v2).state &&
            second.emitted == PropertyChanged(s, property, v2).emitted &&
            (property in KnownProperties ==> |first.emitted + second.emitted| == 2)
  {
  }

  /** A write is not reflected in the cache: reading the trusted flag right
      after `setTrusted` on a fetched handle returns the value cached before. */
  lemma WriteIsNotReflected(s: State, adapter: Adapter, bus: Bus, trusted: bool)
    requires Inv(s) && s.cache.fetched
    ensures var w := Apply(s, adapter, bus, SetTrusted(trusted));
            IsTrusted(w.state, adapter, bus).result == s.cache.trusted
  {
  }

  /** While neither lookup nor creation finds the device, every read of a
      remote-only field fails to bind, leaves the state as it was, and tries
      lookup and creation again. */
  lemma {:induction false} FailedBindingIsRetried(s: State, adapters: seq<Adapter>, bus: Bus, n: nat)
    requires Inv(s) && s.binding.None?
    requires |adapters| == n
    requires forall k :: 0 <= k < n ==>
               adapters[k].findDevice(s.id.address) == "" && adapters[k].createDevice(s.id.address) == ""
    ensures var t := Run(s, adapters, bus, seq(n, _ => ReadConnected));
            t.state == s && t.emitted == [] &&
            |t.calls| == 2 * n &&
            forall k :: 0 <= k < n ==>
              t.calls[2 * k] == Call.FindDevice(s.id.address) && t.calls[2 * k + 1] == Call.CreateDevice(s.id.address)
    decreases n
  {
    if n > 0 {
      var ops := seq(n, _ => ReadConnected);
      assert ops[1..] == seq(n - 1, _ => ReadConnected);
      assert adapters[0].findDevice(s.id.address) == "";
      forall k | 0 <= k < n - 1
        ensures adapters[1..][k].findDevice(s.id.address) == "" && adapters[1..][k].createDevice(s.id.address) == ""
      {
        assert adapters[1..][k] == adapters[k + 1];
      }
      FailedBindingIsRetried(s, adapters[1..], bus, n - 1);
      var rest := Run(s, adapters[1..], bus, ops[1..]);
      var t := Run(s, adapters, bus, ops);
      assert t.calls == [Call.FindDevice(s.id.address), Call.CreateDevice(s.id.address)] + rest.calls;
      forall k | 0 <= k < n
        ensures t.calls[2 * k] == Call.FindDevice(s.id.address) && t.calls[2 * k + 1] == Call.CreateDevice(s.id.address)
      {
        if k > 0 {
          assert t.calls[2 * k] == rest.calls[2 * (k - 1)];
          assert t.calls[2 * k + 1] == rest.calls[2 * (k - 1) + 1];
        }
      }
    }
  }

  /** A failed binding is not final: when the adapter finds nothing at the
      first read but knows the device at the second, the second read binds to
      it and fetches the snapshot. */
  lemma FailedBindingCanLaterSucceed(s: State, before: Adapter, after: Adapter, bus: Bus, path: ObjectPath)
    requires Inv(s) && s.binding.None?
    requires before.findDevice(s.id.address) == "" && before.createDevice(s.id.address) == ""
    requires after.findDevice(s.id.address) == path && path != ""
    ensures var t := Run(s, [before, after], bus, [ReadConnected, ReadConnected]);
            t.state.binding == Some(path) && t.state.cache.fetched &&
            t.calls == [Call.FindDevice(s.id.address), Call.CreateDevice(s.id.address),
                        Call.FindDevice(s.id.address), Call.GetProperties(path)]
  {
  }

  /** A handle whose device the adapter already knows, with a snapshot saying
      connected and neither trusted nor blocked: the first remote-only read
      binds with one lookup, reads the snapshot once and answers connected; a
      following read of the trusted flag issues no further call. */
  lemma FirstReadFetchesOnce(adapter: Adapter, bus: Bus, path: ObjectPath)
    requires path != ""
    requires adapter.findDevice("AA:BB:CC:DD:EE:FF") == path
    requires bus.getProperties(path) ==
             map["Connected" := Bool(true), "Trusted" := Bool(false), "Blocked" := Bool(false), "UUIDs" := List([])]
    ensures var s := NewDevice("AA:BB:CC:DD:EE:FF", "", 0, "", false, "", false);
            var first := IsConnected(s, adapter, bus);
            var second := IsTrusted(first.state, adapter, bus);
            first.result && first.state.cache.fetched &&
            first.calls == [Call.FindDevice("AA:BB:CC:DD:EE:FF"), Call.GetProperties(path)] &&
            !second.result && second.calls == []
  {
  }
}
