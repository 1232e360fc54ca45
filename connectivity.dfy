/**
 * The connectivity bridge of AndroidChannel as pure functions: what the
 * wrapped (delegate) channel is asked to do, one platform event at a time and
 * over whole event sequences, and what happens to the single "unregister"
 * action across shutdown calls.  The classes in module AndroidChannels are
 * proved to follow these functions step by step; the lemmas here state what
 * the adapter promises over any trace.
 */
module Connectivity {
  import opened Options

  /** A call the adapter makes on the delegate channel. */
  datatype Call = EnterIdle | ResetConnectBackoff | Shutdown | ShutdownNow

  /** The platform's description of the active network (absent is `None`). */
  datatype NetworkInfo = NetworkInfo(isConnected: bool)

  /** The platform's answer to "what is the active network?". */
  datatype Query = SecurityDenied | Answer(active: Option<NetworkInfo>)

  /** The platform context handed to the channel: its API level and its query answer. */
  datatype Context = Context(sdkInt: int, query: Query)

  /** Build.VERSION_CODES.N, the first API level with default-network callbacks. */
  const SDK_N: int := 24

  /** "The active network is non-null and connected". */
  predicate IsConnected(info: Option<NetworkInfo>)
  {
    info.Some? && info.value.isConnected
  }

  /** Number of occurrences of `x` in `s`. */
  function Occurrences<T(==)>(s: seq<T>, x: T): (n: nat)
    ensures n <= |s|
    ensures n == 0 <==> x !in s
    decreases |s|
  {
    if s == [] then 0 else (if s[0] == x then 1 else 0) + Occurrences(s[1..], x)
  }

  lemma {:induction false} OccurrencesConcat<T>(a: seq<T>, b: seq<T>, x: T)
    ensures Occurrences(a + b, x) == Occurrences(a, x) + Occurrences(b, x)
    decreases |a|
  {
    if a == [] {
      assert a + b == b;
    } else {
      assert (a + b)[0] == a[0];
      assert (a + b)[1..] == a[1..] + b;
      OccurrencesConcat(a[1..], b, x);
    }
  }

  /** The remembered flag after an observer has handled events, and the calls it made. */
  datatype Observed = Observed(isConnected: bool, calls: seq<Call>)

  // ---------------------------------------------------------------------------
  // Modern backend: default-network callbacks (API level 24 and later)
  // ---------------------------------------------------------------------------

  datatype ModernEvent = Available | Lost

  /** One callback of the modern observer, from remembered state `isConnected`. */
  function ModernStep(isConnected: bool, e: ModernEvent): (r: Observed)
    ensures r.isConnected == e.Available?
    ensures |r.calls| == (if e.Available? then 1 else 0)
    ensures EnterIdle in r.calls <==> e.Available? && isConnected
    ensures ResetConnectBackoff in r.calls <==> e.Available? && !isConnected
  {
    match e
    case Available => Observed(true, if isConnected then [EnterIdle] else [ResetConnectBackoff])
    case Lost => Observed(false, [])
  }

  /** The modern observer handling `events` in order, starting from `isConnected`. */
  function ModernRun(isConnected: bool, events: seq<ModernEvent>): (r: Observed)
    ensures |r.calls| <= |events|
    decreases |events|
  {
    if events == [] then Observed(isConnected, [])
    else
      var first := ModernStep(isConnected, events[0]);
      var rest := ModernRun(first.isConnected, events[1..]);
      Observed(rest.isConnected, first.calls + rest.calls)
  }

  /** Handling `a + b` is handling `a`, then `b` from where `a` left the flag. */
  lemma {:induction false} ModernRunSplit(isConnected: bool, a: seq<ModernEvent>, b: seq<ModernEvent>)
    ensures var ra := ModernRun(isConnected, a);
            var rb := ModernRun(ra.isConnected, b);
            ModernRun(isConnected, a + b) == Observed(rb.isConnected, ra.calls + rb.calls)
    decreases |a|
  {
    if a == [] {
      assert a + b == b;
    } else {
      var ab := a + b;
      assert ab[0] == a[0];
      assert ab[1..] == a[1..] + b;
      var c1 := ModernStep(isConnected, a[0]).isConnected;
      ModernRunSplit(c1, a[1..], b);
    }
  }

  /**
   * Event `k` extends the log by exactly the call its own step makes from the
   * flag the earlier events left (EnterIdle when that flag was "connected",
   * ResetConnectBackoff when it was not, nothing for Lost), and sets the flag
   * as that step does.
   */
  lemma {:induction false} ModernEventAt(isConnected: bool, events: seq<ModernEvent>, k: nat)
    requires k < |events|
    ensures var before := ModernRun(isConnected, events[..k]);
            var step := ModernStep(before.isConnected, events[k]);
            ModernRun(isConnected, events[..k + 1]) == Observed(step.isConnected, before.calls + step.calls)
  {
    assert events[..k + 1] == events[..k] + [events[k]];
    ModernRunSplit(isConnected, events[..k], [events[k]]);
  }

  /** After at least one event the flag records the last one; with none it is the seeded value. */
  lemma {:induction false} ModernRunFinal(isConnected: bool, events: seq<ModernEvent>)
    ensures ModernRun(isConnected, events).isConnected
              == if events == [] then isConnected else events[|events| - 1] == Available
    decreases |events|
  {
    if events != [] {
      ModernRunFinal(ModernStep(isConnected, events[0]).isConnected, events[1..]);
    }
  }

  /** Every Available event, and nothing else, makes exactly one delegate call. */
  lemma {:induction false} ModernRunLength(isConnected: bool, events: seq<ModernEvent>)
    ensures |ModernRun(isConnected, events).calls| == Occurrences(events, Available)
    decreases |events|
  {
    if events != [] {
      ModernRunLength(ModernStep(isConnected, events[0]).isConnected, events[1..]);
    }
  }

  /** The modern observer only asks for recovery: it never shuts the delegate down. */
  lemma {:induction false} ModernRunRecoveryOnly(isConnected: bool, events: seq<ModernEvent>)
    ensures forall c | c in ModernRun(isConnected, events).calls :: c == EnterIdle || c == ResetConnectBackoff
    decreases |events|
  {
    if events != [] {
      var first := ModernStep(isConnected, events[0]);
      ModernRunRecoveryOnly(first.isConnected, events[1..]);
      assert first.calls == [] || first.calls == [EnterIdle] || first.calls == [ResetConnectBackoff];
    }
  }

  /**
   * A backoff reset needs a loss before it: there are at most as many
   * ResetConnectBackoff calls as Lost events, plus one when the observer
   * started out disconnected.
   */
  lemma {:induction false} ModernResetsFollowLosses(isConnected: bool, events: seq<ModernEvent>)
    ensures Occurrences(ModernRun(isConnected, events).calls, ResetConnectBackoff)
              <= Occurrences(events, Lost) + (if isConnected then 0 else 1)
    decreases |events|
  {
    if events != [] {
      var first := ModernStep(isConnected, events[0]);
      var rest := ModernRun(first.isConnected, events[1..]);
      assert ModernRun(isConnected, events).calls == first.calls + rest.calls;
      ModernResetsFollowLosses(first.isConnected, events[1..]);
      OccurrencesConcat(first.calls, rest.calls, ResetConnectBackoff);
      assert Occurrences(events, Lost) == (if events[0] == Lost then 1 else 0) + Occurrences(events[1..], Lost);
      if events[0] == Lost {
        assert first.calls == [];
      } else {
        assert first.isConnected;
        assert Occurrences(first.calls, ResetConnectBackoff) <= 1;
      }
    }
  }

  /** Losses alone never reach the delegate. */
  lemma {:induction false} ModernLossesAreSilent(isConnected: bool, events: seq<ModernEvent>)
    requires Available !in events
    ensures ModernRun(isConnected, events) == Observed(if events == [] then isConnected else false, [])
  {
    ModernRunLength(isConnected, events);
    ModernRunFinal(isConnected, events);
    if events != [] {
      assert events[|events| - 1] in events;
    }
  }

  // ---------------------------------------------------------------------------
  // Legacy backend: connectivity broadcasts (API levels below 24)
  // ---------------------------------------------------------------------------

  /** What the receiver's query reports at each broadcast, given the active network then. */
  function Reports(activeNetworks: seq<Option<NetworkInfo>>): seq<bool>
  {
    seq(|activeNetworks|, i requires 0 <= i < |activeNetworks| => IsConnected(activeNetworks[i]))
  }

  /** One broadcast: the flag was `wasConnected`, the query now says `nowConnected`. */
  function LegacyStep(wasConnected: bool, nowConnected: bool): (r: Observed)
    ensures r.isConnected == nowConnected
    ensures |r.calls| == (if nowConnected && !wasConnected then 1 else 0)
    ensures ResetConnectBackoff in r.calls <==> nowConnected && !wasConnected
    ensures EnterIdle !in r.calls
  {
    Observed(nowConnected, if nowConnected && !wasConnected then [ResetConnectBackoff] else [])
  }

  /** The legacy receiver handling broadcasts whose queries report `reports`, in order. */
  function LegacyRun(isConnected: bool, reports: seq<bool>): (r: Observed)
    ensures r.isConnected == if reports == [] then isConnected else reports[|reports| - 1]
    ensures |r.calls| <= |reports|
    ensures forall i | 0 <= i < |r.calls| :: r.calls[i] == ResetConnectBackoff
    decreases |reports|
  {
    if reports == [] then Observed(isConnected, [])
    else
      var first := LegacyStep(isConnected, reports[0]);
      var rest := LegacyRun(first.isConnected, reports[1..]);
      Observed(rest.isConnected, first.calls + rest.calls)
  }

  /** Handling `a + b` is handling `a`, then `b` from where `a` left the flag. */
  lemma {:induction false} LegacyRunSplit(isConnected: bool, a: seq<bool>, b: seq<bool>)
    ensures var ra := LegacyRun(isConnected, a);
            var rb := LegacyRun(ra.isConnected, b);
            LegacyRun(isConnected, a + b) == Observed(rb.isConnected, ra.calls + rb.calls)
    decreases |a|
  {
    if a == [] {
      assert a + b == b;
    } else {
      var ab := a + b;
      assert ab[0] == a[0];
      assert ab[1..] == a[1..] + b;
      LegacyRunSplit(a[0], a[1..], b);
    }
  }

  /** Broadcast `k` extends the log and sets the flag exactly as its own step does. */
  lemma {:induction false} LegacyRunStep(isConnected: bool, reports: seq<bool>, k: nat)
    requires k < |reports|
    ensures var before := LegacyRun(isConnected, reports[..k]);
            var step := LegacyStep(before.isConnected, reports[k]);
            LegacyRun(isConnected, reports[..k + 1]) == Observed(step.isConnected, before.calls + step.calls)
  {
    assert reports[..k + 1] == reports[..k] + [reports[k]];
    LegacyRunSplit(isConnected, reports[..k], [reports[k]]);
  }

  /**
   * Broadcast `k` is edge-triggered: it adds one ResetConnectBackoff exactly
   * when it reports "connected" and the broadcast before it (or, for the first,
   * the initial flag) did not, and adds nothing otherwise.
   */
  lemma {:induction false} LegacyBroadcastAt(isConnected: bool, reports: seq<bool>, k: nat)
    requires k < |reports|
    ensures var previous := if k == 0 then isConnected else reports[k - 1];
            LegacyRun(isConnected, reports[..k + 1])
              == Observed(reports[k], LegacyRun(isConnected, reports[..k]).calls
                                      + (if reports[k] && !previous then [ResetConnectBackoff] else []))
  {
    assert reports[..k + 1] == reports[..k] + [reports[k]];
    LegacyRunSplit(isConnected, reports[..k], [reports[k]]);
    if k > 0 {
      assert reports[..k][k - 1] == reports[k - 1];
    }
  }

  /**
   * A backoff reset needs a disconnected report before it: at most as many
   * resets as "not connected" reports, plus one when starting disconnected.
   */
  lemma {:induction false} LegacyResetsFollowDisconnects(isConnected: bool, reports: seq<bool>)
    ensures |LegacyRun(isConnected, reports).calls|
              <= Occurrences(reports, false) + (if isConnected then 0 else 1)
    decreases |reports|
  {
    if reports != [] {
      LegacyResetsFollowDisconnects(reports[0], reports[1..]);
      assert reports == [reports[0]] + reports[1..];
      OccurrencesConcat([reports[0]], reports[1..], false);
    }
  }

  /** While the device stays connected, repeated broadcasts make no call. */
  lemma {:induction false} LegacySteadyConnectionIsSilent(reports: seq<bool>)
    requires forall i | 0 <= i < |reports| :: reports[i]
    ensures LegacyRun(true, reports) == Observed(true, [])
    decreases |reports|
  {
    if reports != [] {
      LegacySteadyConnectionIsSilent(reports[1..]);
    }
  }

  // ---------------------------------------------------------------------------
  // Configuration and the unregister-once slot
  // ---------------------------------------------------------------------------

  /** Which platform registration the stored unregister action undoes. */
  datatype Registration = DefaultCallbackRegistration | ReceiverRegistration

  /** How network monitoring ended up configured at construction. */
  datatype Monitoring = Unmonitored | Modern(initiallyConnected: bool) | Legacy

  /** The outcome of construction for a channel given `context`. */
  function Configure(context: Option<Context>): (m: Monitoring)
    ensures m.Unmonitored? <==> context.None? || context.value.query.SecurityDenied?
    ensures m.Modern? <==> context.Some? && context.value.query.Answer? && context.value.sdkInt >= SDK_N
    ensures m.Modern? ==> m.initiallyConnected == IsConnected(context.value.query.active)
  {
    match context
    case None => Unmonitored
    case Some(ctx) =>
      match ctx.query
      case SecurityDenied => Unmonitored
      case Answer(currentNetwork) =>
        if ctx.sdkInt >= SDK_N then Modern(IsConnected(currentNetwork)) else Legacy
  }

  /** The unregister action stored for a configuration, if any. */
  function StoredAction(m: Monitoring): (a: Option<Registration>)
    ensures a.None? <==> m.Unmonitored?
    ensures a == Some(DefaultCallbackRegistration) <==> m.Modern?
  {
    match m
    case Unmonitored => None
    case Modern(_) => Some(DefaultCallbackRegistration)
    case Legacy => Some(ReceiverRegistration)
  }

  /** The slot holding the unregister action, and how many times an action has run. */
  datatype Slot = Slot(action: Option<Registration>, runs: nat)

  /** One unregisterNetworkListener: run and clear the stored action, if there is one. */
  function Unregister(s: Slot): (r: Slot)
    ensures r.action == None
    ensures r.runs == s.runs + (if s.action.Some? then 1 else 0)
  {
    if s.action.Some? then Slot(None, s.runs + 1) else s
  }

  datatype ShutdownKind = Graceful | Forced

  /** The delegate call a shutdown of this kind forwards to. */
  function ShutdownCall(k: ShutdownKind): Call
  {
    match k
    case Graceful => Shutdown
    case Forced => ShutdownNow
  }

  /** The slot and the delegate calls after a sequence of shutdown / shutdownNow calls. */
  datatype ShutdownOutcome = ShutdownOutcome(slot: Slot, calls: seq<Call>)

  /**
   * Any sequence of shutdowns runs the stored action at most once, exactly
   * once when one was stored and at least one shutdown happened, leaves the
   * slot empty, and forwards every shutdown to the delegate, in order.
   */
  function ShutdownTrace(s: Slot, kinds: seq<ShutdownKind>): (r: ShutdownOutcome)
    ensures r.slot.action == if kinds == [] then s.action else None
    ensures r.slot.runs == s.runs + (if kinds != [] && s.action.Some? then 1 else 0)
    ensures |r.calls| == |kinds|
    ensures forall i | 0 <= i < |kinds| :: r.calls[i] == ShutdownCall(kinds[i])
    decreases |kinds|
  {
    if kinds == [] then ShutdownOutcome(s, [])
    else
      var rest := ShutdownTrace(Unregister(s), kinds[1..]);
      ShutdownOutcome(rest.slot, [ShutdownCall(kinds[0])] + rest.calls)
  }

  /** One more shutdown after `kinds` is one more `Unregister` step and one more forwarded call. */
  lemma ShutdownTraceSnoc(s: Slot, kinds: seq<ShutdownKind>, k: ShutdownKind)
    ensures var r := ShutdownTrace(s, kinds);
            ShutdownTrace(s, kinds + [k]) == ShutdownOutcome(Unregister(r.slot), r.calls + [ShutdownCall(k)])
  {
    // both sides agree on the slot, the length and every call by ShutdownTrace's contract
  }

  /**
   * A channel built without a context, or whose initial network query was
   * refused, stores no action, so no sequence of shutdowns ever unregisters.
   */
  lemma UnmonitoredNeverUnregisters(context: Option<Context>, kinds: seq<ShutdownKind>)
    requires context.None? || context.value.query.SecurityDenied?
    ensures ShutdownTrace(Slot(StoredAction(Configure(context)), 0), kinds).slot.runs == 0
  {
  }

  /** A monitored channel unregisters exactly once, whatever shutdowns follow. */
  lemma MonitoredUnregistersOnce(context: Context, kinds: seq<ShutdownKind>)
    requires context.query.Answer? && kinds != []
    ensures ShutdownTrace(Slot(StoredAction(Configure(Some(context))), 0), kinds).slot == Slot(None, 1)
  {
  }
}
