/**
 * AndroidChannel and its two network observers as objects whose fields the
 * event handlers and shutdown calls update in place.  Every method is tied to
 * the matching step function of module Connectivity.
 */
module AndroidChannels {
  import opened Options
  import opened Connectivity

  /**
   * The wrapped channel, seen only through the calls the adapter makes on it:
   * each call is appended to `log`.
   */
  class RecordingChannel {
    var log: seq<Call>

    constructor ()
      ensures log == []
    {
      log := [];
    }

    method EnterIdle()
      modifies this
      ensures log == old(log) + [Call.EnterIdle]
    {
      log := log + [Call.EnterIdle];
    }

    method ResetConnectBackoff()
      modifies this
      ensures log == old(log) + [Call.ResetConnectBackoff]
    {
      log := log + [Call.ResetConnectBackoff];
    }

    method Shutdown()
      modifies this
      ensures log == old(log) + [Call.Shutdown]
    {
      log := log + [Call.Shutdown];
    }

    method ShutdownNow()
      modifies this
      ensures log == old(log) + [Call.ShutdownNow]
    {
      log := log + [Call.ShutdownNow];
    }
  }

  /** The observer of default-network changes, used from API level 24 on. */
  class DefaultNetworkCallback {
    const delegate: RecordingChannel
    var isConnected: bool

    constructor (delegate: RecordingChannel, isConnected: bool)
      ensures this.delegate == delegate && this.isConnected == isConnected
    {
      this.delegate := delegate;
      this.isConnected := isConnected;
    }

    /** A default network became available. */
    method OnAvailable()
      modifies this, delegate
      ensures isConnected == ModernStep(old(isConnected), Available).isConnected
      ensures delegate.log == old(delegate.log) + ModernStep(old(isConnected), Available).calls
    {
      if isConnected {
        delegate.EnterIdle();
      } else {
        delegate.ResetConnectBackoff();
      }
      isConnected := true;
    }

    /** The default network was lost: only the remembered flag changes. */
    method OnLost()
      modifies this
      ensures isConnected == ModernStep(old(isConnected), Lost).isConnected
      ensures delegate.log == old(delegate.log) + ModernStep(old(isConnected), Lost).calls
    {
      isConnected := false;
    }
  }

  /** The receiver of connectivity broadcasts, used below API level 24. */
  class NetworkReceiver {
    const delegate: RecordingChannel
    var isConnected: bool

    constructor (delegate: RecordingChannel)
      ensures this.delegate == delegate && !isConnected
    {
      this.delegate := delegate;
      isConnected := false;
    }

    /** A connectivity broadcast; `activeNetwork` is what the query returns now. */
    method OnReceive(activeNetwork: Option<NetworkInfo>)
      modifies this, delegate
      ensures isConnected == LegacyStep(old(isConnected), IsConnected(activeNetwork)).isConnected
      ensures delegate.log == old(delegate.log) + LegacyStep(old(isConnected), IsConnected(activeNetwork)).calls
    {
      var wasConnected := isConnected;
      isConnected := IsConnected(activeNetwork);
      if isConnected && !wasConnected {
        delegate.ResetConnectBackoff();
      }
    }
  }

  /**
   * The channel adapter.  `callback` or `receiver` is the observer registered
   * with the platform, if monitoring was configured; `unregisterAction` is the
   * stored action that undoes that registration, and `unregisterRuns` counts
   * how many times a stored action has been run.
   */
  class AndroidChannel {
    const delegate: RecordingChannel
    const context: Option<Context>
    const callback: DefaultNetworkCallback?
    const receiver: NetworkReceiver?
    var unregisterAction: Option<Registration>
    var unregisterRuns: nat

    function SlotOf(): Slot
      reads this
    {
      Slot(unregisterAction, unregisterRuns)
    }

    /** Construction, including the network-monitoring configuration. */
    constructor (delegate: RecordingChannel, context: Option<Context>)
      ensures this.delegate == delegate && this.context == context
      ensures SlotOf() == Slot(StoredAction(Configure(context)), 0)
      ensures Configure(context).Modern? <==> callback != null
      ensures Configure(context).Legacy? <==> receiver != null
      ensures callback != null ==> fresh(callback) && callback.delegate == delegate
                                   && callback.isConnected == Configure(context).initiallyConnected
      ensures receiver != null ==> fresh(receiver) && receiver.delegate == delegate && !receiver.isConnected
    {
      this.delegate := delegate;
      this.context := context;
      unregisterRuns := 0;
      if context.None? {
        callback, receiver, unregisterAction := null, null, None;
      } else {
        match context.value.query
        case SecurityDenied =>
          // the warning is logged and the channel stays a plain passthrough
          callback, receiver, unregisterAction := null, null, None;
        case Answer(currentNetwork) =>
          if context.value.sdkInt >= SDK_N {
            var isConnected := IsConnected(currentNetwork);
            callback := new DefaultNetworkCallback(delegate, isConnected);
            receiver := null;
            unregisterAction := Some(DefaultCallbackRegistration);
          } else {
            callback := null;
            receiver := new NetworkReceiver(delegate);
            unregisterAction := Some(ReceiverRegistration);
          }
      }
    }

    /** Run the stored unregister action, if any, and clear it. */
    method UnregisterNetworkListener()
      modifies this
      ensures unregisterAction == None
      ensures unregisterRuns == old(unregisterRuns) + (if old(unregisterAction).Some? then 1 else 0)
      ensures SlotOf() == Unregister(old(SlotOf()))
    {
      if unregisterAction.Some? {
        unregisterRuns := unregisterRuns + 1;
        unregisterAction := None;
      }
    }

    method Shutdown()
      modifies this, delegate
      ensures SlotOf() == Unregister(old(SlotOf()))
      ensures delegate.log == old(delegate.log) + [ShutdownCall(Graceful)]
    {
      UnregisterNetworkListener();
      delegate.Shutdown();
    }

    method ShutdownNow()
      modifies this, delegate
      ensures SlotOf() == Unregister(old(SlotOf()))
      ensures delegate.log == old(delegate.log) + [ShutdownCall(Forced)]
    {
      UnregisterNetworkListener();
      delegate.ShutdownNow();
    }
  }

  /**
   * The platform delivering `events` to a registered modern observer, one
   * callback after another: the flag and the delegate log follow `ModernRun`.
   */
  method DeliverModernEvents(callback: DefaultNetworkCallback, events: seq<ModernEvent>)
    modifies callback, callback.delegate
    ensures callback.isConnected == ModernRun(old(callback.isConnected), events).isConnected
    ensures callback.delegate.log
              == old(callback.delegate.log) + ModernRun(old(callback.isConnected), events).calls
  {
    ghost var start, log0 := callback.isConnected, callback.delegate.log;
    var i := 0;
    while i < |events|
      invariant 0 <= i <= |events|
      invariant callback.isConnected == ModernRun(start, events[..i]).isConnected
      invariant callback.delegate.log == log0 + ModernRun(start, events[..i]).calls
    {
      ModernEventAt(start, events, i);
      match events[i] {
        case Available => callback.OnAvailable();
        case Lost => callback.OnLost();
      }
      i := i + 1;
    }
    assert events[..i] == events;
  }

  /**
   * The platform delivering connectivity broadcasts to a registered legacy
   * receiver; `activeNetworks[i]` is what the query returns at broadcast `i`.
   * The flag and the delegate log follow `LegacyRun` over the query results.
   */
  method DeliverBroadcasts(receiver: NetworkReceiver, activeNetworks: seq<Option<NetworkInfo>>)
    modifies receiver, receiver.delegate
    ensures receiver.isConnected == LegacyRun(old(receiver.isConnected), Reports(activeNetworks)).isConnected
    ensures receiver.delegate.log
              == old(receiver.delegate.log) + LegacyRun(old(receiver.isConnected), Reports(activeNetworks)).calls
  {
    var reports := Reports(activeNetworks);
    ghost var start, log0 := receiver.isConnected, receiver.delegate.log;
    var i := 0;
    while i < |activeNetworks|
      invariant 0 <= i <= |activeNetworks|
      invariant receiver.isConnected == LegacyRun(start, reports[..i]).isConnected
      invariant receiver.delegate.log == log0 + LegacyRun(start, reports[..i]).calls
    {
      LegacyRunStep(start, reports, i);
      assert reports[i] == IsConnected(activeNetworks[i]);
      receiver.OnReceive(activeNetworks[i]);
      i := i + 1;
    }
    assert reports[..i] == reports;
  }

  /**
   * Any sequence of `shutdown` (Graceful) and `shutdownNow` (Forced) calls on
   * one channel: the slot and the delegate log follow `ShutdownTrace`, so the
   * stored unregister action runs at most once whatever the sequence.
   */
  method ShutdownAll(channel: AndroidChannel, kinds: seq<ShutdownKind>)
    modifies channel, channel.delegate
    ensures channel.SlotOf() == ShutdownTrace(old(channel.SlotOf()), kinds).slot
    ensures channel.delegate.log
              == old(channel.delegate.log) + ShutdownTrace(old(channel.SlotOf()), kinds).calls
  {
    ghost var slot0, log0 := channel.SlotOf(), channel.delegate.log;
    var i := 0;
    while i < |kinds|
      invariant 0 <= i <= |kinds|
      invariant ShutdownTrace(slot0, kinds[..i]).slot == channel.SlotOf()
      invariant channel.delegate.log == log0 + ShutdownTrace(slot0, kinds[..i]).calls
    {
      ShutdownTraceSnoc(slot0, kinds[..i], kinds[i]);
      assert kinds[..i + 1] == kinds[..i] + [kinds[i]];
      match kinds[i] {
        case Graceful => channel.Shutdown();
        case Forced => channel.ShutdownNow();
      }
      i := i + 1;
    }
    assert kinds[..i] == kinds;
  }
}
