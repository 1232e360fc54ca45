/**
 * Clients of the AndroidChannel classes that walk the adapter's documented
 * scenarios; each assertion follows from the method contracts alone.
 */
module Scenarios {
  import opened Options
  import opened Connectivity
  import opened AndroidChannels

  /** Started with no network: a new network resets the backoff and does not enter idle. */
  method DisconnectedThenAvailable()
  {
    var delegate := new RecordingChannel();
    var channel := new AndroidChannel(delegate, Some(Context(SDK_N, Answer(None))));
    var callback := channel.callback;
    assert callback != null && !callback.isConnected;
    callback.OnAvailable();
    assert delegate.log == [Call.ResetConnectBackoff];
  }

  /** Started connected: a network handoff nudges the delegate out of idle. */
  method ConnectedThenAvailable()
  {
    var delegate := new RecordingChannel();
    var channel := new AndroidChannel(delegate, Some(Context(SDK_N + 4, Answer(Some(NetworkInfo(true))))));
    var callback := channel.callback;
    callback.OnAvailable();
    assert delegate.log == [Call.EnterIdle];
    callback.OnLost();
    callback.OnAvailable();
    assert delegate.log == [Call.EnterIdle, Call.ResetConnectBackoff];
  }

  /** Two losses in a row make no delegate call. */
  method LostTwice()
  {
    var delegate := new RecordingChannel();
    var channel := new AndroidChannel(delegate, Some(Context(SDK_N, Answer(Some(NetworkInfo(true))))));
    var callback := channel.callback;
    callback.OnLost();
    callback.OnLost();
    assert delegate.log == [] && !callback.isConnected;
  }

  /** Legacy broadcasts are edge-triggered: "still connected" makes no call. */
  method LegacyStillConnected()
  {
    var delegate := new RecordingChannel();
    var channel := new AndroidChannel(delegate, Some(Context(SDK_N - 1, Answer(Some(NetworkInfo(true))))));
    var receiver := channel.receiver;
    assert receiver != null && channel.callback == null;
    receiver.OnReceive(Some(NetworkInfo(true)));
    assert delegate.log == [Call.ResetConnectBackoff];
    receiver.OnReceive(Some(NetworkInfo(true)));
    assert delegate.log == [Call.ResetConnectBackoff];
    receiver.OnReceive(None);
    receiver.OnReceive(Some(NetworkInfo(true)));
    assert delegate.log == [Call.ResetConnectBackoff, Call.ResetConnectBackoff];
  }

  /** Shutting down twice unregisters once and forwards both shutdowns. */
  method ShutdownTwice()
  {
    var delegate := new RecordingChannel();
    var channel := new AndroidChannel(delegate, Some(Context(SDK_N, Answer(None))));
    assert channel.unregisterAction.Some?;
    channel.Shutdown();
    channel.ShutdownNow();
    assert channel.unregisterRuns == 1 && channel.unregisterAction == None;
    assert delegate.log == [Call.Shutdown, Call.ShutdownNow];
  }

  /** Without a context, or when the query is refused, shutdown never unregisters. */
  method UnmonitoredShutdown(refused: bool)
  {
    var delegate := new RecordingChannel();
    var context := if refused then Some(Context(SDK_N, SecurityDenied)) else None;
    var channel := new AndroidChannel(delegate, context);
    assert channel.callback == null && channel.receiver == null;
    channel.Shutdown();
    assert channel.unregisterRuns == 0;
    assert delegate.log == [Call.Shutdown];
  }
}
