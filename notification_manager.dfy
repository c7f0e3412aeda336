/**
 * monitor-notifier's `NotificationManager`: the registered channels, in
 * registration order, and which of them a notification is sent through.
 *
 * A channel is its name and whether it is enabled; the HTTP and SMTP
 * sending itself is not modelled. Each channel's answer to a send is a
 * parameter, and the channels a call sends through are returned.
 */
module NotificationManagement {
  import opened MonitorCore

  datatype Channel = Channel(name: string, enabled: bool)

  /** The enabled channels, in order. */
  function Enabled(channels: seq<Channel>): (r: seq<Channel>)
    ensures |r| <= |channels|
    ensures forall c :: c in r <==> c in channels && c.enabled
  {
    if channels == [] then []
    else
      var rest := Enabled(channels[..|channels| - 1]);
      var last := channels[|channels| - 1];
      assert channels == channels[..|channels| - 1] + [last];
      if last.enabled then rest + [last] else rest
  }

  /** The names of the enabled channels, in order. */
  function Names(channels: seq<Channel>): (r: seq<string>)
    ensures |r| == |channels|
    ensures forall i :: 0 <= i < |channels| ==> r[i] == channels[i].name
  {
    seq(|channels|, i requires 0 <= i < |channels| => channels[i].name)
  }

  /** The first position holding an enabled channel called `name`. */
  function FirstEnabled(channels: seq<Channel>, name: string): (r: Option<nat>)
    ensures r.Some? ==> r.value < |channels| && channels[r.value].name == name && channels[r.value].enabled
    ensures r.Some? ==> forall j :: 0 <= j < r.value ==> !(channels[j].name == name && channels[j].enabled)
    ensures r.None? ==> forall j :: 0 <= j < |channels| ==> !(channels[j].name == name && channels[j].enabled)
  {
    if channels == [] then None
    else if channels[0].name == name && channels[0].enabled then Some(0)
    else
      match FirstEnabled(channels[1..], name)
      case Some(k) => Some(k + 1)
      case None => None
  }

  class NotificationManager {
    var channels: seq<Channel>

    constructor ()
      ensures channels == []
    {
      channels := [];
    }

    /** `add_channel`: the channel goes last. */
    method AddChannel(c: Channel)
      modifies this
      ensures channels == old(channels) + [c]
    {
      channels := channels + [c];
    }

    /**
     * `send_all`: every enabled channel is tried once, in order, whatever
     * the earlier ones answered; disabled ones are skipped and the call
     * always succeeds.
     */
    method SendAll(answers: seq<Result<()>>) returns (r: Result<()>, tried: seq<Channel>)
      requires |answers| == |channels|
      ensures r == Ok(())
      ensures tried == Enabled(channels)
    {
      tried := [];
      var i := 0;
      while i < |channels|
        invariant 0 <= i <= |channels|
        invariant tried == Enabled(channels[..i])
      {
        assert channels[..i + 1][..i] == channels[..i];
        if channels[i].enabled {
          var answer := answers[i];
          tried := tried + [channels[i]];
        }
        i := i + 1;
      }
      assert channels[..i] == channels;
      r := Ok(());
    }

    /**
     * `send_to_channel`: the answer of the first enabled channel with that
     * name, or an error when there is none.
     */
    method SendToChannel(name: string, answers: seq<Result<()>>) returns (r: Result<()>)
      requires |answers| == |channels|
      ensures FirstEnabled(channels, name).Some? ==> r == answers[FirstEnabled(channels, name).value]
      ensures FirstEnabled(channels, name).None? ==> r == Err(Other("Channel " + name + " not found or disabled"))
    {
      var i := 0;
      while i < |channels|
        invariant 0 <= i <= |channels|
        invariant forall j :: 0 <= j < i ==> !(channels[j].name == name && channels[j].enabled)
      {
        if channels[i].name == name && channels[i].enabled {
          FirstIsFirst(channels, name, i);
          return answers[i];
        }
        i := i + 1;
      }
      r := Err(Other("Channel " + name + " not found or disabled"));
    }

    /** `get_enabled_channels`: the enabled channels' names, in registration order. */
    method GetEnabledChannels() returns (names: seq<string>)
      ensures names == Names(Enabled(channels))
    {
      names := [];
      var i := 0;
      while i < |channels|
        invariant 0 <= i <= |channels|
        invariant names == Names(Enabled(channels[..i]))
      {
        assert channels[..i + 1][..i] == channels[..i];
        if channels[i].enabled {
          names := names + [channels[i].name];
        }
        i := i + 1;
      }
      assert channels[..i] == channels;
    }
  }

  /** The first match found scanning from the front is the one `FirstEnabled` names. */
  lemma FirstIsFirst(channels: seq<Channel>, name: string, i: nat)
    requires i < |channels| && channels[i].name == name && channels[i].enabled
    requires forall j :: 0 <= j < i ==> !(channels[j].name == name && channels[j].enabled)
    ensures FirstEnabled(channels, name) == Some(i)
  {
    var r := FirstEnabled(channels, name);
    assert r.Some?;
  }

  /** Adding a channel keeps the earlier ones' order and shows it last among the enabled. */
  lemma AddThenEnabled(channels: seq<Channel>, c: Channel)
    ensures Enabled(channels + [c]) == if c.enabled then Enabled(channels) + [c] else Enabled(channels)
  {
    assert (channels + [c])[..|channels|] == channels;
  }
}
