/** The configuration check, and the bounds that the other modules rest on. */
module Settings {
  import opened Arith
  import StreamLink
  import Receive
  import ReceiveProgress
  import Mux
  import Gated
  import GatedDeadlock

  /** Durations and sizes as the source holds them, in 64-bit integers. */
  datatype Config = Config(version: int, keepAliveDisabled: bool, keepAliveInterval: int, keepAliveTimeout: int,
                           maxFrameSize: int, maxReceiveBuffer: int, maxStreamBuffer: int)

  datatype ConfigError = BadVersion | BadInterval | BadTimeout | FrameTooSmall | FrameTooBig | NoReceiveBuffer
                       | NoStreamBuffer | StreamBufferOverReceive | StreamBufferTooBig

  datatype Verdict = Accepted | Rejected(error: ConfigError)

  const SECOND := 1_000_000_000

  const DEFAULT := Config(1, false, 10 * SECOND, 30 * SECOND, 32768, 4194304, 65536)

  function VerifyConfig(c: Config): (v: Verdict)
    ensures v.Accepted? <==>
      && (c.version == 1 || c.version == 2) && 1 <= c.maxFrameSize <= 65535
      && 1 <= c.maxStreamBuffer < TWO_31 && c.maxStreamBuffer <= c.maxReceiveBuffer
      && (c.keepAliveDisabled || (c.keepAliveInterval != 0 && c.keepAliveInterval <= c.keepAliveTimeout))
  {
    if !(c.version == 1 || c.version == 2) then Rejected(BadVersion)
    else if !c.keepAliveDisabled && c.keepAliveInterval == 0 then Rejected(BadInterval)
    else if !c.keepAliveDisabled && c.keepAliveTimeout < c.keepAliveInterval then Rejected(BadTimeout)
    else if c.maxFrameSize <= 0 then Rejected(FrameTooSmall)
    else if c.maxFrameSize > 65535 then Rejected(FrameTooBig)
    else if c.maxReceiveBuffer <= 0 then Rejected(NoReceiveBuffer)
    else if c.maxStreamBuffer <= 0 then Rejected(NoStreamBuffer)
    else if c.maxStreamBuffer > c.maxReceiveBuffer then Rejected(StreamBufferOverReceive)
    else if c.maxStreamBuffer > 2147483647 then Rejected(StreamBufferTooBig)
    else Accepted
  }

  predicate Violates(c: Config, e: ConfigError) {
    match e
    case BadVersion => c.version != 1 && c.version != 2
    case BadInterval => !c.keepAliveDisabled && c.keepAliveInterval == 0
    case BadTimeout => !c.keepAliveDisabled && c.keepAliveInterval > c.keepAliveTimeout
    case FrameTooSmall => c.maxFrameSize < 1
    case FrameTooBig => c.maxFrameSize >= 65536
    case NoReceiveBuffer => c.maxReceiveBuffer < 1
    case NoStreamBuffer => c.maxStreamBuffer < 1
    case StreamBufferOverReceive => c.maxReceiveBuffer < c.maxStreamBuffer
    case StreamBufferTooBig => c.maxStreamBuffer >= TWO_31
  }

  /** The checks in the order in which they are made. */
  const CHECKS := [BadVersion, BadInterval, BadTimeout, FrameTooSmall, FrameTooBig, NoReceiveBuffer, NoStreamBuffer,
                   StreamBufferOverReceive, StreamBufferTooBig]

  /** What is reported is the first check that the configuration violates. */
  lemma FirstViolated(c: Config, i: nat)
    requires i < |CHECKS|
    ensures VerifyConfig(c) == Rejected(CHECKS[i]) <==>
      Violates(c, CHECKS[i]) && forall j :: 0 <= j < i ==> !Violates(c, CHECKS[j])
  {
    assert CHECKS[0] == BadVersion && CHECKS[1] == BadInterval && CHECKS[2] == BadTimeout;
    assert CHECKS[3] == FrameTooSmall && CHECKS[4] == FrameTooBig && CHECKS[5] == NoReceiveBuffer;
    assert CHECKS[6] == NoStreamBuffer && CHECKS[7] == StreamBufferOverReceive && CHECKS[8] == StreamBufferTooBig;
  }

  /** What the links between two accepted endpoints of one version assume. */
  lemma AcceptedSuffices(opener: Config, acceptor: Config)
    requires VerifyConfig(opener).Accepted? && VerifyConfig(acceptor).Accepted? && opener.version == acceptor.version
    ensures StreamLink.ConfigOk(StreamLink.Config(opener.version, opener.maxFrameSize, acceptor.maxStreamBuffer))
  {}

  /** newSession casts the receive buffer to int32, which VerifyConfig does not bound: the bucket starts with the
      configured number of tokens exactly below 2^31. */
  lemma InitialBucketIff(c: Config)
    requires VerifyConfig(c).Accepted?
    ensures I32(c.maxReceiveBuffer) == c.maxReceiveBuffer <==> c.maxReceiveBuffer < TWO_31
  {}

  /** Under an accepted configuration recvLoop parks at once exactly when the size modulo 2^32 is 0 or at least 2^31,
      and then no step of any run ever lets it read: there is nothing that could return tokens. */
  lemma AcceptedAndParkedIff(c: Config)
    requires VerifyConfig(c).Accepted?
    ensures var bucket := I32(c.maxReceiveBuffer);
      var parked := c.maxReceiveBuffer % TWO_32 == 0 || c.maxReceiveBuffer % TWO_32 >= TWO_31;
      && (Receive.Apply(Receive.Start(bucket), Receive.CheckBucket).receiver.Parked? <==> parked)
      && ((forall s :: Receive.Reachable(bucket, s) ==> !s.receiver.Reading?) <==> parked)
  {
    var bucket := I32(c.maxReceiveBuffer);
    Receive.StartIsReachable(bucket);
    var s := Receive.Step(bucket, Receive.Start(bucket), Receive.CheckBucket);
    if bucket <= 0 {
      forall s | Receive.Reachable(bucket, s)
        ensures !s.receiver.Reading?
      {
        Receive.NothingIsReceived(bucket, s);
      }
    }
    hide Receive.Reachable;
  }

  /** And it can always come back to reading in exactly the other case. */
  lemma AcceptedAndReadingIff(c: Config)
    requires VerifyConfig(c).Accepted?
    ensures (forall s :: Receive.Reachable(I32(c.maxReceiveBuffer), s) ==> ReceiveProgress.CanRead(s))
      <==> HasTokens(c)
  {
    ReceiveProgress.ReceivesIff(I32(c.maxReceiveBuffer));
    hide Receive.Reachable, ReceiveProgress.CanRead;
  }

  /** The bucket that the session starts with is positive. */
  predicate HasTokens(c: Config) {
    0 < c.maxReceiveBuffer % TWO_32 < TWO_31
  }

  /** An accepted size that leaves no token: 4 GiB is cast to 0. */
  lemma AcceptedWithoutTokens()
    ensures var c := DEFAULT.(version := 2, maxReceiveBuffer := TWO_32);
      && VerifyConfig(c).Accepted? && I32(c.maxReceiveBuffer) == 0 != c.maxReceiveBuffer && !HasTokens(c)
      && StreamLink.Roomy(StreamLink.Config(2, c.maxFrameSize, c.maxStreamBuffer))
  {}

  /** Two endpoints with their configurations, as Mux sees them; endpoint 1 is the client. */
  function Both(server: Config, client: Config): (k: Mux.Settings)
    requires VerifyConfig(server).Accepted? && VerifyConfig(client).Accepted? && server.version == client.version
    ensures Mux.SettingsOk(k) && k.version == server.version
  {
    Mux.Settings(server.version, [server.maxFrameSize, client.maxFrameSize],
                 [server.maxStreamBuffer, client.maxStreamBuffer])
  }

  lemma I32Twice(x: int)
    ensures I32(I32(x)) == I32(x)
  {}

  /** What newSession makes of the two receive buffers. */
  function Buckets(server: Config, client: Config): (max: seq<int>)
    ensures Gated.BucketsOk(max)
  {
    I32Twice(server.maxReceiveBuffer);
    I32Twice(client.maxReceiveBuffer);
    [I32(server.maxReceiveBuffer), I32(client.maxReceiveBuffer)]
  }

  lemma HasTokensIff(c: Config)
    ensures HasTokens(c) <==> I32(c.maxReceiveBuffer) > 0
  {}

  predicate RoomTowards(sender: Config, receiver: Config)
    requires VerifyConfig(sender).Accepted? && VerifyConfig(receiver).Accepted?
  {
    StreamLink.Roomy(StreamLink.Config(sender.version, sender.maxFrameSize, receiver.maxStreamBuffer))
  }

  lemma FitIff(server: Config, client: Config)
    requires VerifyConfig(server).Accepted? && VerifyConfig(client).Accepted? && server.version == client.version
    ensures var k, max := Both(server, client), Buckets(server, client);
      && (GatedDeadlock.Fit(k, max, 0) <==> HasTokens(server) && HasTokens(client) && RoomTowards(server, client))
      && (GatedDeadlock.Fit(k, max, 1) <==> HasTokens(server) && HasTokens(client) && RoomTowards(client, server))
  {
    HasTokensIff(server);
    HasTokensIff(client);
    hide I32, HasTokens, StreamLink.Roomy;
  }

  /** For two accepted configurations of version 2: no writer is ever stuck, on any stream that either side opens, if
      and only if both sizes leave tokens after the cast to int32, and in each direction half a receive buffer, less one
      byte, and a frame of the sender fit below the receiver's MaxStreamBuffer. */
  lemma NeverStuckIff(server: Config, client: Config)
    requires VerifyConfig(server).Accepted? && VerifyConfig(client).Accepted?
    requires server.version == 2 && client.version == 2
    ensures var k, max := Both(server, client), Buckets(server, client);
      GatedDeadlock.WritersNeverStuck(k, max, 0) && GatedDeadlock.WritersNeverStuck(k, max, 1) <==>
        HasTokens(server) && HasTokens(client) && RoomTowards(server, client) && RoomTowards(client, server)
  {
    hide VerifyConfig, GatedDeadlock.WritersNeverStuck, GatedDeadlock.Fit, Both, Buckets, HasTokens, RoomTowards;
    FitIff(server, client);
    GatedDeadlock.NeverStuckIff(Both(server, client), Buckets(server, client), 0);
    GatedDeadlock.NeverStuckIff(Both(server, client), Buckets(server, client), 1);
  }

  /** The default sizes leave a version 2 writer exactly the room it needs, with not a byte to spare. */
  lemma DefaultIsRoomy()
    ensures VerifyConfig(DEFAULT.(version := 2)).Accepted?
    ensures StreamLink.Roomy(StreamLink.Config(2, DEFAULT.maxFrameSize, DEFAULT.maxStreamBuffer))
    ensures !StreamLink.Roomy(StreamLink.Config(2, DEFAULT.maxFrameSize + 1, DEFAULT.maxStreamBuffer))
    ensures Receive.MAX_PAYLOAD + DEFAULT.maxReceiveBuffer < TWO_31
  {}
}
