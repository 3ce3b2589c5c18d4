/** What distinguishes the two kinds of transport. */
module Transport {
  import opened Verbs
  import opened PingPongSystem
  import opened SystemInvariant

  /** The client posts its first message, and the device puts it on the wire. */
  const FirstMessage: seq<Step> := [Start(Client), Transmit(Client, 0)]

  lemma FirstMessageRuns(c: Config)
    requires c.Valid()
    ensures Run(c, Initial(c), FirstMessage)
    ensures var s := Final(c, Initial(c), FirstMessage); s.client.sq[0] == Sent && s.client.wire[0] == [c.client.fill]
  {
    var s := Apply(c, Initial(c), Start(Client));
    assert s.client.sq[0] == Queued;
    var s' := Apply(c, s, Transmit(Client, 0));
    assert Run(c, s', []) && Final(c, s', []) == s';
    assert FirstMessage[1..] == [Transmit(Client, 0)] && FirstMessage[1..][1..] == [];
    assert Run(c, s, [Transmit(Client, 0)]) && Final(c, s, [Transmit(Client, 0)]) == s';
  }

  /** On a reliable connection a send is acknowledged only after its message has been delivered; on an
      unreliable one it can be before. */
  lemma EarlyAckIff(c: Config)
    requires c.Valid()
    ensures (exists s, x, q: nat :: Reachable(c, s) && s.Shape(c.n) && q < c.n && s.At(x).wire[q] != []
                                    && Enabled(c, s, Ack(x, q)))
       <==> !c.reliable
  {
    hide Reachable, Run, Final, Initial;
    if !c.reliable {
      FirstMessageRuns(c);
      var s := Final(c, Initial(c), FirstMessage);
      assert Reachable(c, s) by { IsReachable(c, FirstMessage); }
      assert s.At(Client).wire[0] != [] && Enabled(c, s, Ack(Client, 0));
    }
  }

  lemma IsReachable(c: Config, steps: seq<Step>)
    requires c.Valid() && Run(c, Initial(c), steps)
    ensures Reachable(c, Final(c, Initial(c), steps))
  {
  }

  /** Some run loses a message exactly on an unreliable transport. */
  lemma LossIff(c: Config)
    requires c.Valid()
    ensures (exists s, x, q: nat :: Reachable(c, s) && s.Shape(c.n) && q < c.n && Enabled(c, s, Drop(x, q)))
      <==> !c.reliable
  {
    hide Reachable, Run, Final, Initial;
    if !c.reliable {
      FirstMessageRuns(c);
      var s := Final(c, Initial(c), FirstMessage);
      assert Reachable(c, s) by { IsReachable(c, FirstMessage); }
      assert Enabled(c, s, Drop(Client, 0));
    }
  }
}
