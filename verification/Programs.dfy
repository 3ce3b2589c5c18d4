/** The programs of the repository as instances: the shared-receive-queue program with many queue
    pairs, and the single-queue-pair programs, which are the case of one queue pair. */
module Programs {
  import opened Verbs
  import opened Endpoints
  import opened PingPongSystem
  import opened SystemInvariant
  import opened Safety
  import opened PerQueuePair
  import opened Outcomes
  import opened NoQueuePairs
  import opened StartUp

  /** `srq_pingpong`: the poll array has `num_qp + rx_depth` entries, the buffer starts as zeros. */
  function SrqSide(numQp: nat, rxDepth: nat, iters: int, useEvent: bool, qpns: seq<int>): SideConfig {
    SideConfig(iters, rxDepth, useEvent, numQp + rxDepth, qpns, 0)
  }

  /** The stream library and `rc_pingpong`: a poll array of two; the client fills its buffer with
      0x7b, the server with 0x7c. */
  function StreamSide(x: Side, rxDepth: nat, iters: int, useEvent: bool, qpn: int): SideConfig {
    SideConfig(iters, rxDepth, useEvent, 2, [qpn], if x == Client then 0x7b else 0x7c)
  }

  /** `uc_pingpong` and `ud_pingpong`: as above, the buffers start as zeros. */
  function LossySide(rxDepth: nat, iters: int, useEvent: bool, qpn: int): SideConfig {
    SideConfig(iters, rxDepth, useEvent, 2, [qpn], 0)
  }

  /** The server of the stream library runs this many iterations whatever the client asks for. */
  const SERVER_ITERS := 1000

  function StreamConfig(clientIters: int, clientDepth: nat, serverDepth: nat,
                        clientEvent: bool, serverEvent: bool, clientQpn: int, serverQpn: int): Config {
    Config(1, true, StreamSide(Client, clientDepth, clientIters, clientEvent, clientQpn),
                    StreamSide(Server, serverDepth, SERVER_ITERS, serverEvent, serverQpn))
  }

  /** The start-up check of both sides, and at least one queue pair, which it does not ask for, are
      what the loop needs of the sizes. */
  lemma SrqIsValid(n: nat, reliable: bool, client: SideConfig, server: SideConfig, depthC: nat, depthS: nat,
                   itersC: int, itersS: int, eventC: bool, eventS: bool, qpnsC: seq<int>, qpnsS: seq<int>)
    requires client == SrqSide(n, depthC, itersC, eventC, qpnsC)
    requires server == SrqSide(n, depthS, itersS, eventS, qpnsS)
    requires |qpnsC| == n == |qpnsS| && Distinct(qpnsC) && Distinct(qpnsS)
    ensures Config(n, reliable, client, server).Valid() <==> 1 <= n && Admitted(n, depthC) && Admitted(n, depthS)
  {
  }

  /** `srq_pingpong` against itself with equal options, for all sizes that the check admits and the
      arrays have room for: both programs always finish if and only if there is a queue pair or
      nothing to do. `--iters` is a number of exchanges per queue pair only with a single one. */
  lemma SrqCompletesIff(c: Config, n: nat, depthC: nat, depthS: nat, iters: int, eventC: bool, eventS: bool,
                        qpnsC: seq<int>, qpnsS: seq<int>)
    requires c == Config(n, true, SrqSide(n, depthC, iters, eventC, qpnsC), SrqSide(n, depthS, iters, eventS, qpnsS))
    requires |qpnsC| == n == |qpnsS| && Distinct(qpnsC) && Distinct(qpnsS)
    requires Admitted(n, depthC) && Admitted(n, depthS) && n <= MAX_QP
    ensures (forall steps :: Maximal(c, steps) ==> Completes(c, steps)) <==> n >= 1 || iters <= 0
    ensures n >= 1 ==> c.Valid()
    ensures n >= 1 ==>
      ((forall steps :: Maximal(c, steps) ==> AtLeastEach(n, Final(c, Initial(c), steps), iters))
        <==> n == 1 || iters <= 0)
  {
    hide Run, Final, Initial, Stuck, AtLeastEach;
    SrqIsValid(n, true, c.client, c.server, depthC, depthS, iters, iters, eventC, eventS, qpnsC, qpnsS);
    if n >= 1 {
      CompletionIff(c);
      CountIsPerPairIff(c);
    } else {
      CompletesWithoutPairsIff(c);
    }
  }

  /** A client of the stream library and its server both finish if and only if the client asks
      for exactly the server's number of iterations; then every counter is exact. */
  lemma StreamCompletesIff(c: Config, clientIters: int, clientDepth: nat, serverDepth: nat,
                           clientEvent: bool, serverEvent: bool, clientQpn: int, serverQpn: int, steps: seq<Step>)
    requires c == StreamConfig(clientIters, clientDepth, serverDepth, clientEvent, serverEvent, clientQpn, serverQpn)
    requires clientDepth >= 1 && serverDepth >= 1
    ensures c.Valid()
    ensures Maximal(c, steps) ==> (Completes(c, steps) <==> clientIters == 1000)
    ensures Maximal(c, steps) && clientIters == 1000 ==>
      var s := Final(c, Initial(c), steps);
      s.client.scnt == s.client.rcnt == s.server.scnt == s.server.rcnt == 1000
  {
    hide Run, Final, Initial, Stuck;
    if Maximal(c, steps) {
      SingleQueuePairCounts(c, steps);
      if clientIters == SERVER_ITERS { SingleQueuePair(c, steps); }
    }
  }

  /** What the stream library starts with: its receives, and buffers of 0x7b with the client and of 0x7c
      with the server, until it has received. */
  lemma StreamStarts(c: Config, clientIters: int, clientDepth: nat, serverDepth: nat,
                     clientEvent: bool, serverEvent: bool, clientQpn: int, serverQpn: int, s: System)
    requires c == StreamConfig(clientIters, clientDepth, serverDepth, clientEvent, serverEvent, clientQpn, serverQpn)
    requires clientDepth >= 1 && serverDepth >= 1
    ensures Reachable(c, s) ==> s.client.buf == 0x7b && (s.server.rcnt > 0 ==> s.server.buf == 0x7b)
    ensures Initial(c).server.buf == 0x7c && c.client.numWc == 2 == c.server.numWc
    ensures Initial(c).client.posted == clientDepth && Initial(c).server.posted == serverDepth
  {
    hide Reachable;
    if Reachable(c, s) { PayloadEcho(c, s, Server); }
  }

  /** The unreliable programs with equal iteration counts: a maximal run loses at most one message,
      and both programs finish, with every counter exact, if and only if it loses none. */
  lemma LossyCompletesIff(c: Config, iters: int, clientDepth: nat, serverDepth: nat,
                          clientEvent: bool, serverEvent: bool, clientQpn: int, serverQpn: int, steps: seq<Step>)
    requires c == Config(1, false, LossySide(clientDepth, iters, clientEvent, clientQpn),
                                   LossySide(serverDepth, iters, serverEvent, serverQpn))
    requires clientDepth >= 1 && serverDepth >= 1 && iters >= 1
    ensures c.Valid()
    ensures Maximal(c, steps) ==> Drops(steps) <= 1 && (Completes(c, steps) <==> Drops(steps) == 0)
    ensures Maximal(c, steps) && Drops(steps) == 0 ==>
      var s := Final(c, Initial(c), steps);
      s.client.scnt == s.client.rcnt == s.server.scnt == s.server.rcnt == iters
  {
    hide Run, Final, Initial, Stuck, DropsBy;
    if Maximal(c, steps) { SingleQueuePair(c, steps); }
  }
}
