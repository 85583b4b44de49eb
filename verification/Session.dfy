/**
 Two connected parties as objects. Each delivery between them is a step of the system of KeyProtocol, so
 that what is proved of its runs holds of the objects.
 */
module Session {
  import opened Sampling
  import opened EprTest
  import opened GolayDecoding
  import opened Wire
  import opened KeyProtocol
  import opened Lockstep
  import opened Ordering
  import opened Peer

  /** From p to q a party has taken the first message of its channel and has written to the other one. */
  ghost predicate Took(p: Party, q: Party, inbox: seq<Message>, inbox': seq<Message>,
                       outbox: seq<Message>, outbox': seq<Message>, c: Coins)
  {
    && inbox != [] && Waiting(p) && Fair(p, inbox[0], c)
    && q == Receive(p, inbox[0], c)
    && inbox' == Pop(inbox, 0) && outbox' == outbox + Sent(p, inbox[0], c)
  }

  lemma FollowerSteps(s: System, s': System, c: Coins)
    requires Took(s.follower, s'.follower, s.toFollower, s'.toFollower, s.toLeader, s'.toLeader, c)
    requires s'.leader == s.leader && s'.history == FollowerRecord(s, s.toFollower[0])
    ensures NextInOrder(s, s')
  {
    assert s' == ToFollower(s, 0, c);
  }

  lemma LeaderSteps(s: System, s': System, c: Coins)
    requires Took(s.leader, s'.leader, s.toLeader, s'.toLeader, s.toFollower, s'.toFollower, c)
    requires s'.follower == s.follower && s'.history == LeaderRecord(s, s'.leader)
    ensures NextInOrder(s, s')
  {
    assert s' == ToLeader(s, 0, c);
  }

  /** What one party has put into its outbound queue reaches the control queue of the other. */
  method Transport(from: KeyPeer, to: KeyPeer)
    requires from != to
    modifies from`outboundQ, to`ctrlMsgQ
    ensures from.outboundQ == [] && to.ctrlMsgQ == old(to.ctrlMsgQ + from.outboundQ)
  {
    to.ctrlMsgQ := to.ctrlMsgQ + from.outboundQ;
    from.outboundQ := [];
  }

  /** The reaction; `waiting` is what the peer has queued already. */
  method ReactTo(to: KeyPeer, c: Coins, ghost waiting: seq<Message>)
    requires to.Valid() && Waiting(to.State()) && to.ctrlMsgQ != [] && Fair(to.State(), to.ctrlMsgQ[0], c)
    modifies to
    ensures Took(old(to.State()), to.State(), old(to.ctrlMsgQ), to.ctrlMsgQ,
                 old(waiting + to.outboundQ), waiting + to.outboundQ, c)
  {
    to.React(c);
  }

  /** A delivery: transport, then the reaction of the receiving party. */
  method Deliver(from: KeyPeer, to: KeyPeer, c: Coins)
    requires from != to && to.Valid() && Waiting(to.State()) && to.ctrlMsgQ + from.outboundQ != []
    requires Fair(to.State(), (to.ctrlMsgQ + from.outboundQ)[0], c)
    modifies from`outboundQ, to
    ensures Took(old(to.State()), to.State(), old(to.ctrlMsgQ + from.outboundQ), to.ctrlMsgQ + from.outboundQ,
                 old(from.ctrlMsgQ + to.outboundQ), from.ctrlMsgQ + to.outboundQ, c)
  {
    Transport(from, to);
    ReactTo(to, c, from.ctrlMsgQ);
    assert to.ctrlMsgQ + from.outboundQ == to.ctrlMsgQ;
  }

  /** The system that two newly made parties form. */
  ghost function FreshWorld(leader: KeyPeer, follower: KeyPeer): System
    reads leader, follower
  {
    System(leader.State(), follower.State(), follower.ctrlMsgQ + leader.outboundQ,
           leader.ctrlMsgQ + follower.outboundQ, History(0, [], 0, 0, []))
  }

  lemma LastIsSafe(run: seq<System>, s: System)
    requires OrderedRun(run) && s == run[|run| - 1]
    ensures Safe(s)
  {
    RunsAreSafe(run, |run| - 1);
  }

  class KeySession {
    const leader: KeyPeer
    const follower: KeyPeer
    ghost var history: History
    ghost var trace: seq<System>    // all states so far, the present one last

    /** The objects have come to their state by a run of the system. */
    ghost predicate Valid()
      reads this, leader, follower
    {
      && leader != follower && leader.Valid() && follower.Valid()
      && leader.role == Leader && follower.role == Follower
      && OrderedRun(trace) && trace[|trace| - 1] == World()
    }

    /** The state of the system: a channel is what its reader has queued and its writer has yet to send. */
    ghost function World(): System
      reads this, leader, follower
    {
      System(leader.State(), follower.State(), follower.ctrlMsgQ + leader.outboundQ,
             leader.ctrlMsgQ + follower.outboundQ, history)
    }

    constructor (leader: KeyPeer, follower: KeyPeer)
      requires leader != follower && leader.Valid() && follower.Valid()
      requires Init(FreshWorld(leader, follower))
      ensures Valid() && this.leader == leader && this.follower == follower
      ensures World() == FreshWorld(leader, follower) && trace == [World()]
    {
      this.leader, this.follower := leader, follower;
      history := History(0, [], 0, 0, []);
      trace := [FreshWorld(leader, follower)];
    }

    method StepFollower(c: Coins)
      requires Valid() && World().toFollower != [] && Waiting(follower.State())
      requires Fair(follower.State(), World().toFollower[0], c)
      modifies this`history, this`trace, leader`outboundQ, follower
      ensures Valid() && NextInOrder(old(World()), World()) && trace == old(trace) + [World()]
    {
      ghost var s := World();
      Deliver(leader, follower, c);
      history := FollowerRecord(s, s.toFollower[0]);
      FollowerSteps(s, World(), c);
      RunGoesOn(trace, World());
      trace := trace + [World()];
    }

    method StepLeader(c: Coins)
      requires Valid() && World().toLeader != [] && Waiting(leader.State())
      requires Fair(leader.State(), World().toLeader[0], c)
      modifies this`history, this`trace, follower`outboundQ, leader
      ensures Valid() && NextInOrder(old(World()), World()) && trace == old(trace) + [World()]
    {
      ghost var s := World();
      Deliver(follower, leader, c);
      history := LeaderRecord(s, leader.State());
      LeaderSteps(s, World(), c);
      RunGoesOn(trace, World());
      trace := trace + [World()];
    }

    /**
     What is proved of runs holds of the objects: neither has failed, their lists have equal lengths when it is
     the follower's turn, the traffic is bounded, and neither waits forever or ends alone.
     */
    lemma ObjectsAreSafe()
      requires Valid()
      ensures Safe(World())
    {
      LastIsSafe(trace, World());
    }
  }

  /** The two objects that the peers make for a protocol and a key size. */
  method NewPeers(protocol: Protocol, keySize: nat, dictH: Table) returns (leader: KeyPeer, follower: KeyPeer)
    requires Perfect(dictH)
    ensures fresh(leader) && fresh(follower) && leader != follower && leader.Valid() && follower.Valid()
    ensures leader.State() == Party(Leader, protocol, keySize, [], [], [], Opening)
    ensures Init(FreshWorld(leader, follower))
  {
    leader := new KeyPeer(Leader, protocol, keySize, dictH);
    follower := new KeyPeer(Follower, protocol, keySize, dictH);
    assert follower.ctrlMsgQ + leader.outboundQ == leader.outboundQ;
  }

  /** A session of two new peers. */
  method Connect(protocol: Protocol, keySize: nat, dictH: Table) returns (session: KeySession)
    requires Perfect(dictH)
    ensures fresh(session) && fresh(session.leader) && fresh(session.follower)
    ensures session.Valid() && session.trace == [session.World()]
    ensures session.World().leader.protocol == protocol && session.World().leader.keySize == keySize
  {
    var leader, follower := NewPeers(protocol, keySize, dictH);
    session := new KeySession(leader, follower);
  }
}
