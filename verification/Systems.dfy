/**
 Two endpoints and the network between them. A datagram that was ever put on the wire may arrive
 any number of times, at any time after, in any order, or never.
 */
module Systems {
  import opened Base
  import opened Channels
  import opened Endpoints
  import opened Sending
  import opened Counting
  import opened Invariants
  import opened Receiving
  import opened Arriving
  import opened Opening

  /// `Refused`: opening the connection failed. `Panicked`: a panic.
  datatype Phase = Fresh | Up | Refused | Panicked

  datatype Node = Node(phase: Phase, x: Endpoint)

  datatype Side = Left | Right {
    function Other(): Side {
      if Left? then Right else Left
    }
  }

  /// The providers of the two sides.
  datatype Config = Config(left: Provider, right: Provider) {
    function At(s: Side): Provider {
      if s.Left? then left else right
    }

    ghost predicate Ok() {
      left.WellFormed() && right.WellFormed() && Matching(left, right)
    }

    function EnvOf(s: Side): Env {
      Env(At(s), At(s.Other()))
    }
  }

  datatype Sys = Sys(left: Node, right: Node) {
    function At(s: Side): Node {
      if s.Left? then left else right
    }

    function With(s: Side, n: Node): Sys {
      if s.Left? then this.(left := n) else this.(right := n)
    }
  }

  datatype Action =
    | Opens(all: seq<Entry>)
    | Takes(datagram: Bytes)
    | Ticks(delta: nat)
    | Sends(global: nat, payload: Bytes)

  datatype Event = Event(side: Side, action: Action)

  function Start(): Sys {
    Sys(Node(Fresh, NewEndpoint()), Node(Fresh, NewEndpoint()))
  }

  ghost predicate Enabled(prov: Provider, n: Node, peer: Node, a: Action) {
    match a
    case Opens(all) => n.phase.Fresh? && Enumerates(prov, all)
    case Takes(datagram) => n.phase.Up? && datagram in peer.x.tx.wire
    case Ticks(delta) => n.phase.Up? && delta < U32
    case Sends(global, _) => n.phase.Up? && AppChannel(prov, global)
  }

  function Outcome(n: Node, r: Res): Node {
    Node(if r.out.Crash? then Panicked else n.phase, r.x)
  }

  function Act(prov: Provider, n: Node, a: Action): Node {
    match a
    case Opens(all) =>
      var r := Initialize(n.x, prov, Sorted(prov, all));
      Node(match r.out case Fine => Up case Fail(_) => Refused case Crash => Panicked, r.x)
    case Takes(datagram) => Outcome(n, Receive(n.x, prov, datagram))
    case Ticks(delta) => Outcome(n, Tick(n.x, delta))
    case Sends(global, payload) => Outcome(n, AppSend(n.x, prov, global, payload))
  }

  function Next(c: Config, s: Sys, e: Event): Sys {
    s.With(e.side, Act(c.At(e.side), s.At(e.side), e.action))
  }

  ghost predicate IsRun(c: Config, run: seq<Sys>, events: seq<Event>) {
    && |run| == |events| + 1 && run[0] == Start()
    && (forall i {:trigger events[i]} :: 0 <= i < |events| ==>
          && Enabled(c.At(events[i].side), run[i].At(events[i].side), run[i].At(events[i].side.Other()),
                     events[i].action)
          && run[i + 1] == Next(c, run[i], events[i]))
  }

  // ---- The invariant ----

  ghost predicate NodeOk(prov: Provider, n: Node) {
    && SelfInv(prov, n.x)
    && (n.phase.Up? ==> UpInv(prov, n.x)) && (n.phase.Panicked? ==> UpInv(prov, n.x) || Untouched(n.x))
    && (n.phase.Fresh? || n.phase.Refused? ==> Untouched(n.x))
  }

  ghost predicate CountsOk(n: Node) {
    Counted(n.x.tx) && Tallied(n.x.tx.sent, n.x.tx.submitted) && (n.phase.Fresh? ==> n.x == NewEndpoint())
  }

  ghost predicate Sound(c: Config, s: Sys) {
    && NodeOk(c.left, s.left) && NodeOk(c.right, s.right)
    && RecvInv(c.left, s.right.x, s.left.x) && RecvInv(c.right, s.left.x, s.right.x)
  }

  ghost predicate SysInv(c: Config, s: Sys) {
    && CountsOk(s.left) && CountsOk(s.right)
    && (s.left.x.tx.wrapped || s.right.x.tx.wrapped || Sound(c, s))
  }

  lemma StartOk(c: Config)
    ensures SysInv(c, Start())
  {
    hide SelfInv, RecvInv, Untouched, Counted, Tallied;
    NewCounted();
    NewSelf(c.left);
    NewSelf(c.right);
    UntouchedRecv(c.left, NewEndpoint(), NewEndpoint());
    UntouchedRecv(c.right, NewEndpoint(), NewEndpoint());
  }

  /// The two sides may be exchanged.
  lemma SymmetricMatching(p: Provider, q: Provider)
    requires Matching(p, q)
    ensures Matching(q, p)
  {
  }

  lemma EnvHolds(c: Config, side: Side)
    requires c.Ok()
    ensures EnvOk(c.EnvOf(side))
  {
    SymmetricMatching(c.left, c.right);
  }

  // ---- One step of one side ----

  lemma OpensGood(e: Env, m: Node, n: Node, all: seq<Entry>)
    requires EnvOk(e) && RecvInv(e.theirs, n.x, m.x) && n.x == NewEndpoint() && Enumerates(e.mine, all)
    ensures var n' := Act(e.mine, n, Opens(all));
            n'.x.tx.wrapped || (NodeOk(e.mine, n') && RecvInv(e.mine, m.x, n'.x) && RecvInv(e.theirs, n'.x, m.x))
  {
    hide SelfInv, UpInv, RecvInv, Untouched, IsListing, Enumerates, Initialize, Sorted;
    var listing := Sorted(e.mine, all);
    SortedListing(e.mine, all);
    EnvProviders(e);
    InitializeGood(e.mine, listing);
    var x' := Initialize(n.x, e.mine, listing).x;
    if !x'.tx.wrapped {
      UpIsSelf(e.mine, x');
      UntouchedRecv(e.mine, m.x, x');
      PeerMoves(e.theirs, n.x, x', m.x);
    }
  }

  lemma UpIsSelf(prov: Provider, x: Endpoint)
    ensures UpInv(prov, x) ==> SelfInv(prov, x)
  {
    hide SelfInv;
  }

  lemma EnvProviders(e: Env)
    requires EnvOk(e)
    ensures e.mine.WellFormed() && e.theirs.WellFormed()
  {
  }

  lemma UpActs(e: Env, m: Node, n: Node, a: Action)
    requires PeerOk(e, m.x) && Good(e, m.x, n.x) && !a.Opens?
    requires n.phase.Up? && Enabled(e.mine, n, m, a)
    ensures var n' := Act(e.mine, n, a);
            n'.x.tx.wrapped || (Good(e, m.x, n'.x) && Extends(n.x, n'.x) && (n'.phase.Up? || n'.phase.Panicked?))
  {
    hide PeerOk, Good, Extends, Receive, Tick, AppSend, AppChannel;
    PeerEnv(e, m.x);
    match a
    case Takes(datagram) => ReceiveGood(e, m.x, n.x, datagram);
    case Ticks(delta) => TickGood(e, m.x, n.x, delta);
    case Sends(global, payload) => AppSendGood(e, m.x, n.x, global, payload);
  }

  lemma PeerEnv(e: Env, y: Endpoint)
    requires PeerOk(e, y)
    ensures e.mine.WellFormed()
  {
    hide SelfInv;
  }

  lemma PeerSees(e: Env, m: Node, n: Node, n': Node)
    requires RecvInv(e.theirs, n.x, m.x) && Good(e, m.x, n'.x) && Extends(n.x, n'.x)
    requires n'.phase.Up? || n'.phase.Panicked?
    ensures NodeOk(e.mine, n') && RecvInv(e.mine, m.x, n'.x) && RecvInv(e.theirs, n'.x, m.x)
  {
    hide RecvInv, UpInv, SelfInv, TxGrows;
    UpIsSelf(e.mine, n'.x);
    PeerMoves(e.theirs, n.x, n'.x, m.x);
  }

  lemma ActGood(e: Env, m: Node, n: Node, a: Action)
    requires EnvOk(e) && NodeOk(e.theirs, m) && NodeOk(e.mine, n)
    requires RecvInv(e.mine, m.x, n.x) && RecvInv(e.theirs, n.x, m.x)
    requires CountsOk(n) && Enabled(e.mine, n, m, a)
    ensures var n' := Act(e.mine, n, a);
            n'.x.tx.wrapped || (NodeOk(e.mine, n') && RecvInv(e.mine, m.x, n'.x) && RecvInv(e.theirs, n'.x, m.x))
  {
    hide SelfInv, RecvInv, UpInv, Untouched, EnvOk, Enumerates, AppChannel, Act, Extends, Counted, Tallied;
    if a.Opens? {
      OpensGood(e, m, n, a.all);
    } else {
      UpActs(e, m, n, a);
      var n' := Act(e.mine, n, a);
      if !n'.x.tx.wrapped {
        PeerSees(e, m, n, n');
      }
    }
  }

  /// Whatever happens, counters stay counted, and nothing put in a buffer is taken back.
  lemma ActForward(prov: Provider, n: Node, a: Action)
    requires CountsOk(n) && (a.Opens? ==> n.phase.Fresh?) && (!a.Opens? ==> n.phase.Up?)
    ensures var n' := Act(prov, n, a); CountsOk(n') && Forward(n.x, n'.x)
  {
    hide Counted, Tallied, Receive, Tick, AppSend, Initialize;
    match a
    case Opens(all) => InitializeOnward(n.x, prov, Sorted(prov, all));
    case Takes(datagram) => ReceiveReacts(n.x, prov, datagram);
    case Ticks(delta) => TickReacts(n.x, delta);
    case Sends(global, payload) => AppSendForward(n.x, prov, global, payload);
  }

  /// The invariant as one side and its peer see it.
  ghost predicate SoundFor(c: Config, side: Side, n: Node, peer: Node) {
    && NodeOk(c.At(side), n) && NodeOk(c.At(side.Other()), peer)
    && RecvInv(c.At(side), peer.x, n.x) && RecvInv(c.At(side.Other()), n.x, peer.x)
  }

  lemma SoundEither(c: Config, s: Sys, side: Side)
    ensures Sound(c, s) <==> SoundFor(c, side, s.At(side), s.At(side.Other()))
  {
    hide NodeOk, RecvInv;
  }

  lemma ActSound(c: Config, side: Side, n: Node, peer: Node, a: Action)
    requires c.Ok() && SoundFor(c, side, n, peer) && CountsOk(n) && Enabled(c.At(side), n, peer, a)
    ensures var n' := Act(c.At(side), n, a); n'.x.tx.wrapped || SoundFor(c, side, n', peer)
  {
    hide NodeOk, RecvInv, EnvOk, Enabled, Act, CountsOk;
    EnvHolds(c, side);
    ActGood(c.EnvOf(side), peer, n, a);
  }

  lemma StepKeeps(c: Config, s: Sys, e: Event)
    requires c.Ok() && SysInv(c, s)
    requires Enabled(c.At(e.side), s.At(e.side), s.At(e.side.Other()), e.action)
    ensures SysInv(c, Next(c, s, e))
    ensures forall side :: Forward(s.At(side).x, Next(c, s, e).At(side).x)
  {
    hide SoundFor, Sound, Enumerates, AppChannel, Act, Counted, Tallied;
    var s' := Next(c, s, e);
    ActForward(c.At(e.side), s.At(e.side), e.action);
    assert s.At(e.side.Other()) == s'.At(e.side.Other());
    if !s.left.x.tx.wrapped && !s.right.x.tx.wrapped {
      SoundEither(c, s, e.side);
      SoundEither(c, s', e.side);
      ActSound(c, e.side, s.At(e.side), s.At(e.side.Other()), e.action);
    }
  }

  /// The invariant holds in every reachable state.
  lemma {:induction false} RunSound(c: Config, run: seq<Sys>, events: seq<Event>, i: nat)
    requires c.Ok() && IsRun(c, run, events) && i < |run|
    ensures SysInv(c, run[i])
  {
    hide SysInv, Enabled;
    if i == 0 {
      StartOk(c);
    } else {
      RunSound(c, run, events, i - 1);
      assert run[i] == Next(c, run[i - 1], events[i - 1]);
      StepKeeps(c, run[i - 1], events[i - 1]);
    }
  }
}
