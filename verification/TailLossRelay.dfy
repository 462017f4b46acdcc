/**
 The loopback relay that loses the first datagram of every tail message on every
 path, and passes everything else on.
 */
module TailLoss {
  import P = Payload

  const MEMBER_BOUND: nat := 64

  type Address = nat
  type Packet = seq<P.Byte>

  /** One datagram received on the front socket. */
  datatype Arrival = Arrival(from: Address, packet: Packet)

  /** One datagram passed on: through which upstream socket, for whom, and its bytes. */
  datatype Forward = Forward(socket: nat, client: Address, packet: Packet)

  /** A path and a tail index whose first datagram was withheld. */
  datatype Loss = Loss(client: Address, index: nat)

  function LittleEndian(bytes: seq<P.Byte>): nat {
    if bytes == [] then 0 else bytes[0] as int + 256 * LittleEndian(bytes[1..])
  }

  /** A DATA packet long enough to carry an application index. */
  predicate CarriesIndex(p: Packet) {
    |p| >= 24 && p[0] < 128
  }

  function Index(p: Packet): nat
    requires CarriesIndex(p)
  {
    LittleEndian(p[16..24])
  }

  /** Control packets, which set the top bit, and short packets carry none. */
  lemma DataOnly(p: Packet)
    ensures CarriesIndex(p) <==> |p| >= 24 && (p[0] as bv8) & 0x80 == 0
  {
    if p != [] {
      TopBit(p[0]);
    }
  }

  lemma TopBit(b: P.Byte)
    ensures b < 128 <==> (b as bv8) & 0x80 == 0
  {
  }

  /** The little-endian bytes of a word. */
  function LittleBytes(value: nat, count: nat): (r: seq<P.Byte>)
    ensures |r| == count
  {
    if count == 0 then [] else [value % 256] + LittleBytes(value / 256, count - 1)
  }

  lemma {:induction false} LittleRoundTrip(value: nat, count: nat)
    requires value < P.Power(count)
    ensures LittleEndian(LittleBytes(value, count)) == value
  {
    if count > 0 {
      LittleRoundTrip(value / 256, count - 1);
      assert LittleBytes(value, count)[1..] == LittleBytes(value / 256, count - 1);
    }
  }

  /** The index read is the one written behind the 16 bytes of a DATA header, whatever follows it. */
  lemma IndexIsWritten(header: seq<P.Byte>, index: nat, rest: seq<P.Byte>)
    requires |header| == 16 && header[0] < 128 && index < P.Power(8)
    ensures
      var packet := header + LittleBytes(index, 8) + rest;
      CarriesIndex(packet) && Index(packet) == index
  {
    var packet := header + LittleBytes(index, 8) + rest;
    assert packet[16..24] == LittleBytes(index, 8);
    LittleRoundTrip(index, 8);
  }

  // ------------------------------------------------------- meaning over a whole history

  /** A new client goes to the end. */
  function Joined(order: seq<Address>, from: Address): seq<Address> {
    if from in order then order else order + [from]
  }

  /** The clients in the order of their first datagrams. */
  ghost function Clients(history: seq<Arrival>): seq<Address> {
    if history == [] then []
    else
      Joined(Clients(history[..|history| - 1]), history[|history| - 1].from)
  }

  ghost predicate IsTail(tails: set<nat>, a: Arrival) {
    CarriesIndex(a.packet) && Index(a.packet) in tails
  }

  ghost predicate SameTail(tails: set<nat>, a: Arrival, b: Arrival) {
    IsTail(tails, a) && IsTail(tails, b) && a.from == b.from && Index(a.packet) == Index(b.packet)
  }

  /** Arrival i is the first of its client and tail index. */
  ghost predicate Lost(tails: set<nat>, history: seq<Arrival>, i: nat)
    requires i < |history|
  {
    IsTail(tails, history[i]) && forall j :: 0 <= j < i ==> !SameTail(tails, history[j], history[i])
  }

  /** Everything that is not lost, unchanged and in order. */
  ghost function Passed(tails: set<nat>, history: seq<Arrival>): seq<Arrival> {
    if history == [] then [] else
      var n := |history| - 1;
      Passed(tails, history[..n]) + (if Lost(tails, history, n) then [] else [history[n]])
  }

  ghost predicate TailSeen(tails: set<nat>, history: seq<Arrival>, client: Address, index: nat) {
    exists i :: 0 <= i < |history| && IsTail(tails, history[i])
      && history[i].from == client && Index(history[i].packet) == index
  }

  /** Every one of these clients lost every tail. */
  ghost predicate AllLost(tails: set<nat>, history: seq<Arrival>, clients: set<Address>) {
    forall a, t :: a in clients && t in tails ==> TailSeen(tails, history, a, t)
  }

  ghost predicate Known(history: seq<Arrival>, client: Address) {
    exists i :: 0 <= i < |history| && history[i].from == client
  }

  lemma LostNow(tails: set<nat>, history: seq<Arrival>, a: Arrival)
    ensures Lost(tails, history + [a], |history|) <==>
      IsTail(tails, a) && !TailSeen(tails, history, a.from, Index(a.packet))
  {
    assert forall j :: 0 <= j < |history| ==> (history + [a])[j] == history[j];
  }

  lemma SeenNext(tails: set<nat>, history: seq<Arrival>, a: Arrival, client: Address, index: nat)
    ensures TailSeen(tails, history + [a], client, index) <==>
      || TailSeen(tails, history, client, index)
      || (IsTail(tails, a) && a.from == client && Index(a.packet) == index)
  {
    var longer := history + [a];
    assert forall j :: 0 <= j < |history| ==> longer[j] == history[j];
    assert longer[|history|] == a;
    if TailSeen(tails, history, client, index) {
      var i :| 0 <= i < |history| && IsTail(tails, history[i])
        && history[i].from == client && Index(history[i].packet) == index;
      assert IsTail(tails, longer[i]);
    }
  }

  lemma KnownNext(history: seq<Arrival>, a: Arrival, client: Address)
    ensures Known(history + [a], client) <==> Known(history, client) || a.from == client
  {
    var longer := history + [a];
    assert forall j :: 0 <= j < |history| ==> longer[j] == history[j];
    assert longer[|history|] == a;
    if Known(history, client) {
      var i :| 0 <= i < |history| && history[i].from == client;
      assert longer[i].from == client;
    }
  }

  // -------------------------------------------------------------------- the relay's state

  /** The two dictionaries are inverse to each other. */
  ghost predicate Inverse(clients: map<Address, nat>, upstreams: map<nat, Address>) {
    && (forall a :: a in clients ==> clients[a] in upstreams && upstreams[clients[a]] == a)
    && (forall s :: s in upstreams ==> upstreams[s] in clients && clients[upstreams[s]] == s)
  }

  /** Upstream sockets are opened one after another, one for each new client. */
  ghost predicate Numbered(clients: map<Address, nat>, upstreams: map<nat, Address>, order: seq<Address>) {
    && (forall s :: s in upstreams <==> 0 <= s < |order|)
    && (forall s :: 0 <= s < |order| ==> upstreams[s] == order[s] && order[s] in clients && clients[order[s]] == s)
    && (forall a :: a in clients ==> a in order)
  }

  lemma NumberedInverse(clients: map<Address, nat>, upstreams: map<nat, Address>, order: seq<Address>)
    requires Numbered(clients, upstreams, order)
    ensures Inverse(clients, upstreams)
  {
  }

  lemma OneSocketEach(clients: map<Address, nat>, upstreams: map<nat, Address>, order: seq<Address>, from: Address)
    requires Numbered(clients, upstreams, order)
    ensures from in clients <==> from in order
    ensures from !in clients ==>
      && Numbered(clients[from := |order|], upstreams[|order| := from], order + [from])
      && clients[from := |order|].Keys == clients.Keys + {from}
  {
  }

  lemma ClientsNext(history: seq<Arrival>, a: Arrival)
    ensures Clients(history + [a]) == Joined(Clients(history), a.from)
  {
    assert (history + [a])[..|history|] == history;
  }

  /** The dictionaries and the drop set describe the history. */
  ghost predicate Tracks(tails: set<nat>, history: seq<Arrival>, clients: map<Address, nat>,
                         dropped: set<Loss>)
  {
    && (forall a :: a in clients <==> Known(history, a))
    && (forall l: Loss :: l in dropped <==> TailSeen(tails, history, l.client, l.index))
  }

  ghost predicate Relayed(tails: set<nat>, history: seq<Arrival>, clients: map<Address, nat>, forwarded: seq<Forward>) {
    && |forwarded| == |Passed(tails, history)|
    && forall k :: 0 <= k < |forwarded| ==>
      && Arrival(forwarded[k].client, forwarded[k].packet) == Passed(tails, history)[k]
      && forwarded[k].client in clients && clients[forwarded[k].client] == forwarded[k].socket
  }

  lemma TracksNext(tails: set<nat>, history: seq<Arrival>, a: Arrival, clients: map<Address, nat>,
                   more: map<Address, nat>, dropped: set<Loss>)
    requires Tracks(tails, history, clients, dropped) && more.Keys == clients.Keys + {a.from}
    ensures Tracks(tails, history + [a], more,
      if IsTail(tails, a) then dropped + {Loss(a.from, Index(a.packet))} else dropped)
  {
    forall c
      ensures c in more <==> Known(history + [a], c)
    {
      KnownNext(history, a, c);
    }
    forall l: Loss
      ensures l in (if IsTail(tails, a) then dropped + {Loss(a.from, Index(a.packet))} else dropped)
        <==> TailSeen(tails, history + [a], l.client, l.index)
    {
      SeenNext(tails, history, a, l.client, l.index);
    }
  }

  lemma RelayedNext(tails: set<nat>, history: seq<Arrival>, a: Arrival, clients: map<Address, nat>,
                    more: map<Address, nat>, forwarded: seq<Forward>)
    requires Relayed(tails, history, clients, forwarded) && a.from in more
    requires forall c :: c in clients ==> c in more && more[c] == clients[c]
    ensures Lost(tails, history + [a], |history|) ==> Relayed(tails, history + [a], more, forwarded)
    ensures !Lost(tails, history + [a], |history|) ==>
      Relayed(tails, history + [a], more, forwarded + [Forward(more[a.from], a.from, a.packet)])
  {
  }

  /** A datagram is withheld exactly when it is lost, and the drop set then grows by its key. */
  lemma WithheldWhenLost(tails: set<nat>, history: seq<Arrival>, a: Arrival, clients: map<Address, nat>,
                         dropped: set<Loss>)
    requires Tracks(tails, history, clients, dropped)
    ensures Lost(tails, history + [a], |history|) <==> IsTail(tails, a) && Loss(a.from, Index(a.packet)) !in dropped
  {
    LostNow(tails, history, a);
    assert IsTail(tails, a) ==> Loss(a.from, Index(a.packet)).client == a.from;
  }

  /** A datagram that becomes ready on the front socket or on an upstream socket. */
  datatype Datagram = Front(arrival: Arrival) | Back(socket: nat, sender: Address, packet: Packet)

  ghost function Fronts(inputs: seq<Datagram>): seq<Arrival> {
    if inputs == [] then []
    else
      var last := inputs[|inputs| - 1];
      Fronts(inputs[..|inputs| - 1]) + if last.Front? then [last.arrival] else []
  }

  /** Replies of the target on an open socket, each to the client whose turn it was to get that socket. */
  ghost function Answers(target: Address, inputs: seq<Datagram>): seq<Arrival> {
    if inputs == [] then []
    else
      var earlier, last := inputs[..|inputs| - 1], inputs[|inputs| - 1];
      var clients := Clients(Fronts(earlier));
      Answers(target, earlier)
      + if last.Back? && last.sender == target && last.socket < |clients|
        then [Arrival(clients[last.socket], last.packet)] else []
  }

  lemma InputsNext(target: Address, inputs: seq<Datagram>, n: nat)
    requires n < |inputs|
    ensures
      var clients := Clients(Fronts(inputs[..n]));
      match inputs[n]
      case Front(a) =>
        && Fronts(inputs[..n + 1]) == Fronts(inputs[..n]) + [a]
        && Answers(target, inputs[..n + 1]) == Answers(target, inputs[..n])
      case Back(socket, sender, packet) =>
        && Fronts(inputs[..n + 1]) == Fronts(inputs[..n])
        && Answers(target, inputs[..n + 1]) == Answers(target, inputs[..n])
             + if sender == target && socket < |clients| then [Arrival(clients[socket], packet)] else []
  {
    assert inputs[..n + 1][..n] == inputs[..n];
  }

  class Relay {
    const tails: set<nat>
    var clients: map<Address, nat>
    var upstreams: map<nat, Address>
    var dropped: set<Loss>
    var failed: bool
    var forwarded: seq<Forward>
    var replies: seq<Arrival>
    var sockets: nat
    ghost var history: seq<Arrival>
    ghost var order: seq<Address>

    ghost predicate Valid()
      reads this
    {
      && |clients| <= MEMBER_BOUND && sockets == |order| && Numbered(clients, upstreams, order)
      && Tracks(tails, history, clients, dropped)
      && Relayed(tails, history, clients, forwarded)
    }

    constructor (tails: set<nat>)
      ensures Valid() && history == [] && order == [] && !failed && this.tails == tails
      ensures forwarded == [] && replies == [] && clients == map[] && dropped == {}
    {
      this.tails := tails;
      clients, upstreams, dropped, failed := map[], map[], {}, false;
      forwarded, replies, sockets, history, order := [], [], 0, [], [];
    }

    /** Give a new client its own upstream socket, within the member bound. */
    method Admit(from: Address)
      requires |clients| <= MEMBER_BOUND && sockets == |order| && Numbered(clients, upstreams, order) && !failed
      modifies this`clients, this`upstreams, this`sockets, this`failed, this`order
      ensures |clients| <= MEMBER_BOUND && sockets == |order| && Numbered(clients, upstreams, order)
      ensures order == if failed then old(order) else Joined(old(order), from)
      ensures failed <==> from !in old(clients) && |old(clients)| == MEMBER_BOUND
      ensures failed ==> clients == old(clients) && upstreams == old(upstreams)
      ensures !failed ==> clients.Keys == old(clients).Keys + {from}
      ensures forall a :: a in old(clients) ==> a in clients && clients[a] == old(clients)[a]
    {
      OneSocketEach(clients, upstreams, order, from);
      if from !in clients {
        if |clients| == MEMBER_BOUND {
          failed := true;
          return;
        }
        clients, upstreams := clients[from := sockets], upstreams[sockets := from];
        sockets, order := sockets + 1, order + [from];
      }
    }

    /** One datagram on the front socket. */
    method FromClient(a: Arrival)
      requires Valid() && !failed
      modifies this`clients, this`upstreams, this`dropped, this`failed, this`forwarded, this`sockets
      modifies this`history, this`order
      ensures Valid()
      ensures failed <==> a.from !in old(clients) && |old(clients)| == MEMBER_BOUND
      ensures history == if failed then old(history) else old(history) + [a]
      ensures order == if failed then old(order) else Joined(old(order), a.from)
      ensures failed ==>
        clients == old(clients) && upstreams == old(upstreams) && dropped == old(dropped) && forwarded == old(forwarded)
    {
      Admit(a.from);
      if failed {
        return;
      }
      Settle(a, old(clients));
    }

    /** Withhold the first datagram of a tail, pass on anything else. */
    method Settle(a: Arrival, ghost before: map<Address, nat>)
      requires Tracks(tails, history, before, dropped) && Relayed(tails, history, before, forwarded)
      requires clients.Keys == before.Keys + {a.from}
      requires forall c :: c in before ==> c in clients && clients[c] == before[c]
      modifies this`dropped, this`forwarded, this`history
      ensures history == old(history) + [a]
      ensures Tracks(tails, history, clients, dropped) && Relayed(tails, history, clients, forwarded)
    {
      TracksNext(tails, history, a, before, clients, dropped);
      WithheldWhenLost(tails, history, a, before, dropped);
      RelayedNext(tails, history, a, before, clients, forwarded);
      history := history + [a];
      if CarriesIndex(a.packet) {
        var loss := Loss(a.from, Index(a.packet));
        if loss.index in tails && loss !in dropped {
          dropped := dropped + {loss};
          return;
        }
        assert IsTail(tails, a) ==> dropped + {loss} == dropped;
      }
      forwarded := forwarded + [Forward(clients[a.from], a.from, a.packet)];
    }

    /** One datagram on an upstream socket: only the target's replies are passed back, to that socket's client. */
    method FromUpstream(socket: nat, sender: Address, target: Address, packet: Packet)
      requires Valid() && socket in upstreams
      modifies this`replies
      ensures Valid()
      ensures replies == if sender == target then old(replies) + [Arrival(upstreams[socket], packet)] else old(replies)
      ensures upstreams[socket] in clients && clients[upstreams[socket]] == socket
    {
      if sender == target {
        replies := replies + [Arrival(upstreams[socket], packet)];
      }
    }

    /** The relay thread, for any arrivals on any sockets in any order; only a 65th client stops it early. */
    method Run(target: Address, inputs: seq<Datagram>) returns (taken: nat)
      requires Valid() && !failed && history == [] && replies == [] && order == []
      modifies this
      ensures Valid() && Inverse(clients, upstreams) && taken <= |inputs|
      ensures history == Fronts(inputs[..taken]) && replies == Answers(target, inputs[..taken])
      ensures !failed ==> taken == |inputs|
      ensures failed ==>
        && taken < |inputs| && inputs[taken].Front?
        && inputs[taken].arrival.from !in clients && |clients| == MEMBER_BOUND
    {
      taken := 0;
      while taken < |inputs| && !failed
        invariant Valid() && taken <= |inputs| && order == Clients(history)
        invariant history == Fronts(inputs[..taken]) && replies == Answers(target, inputs[..taken])
        invariant failed ==>
          && taken < |inputs| && inputs[taken].Front?
          && inputs[taken].arrival.from !in clients && |clients| == MEMBER_BOUND
        decreases |inputs| - taken, !failed
      {
        InputsNext(target, inputs, taken);
        if inputs[taken].Front? {
          ClientsNext(history, inputs[taken].arrival);
        }
        Take(target, inputs[taken]);
        taken := if failed then taken else taken + 1;
      }
      NumberedInverse(clients, upstreams, order);
    }

    /** One datagram on any socket. */
    method Take(target: Address, d: Datagram)
      requires Valid() && !failed
      modifies this
      ensures Valid() && (failed ==> d.Front? && d.arrival.from !in clients && |clients| == MEMBER_BOUND)
      ensures history == if d.Front? && !failed then old(history) + [d.arrival] else old(history)
      ensures order == if d.Front? && !failed then Joined(old(order), d.arrival.from) else old(order)
      ensures replies == old(replies)
        + if d.Back? && d.sender == target && d.socket < |order| then [Arrival(order[d.socket], d.packet)] else []
    {
      match d {
        case Front(a) => FromClient(a);
        case Back(socket, sender, packet) =>
          if socket in upstreams {
            FromUpstream(socket, sender, target, packet);
          }
      }
    }

    /** How many losses were injected, if every path lost every tail. */
    method Validate(members: nat) returns (ok: bool, losses: nat)
      requires Valid()
      ensures ok <==> !failed && |clients| == members && AllLost(tails, history, clients.Keys)
      ensures ok ==> losses == members * |tails|
    {
      var expected := set a, t | a in clients && t in tails :: Loss(a, t);
      ok := !failed && |clients| == members && dropped == expected;
      losses := |dropped|;
      assert expected == Product(clients.Keys, tails);
      DroppedIsProduct(tails, history, clients, dropped);
      ProductSize(clients.Keys, tails);
    }
  }

  ghost function Row(x: Address, t: set<nat>): set<Loss> {
    set y | y in t :: Loss(x, y)
  }

  ghost function Product(a: set<Address>, t: set<nat>): set<Loss> {
    set x, y | x in a && y in t :: Loss(x, y)
  }

  lemma {:induction false} RowSize(x: Address, t: set<nat>)
    ensures |Row(x, t)| == |t|
  {
    if t != {} {
      var y: nat :| y in t;
      RowSize(x, t - {y});
      assert Row(x, t) == Row(x, t - {y}) + {Loss(x, y)};
    } else {
      assert Row(x, t) == {};
    }
  }

  lemma {:induction false} ProductSize(a: set<Address>, t: set<nat>)
    ensures |Product(a, t)| == |a| * |t|
  {
    if |a| == 0 {
      assert Product(a, t) == {};
    } else {
      var x: Address :| x in a;
      ProductSize(a - {x}, t);
      RowSize(x, t);
      assert Product(a, t) == Product(a - {x}, t) + Row(x, t);
      assert |a| * |t| == (|a| - 1) * |t| + |t|;
    }
  }

  lemma DroppedWithin(tails: set<nat>, history: seq<Arrival>, clients: map<Address, nat>, dropped: set<Loss>, l: Loss)
    requires Tracks(tails, history, clients, dropped) && l in dropped
    ensures l.client in clients && l.index in tails
  {
  }

  /** The drop set is the full product exactly when every client lost every tail. */
  lemma DroppedIsProduct(tails: set<nat>, history: seq<Arrival>, clients: map<Address, nat>, dropped: set<Loss>)
    requires Tracks(tails, history, clients, dropped)
    ensures dropped == Product(clients.Keys, tails) <==> AllLost(tails, history, clients.Keys)
  {
    forall l | l in dropped
      ensures l in Product(clients.Keys, tails)
    {
      DroppedWithin(tails, history, clients, dropped, l);
      assert l == Loss(l.client, l.index);
    }
    if AllLost(tails, history, clients.Keys) {
      forall l | l in Product(clients.Keys, tails)
        ensures l in dropped
      {
        assert TailSeen(tails, history, l.client, l.index);
      }
    }
    if dropped == Product(clients.Keys, tails) {
      forall a, t | a in clients.Keys && t in tails
        ensures TailSeen(tails, history, a, t)
      {
        assert Loss(a, t) in Product(clients.Keys, tails);
      }
    }
  }

  /** Per client and tail index exactly one datagram is lost: the first that arrived. */
  lemma LostOnce(tails: set<nat>, history: seq<Arrival>, i: nat, j: nat)
    requires i < |history| && j < |history| && Lost(tails, history, i) && Lost(tails, history, j)
    requires SameTail(tails, history[i], history[j])
    ensures i == j
  {
  }

  lemma {:induction false} LostAtAll(tails: set<nat>, history: seq<Arrival>, client: Address, index: nat)
    requires TailSeen(tails, history, client, index)
    ensures exists i ::
      0 <= i < |history| && Lost(tails, history, i) && history[i].from == client && Index(history[i].packet) == index
  {
    var i :| 0 <= i < |history| && IsTail(tails, history[i])
      && history[i].from == client && Index(history[i].packet) == index;
    Earliest(tails, history, i);
  }

  lemma {:induction false} Earliest(tails: set<nat>, history: seq<Arrival>, i: nat)
    requires i < |history| && IsTail(tails, history[i])
    ensures exists k :: 0 <= k <= i && Lost(tails, history, k) && SameTail(tails, history[k], history[i])
  {
    if !Lost(tails, history, i) {
      var j :| 0 <= j < i && SameTail(tails, history[j], history[i]);
      Earliest(tails, history, j);
    }
  }
}
