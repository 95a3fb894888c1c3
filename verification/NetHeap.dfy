/** The network as net.c keeps it: link buffers chained through the messages themselves and updated in place, with the
    mailboxes and the processor records as fields that the steps reassign.  Every method is proved against the step of NetModel
    it carries out. */
module NetHeap {
  import opened Indices
  import opened Words
  import opened Mesh
  import opened NetModel
  import opened NetInvariant
  import opened NetOperate
  import opened NetRun

  // struct Msg: the message, and the link to the next one of its buffer.
  class Cell {
    var msg: Msg
    var nxt: Cell?

    constructor (m: Msg)
      ensures msg == m && nxt == null
    {
      msg, nxt := m, null;
    }
  }

  // struct Link: a bounded queue of messages, chained through nxt.
  class Link {
    var hd: Cell?
    var tl: Cell?
    var len: nat
    ghost var cells: seq<Cell>
    ghost var Contents: seq<Msg>
    ghost var Repr: set<object>

    ghost predicate Valid()
      reads this, Repr
      ensures Valid() ==> this in Repr
    {
      && this in Repr && len == |cells| == |Contents| <= LINK_BUFSZ
      && (cells == [] ==> hd == null)
      && (cells != [] ==> hd == cells[0] && tl == cells[|cells| - 1])
      && (forall i :: 0 <= i < |cells| ==> cells[i] in Repr && cells[i].msg == Contents[i])
      && (cells != [] ==> cells[|cells| - 1].nxt == null)
      && (forall i :: 0 <= i < |cells| - 1 ==> cells[i].nxt == cells[i + 1])
      && (forall i, j :: 0 <= i < j < |cells| ==> cells[i] != cells[j])
    }

    constructor ()
      ensures Valid() && fresh(Repr) && Contents == []
    {
      hd, tl, len := null, null, 0;
      cells, Contents, Repr := [], [], {this};
    }

    // link_insmsg.  The program clears c.nxt only if the link holds other messages, so it has to be clear.
    method Insert(c: Cell) returns (ok: bool)
      requires Valid() && c !in Repr && c.nxt == null
      modifies Repr, c`nxt
      ensures Valid() && Repr == old(Repr) + if ok then {c} else {}
      ensures ok <==> |old(Contents)| < LINK_BUFSZ
      ensures Contents == if ok then old(Contents) + [c.msg] else old(Contents)
    {
      if len == LINK_BUFSZ {
        return false;
      }
      if len > 0 {
        tl.nxt := c;
        c.nxt := null;
        tl := c;
      } else {
        hd := c;
        tl := c;
      }
      cells, Contents, Repr := cells + [c], Contents + [c.msg], Repr + {c};
      len := len + 1;
      return true;
    }

    // link_remmsg
    method Remove() returns (c: Cell?)
      requires Valid()
      modifies Repr
      ensures Valid() && (c == null <==> old(Contents) == [])
      ensures c == null ==> Contents == [] && Repr == old(Repr)
      ensures c != null ==> c in old(Repr) && Repr == old(Repr) - {c} && c.nxt == null
      ensures c != null ==> c.msg == old(Contents[0]) && Contents == old(Contents)[1..]
    {
      if hd == null {
        return null;
      }
      c := hd;
      hd := c.nxt;
      c.nxt := null;
      len := len - 1;
      cells, Contents, Repr := cells[1..], Contents[1..], Repr - {c};
    }
  }

  // struct Net and struct Node.  The link buffers of the nodes are fixed objects.
  class Network {
    const grid: Grid
    const link: map<Place, Link>
    var mbox: map<Place, seq<Msg>>
    var cpu: seq<Cpu>
    var nrun: int
    var cycle: nat
    ghost var net: Net  // the state of NetModel this object represents
    ghost var Repr: set<object>

    // Empty buffers that share nothing, made of the objects in all.
    static ghost predicate Buffers(m: map<Place, Link>, all: set<object>)
      reads all
    {
      && (forall p :: p in m ==> m[p] in all && m[p].Repr <= all && m[p].Valid() && m[p].Contents == [])
      && (forall p, r :: p in m && r in m && p != r ==> m[p].Repr !! m[r].Repr)
    }

    // create, with the mailboxes empty: all processors run, nothing is in the network.
    constructor (g: Grid, programs: seq<Cpu>, links: map<Place, Link>, ghost all: set<object>)
      requires |programs| == g.Size() && (forall i :: 0 <= i < |programs| ==> Fresh(programs[i]))
      requires forall p :: p in links <==> ValidPlace(g, p) && !p.Mbox?
      requires Buffers(links, all)
      ensures Valid() && Initial(net) && net.grid == g && net.cpu == programs && Repr == {this} + all
    {
      grid, link, mbox, cpu := g, links, EmptySlots(g), programs;
      nrun, cycle := g.Size(), 0;
      net := EmptyNet(g, programs);
      Repr := {this} + all;
    }

    /** The whole of create: the links and the network around them. */
    static method Create(g: Grid, programs: seq<Cpu>) returns (n: Network)
      requires |programs| == g.Size() && (forall i :: 0 <= i < |programs| ==> Fresh(programs[i]))
      ensures n.Valid() && fresh(n.Repr) && Initial(n.net) && n.net.grid == g && n.net.cpu == programs
    {
      var links: map<Place, Link> := map[];
      ghost var all: set<object> := {};
      var k, count := 0, LINK_NAMES * g.Size();
      while k < count
        invariant 0 <= k <= count
        invariant forall p :: p in links <==> MadeBy(g, p, k)
        invariant fresh(all) && Buffers(links, all)
      {
        var i := new Link();
        var o := new Link();
        links := links[Inl(k / LINK_NAMES, DirAt(k % LINK_NAMES)) := i][Outl(k / LINK_NAMES, DirAt(k % LINK_NAMES)) := o];
        all := all + i.Repr + o.Repr;
        k := k + 1;
      }
      AllMade(g, links);
      n := new Network(g, programs, links, all);
    }

    // Place p is one of the links of the first k numbers.
    static ghost predicate MadeBy(g: Grid, p: Place, k: nat) { !p.Mbox? && LINK_NAMES * p.id + DirNo(p.dir) < k }

    static lemma AllMade(g: Grid, links: map<Place, Link>)
      requires forall p :: p in links <==> MadeBy(g, p, LINK_NAMES * g.Size())
      ensures forall p :: p in links <==> ValidPlace(g, p) && !p.Mbox?
    {
    }

    static ghost function EmptyNet(g: Grid, programs: seq<Cpu>): (n: Net)
      ensures n == Net(g, n.q, programs, g.Size(), 0)
      ensures forall p :: p in n.q <==> ValidPlace(g, p)
      ensures forall p :: p in n.q ==> n.q[p] == []
    {
      var inputs := map id, d | 0 <= id < g.Size() :: Inl(id, d) := [];
      var outputs := map id, d | 0 <= id < g.Size() :: Outl(id, d) := [];
      Net(g, EmptySlots(g) + inputs + outputs, programs, g.Size(), 0)
    }

    static function EmptySlots(g: Grid): (m: map<Place, seq<Msg>>)
      ensures forall p :: p in m <==> ValidPlace(g, p) && p.Mbox?
      ensures forall p :: p in m ==> m[p] == []
    {
      map id, f | 0 <= id < g.Size() && 0 <= f < g.Size() :: Mbox(id, f) := []
    }

    // The buffers are valid and share nothing.
    ghost predicate Owned()
      reads this, Repr
    {
      && this in Repr && |cpu| == grid.Size()
      && (forall p :: p in link <==> ValidPlace(grid, p) && !p.Mbox?)
      && (forall p :: p in mbox <==> ValidPlace(grid, p) && p.Mbox?)
      && (forall p :: p in link ==> link[p] in Repr && link[p].Repr <= Repr && this !in link[p].Repr && link[p].Valid())
      && (forall p, r :: p in link && r in link && p != r ==> link[p].Repr !! link[r].Repr)
    }

    ghost predicate Tied()
      requires Owned()
      reads this, Repr
    {
      && net.grid == grid && net.cpu == cpu && net.nrun == nrun && net.cycle == cycle
      && (forall p :: p in net.q <==> ValidPlace(grid, p))
      && (forall p :: p in link ==> net.q[p] == link[p].Contents)
      && (forall p :: p in mbox ==> net.q[p] == mbox[p])
    }

    ghost predicate Valid()
      reads this, Repr
    {
      Owned() && Tied()
    }

    // Link p was used, and nothing else.
    twostate predicate Used(p: Place)
      requires p in link
      reads *
    {
      && mbox == old(mbox) && cpu == old(cpu) && nrun == old(nrun) && cycle == old(cycle)
      && (forall o: object :: o in old(Repr) && o != this && o !in old(link[p].Repr) ==> unchanged(o))
      && link[p].Valid() && this !in link[p].Repr && link[p].Repr - old(link[p].Repr) !! old(Repr)
      && Repr == old(Repr) - old(link[p].Repr) + link[p].Repr
    }

    twostate lemma LinksUsed(p: Place)
      requires old(Valid())
      requires p in link
      requires Used(p)
      ensures forall q :: q in link && q != p ==>
        link[q].Valid() && link[q].Repr == old(link[q].Repr) && link[q].Contents == old(link[q].Contents)
    {
      forall q | q in link && q != p
        ensures link[q].Valid() && link[q].Repr == old(link[q].Repr) && link[q].Contents == old(link[q].Contents)
      {
        assert old(link[q].Repr) !! old(link[p].Repr);
        assert unchanged(link[q]);
      }
    }

    twostate lemma LinkOwned(p: Place)
      requires old(Valid())
      requires p in link
      requires Used(p)
      ensures Owned()
      ensures forall q :: q in link && q != p ==> link[q].Contents == old(link[q].Contents)
    {
      LinksUsed(p);
    }

    twostate lemma LinkTied(p: Place)
      requires old(Valid())
      requires p in link && Owned()
      requires Used(p)
      requires forall q :: q in link && q != p ==> link[q].Contents == old(link[q].Contents)
      requires net == old(net).(q := old(net.q)[p := link[p].Contents])
      ensures Tied()
    {
      forall q | q in link ensures net.q[q] == link[q].Contents {
        assert q != p ==> link[q].Contents == old(link[q].Contents);
      }
    }

    // Using one link is all that changed the object.
    twostate lemma LinkValid(p: Place)
      requires old(Valid())
      requires p in link
      requires Used(p) && net == old(net).(q := old(net.q)[p := link[p].Contents])
      ensures Valid()
    {
      LinkOwned(p);
      LinkTied(p);
    }

    ghost predicate HasLink(p: Place)
      reads this, Repr
    {
      && this in Repr && p in link && link[p] in Repr && link[p].Repr <= Repr && this !in link[p].Repr && link[p].Valid()
      && p in net.q && net.q[p] == link[p].Contents
    }

    lemma LinkFacts(p: Place)
      requires Valid() && ValidPlace(grid, p) && !p.Mbox?
      ensures HasLink(p)
    {
    }

    method DropHead(p: Place) returns (c: Cell)
      requires HasLink(p) && Q(net, p) != []
      modifies Repr
      ensures p in link && Used(p) && net == old(net).(q := old(net.q)[p := link[p].Contents])
      ensures c in old(Repr) && Repr == old(Repr) - {c} && c.nxt == null
      ensures c.msg == old(Q(net, p)[0]) && net == Pop(old(net), p)
    {
      c := link[p].Remove();
      net := net.(q := net.q[p := link[p].Contents]);
      Repr := Repr - {c};
    }

    // link_remmsg from buffer p, which is not empty; the message now belongs to the caller.
    method TakeHead(p: Place) returns (c: Cell)
      requires Valid() && ValidPlace(grid, p) && !p.Mbox? && Q(net, p) != []
      modifies Repr
      ensures Valid() && c in old(Repr) && Repr == old(Repr) - {c} && c.nxt == null
      ensures c.msg == old(Q(net, p)[0]) && net == Pop(old(net), p)
    {
      hide Owned, Tied, Used, HasLink;
      LinkFacts(p);
      c := DropHead(p);
      LinkValid(p);
    }

    method PutTail(r: Place, c: Cell)
      requires HasLink(r) && |Q(net, r)| < LINK_BUFSZ && c !in Repr && c.nxt == null
      modifies Repr, c`nxt
      ensures r in link && Used(r) && net == old(net).(q := old(net.q)[r := link[r].Contents])
      ensures Repr == old(Repr) + {c} && net == Push(old(net), r, c.msg)
    {
      var ok := link[r].Insert(c);
      net := Push(net, r, c.msg);
      Repr := Repr + {c};
    }

    // link_insmsg into buffer r, which has room.
    method AddTail(r: Place, c: Cell)
      requires Valid() && ValidPlace(grid, r) && !r.Mbox? && |Q(net, r)| < LINK_BUFSZ && c !in Repr && c.nxt == null
      modifies Repr, c`nxt
      ensures Valid() && Repr == old(Repr) + {c}
      ensures net == Push(old(net), r, c.msg)
    {
      hide Owned, Tied, Used, HasLink;
      LinkFacts(r);
      PutTail(r, c);
      LinkValid(r);
    }

    // A new message for buffer r, which has room.
    method Post(r: Place, m: Msg)
      requires Valid() && ValidPlace(grid, r) && !r.Mbox? && |Q(net, r)| < LINK_BUFSZ
      modifies Repr
      ensures Valid() && fresh(Repr - old(Repr))
      ensures net == Push(old(net), r, m)
    {
      hide Owned, Tied;
      var c := new Cell(m);
      AddTail(r, c);
    }

    twostate lemma LinksKept()
      requires old(Valid())
      requires Repr == old(Repr) && (forall o: object :: o in old(Repr) && o != this ==> unchanged(o))
      requires mbox.Keys == old(mbox.Keys) && |cpu| == old(|cpu|)
      ensures Owned() && forall p :: p in link ==> link[p].Contents == old(link[p].Contents)
    {
    }

    // What Valid says of the fields outside the buffers.
    lemma Fields()
      requires Valid()
      ensures this in Repr && net.grid == grid && net.cpu == cpu && |cpu| == grid.Size() && net.nrun == nrun && net.cycle == cycle
      ensures forall p :: p in mbox <==> ValidPlace(grid, p) && p.Mbox?
      ensures forall p :: p in mbox ==> p in net.q && net.q[p] == mbox[p]
    {
    }

    method Length(p: Place) returns (n: nat)
      requires Valid() && ValidPlace(grid, p) && !p.Mbox?
      ensures n == |Q(net, p)| <= LINK_BUFSZ
    {
      assert link[p].Valid();
      n := link[p].len;
    }

    method Head(p: Place) returns (m: Msg)
      requires Valid() && ValidPlace(grid, p) && !p.Mbox? && Q(net, p) != []
      ensures m == Q(net, p)[0]
    {
      assert link[p].Valid();
      m := link[p].hd.msg;
    }

    // link_remmsg from one buffer and link_insmsg into another, as message m.
    method MoveHead(p: Place, r: Place, m: Msg)
      requires Valid() && ValidPlace(grid, p) && !p.Mbox? && Q(net, p) != []
      requires ValidPlace(grid, r) && !r.Mbox? && p != r && |Q(net, r)| < LINK_BUFSZ
      modifies Repr
      ensures Valid() && Repr == old(Repr)
      ensures net == NetModel.Transfer(old(net), p, r, m)
    {
      hide Owned, Tied;
      var c := TakeHead(p);
      c.msg := m;
      AddTail(r, c);
    }

    method SetMail(p: Place, b: seq<Msg>)
      requires Valid() && ValidPlace(grid, p) && p.Mbox?
      modifies this
      ensures Valid() && Repr == old(Repr) && net == old(net).(q := old(net.q)[p := b])
    {
      mbox := mbox[p := b];
      net := net.(q := net.q[p := b]);
      LinksKept();
    }

    method WriteCpu(id: nat, c: Cpu)
      requires Valid() && id < |net.cpu|
      modifies this
      ensures Valid() && Repr == old(Repr) && net == SetCpu(old(net), id, c)
    {
      cpu := cpu[id := c];
      net := SetCpu(net, id, c);
      LinksKept();
    }

    // ---------------------------------------------------------------- fwd and hop

    // The head of an input buffer goes into the empty slot of its sender.
    method Deliver(id: nat, d: Dir, msg: Msg)
      requires Valid() && id < |net.cpu| && ValidPlace(grid, Mbox(id, msg.from))
      requires Q(net, Inl(id, d)) != [] && msg == Q(net, Inl(id, d))[0] && Q(net, Mbox(id, msg.from)) == []
      modifies Repr
      ensures Valid() && fresh(Repr - old(Repr))
      ensures net == Received(NetModel.Transfer(old(net), Inl(id, d), Mbox(id, msg.from), msg), id)
    {
      hide Owned, Tied;
      Fields();
      var c := TakeHead(Inl(id, d));
      assert Q(net, Mbox(id, msg.from)) + [c.msg] == [c.msg];
      SetMail(Mbox(id, msg.from), [c.msg]);
      Fields();
      WriteCpu(id, cpu[id].(nmsg := (cpu[id].nmsg + 1) % WORD, mboxNew := cpu[id].mboxNew + 1));
    }

    method FwdLink(id: nat, d: Dir)
      requires Valid() && Inv(net) && id < |net.cpu|
      modifies Repr
      ensures Valid() && fresh(Repr - old(Repr))
      ensures net == NetModel.FwdLink(old(net), id, d)
    {
      hide Owned, Tied, Inv;
      Fields();
      var n := Length(Inl(id, d));
      if n == 0 {
        return;
      }
      HeadOk(net, Inl(id, d));
      var msg := Head(Inl(id, d));
      FwdRoute(grid, id, d, msg);
      match Guidance(grid, id, msg.to) {
        case Toward(o) =>
          var k := Length(Outl(id, o));
          if k == LINK_BUFSZ {
            return;
          }
          MoveHead(Inl(id, d), Outl(id, o), msg);
        case Arrived =>
          if mbox[Mbox(id, msg.from)] != [] {
            return;
          }
          Deliver(id, d, msg);
      }
    }

    method HopLink(id: nat, d: Dir)
      requires Valid() && Inv(net) && id < |net.cpu|
      modifies Repr
      ensures Valid() && fresh(Repr - old(Repr))
      ensures net == NetModel.HopLink(old(net), id, d)
    {
      hide Owned, Tied, Inv;
      Fields();
      var (nxt, oob) := HopTarget(grid, id, d);
      var n := Length(Outl(id, d));
      if n == 0 || oob {
        return;
      }
      HopTargetExact(grid, id, d);
      var k := Length(Inl(nxt, Opposite(d)));
      if k == LINK_BUFSZ {
        return;
      }
      var msg := Head(Outl(id, d));
      MoveHead(Outl(id, d), Inl(nxt, Opposite(d)), msg.(hops := (msg.hops + 1) % WORD));
    }

    // ---------------------------------------------------------------- operate

    // What the common end of input and alt finds in the slot, and where the acknowledge goes.
    lemma AcceptFacts(n: Net, from: nat, to: nat)
      requires Inv(n) && to < |n.cpu| && !Waiting(n.cpu[to]) && Q(n, Mbox(to, from)) != []
      ensures var msg := Q(n, Mbox(to, from))[0];
        Q(n, Mbox(to, from)) == [msg] && msg.from == from && from < n.grid.Size() && to < n.grid.Size()
        && Guidance(n.grid, to, from).Toward? && OutPlace(n.grid, to, from) == Outl(to, Guidance(n.grid, to, from).dir)
    {
      MailIsData(n, from, to);
      HeadOk(n, Mbox(to, from));
      FirstPlace(n.grid, to, from);
    }

    // The common end of input and alt: acknowledge the message and take it.
    method Accept(from: nat, to: nat) returns (e: Status)
      requires Valid() && Inv(net) && to < |net.cpu| && !Waiting(net.cpu[to]) && Q(net, Mbox(to, from)) != []
      modifies Repr
      ensures Valid() && fresh(Repr - old(Repr))
      ensures (net, e) == NetModel.Accept(old(net), from, to)
    {
      hide Owned, Tied, Inv, Guidance;
      Fields();
      AcceptFacts(net, from, to);
      var msg := mbox[Mbox(to, from)][0];
      var ack := Msg(msg.from, to, 0, msg.hops, true);
      var r := Outl(to, Guidance(grid, to, msg.from).dir);
      var k := Length(r);
      if k >= LINK_BUFSZ {
        return NoBufs;
      }
      SetMail(Mbox(to, from), []);
      Post(r, ack);
      Fields();
      var c := cpu[to];
      WriteCpu(to, c.(data := msg.data, hops := (c.hops + msg.hops) % WORD, op := OpNone, sent := false,
                      log := c.log.(taken := c.log.taken[from := Get(c.log.taken, from) + [msg.data]])));
      return Done;
    }

    method Input(from: nat, to: nat) returns (e: Status)
      requires Valid() && Inv(net) && to < |net.cpu| && from < |net.cpu| && net.cpu[to].op == OpIn
      modifies Repr
      ensures Valid() && fresh(Repr - old(Repr))
      ensures (net, e) == NetModel.Input(old(net), from, to)
    {
      hide Owned, Tied;
      Fields();
      if mbox[Mbox(to, from)] == [] {
        return Again;
      }
      e := Accept(from, to);
    }

    // The acknowledge of an output has come.
    method Complete(to: nat, from: nat)
      requires Valid() && from < |net.cpu| && ValidPlace(grid, Mbox(from, to)) && |Q(net, Mbox(from, to))| == 1
      modifies Repr
      ensures Valid() && fresh(Repr - old(Repr))
      ensures var c := old(net).cpu[from];
        net == SetCpu(Pop(old(net), Mbox(from, to)), from,
                      c.(op := OpNone, sent := false, log := c.log.(done := c.log.done[to := Count(c.log.done, to) + 1])))
    {
      hide Owned, Tied;
      Fields();
      var c := cpu[from];
      SetMail(Mbox(from, to), []);
      WriteCpu(from, c.(op := OpNone, sent := false, log := c.log.(done := c.log.done[to := Count(c.log.done, to) + 1])));
    }

    lemma OutputFacts(n: Net, from: nat)
      requires Inv(n) && from < |n.cpu| && n.cpu[from].op == OpOut
      ensures var to := n.cpu[from].corr;
        from < n.grid.Size() && to < n.grid.Size() && from != to && Guidance(n.grid, from, to).Toward?
        && OutPlace(n.grid, from, to) == Outl(from, Guidance(n.grid, from, to).dir) && |Q(n, Mbox(from, to))| <= 1
    {
      FirstPlace(n.grid, from, n.cpu[from].corr);
    }

    method Output(to: nat, from: nat) returns (e: Status)
      requires Valid() && Inv(net) && from < |net.cpu| && net.cpu[from].op == OpOut && net.cpu[from].corr == to
      modifies Repr
      ensures Valid() && fresh(Repr - old(Repr))
      ensures (net, e) == NetModel.Output(old(net), to, from)
    {
      hide Owned, Tied, Inv, Guidance;
      Fields();
      OutputFacts(net, from);
      var c := cpu[from];
      if c.sent {
        var b := mbox[Mbox(from, to)];
        if b == [] {
          return Again;
        }
        if !b[0].ack {
          return Deadlock;
        }
        Complete(to, from);
        return Done;
      }
      var r := Outl(from, Guidance(grid, from, to).dir);
      var k := Length(r);
      if k >= LINK_BUFSZ {
        return NoBufs;
      }
      Post(r, Msg(to, from, c.data, 0, false));
      WriteCpu(from, c.(sent := true, log := c.log.(sent := c.log.sent[to := Get(c.log.sent, to) + [c.data]])));
      return Done;
    }

    // Whether a clause names node cur.
    method Listed(clauses: seq<Word>, cur: nat) returns (belongs: bool)
      ensures belongs <==> cur in clauses
    {
      belongs := false;
      for i := 0 to |clauses|
        invariant belongs <==> cur in clauses[..i]
      {
        if clauses[i] == cur {
          belongs := true;
        }
      }
      assert clauses[..|clauses|] == clauses;
    }

    lemma Wrap(m: nat, size: nat)
      requires m < 2 * size
      ensures m % size == if m < size then m else m - size
    {
      if m >= size {
        DivModUnique(size, 1, m - size);
      }
    }

    lemma NextIndex(start: nat, k: nat, size: nat)
      requires start < size && k < size
      ensures ((start + k) % size + 1) % size == (start + k + 1) % size
      ensures (start + k + 1) % size == start <==> k + 1 == size
    {
      Wrap(start + k, size);
      Wrap(start + k + 1, size);
      Wrap((start + k) % size + 1, size);
    }

    // The search loop of alt: from the round-robin mark, once around.
    method Search(clauses: seq<Word>, to: nat) returns (found: bool, cur: nat)
      requires Valid() && to < |net.cpu| && net.cpu[to].mboxStart < |net.cpu|
      ensures var hit := Scan(clauses, Boxes(net, to), |net.cpu|, net.cpu[to].mboxStart, 0);
        found == (hit >= 0) && cur == (if hit >= 0 then hit else net.cpu[to].mboxStart)
    {
      hide Owned, Tied;
      Fields();
      var size := |cpu|;
      var start := cpu[to].mboxStart;
      ghost var boxes := Boxes(net, to);
      assert forall f :: 0 <= f < size ==> (f in boxes <==> mbox[Mbox(to, f)] != []);
      ghost var hit := Scan(clauses, boxes, size, start, 0);
      Wrap(start, size);
      hide Boxes;
      cur := start;
      found := false;
      var done := false;
      ghost var k := 0;
      while !done
        invariant 0 <= k <= size && cur < size
        invariant !done ==> k < size && cur == (start + k) % size && !found && hit == Scan(clauses, boxes, size, start, k)
        invariant done ==> found == (hit >= 0) && cur == if hit >= 0 then hit else start
        decreases !done, size - k
      {
        var belongs := Listed(clauses, cur);
        if belongs && mbox[Mbox(to, cur)] != [] {
          found := true;
          done := true;
        } else {
          NextIndex(start, k, size);
          cur := (cur + 1) % size;
          k := k + 1;
          if cur == start {
            done := true;
          }
        }
      }
    }

    // The choice and the round-robin mark, before the message is taken.
    method Choose(to: nat) returns (found: bool, cur: nat)
      requires Valid() && to < |net.cpu| && net.cpu[to].mboxStart < |net.cpu| && net.cpu[to].clauses != []
      modifies Repr
      ensures Valid() && fresh(Repr - old(Repr))
      ensures Chosen(old(net), to, found, cur, net)
    {
      hide Owned, Tied;
      Fields();
      var clauses := cpu[to].clauses;
      if HasDefault(clauses) {
        WriteCpu(to, cpu[to].(k1 := MINUS_ONE, op := OpNone, sent := false));
        Fields();
      }
      found, cur := Search(clauses, to);
      assert Boxes(net, to) == Boxes(old(net), to);
      WriteCpu(to, cpu[to].(mboxStart := (cur + 1) % |cpu|));
    }

    ghost predicate Chosen(n: Net, to: nat, found: bool, cur: nat, t: Net)
      requires to < |n.cpu| && n.cpu[to].mboxStart < |n.cpu|
    {
      var c := n.cpu[to];
      var hit := Scan(c.clauses, Boxes(n, to), |n.cpu|, c.mboxStart, 0);
      var c1 := if HasDefault(c.clauses) then c.(k1 := MINUS_ONE, op := OpNone, sent := false) else c;
      found == (hit >= 0) && cur == (if hit >= 0 then hit else c.mboxStart) &&
      t == SetCpu(n, to, c1.(mboxStart := (cur + 1) % |n.cpu|))
    }

    lemma ChosenFacts(n: Net, to: nat, cur: nat, t: Net)
      requires Inv(n) && to < |n.cpu| && n.cpu[to].op == OpAlt && Chosen(n, to, true, cur, t)
      ensures Inv(t) && |t.cpu| == |n.cpu| && !Waiting(t.cpu[to]) && Q(t, Mbox(to, cur)) != []
    {
      LocalInv(n, t, to);
      assert Q(t, Mbox(to, cur)) == Q(n, Mbox(to, cur));
    }

    method TakeChosen(cur: nat, to: nat) returns (e: Status)
      requires Valid() && Inv(net) && to < |net.cpu| && !Waiting(net.cpu[to]) && Q(net, Mbox(to, cur)) != []
      modifies Repr
      ensures Valid() && fresh(Repr - old(Repr))
      ensures var (s2, e2) := NetModel.Accept(old(net), cur, to);
        e == e2 && net == if e == Done then SetCpu(s2, to, s2.cpu[to].(k1 := cur % WORD)) else s2
    {
      hide Owned, Tied, Inv, NetModel.Accept;
      e := Accept(cur, to);
      Fields();
      if e == Done {
        WriteCpu(to, cpu[to].(k1 := cur % WORD));
      }
    }

    method Alt(to: nat) returns (e: Status)
      requires Valid() && Inv(net) && to < |net.cpu| && net.cpu[to].op == OpAlt
      modifies Repr
      ensures Valid() && fresh(Repr - old(Repr))
      ensures (net, e) == NetModel.Alt(old(net), to)
    {
      hide Owned, Tied, Inv;
      Fields();
      CpuFacts(net, to);
      var df := HasDefault(cpu[to].clauses);
      if cpu[to].clauses == [] {
        return Deadlock;
      }
      var found, cur := Choose(to);
      if !found {
        return if df then Done else Again;
      }
      ChosenFacts(old(net), to, cur, net);
      e := TakeChosen(cur, to);
    }

    lemma CpuFacts(n: Net, id: nat)
      requires Inv(n) && id < |n.cpu|
      ensures CpuOk(|n.cpu|, id, n.cpu[id])
    {
    }

    method Operate(id: nat) returns (e: Status)
      requires Valid() && Inv(net) && id < |net.cpu|
      modifies Repr
      ensures Valid() && fresh(Repr - old(Repr))
      ensures (net, e) == NetModel.Operate(old(net), id)
    {
      hide Owned, Tied, Inv;
      Fields();
      CpuFacts(net, id);
      match cpu[id].op {
        case OpNone => e := Done;
        case OpIn => e := Input(cpu[id].corr, id);
        case OpOut => e := Output(cpu[id].corr, id);
        case OpAlt => e := Alt(id);
      }
    }

    // ---------------------------------------------------------------- processors

    // Datapath_execute, then the count of running processors that sim keeps.
    method CpuStep(id: nat, a: Act)
      requires Valid() && id < |net.cpu|
      modifies this
      ensures Valid() && Repr == old(Repr) && net == NetModel.CpuStep(old(net), id, a)
    {
      hide Owned, Tied;
      Fields();
      var c := cpu[id];
      if !c.running {
        return;
      }
      match c.op {
        case OpIn => WriteCpu(id, c.(waitin := c.waitin + 1));
        case OpOut => WriteCpu(id, c.(waitout := c.waitout + 1));
        case OpAlt => WriteCpu(id, c.(waitalt := c.waitalt + 1));
        case OpNone =>
          match a {
            case Compute(r, d, l) => WriteCpu(id, c.(corr := r, data := d, clauses := l));
            case DoInput => WriteCpu(id, c.(op := OpIn, sent := false, waitin := c.waitin + 1));
            case DoOutput => WriteCpu(id, c.(op := OpOut, sent := false, waitout := c.waitout + 1));
            case DoAlt => WriteCpu(id, c.(op := OpAlt, sent := false, waitalt := c.waitalt + 1));
            case DoWait =>
              WriteCpu(id, c.(running := false));
              StopOne();
          }
      }
    }

    method StopOne()
      requires Valid()
      modifies this
      ensures Valid() && Repr == old(Repr) && net == old(net).(nrun := old(net).nrun - 1)
    {
      nrun := nrun - 1;
      net := net.(nrun := nrun);
      LinksKept();
    }

    method CountCycle()
      requires Valid()
      modifies this
      ensures Valid() && Repr == old(Repr) && net == old(net).(cycle := old(net).cycle + 1)
    {
      cycle := cycle + 1;
      net := net.(cycle := cycle);
      LinksKept();
    }

    // ---------------------------------------------------------------- the loops

    method FwdNode(id: nat)
      requires Valid() && Inv(net) && id < |net.cpu|
      modifies Repr
      ensures Valid() && Inv(net) && fresh(Repr - old(Repr)) && net == NetModel.FwdNode(old(net), id)
    {
      hide Owned, Tied, Inv, NetModel.FwdLink;
      ghost var before := net;
      var ilink := 0;
      while ilink < LINK_NAMES
        invariant 0 <= ilink <= LINK_NAMES
        invariant Valid() && Inv(net) && fresh(Repr - old(Repr)) && net == FwdPart(before, id, ilink)
      {
        FwdLinkInv(net, id, DirAt(ilink));
        FwdLink(id, DirAt(ilink));
        ilink := ilink + 1;
      }
    }

    method HopNode(id: nat)
      requires Valid() && Inv(net) && id < |net.cpu|
      modifies Repr
      ensures Valid() && Inv(net) && fresh(Repr - old(Repr)) && net == NetModel.HopNode(old(net), id)
    {
      hide Owned, Tied, Inv, NetModel.HopLink;
      ghost var before := net;
      var olink := 0;
      while olink < LINK_NAMES
        invariant 0 <= olink <= LINK_NAMES
        invariant Valid() && Inv(net) && fresh(Repr - old(Repr)) && net == HopPart(before, id, olink)
      {
        HopLinkInv(net, id, DirAt(olink));
        HopLink(id, DirAt(olink));
        olink := olink + 1;
      }
    }

    // Net_execute: fwd everywhere, then operate everywhere, then hop everywhere.
    method Execute() returns (dead: bool, node: nat)
      requires Valid() && Inv(net)
      modifies Repr
      ensures Valid() && Inv(net) && fresh(Repr - old(Repr))
      ensures (if dead then Dead(net, node) else Fine(net)) == NetExecute(old(net))
    {
      FwdAll();
      dead, node := OperateAll();
      if !dead {
        HopAll();
      }
    }

    method FwdAll()
      requires Valid() && Inv(net)
      modifies Repr
      ensures Valid() && Inv(net) && fresh(Repr - old(Repr)) && net == FwdNodes(old(net), Iota(|old(net).cpu|))
    {
      hide Owned, Tied, Inv, NetModel.FwdNode;
      Fields();
      ghost var ids := Iota(|net.cpu|);
      var i, size := 0, |cpu|;
      while i < size
        invariant 0 <= i <= size == |old(net).cpu|
        invariant Valid() && Inv(net) && fresh(Repr - old(Repr)) && net == FwdNodes(old(net), ids[..i])
      {
        FwdNode(i);
        assert ids[..i + 1][..i] == ids[..i] && ids[..i + 1][i] == i;
        i := i + 1;
      }
      assert ids[..size] == ids;
    }

    method HopAll()
      requires Valid() && Inv(net)
      modifies Repr
      ensures Valid() && Inv(net) && fresh(Repr - old(Repr)) && net == HopNodes(old(net), Iota(|old(net).cpu|))
    {
      hide Owned, Tied, Inv, NetModel.HopNode;
      Fields();
      ghost var ids := Iota(|net.cpu|);
      var i, size := 0, |cpu|;
      while i < size
        invariant 0 <= i <= size == |old(net).cpu|
        invariant Valid() && Inv(net) && fresh(Repr - old(Repr)) && net == HopNodes(old(net), ids[..i])
      {
        HopNode(i);
        assert ids[..i + 1][..i] == ids[..i] && ids[..i + 1][i] == i;
        i := i + 1;
      }
      assert ids[..size] == ids;
    }

    method OperateAll() returns (dead: bool, node: nat)
      requires Valid() && Inv(net)
      modifies Repr
      ensures Valid() && Inv(net) && fresh(Repr - old(Repr))
      ensures (if dead then Dead(net, node) else Fine(net)) == OperateNodes(old(net), Iota(|old(net).cpu|))
    {
      hide Owned, Tied, Inv, NetModel.Operate;
      Fields();
      ghost var ids := Iota(|net.cpu|);
      var i, size := 0, |cpu|;
      dead, node := false, 0;
      while i < size && !dead
        invariant 0 <= i <= size == |old(net).cpu|
        invariant Valid() && Inv(net) && fresh(Repr - old(Repr))
        invariant (if dead then Dead(net, node) else Fine(net)) == OperateNodes(old(net), ids[..i])
        decreases size - i
      {
        OperateInv(net, i);
        var e := Operate(i);
        assert ids[..i + 1][..i] == ids[..i] && ids[..i + 1][i] == i;
        if e == Deadlock {
          dead, node := true, i;
        }
        i := i + 1;
      }
      if dead {
        StaysDead(old(net), ids, i);
      }
      assert ids[..size] == ids;
    }

    // The nodes after the one that reports are not visited.
    lemma {:induction false} StaysDead(n: Net, ids: seq<nat>, i: nat)
      requires Ids(|n.cpu|, ids) && i <= |ids| && OperateNodes(n, ids[..i]).Dead?
      ensures OperateNodes(n, ids) == OperateNodes(n, ids[..i])
      decreases |ids|
    {
      if i == |ids| {
        assert ids[..i] == ids;
      } else {
        var l := |ids| - 1;
        assert ids[..l][..i] == ids[..i];
        StaysDead(n, ids[..l], i);
      }
    }

    method CpuAll(acts: seq<Act>)
      requires Valid() && |acts| == |net.cpu|
      modifies Repr
      ensures Valid() && fresh(Repr - old(Repr)) && net == CpuNodes(old(net), Iota(|old(net).cpu|), acts)
    {
      hide Owned, Tied, NetModel.CpuStep;
      Fields();
      ghost var ids := Iota(|net.cpu|);
      var i, size := 0, |cpu|;
      while i < size
        invariant 0 <= i <= size == |old(net).cpu|
        invariant Valid() && Repr == old(Repr) && net == CpuNodes(old(net), ids[..i], acts)
      {
        Fields();
        CpuStep(i, acts[i]);
        assert ids[..i + 1][..i] == ids[..i] && ids[..i + 1][i] == i;
        i := i + 1;
      }
      assert ids[..size] == ids;
    }

    // One iteration of the loop of sim; acts says what each program would do next.
    method Cycle(acts: seq<Act>) returns (dead: bool, node: nat)
      requires Valid() && Boundary(net) && LegalActs(net, acts)
      modifies Repr
      ensures Valid() && fresh(Repr - old(Repr))
      ensures (if dead then Dead(net, node) else Fine(net)) == NetModel.Cycle(old(net), acts)
    {
      hide Owned, Tied, Inv, NetExecute, CpuNodes;
      CpuPhase(net, Iota(|net.cpu|), acts);
      CpuAll(acts);
      dead, node := Execute();
      Fields();
      if !dead {
        CountCycle();
      }
    }
  }
}
