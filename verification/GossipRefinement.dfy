/** Gossip with filtering refines direct channels: over a whole run, with messages delayed, reordered and
    arriving before their channel exists, every channel holds what the mock coordinator would have put there,
    except for what is still under way, what came too early, and what gossip took for a repetition. Gossip tells
    messages apart by their bytes alone, whatever the topic, so equal bytes get through once. */
module GossipRefinement {
  import opened Basics
  import opened Routing

  /** A node: which published messages its event loop has taken, its incoming channels once they exist, and the
      messages that found no channel. */
  datatype Station = Station(
    taken: set<nat>,
    aux: Option<seq<Incoming>>,
    keygen: Option<seq<Incoming>>,
    signing: Option<seq<Incoming>>,
    missed: map<Protocol, seq<Incoming>>)
  {
    function Channel(r: Protocol): Option<seq<Incoming>> {
      match r case AuxProtocol => aux case KeygenProtocol => keygen case SigningProtocol => signing
    }

    function WithChannel(r: Protocol, c: Option<seq<Incoming>>): Station {
      match r
      case AuxProtocol => this.(aux := c)
      case KeygenProtocol => this.(keygen := c)
      case SigningProtocol => this.(signing := c)
    }

    function Missed(r: Protocol): seq<Incoming> {
      if r in missed then missed[r] else []
    }

    function Received(r: Protocol): seq<Incoming> {
      if Channel(r).Some? then Channel(r).value else []
    }
  }

  /** All nodes of one session on gossip, next to the mock coordinators of the three protocols. */
  datatype Net = Net(
    assignments: map<PeerId, u16>,
    wires: seq<Wire>,                       // everything posted
    stations: map<PeerId, Station>,
    direct: map<Protocol, Channels>)

  datatype Step =
    | Post(p: PeerId, protocol: Protocol, o: Outgoing)
    | Take(q: PeerId, k: nat)
    | Open(q: PeerId, protocol: Protocol)

  /** The recipient is everybody or some other participant. */
  predicate Proper(assignments: map<PeerId, u16>, p: PeerId, o: Outgoing)
    requires p in assignments
  {
    o.recipient.AllParties? || (o.recipient.index != assignments[p] && IsParty(assignments, o.recipient.index))
  }

  /** The bytes of a message: the topic is not among them. */
  function Content(w: Wire): Wire {
    w.(protocol := AuxProtocol)
  }

  predicate Contains(ws: seq<Wire>, w: Wire) {
    exists j :: 0 <= j < |ws| && Content(ws[j]) == Content(w)
  }

  /** The k-th message is not the repetition of an earlier one; only such a message is published. */
  predicate First(ws: seq<Wire>, k: nat) {
    k < |ws| && !Contains(ws[..k], ws[k])
  }

  ghost predicate IsInitial(n: Net) {
    && DistinctParties(n.assignments) && n.wires == [] && n.stations.Keys == n.assignments.Keys
    && (forall q :: q in n.stations ==> n.stations[q] == Station({}, None, None, None, map[]))
    && (forall r :: r in n.direct)
    && (forall r, i :: r in n.direct && i in n.direct[r] ==> n.direct[r][i] == [])
    && (forall r, q :: r in n.direct && q in n.assignments ==> n.assignments[q] in n.direct[r])
  }

  ghost predicate Enabled(n: Net, a: Step) {
    match a
    case Post(p, r, o) =>
      p in n.assignments && Proper(n.assignments, p, o) && r in n.direct
      && Send(n.direct[r], n.assignments[p], o).Some?
    case Take(q, k) =>
      q in n.stations && First(n.wires, k) && k !in n.stations[q].taken && n.wires[k].from != q
    case Open(q, r) => q in n.stations && n.stations[q].Channel(r).None?
  }

  function Put(st: Station, r: Protocol, m: Incoming): Station {
    if st.Channel(r).Some? then st.WithChannel(r, Some(st.Channel(r).value + [m]))
    else st.(missed := st.missed[r := st.Missed(r) + [m]])
  }

  ghost function Apply(n: Net, a: Step): Net
    requires Enabled(n, a)
  {
    match a
    case Post(p, r, o) =>
      n.(wires := n.wires + [Wrap(p, r, o)],
         direct := n.direct[r := Send(n.direct[r], n.assignments[p], o).value])
    case Take(q, k) =>
      var st := n.stations[q].(taken := n.stations[q].taken + {k});
      var m := Unwrap(q, n.assignments, n.wires[k]);
      n.(stations := n.stations[q := if m.None? then st else Put(st, n.wires[k].protocol, m.value)])
    case Open(q, r) => n.(stations := n.stations[q := n.stations[q].WithChannel(r, Some([]))])
  }

  ghost predicate Runs(n: Net, steps: seq<Step>)
    decreases |steps|
  {
    steps == [] || (Enabled(n, steps[0]) && Runs(Apply(n, steps[0]), steps[1..]))
  }

  ghost function After(n: Net, steps: seq<Step>): Net
    requires Runs(n, steps)
    decreases |steps|
  {
    if steps == [] then n else After(Apply(n, steps[0]), steps[1..])
  }

  // ---------------------------------------------------------------------------
  // One message
  // ---------------------------------------------------------------------------

  /** After one message of `p`, every participant has got from gossip what the mock puts in its channel. */
  ghost predicate AgreesWithMock(assignments: map<PeerId, u16>, channels: Channels, p: PeerId, r: Protocol, o: Outgoing)
    requires p in assignments && forall q :: q in assignments ==> assignments[q] in channels
  {
    && Send(channels, assignments[p], o).Some?
    && forall q :: q in assignments ==>
         var after := Send(channels, assignments[p], o).value;
         assignments[q] in after && after[assignments[q]] == channels[assignments[q]] +
           (match Reaches(q, assignments, Wrap(p, r, o)) case Some(m) => [m] case None => [])
  }

  /** Gossip and mock agree on a message exactly if it is not addressed to its own sender or to nobody: the mock
      hands a party its own message, gossip never does, and the mock fails on an unknown index that gossip
      silently drops. */
  lemma AgreesExactlyIfProper(assignments: map<PeerId, u16>, channels: Channels, p: PeerId, r: Protocol, o: Outgoing)
    requires p in assignments && DistinctParties(assignments)
    requires forall i :: i in channels <==> IsParty(assignments, i)
    requires forall q :: q in assignments ==> assignments[q] in channels
    ensures AgreesWithMock(assignments, channels, p, r, o) <==> Proper(assignments, p, o)
  {
    forall q | q in assignments
      ensures Reaches(q, assignments, Wrap(p, r, o)) ==
                if q != p && (o.recipient.AllParties? || o.recipient.index == assignments[q])
                then Some(Label(assignments[p], o)) else None
    {
      RoutedExactly(p, q, assignments, r, o);
    }
    if o.recipient.OneParty? && o.recipient.index == assignments[p] {
      var before := channels[assignments[p]];
      assert |before + [Label(assignments[p], o)]| != |before + []|;
    }
  }

  // ---------------------------------------------------------------------------
  // Whole runs
  // ---------------------------------------------------------------------------

  /** What a wire means for node `q` in protocol `r`. */
  function Due(assignments: map<PeerId, u16>, w: Wire, q: PeerId, r: Protocol): seq<Incoming> {
    if w.protocol != r then []
    else match Reaches(q, assignments, w) case Some(m) => [m] case None => []
  }

  /** All that the first `k` wires mean for `q`, in the order of publication. */
  function DueOfFirst(assignments: map<PeerId, u16>, wires: seq<Wire>, q: PeerId, r: Protocol, k: nat): seq<Incoming>
    requires k <= |wires|
  {
    if k == 0 then []
    else DueOfFirst(assignments, wires, q, r, k - 1) + Due(assignments, wires[k - 1], q, r)
  }

  /** How often message `m` is due to `q` among the first `k` wires whose position is in `ks`. */
  function DueIn(assignments: map<PeerId, u16>, wires: seq<Wire>, q: PeerId, r: Protocol, k: nat, ks: set<nat>,
                 m: Incoming): nat
    requires k <= |wires|
  {
    if k == 0 then 0
    else DueIn(assignments, wires, q, r, k - 1, ks, m)
         + (if k - 1 in ks && Due(assignments, wires[k - 1], q, r) == [m] then 1 else 0)
  }

  function CountUpTo(s: seq<Incoming>, k: nat, m: Incoming): nat
    requires k <= |s|
  {
    if k == 0 then 0 else CountUpTo(s, k - 1, m) + (if s[k - 1] == m then 1 else 0)
  }

  function Count(s: seq<Incoming>, m: Incoming): nat {
    CountUpTo(s, |s|, m)
  }

  lemma {:induction false} CountOfPrefix(s: seq<Incoming>, x: Incoming, k: nat, m: Incoming)
    requires k <= |s|
    ensures CountUpTo(s + [x], k, m) == CountUpTo(s, k, m)
  {
    if k > 0 {
      CountOfPrefix(s, x, k - 1, m);
    }
  }

  lemma CountAppends(s: seq<Incoming>, x: Incoming, m: Incoming)
    ensures Count(s + [x], m) == Count(s, m) + (if x == m then 1 else 0)
  {
    CountOfPrefix(s, x, |s|, m);
  }

  lemma CountPlus(s: seq<Incoming>, due: seq<Incoming>, m: Incoming)
    requires |due| <= 1
    ensures Count(s + due, m) == Count(s, m) + (if due == [m] then 1 else 0)
  {
    if due == [] {
      assert s + due == s;
    } else {
      assert due == [due[0]];
      CountAppends(s, due[0], m);
    }
  }

  lemma {:induction false} CountIsMultiplicity(s: seq<Incoming>, k: nat, m: Incoming)
    requires k <= |s|
    ensures CountUpTo(s, k, m) == multiset(s[..k])[m]
  {
    if k > 0 {
      CountIsMultiplicity(s, k - 1, m);
      assert s[..k] == s[..k - 1] + [s[k - 1]];
    }
  }

  function NotTaken(n: Net, q: PeerId): set<nat>
    requires q in n.stations
  {
    set k | 0 <= k < |n.wires| && k !in n.stations[q].taken && First(n.wires, k)
  }

  function Repeats(ws: seq<Wire>): set<nat> {
    set k | 0 <= k < |ws| && !First(ws, k)
  }

  /** How often message `m` is still under way to `q`. */
  function Outstanding(n: Net, q: PeerId, r: Protocol, m: Incoming): nat
    requires q in n.stations
  {
    DueIn(n.assignments, n.wires, q, r, |n.wires|, NotTaken(n, q), m)
  }

  /** How often message `m` was meant for `q` in a post that gossip took for a repetition. */
  function Swallowed(n: Net, q: PeerId, r: Protocol, m: Incoming): nat {
    DueIn(n.assignments, n.wires, q, r, |n.wires|, Repeats(n.wires), m)
  }

  /** The mock's channel is what is due to the node, in order. */
  ghost predicate DirectMatches(n: Net, q: PeerId, r: Protocol) {
    && r in n.direct && q in n.assignments && n.assignments[q] in n.direct[r]
    && n.direct[r][n.assignments[q]] == DueOfFirst(n.assignments, n.wires, q, r, |n.wires|)
  }

  /** Taken messages are in the channel or were missed. */
  ghost predicate TakenMatches(n: Net, q: PeerId, r: Protocol) {
    && q in n.stations
    && (forall k :: k in n.stations[q].taken ==> First(n.wires, k))
    && forall m :: Accounted(n.assignments, n.wires, n.stations[q], q, r, m)
  }

  /** How often the node has got message `m`, in its channel or too early for it. */
  function Held(st: Station, r: Protocol, m: Incoming): nat {
    Count(st.Received(r), m) + Count(st.Missed(r), m)
  }

  predicate Accounted(a: map<PeerId, u16>, ws: seq<Wire>, st: Station, q: PeerId, r: Protocol, m: Incoming) {
    Held(st, r, m) == DueIn(a, ws, q, r, |ws|, st.taken, m)
  }

  /** The message is for everybody or for some other participant than its sender. */
  predicate ProperWire(a: map<PeerId, u16>, w: Wire) {
    w.from in a && (w.to.Some? ==> w.to.value != a[w.from] && IsParty(a, w.to.value))
  }

  ghost predicate Inv(n: Net) {
    && DistinctParties(n.assignments) && n.stations.Keys == n.assignments.Keys
    && (forall k :: 0 <= k < |n.wires| ==> ProperWire(n.assignments, n.wires[k]))
    && (forall r, q :: q in n.stations ==> DirectMatches(n, q, r) && TakenMatches(n, q, r))
  }

  lemma {:induction false} DueExtends(a: map<PeerId, u16>, ws: seq<Wire>, w: Wire, q: PeerId, r: Protocol, k: nat,
                                      ks: set<nat>, m: Incoming)
    requires k <= |ws|
    ensures DueIn(a, ws + [w], q, r, k, ks, m) == DueIn(a, ws, q, r, k, ks, m)
    ensures DueOfFirst(a, ws + [w], q, r, k) == DueOfFirst(a, ws, q, r, k)
  {
    if k > 0 {
      DueExtends(a, ws, w, q, r, k - 1, ks, m);
      assert (ws + [w])[k - 1] == ws[k - 1];
    }
  }

  /** Taking one more wire adds what it means. */
  lemma {:induction false} DueInAdds(a: map<PeerId, u16>, ws: seq<Wire>, q: PeerId, r: Protocol, k: nat,
                                     ks: set<nat>, j: nat, m: Incoming)
    requires k <= |ws| && j < |ws| && j !in ks
    ensures DueIn(a, ws, q, r, k, ks + {j}, m) ==
              DueIn(a, ws, q, r, k, ks, m) + (if j < k && Due(a, ws[j], q, r) == [m] then 1 else 0)
  {
    if k > 0 {
      DueInAdds(a, ws, q, r, k - 1, ks, j, m);
    }
  }

  lemma {:induction false} DueInSplits(a: map<PeerId, u16>, ws: seq<Wire>, q: PeerId, r: Protocol, k: nat,
                                       ks: set<nat>, rest: set<nat>, m: Incoming)
    requires k <= |ws| && forall j :: 0 <= j < k ==> (j in ks <==> j !in rest)
    ensures DueIn(a, ws, q, r, k, ks, m) + DueIn(a, ws, q, r, k, rest, m) == Count(DueOfFirst(a, ws, q, r, k), m)
  {
    if k > 0 {
      DueInSplits(a, ws, q, r, k - 1, ks, rest, m);
      CountPlus(DueOfFirst(a, ws, q, r, k - 1), Due(a, ws[k - 1], q, r), m);
    }
  }

  lemma {:induction false} DueInUnion(a: map<PeerId, u16>, ws: seq<Wire>, q: PeerId, r: Protocol, k: nat,
                                      xs: set<nat>, ys: set<nat>, m: Incoming)
    requires k <= |ws| && forall j :: 0 <= j < k ==> !(j in xs && j in ys)
    ensures DueIn(a, ws, q, r, k, xs + ys, m) == DueIn(a, ws, q, r, k, xs, m) + DueIn(a, ws, q, r, k, ys, m)
  {
    if k > 0 {
      DueInUnion(a, ws, q, r, k - 1, xs, ys, m);
    }
  }

  lemma FirstKept(ws: seq<Wire>, w: Wire, k: nat)
    requires k < |ws|
    ensures First(ws + [w], k) <==> First(ws, k)
  {
    assert (ws + [w])[..k] == ws[..k];
  }

  lemma InitialInv(n: Net)
    requires IsInitial(n)
    ensures Inv(n)
  {
    forall r, q | q in n.stations
      ensures DirectMatches(n, q, r) && TakenMatches(n, q, r)
    {
      assert r in n.direct && n.assignments[q] in n.direct[r];
    }
  }

  lemma PostKeepsDirect(n: Net, a: Step, q: PeerId, r: Protocol)
    requires Enabled(n, a) && a.Post? && DistinctParties(n.assignments) && DirectMatches(n, q, r)
    ensures DirectMatches(Apply(n, a), q, r)
  {
    var w := Wrap(a.p, a.protocol, a.o);
    DueExtends(n.assignments, n.wires, w, q, r, |n.wires|, {}, Label(0, a.o));
    assert (n.wires + [w])[|n.wires|] == w;
    RoutedExactly(a.p, q, n.assignments, a.protocol, a.o);
  }

  lemma PostKeepsTaken(n: Net, a: Step, q: PeerId, r: Protocol)
    requires Enabled(n, a) && a.Post? && TakenMatches(n, q, r)
    ensures TakenMatches(Apply(n, a), q, r)
  {
    var w := Wrap(a.p, a.protocol, a.o);
    var st := n.stations[q];
    assert |n.wires| !in st.taken;
    forall k | k in st.taken
      ensures First(n.wires + [w], k)
    {
      FirstKept(n.wires, w, k);
    }
    forall m
      ensures Accounted(n.assignments, n.wires + [w], st, q, r, m)
    {
      assert Accounted(n.assignments, n.wires, st, q, r, m);
      DueExtends(n.assignments, n.wires, w, q, r, |n.wires|, st.taken, m);
    }
  }

  lemma PutElsewhere(st: Station, w: Protocol, x: Incoming, r: Protocol)
    requires w != r
    ensures Put(st, w, x).Received(r) == st.Received(r) && Put(st, w, x).Missed(r) == st.Missed(r)
  {
  }

  lemma PutHere(st: Station, w: Protocol, x: Incoming)
    ensures var st' := Put(st, w, x);
            if st.Channel(w).Some? then st'.Received(w) == st.Received(w) + [x] && st'.Missed(w) == st.Missed(w)
            else st'.Received(w) == st.Received(w) && st'.Missed(w) == st.Missed(w) + [x]
  {
  }

  lemma PutAccounts(st: Station, w: Protocol, x: Incoming, r: Protocol, m: Incoming)
    ensures Held(Put(st, w, x), r, m) == Held(st, r, m) + (if w == r && x == m then 1 else 0)
    ensures Put(st, w, x).taken == st.taken
  {
    if w != r {
      PutElsewhere(st, w, x, r);
    } else {
      PutHere(st, w, x);
      if st.Channel(w).Some? {
        CountAppends(st.Received(w), x, m);
      } else {
        CountAppends(st.Missed(w), x, m);
      }
    }
  }

  lemma TakeKeepsTaken(n: Net, a: Step, q: PeerId, r: Protocol)
    requires Enabled(n, a) && a.Take? && TakenMatches(n, q, r)
    ensures TakenMatches(Apply(n, a), q, r)
  {
    var n' := Apply(n, a);
    forall m
      ensures Accounted(n.assignments, n.wires, n'.stations[q], q, r, m)
    {
      assert Accounted(n.assignments, n.wires, n.stations[q], q, r, m);
      if q == a.q {
        TakeAccounts(n, a, r, m);
      }
    }
  }

  lemma TakeAccounts(n: Net, a: Step, r: Protocol, m: Incoming)
    requires Enabled(n, a) && a.Take? && Accounted(n.assignments, n.wires, n.stations[a.q], a.q, r, m)
    ensures Accounted(n.assignments, n.wires, Apply(n, a).stations[a.q], a.q, r, m)
  {
    var before := n.stations[a.q];
    var st := before.(taken := before.taken + {a.k});
    var w := n.wires[a.k];
    DueInAdds(n.assignments, n.wires, a.q, r, |n.wires|, before.taken, a.k, m);
    assert Held(st, r, m) == Held(before, r, m);
    var x := Unwrap(a.q, n.assignments, w);
    if x.Some? {
      PutAccounts(st, w.protocol, x.value, r, m);
      assert Apply(n, a).stations[a.q] == Put(st, w.protocol, x.value);
      assert Due(n.assignments, w, a.q, r) == if w.protocol == r then [x.value] else [];
    } else {
      assert Apply(n, a).stations[a.q] == st;
      assert Due(n.assignments, w, a.q, r) == [];
    }
  }

  lemma OpenKeepsTaken(n: Net, a: Step, q: PeerId, r: Protocol)
    requires Enabled(n, a) && a.Open? && TakenMatches(n, q, r)
    ensures TakenMatches(Apply(n, a), q, r)
  {
    var st, st' := n.stations[q], Apply(n, a).stations[q];
    assert st'.Received(r) == st.Received(r) && st'.Missed(r) == st.Missed(r) && st'.taken == st.taken;
    forall m
      ensures Accounted(n.assignments, n.wires, st', q, r, m)
    {
      assert Accounted(n.assignments, n.wires, st, q, r, m);
    }
  }

  lemma StepKeepsMatches(n: Net, a: Step, q: PeerId, r: Protocol)
    requires Enabled(n, a) && DistinctParties(n.assignments) && DirectMatches(n, q, r) && TakenMatches(n, q, r)
    ensures DirectMatches(Apply(n, a), q, r) && TakenMatches(Apply(n, a), q, r)
  {
    match a
    case Post(_, _, _) =>
      PostKeepsDirect(n, a, q, r);
      PostKeepsTaken(n, a, q, r);
    case Take(_, _) => TakeKeepsTaken(n, a, q, r);
    case Open(_, _) => OpenKeepsTaken(n, a, q, r);
  }

  lemma StepKeepsInv(n: Net, a: Step)
    requires Inv(n) && Enabled(n, a)
    ensures Inv(Apply(n, a))
  {
    var n' := Apply(n, a);
    assert n'.stations.Keys == n.stations.Keys && n'.assignments == n.assignments;
    forall r, q | q in n'.stations
      ensures DirectMatches(n', q, r) && TakenMatches(n', q, r)
    {
      assert DirectMatches(n, q, r) && TakenMatches(n, q, r);
      StepKeepsMatches(n, a, q, r);
    }
  }

  lemma {:induction false} RunKeepsInv(n: Net, steps: seq<Step>)
    requires Inv(n) && Runs(n, steps)
    ensures Inv(After(n, steps)) && After(n, steps).stations.Keys == n.stations.Keys
    ensures After(n, steps).assignments == n.assignments
    decreases |steps|
  {
    if steps != [] {
      StepKeepsInv(n, steps[0]);
      RunKeepsInv(Apply(n, steps[0]), steps[1..]);
    }
  }

  /** Conservation: in every run, for every node, protocol and message, the mock's channel is made up exactly of what the
      node's channel holds, what it missed before the channel existed, what gossip still owes it, and what gossip
      took for a repetition. */
  lemma GossipConserves(n0: Net, steps: seq<Step>, q: PeerId, r: Protocol, m: Incoming)
    requires IsInitial(n0) && Runs(n0, steps) && q in n0.stations
    ensures var n := After(n0, steps);
            && q in n.stations && q in n.assignments && r in n.direct && n.assignments[q] in n.direct[r]
            && Count(n.direct[r][n.assignments[q]], m) ==
                 Held(n.stations[q], r, m) + Outstanding(n, q, r, m) + Swallowed(n, q, r, m)
  {
    InitialInv(n0);
    RunKeepsInv(n0, steps);
    var n := After(n0, steps);
    assert DirectMatches(n, q, r) && TakenMatches(n, q, r);
    assert Accounted(n.assignments, n.wires, n.stations[q], q, r, m);
    var rest := NotTaken(n, q) + Repeats(n.wires);
    forall j | 0 <= j < |n.wires|
      ensures j in n.stations[q].taken <==> j !in rest
    {
    }
    DueInSplits(n.assignments, n.wires, q, r, |n.wires|, n.stations[q].taken, rest, m);
    DueInUnion(n.assignments, n.wires, q, r, |n.wires|, NotTaken(n, q), Repeats(n.wires), m);
  }

  /** Node `q` has taken everything the others published. */
  predicate TookEverything(n: Net, q: PeerId) {
    q in n.stations && forall k :: 0 <= k < |n.wires| && First(n.wires, k) && n.wires[k].from != q ==>
      k in n.stations[q].taken
  }

  /** The channel holds exactly what the mock would have delivered. */
  ghost predicate SameAsMock(n: Net, q: PeerId, r: Protocol) {
    && q in n.stations && q in n.assignments && r in n.direct && n.assignments[q] in n.direct[r]
    && multiset(n.stations[q].Received(r)) == multiset(n.direct[r][n.assignments[q]])
  }

  /** No repetition is meant for `q` in protocol `r`. */
  predicate NothingSwallowed(n: Net, q: PeerId, r: Protocol) {
    forall k :: k in Repeats(n.wires) ==> Due(n.assignments, n.wires[k], q, r) == []
  }

  /** For a node that has taken everything published and missed nothing of a protocol: its channel holds exactly
      what the mock would have delivered if and only if no repetition was meant for it. */
  lemma ChannelRefinesExactly(n0: Net, steps: seq<Step>, q: PeerId, r: Protocol)
    requires IsInitial(n0) && Runs(n0, steps) && q in n0.stations
    requires TookEverything(After(n0, steps), q) && After(n0, steps).stations[q].Missed(r) == []
    ensures SameAsMock(After(n0, steps), q, r) <==> NothingSwallowed(After(n0, steps), q, r)
  {
    var n := After(n0, steps);
    GossipConserves(n0, steps, q, r, Label(0, Outgoing(AllParties, [])));
    forall m: Incoming
      ensures Count(n.direct[r][n.assignments[q]], m) == Count(n.stations[q].Received(r), m) + Swallowed(n, q, r, m)
    {
      GossipConserves(n0, steps, q, r, m);
      NothingOutstanding(n.assignments, n.wires, q, r, |n.wires|, NotTaken(n, q), m);
    }
    if NothingSwallowed(n, q, r) {
      forall m: Incoming
        ensures Count(n.stations[q].Received(r), m) == Count(n.direct[r][n.assignments[q]], m)
      {
        NothingDue(n.assignments, n.wires, q, r, |n.wires|, Repeats(n.wires), m);
      }
      SameCounts(n.stations[q].Received(r), n.direct[r][n.assignments[q]]);
    } else {
      SwallowedShows(n, q, r);
    }
  }

  /** A repetition meant for the node is missing from its channel. */
  lemma SwallowedShows(n: Net, q: PeerId, r: Protocol)
    requires q in n.stations && q in n.assignments && r in n.direct && n.assignments[q] in n.direct[r]
    requires !NothingSwallowed(n, q, r)
    requires forall m :: Count(n.direct[r][n.assignments[q]], m)
                         == Count(n.stations[q].Received(r), m) + Swallowed(n, q, r, m)
    ensures !SameAsMock(n, q, r)
  {
    var k :| k in Repeats(n.wires) && Due(n.assignments, n.wires[k], q, r) != [];
    var m := Due(n.assignments, n.wires[k], q, r)[0];
    DueAtLeastOnce(n.assignments, n.wires, q, r, |n.wires|, Repeats(n.wires), k, m);
    var s, t := n.stations[q].Received(r), n.direct[r][n.assignments[q]];
    assert Count(t, m) == Count(s, m) + Swallowed(n, q, r, m);
    CountIsMultiplicity(s, |s|, m);
    CountIsMultiplicity(t, |t|, m);
    assert s[..|s|] == s && t[..|t|] == t;
  }

  lemma {:induction false} DueAtLeastOnce(a: map<PeerId, u16>, ws: seq<Wire>, q: PeerId, r: Protocol, k: nat,
                                          ks: set<nat>, j: nat, m: Incoming)
    requires j < k <= |ws| && j in ks && Due(a, ws[j], q, r) == [m]
    ensures DueIn(a, ws, q, r, k, ks, m) >= 1
  {
    if j < k - 1 {
      DueAtLeastOnce(a, ws, q, r, k - 1, ks, j, m);
    }
  }

  lemma {:induction false} NothingDue(a: map<PeerId, u16>, ws: seq<Wire>, q: PeerId, r: Protocol, k: nat,
                                      ks: set<nat>, m: Incoming)
    requires k <= |ws| && forall j :: 0 <= j < k && j in ks ==> Due(a, ws[j], q, r) == []
    ensures DueIn(a, ws, q, r, k, ks, m) == 0
  {
    if k > 0 {
      NothingDue(a, ws, q, r, k - 1, ks, m);
    }
  }

  // ---------------------------------------------------------------------------
  // Repetitions
  // ---------------------------------------------------------------------------

  /** No party posts the same payload to the same recipient twice, be it in one protocol or in two. */
  predicate NobodyRepeats(steps: seq<Step>) {
    forall j, k :: 0 <= j < k < |steps| && steps[j].Post? && steps[k].Post? ==>
      !(steps[j].p == steps[k].p && steps[j].o == steps[k].o)
  }

  /** None of the posts has the bytes of an earlier message. */
  predicate PostsAreNew(ws: seq<Wire>, steps: seq<Step>) {
    forall j :: 0 <= j < |steps| && steps[j].Post? ==> !Contains(ws, Wrap(steps[j].p, steps[j].protocol, steps[j].o))
  }

  lemma SameBytes(p: PeerId, r: Protocol, o: Outgoing, p': PeerId, r': Protocol, o': Outgoing)
    ensures Content(Wrap(p, r, o)) == Content(Wrap(p', r', o')) <==> p == p' && o == o'
  {
  }

  lemma ContainsGrows(ws: seq<Wire>, w: Wire, v: Wire)
    ensures Contains(ws + [w], v) <==> Contains(ws, v) || Content(w) == Content(v)
  {
    assert (ws + [w])[|ws|] == w;
    assert forall j :: 0 <= j < |ws| ==> (ws + [w])[j] == ws[j];
  }

  lemma NoRepeatGrows(ws: seq<Wire>, w: Wire)
    ensures Repeats(ws + [w]) == {} <==> Repeats(ws) == {} && !Contains(ws, w)
  {
    assert (ws + [w])[..|ws|] == ws && (ws + [w])[|ws|] == w;
    assert First(ws + [w], |ws|) <==> !Contains(ws, w);
    forall k | 0 <= k < |ws|
      ensures First(ws + [w], k) <==> First(ws, k)
    {
      FirstKept(ws, w, k);
    }
    if Repeats(ws) != {} {
      var k :| k in Repeats(ws);
      assert k in Repeats(ws + [w]);
    }
    if Contains(ws, w) {
      assert |ws| in Repeats(ws + [w]);
    }
  }

  lemma FirstPost(n: Net, steps: seq<Step>)
    requires steps != [] && Enabled(n, steps[0]) && steps[0].Post?
    ensures var w := Wrap(steps[0].p, steps[0].protocol, steps[0].o);
            && Apply(n, steps[0]).wires == n.wires + [w]
            && (NobodyRepeats(steps) && PostsAreNew(n.wires, steps) <==>
                  && !Contains(n.wires, w) && NobodyRepeats(steps[1..]) && PostsAreNew(n.wires + [w], steps[1..]))
  {
    var x, rest := steps[0], steps[1..];
    var w := Wrap(x.p, x.protocol, x.o);
    assert forall j :: 0 <= j < |rest| ==> rest[j] == steps[j + 1];
    forall j | 0 <= j < |rest| && rest[j].Post?
      ensures Contains(n.wires + [w], Wrap(rest[j].p, rest[j].protocol, rest[j].o)) <==>
                || Contains(n.wires, Wrap(rest[j].p, rest[j].protocol, rest[j].o))
                || (x.p == rest[j].p && x.o == rest[j].o)
    {
      ContainsGrows(n.wires, w, Wrap(rest[j].p, rest[j].protocol, rest[j].o));
      SameBytes(x.p, x.protocol, x.o, rest[j].p, rest[j].protocol, rest[j].o);
    }
    SplitRepeats(steps);
    SplitNew(n.wires, w, steps);
  }

  lemma SplitRepeats(steps: seq<Step>)
    requires steps != [] && steps[0].Post?
    ensures NobodyRepeats(steps) <==>
              && NobodyRepeats(steps[1..])
              && forall j :: 0 <= j < |steps[1..]| && steps[1..][j].Post? ==>
                   !(steps[0].p == steps[1..][j].p && steps[0].o == steps[1..][j].o)
  {
    assert forall j :: 0 < j < |steps| ==> steps[j] == steps[1..][j - 1];
  }

  lemma SplitNew(ws: seq<Wire>, w: Wire, steps: seq<Step>)
    requires steps != [] && steps[0].Post? && w == Wrap(steps[0].p, steps[0].protocol, steps[0].o)
    ensures PostsAreNew(ws, steps) <==> !Contains(ws, w) && PostsAreNew(ws, steps[1..])
  {
    assert forall j :: 0 < j < |steps| ==> steps[j] == steps[1..][j - 1];
  }

  lemma FirstQuiet(n: Net, steps: seq<Step>)
    requires steps != [] && Enabled(n, steps[0]) && !steps[0].Post?
    ensures Apply(n, steps[0]).wires == n.wires
    ensures NobodyRepeats(steps) <==> NobodyRepeats(steps[1..])
    ensures PostsAreNew(n.wires, steps) <==> PostsAreNew(n.wires, steps[1..])
  {
    assert forall j :: 0 < j < |steps| ==> steps[j] == steps[1..][j - 1];
  }

  lemma {:induction false} RepeatsOfRun(n: Net, steps: seq<Step>)
    requires Runs(n, steps)
    ensures Repeats(After(n, steps).wires) == {} <==>
              Repeats(n.wires) == {} && NobodyRepeats(steps) && PostsAreNew(n.wires, steps)
    decreases |steps|
  {
    if steps != [] {
      RepeatsOfRun(Apply(n, steps[0]), steps[1..]);
      if steps[0].Post? {
        FirstPost(n, steps);
        NoRepeatGrows(n.wires, Wrap(steps[0].p, steps[0].protocol, steps[0].o));
      } else {
        FirstQuiet(n, steps);
      }
    }
  }

  /** A proper message means something to somebody, if there is anybody else. */
  lemma SomebodyIsMeant(a: map<PeerId, u16>, w: Wire) returns (q: PeerId)
    requires ProperWire(a, w) && |a| >= 2
    ensures q in a && Due(a, w, q, w.protocol) != []
  {
    if w.to.Some? {
      q :| q in a && a[q] == w.to.value;
    } else {
      assert a.Keys != {w.from} by { assert |a.Keys| == |a|; }
      q :| q in a.Keys && q != w.from;
    }
  }

  lemma AloneNobodyIsMeant(a: map<PeerId, u16>, w: Wire, q: PeerId, r: Protocol)
    requires ProperWire(a, w) && |a| <= 1 && q in a
    ensures Due(a, w, q, r) == []
  {
    assert |a.Keys| == |a|;
    assert q != w.from ==> |{q, w.from}| == 2;
    SmallerSet({q, w.from}, a.Keys);
  }

  lemma SmallerSet(s: set<PeerId>, t: set<PeerId>)
    requires s <= t
    ensures |s| <= |t|
  {
    assert t == s + (t - s);
  }

  /** Everybody has taken everything published and missed nothing. */
  ghost predicate NothingLost(n: Net) {
    forall q :: q in n.stations ==> TookEverything(n, q) && forall r :: n.stations[q].Missed(r) == []
  }

  /** When nothing is under way or came too early: gossip has delivered exactly what the mock would have, at every
      node and in every protocol, if and only if no party has posted the same payload to the same recipient twice
      across the protocols. A party on its own posts to nobody. */
  lemma GossipRefinesExactly(n0: Net, steps: seq<Step>)
    requires IsInitial(n0) && Runs(n0, steps) && NothingLost(After(n0, steps))
    ensures (forall q, r :: q in n0.stations ==> SameAsMock(After(n0, steps), q, r)) <==>
              NobodyRepeats(steps) || |n0.assignments| <= 1
  {
    var n := After(n0, steps);
    InitialInv(n0);
    RunKeepsInv(n0, steps);
    assert Repeats(n0.wires) == {};
    RepeatsOfRun(n0, steps);
    forall q, r | q in n0.stations
      ensures SameAsMock(n, q, r) <==> NothingSwallowed(n, q, r)
    {
      ChannelRefinesExactly(n0, steps, q, r);
    }
    SwallowedExactly(n);
  }

  lemma SwallowedExactly(n: Net)
    requires Inv(n)
    ensures (forall q, r :: q in n.stations ==> NothingSwallowed(n, q, r)) <==>
              Repeats(n.wires) == {} || |n.assignments| <= 1
  {
    if Repeats(n.wires) != {} {
      var k :| k in Repeats(n.wires);
      if |n.assignments| >= 2 {
        var q := SomebodyIsMeant(n.assignments, n.wires[k]);
        assert q in n.stations && !NothingSwallowed(n, q, n.wires[k].protocol);
      } else {
        forall q, r | q in n.stations
          ensures NothingSwallowed(n, q, r)
        {
          forall j | j in Repeats(n.wires)
            ensures Due(n.assignments, n.wires[j], q, r) == []
          {
            AloneNobodyIsMeant(n.assignments, n.wires[j], q, r);
          }
        }
      }
    }
  }

  lemma SameCounts(s: seq<Incoming>, t: seq<Incoming>)
    requires forall m :: Count(s, m) == Count(t, m)
    ensures multiset(s) == multiset(t)
  {
    forall m: Incoming
      ensures multiset(s)[m] == multiset(t)[m]
    {
      assert Count(s, m) == Count(t, m);
      CountIsMultiplicity(s, |s|, m);
      CountIsMultiplicity(t, |t|, m);
      assert s[..|s|] == s && t[..|t|] == t;
    }
  }

  lemma {:induction false} NothingOutstanding(a: map<PeerId, u16>, ws: seq<Wire>, q: PeerId, r: Protocol, k: nat,
                                              ks: set<nat>, m: Incoming)
    requires k <= |ws| && forall j :: 0 <= j < k && j in ks ==> ws[j].from == q
    ensures DueIn(a, ws, q, r, k, ks, m) == 0
  {
    if k > 0 {
      NothingOutstanding(a, ws, q, r, k - 1, ks, m);
    }
  }
}
