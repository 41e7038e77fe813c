/**
 * Forwarding by the device tables.
 *
 * A packet is looked up in a VRF by longest prefix match; the group found hands it to one of
 * its live weighted next-hops, or to one of its backup group's when it has none; the next-hop
 * sends it to an address, another VRF, or through a tunnel header.  Which of several live
 * next-hops is taken is left open: every choice is a run.
 *
 * A next-hop to an address is live when that address is reachable in the default VRF.  A
 * device may or may not track whether a tunnel's destination is reachable too; `track` says.
 */
module Forwarding {
  import opened IpUtil
  import opened Rib
  import opened Params

  datatype Payload = Plain(proto: nat) | Inner(packet: Packet)

  datatype Packet = Packet(src: Addr, dst: Addr, dscp: nat, payload: Payload)

  /** IP protocol number: 4 for IPv4 in IP, 41 for IPv6 in IP. */
  function Protocol(pkt: Packet): nat {
    match pkt.payload
    case Plain(proto) => proto
    case Inner(q) => if q.dst.V4? then 4 else 41
  }

  /** A tunnel header; the traffic class is copied from the packet it wraps. */
  function Encapsulated(pkt: Packet, src: Addr, dst: Addr): Packet {
    Packet(src, dst, pkt.dscp, Inner(pkt))
  }

  /** The device: its tables, the VLANs of its egress port and which of them are up. */
  datatype Switch = Switch(table: Table, vlans: nat, up: set<nat>, track: bool)

  // Longest prefix match.

  function Pow2(k: nat): (r: nat)
    ensures r >= 1
  {
    if k == 0 then 1 else 2 * Pow2(k - 1)
  }

  /** n rounded down to a multiple of size. */
  function RoundDown(n: nat, size: nat): (r: nat)
    requires size > 0
  {
    var q: nat := n / size;
    q * size
  }

  /** The address with all but its first len bits cleared. */
  function Net(a: Addr, len: nat): Addr
    requires len <= Bits(a)
  {
    var size := Pow2(Bits(a) - len);
    match a
    case V4(n) => V4(RoundDown(n, size))
    case V6(n) => V6(RoundDown(n, size))
  }

  function Probe(t: Table, vrf: Vrf, a: Addr, len: nat): Option<nat>
    requires len <= Bits(a)
  {
    Get(t.routes, (vrf, Prefix(Net(a, len), len)))
  }

  function LookupFrom(t: Table, vrf: Vrf, a: Addr, len: nat): Option<nat>
    requires len <= Bits(a)
  {
    if Probe(t, vrf, a, len).Some? then Probe(t, vrf, a, len)
    else if len == 0 then None
    else LookupFrom(t, vrf, a, len - 1)
  }

  function Lookup(t: Table, vrf: Vrf, a: Addr): Option<nat> {
    LookupFrom(t, vrf, a, Bits(a))
  }

  /** len is the length of the longest installed prefix that covers the address. */
  ghost predicate LongestMatch(t: Table, vrf: Vrf, a: Addr, len: nat) {
    && len <= Bits(a)
    && Probe(t, vrf, a, len).Some?
    && (forall k :: len < k <= Bits(a) ==> Probe(t, vrf, a, k).None?)
  }

  lemma {:induction false} LookupFromNoneIff(t: Table, vrf: Vrf, a: Addr, len: nat)
    requires len <= Bits(a)
    ensures LookupFrom(t, vrf, a, len).None? <==> forall k :: 0 <= k <= len ==> Probe(t, vrf, a, k).None?
  {
    hide Probe;
    if Probe(t, vrf, a, len).None? && len > 0 {
      LookupFromNoneIff(t, vrf, a, len - 1);
    }
  }

  /** The length at which a successful lookup stops. */
  lemma {:induction false} LookupStopsAt(t: Table, vrf: Vrf, a: Addr, len: nat) returns (k: nat)
    requires len <= Bits(a) && LookupFrom(t, vrf, a, len).Some?
    ensures k <= len && Probe(t, vrf, a, k) == LookupFrom(t, vrf, a, len)
    ensures forall j :: k < j <= len ==> Probe(t, vrf, a, j).None?
  {
    hide Probe;
    if Probe(t, vrf, a, len).Some? {
      k := len;
    } else {
      k := LookupStopsAt(t, vrf, a, len - 1);
    }
  }

  /** Lookup is longest match: it finds the route of the longest covering prefix, and none when there is none. */
  lemma LookupIsLongestMatch(t: Table, vrf: Vrf, a: Addr)
    ensures Lookup(t, vrf, a).None? <==> forall k :: 0 <= k <= Bits(a) ==> Probe(t, vrf, a, k).None?
    ensures forall len: nat :: LongestMatch(t, vrf, a, len) ==> Lookup(t, vrf, a) == Probe(t, vrf, a, len)
    ensures Lookup(t, vrf, a).Some? ==> exists len: nat :: LongestMatch(t, vrf, a, len)
  {
    hide LookupFrom, Probe;
    LookupFromNoneIff(t, vrf, a, Bits(a));
    if Lookup(t, vrf, a).Some? {
      var k := LookupStopsAt(t, vrf, a, Bits(a));
      assert LongestMatch(t, vrf, a, k);
    }
  }

  lemma NetOfHost(a: Addr)
    ensures Net(a, Bits(a)) == a
  {
    assert Pow2(0) == 1;
  }

  // Links and liveness.

  /** The VLAN on whose subnet an address is the far end. */
  function VlanOf(vlans: nat, a: Addr): Option<nat> {
    if a.V4? && a.n >= ATE_PORT2_START
       && (a.n - ATE_PORT2_START) % PORT_STEP == 0 && (a.n - ATE_PORT2_START) / PORT_STEP < vlans
    then Some((a.n - ATE_PORT2_START) / PORT_STEP) else None
  }

  predicate LinkUp(d: Switch, vrf: Vrf, key: Addr) {
    vrf.DefaultVrf? && VlanOf(d.vlans, key).Some? && VlanOf(d.vlans, key).value in d.up
  }

  function GroupHops(d: Switch, g: nat): seq<Hop> {
    if g in d.table.nhgs then d.table.nhgs[g].hops else []
  }

  function BackupHops(d: Switch, g: nat): seq<Hop> {
    if g in d.table.nhgs && d.table.nhgs[g].backup.Some? then GroupHops(d, d.table.nhgs[g].backup.value) else []
  }

  /** The hops a lookup may use, primary or backup. */
  function Candidates(d: Switch, vrf: Vrf, key: Addr): seq<Hop> {
    match Lookup(d.table, vrf, key)
    case None => []
    case Some(g) => GroupHops(d, g) + BackupHops(d, g)
  }

  /** An address can be reached from a VRF: some chain of weighted next-hops ends on a link that is up. */
  least predicate Routable(d: Switch, vrf: Vrf, key: Addr) {
    || LinkUp(d, vrf, key)
    || exists h: Hop :: h in Candidates(d, vrf, key) && h.weight > 0 && h.nh in d.table.nhs &&
         match d.table.nhs[h.nh]
         case ToAddress(ip) => Routable(d, DefaultVrf, ip)
         case ToVrf(_) => true
         case Decap(_) => true
         case Encap(_, dst, v) => !d.track || Routable(d, v, dst)
         case DecapEncap(_, dst, v) => !d.track || Routable(d, v, dst)
  }

  ghost predicate Live(d: Switch, h: Hop) {
    && h.weight > 0 && h.nh in d.table.nhs
    && match d.table.nhs[h.nh]
       case ToAddress(ip) => Routable(d, DefaultVrf, ip)
       case ToVrf(_) => true
       case Decap(_) => true
       case Encap(_, dst, v) => !d.track || Routable(d, v, dst)
       case DecapEncap(_, dst, v) => !d.track || Routable(d, v, dst)
  }

  ghost predicate HasLive(d: Switch, hops: seq<Hop>) {
    exists i :: 0 <= i < |hops| && Live(d, hops[i])
  }

  /** Reachability in one step. */
  lemma RoutableIff(d: Switch, vrf: Vrf, key: Addr)
    ensures Routable(d, vrf, key) <==> LinkUp(d, vrf, key) || HasLive(d, Candidates(d, vrf, key))
  {
    var hops := Candidates(d, vrf, key);
    if HasLive(d, hops) {
      var i :| 0 <= i < |hops| && Live(d, hops[i]);
      assert hops[i] in hops;
    }
  }

  /** Hop h may carry the traffic of group g: the backup is used when all next-hops are unavailable. */
  ghost predicate Chosen(d: Switch, g: nat, h: Hop) {
    && Live(d, h)
    && if HasLive(d, GroupHops(d, g)) then h in GroupHops(d, g) else h in BackupHops(d, g)
  }

  ghost predicate HasChoice(d: Switch, g: nat) {
    HasLive(d, GroupHops(d, g)) || HasLive(d, BackupHops(d, g))
  }

  lemma ChoiceExists(d: Switch, g: nat)
    ensures HasChoice(d, g) <==> exists h :: Chosen(d, g, h)
  {
    hide Live;
    if HasLive(d, GroupHops(d, g)) {
      var i :| 0 <= i < |GroupHops(d, g)| && Live(d, GroupHops(d, g)[i]);
      assert Chosen(d, g, GroupHops(d, g)[i]);
    } else if HasLive(d, BackupHops(d, g)) {
      var i :| 0 <= i < |BackupHops(d, g)| && Live(d, BackupHops(d, g)[i]);
      assert Chosen(d, g, BackupHops(d, g)[i]);
    }
    if h :| Chosen(d, g, h) {
      assert h in GroupHops(d, g) || h in BackupHops(d, g);
    }
  }

  // Runs.

  datatype State =
    | Routing(vrf: Vrf, key: Addr, pkt: Packet)
    | Out(vlan: nat, pkt: Packet)
    | Dropped

  /** Where a next-hop sends a packet; post is the VRF a decapsulated packet continues in by default. */
  function HopTo(nh: NextHop, pkt: Packet, post: Vrf): State {
    match nh
    case ToAddress(ip) => Routing(DefaultVrf, ip, pkt)
    case ToVrf(v) => Routing(v, pkt.dst, pkt)
    case Decap(into) =>
      if pkt.payload.Inner? then
        var q := pkt.payload.packet;
        Routing(if into.Some? then into.value else post, q.dst, q)
      else Dropped
    case Encap(src, dst, v) => Routing(v, dst, Encapsulated(pkt, src, dst))
    case DecapEncap(src, dst, v) =>
      if pkt.payload.Inner? then Routing(v, dst, Encapsulated(pkt.payload.packet, src, dst)) else Dropped
  }

  /** Group g hands the packet to one of its chosen hops, or drops it when it has none. */
  ghost predicate GroupStep(d: Switch, g: nat, pkt: Packet, post: Vrf, s': State) {
    if HasChoice(d, g)
    then exists h :: Chosen(d, g, h) && h.nh in d.table.nhs && s' == HopTo(d.table.nhs[h.nh], pkt, post)
    else s' == Dropped
  }

  ghost predicate Step(d: Switch, s: State, s': State) {
    match s
    case Routing(vrf, key, pkt) =>
      if LinkUp(d, vrf, key) then s' == Out(VlanOf(d.vlans, key).value, pkt)
      else (match Lookup(d.table, vrf, key)
            case None => s' == Dropped
            case Some(g) => GroupStep(d, g, pkt, DefaultVrf, s'))
    case Out(_, _) => false
    case Dropped => false
  }

  ghost predicate IsRun(d: Switch, run: seq<State>) {
    run != [] && forall i :: 0 <= i < |run| - 1 ==> Step(d, run[i], run[i + 1])
  }

  /** A run that cannot go on. */
  ghost predicate IsCompleteRun(d: Switch, run: seq<State>) {
    IsRun(d, run) && !run[|run| - 1].Routing?
  }

  lemma GroupStepExists(d: Switch, g: nat, pkt: Packet, post: Vrf) returns (s': State)
    ensures GroupStep(d, g, pkt, post, s')
  {
    if HasChoice(d, g) {
      ChoiceExists(d, g);
      var h :| Chosen(d, g, h);
      s' := HopTo(d.table.nhs[h.nh], pkt, post);
    } else {
      s' := Dropped;
    }
  }

  /** A packet in flight always goes somewhere. */
  lemma Progress(d: Switch, s: State) returns (s': State)
    requires s.Routing?
    ensures Step(d, s, s')
  {
    if LinkUp(d, s.vrf, s.key) {
      s' := Out(VlanOf(d.vlans, s.key).value, s.pkt);
    } else if Lookup(d.table, s.vrf, s.key).None? {
      s' := Dropped;
    } else {
      s' := GroupStepExists(d, Lookup(d.table, s.vrf, s.key).value, s.pkt, DefaultVrf);
    }
  }

  lemma RunTail(d: Switch, run: seq<State>)
    requires IsRun(d, run) && |run| > 1
    ensures IsRun(d, run[1..]) && Step(d, run[0], run[1])
    ensures IsCompleteRun(d, run) ==> IsCompleteRun(d, run[1..])
  {
    hide Step;
    var t := run[1..];
    forall i | 0 <= i < |t| - 1
      ensures Step(d, t[i], t[i + 1])
    {
      assert Step(d, run[i + 1], run[i + 2]);
    }
  }

  lemma RunCons(d: Switch, s: State, run: seq<State>)
    requires IsRun(d, run) && Step(d, s, run[0])
    ensures IsRun(d, [s] + run)
    ensures IsCompleteRun(d, run) ==> IsCompleteRun(d, [s] + run)
  {
    hide Step;
    var t := [s] + run;
    forall i | 0 <= i < |t| - 1
      ensures Step(d, t[i], t[i + 1])
    {
      if i > 0 {
        assert t[i] == run[i - 1] && t[i + 1] == run[i];
      }
    }
  }
}
