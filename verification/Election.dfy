/**
 * gRIBI election ids: 128-bit numbers in two halves, a server that keeps the highest id it has
 * been told, and clients that become leader by announcing one more than that.
 */
module Election {
  import opened GoInts
  import opened IpUtil

  const TWO_64 := 0x1_0000_0000_0000_0000
  const MAX_ID: nat := TWO_128 - 1

  type U64 = x: int | 0 <= x < TWO_64

  datatype Uint128 = Uint128(low: U64, high: U64)

  function Value(i: Uint128): (v: nat)
    ensures v <= MAX_ID
  {
    i.high * TWO_64 + i.low
  }

  lemma ValueInjective(i: Uint128, j: Uint128)
    requires Value(i) == Value(j)
    ensures i == j
  {
  }

  /** Half by half, with the carry detected by wrap-around. */
  function Increment(i: Uint128): Uint128 {
    var newLow := (i.low + 1) % TWO_64;
    Uint128(newLow, if newLow < i.low then (i.high + 1) % TWO_64 else i.high)
  }

  function Decrement(i: Uint128): Uint128 {
    var newLow := (i.low - 1) % TWO_64;
    Uint128(newLow, if newLow > i.low then (i.high - 1) % TWO_64 else i.high)
  }

  /** The number after v, wrapping around. */
  function Succ(v: nat): nat {
    if v >= MAX_ID then 0 else v + 1
  }

  lemma WrapAround(x: nat, n: nat)
    requires x < n
    ensures (x + 1) % n == if x == n - 1 then 0 else x + 1
    ensures (x - 1) % n == if x == 0 then n - 1 else x - 1
  {
    if x == n - 1 {
      DivMod(x + 1, n, 1, 0);
    } else {
      ModSmall(x + 1, n);
    }
    if x == 0 {
      DivMod(x - 1, n, -1, n - 1);
    } else {
      ModSmall(x - 1, n);
    }
  }

  /** Half by half, without the wrap-around. */
  lemma Halves(i: Uint128)
    ensures Increment(i) == if i.low < TWO_64 - 1 then Uint128(i.low + 1, i.high)
                            else Uint128(0, if i.high < TWO_64 - 1 then i.high + 1 else 0)
    ensures Decrement(i) == if i.low > 0 then Uint128(i.low - 1, i.high)
                            else Uint128(TWO_64 - 1, if i.high > 0 then i.high - 1 else TWO_64 - 1)
  {
    WrapAround(i.low, TWO_64);
    WrapAround(i.high, TWO_64);
  }

  /** They are plus and minus one modulo 2^128, and undo each other. */
  lemma IncrementDecrement(i: Uint128)
    ensures Value(Increment(i)) == (Value(i) + 1) % TWO_128 == Succ(Value(i))
    ensures Value(Decrement(i)) == (Value(i) - 1) % TWO_128
    ensures Decrement(Increment(i)) == i && Increment(Decrement(i)) == i
  {
    hide Increment, Decrement;
    Halves(i);
    Halves(Increment(i));
    Halves(Decrement(i));
    WrapAround(Value(i), TWO_128);
  }

  // Server and client.

  class Server {
    var current: Uint128

    constructor ()
      ensures Value(current) == 0
    {
      current := Uint128(0, 0);
    }

    /** A Modify request that carries an election id; the reply holds the server's. */
    method Announce(id: Uint128) returns (reply: Uint128)
      modifies this
      ensures reply == current
      ensures Value(current) == Max(old(Value(current)), Value(id))
    {
      if Value(id) > Value(current) {
        current := id;
      }
      reply := current;
    }
  }

  class Client {
    var electionID: Uint128

    constructor ()
    {
      electionID := Uint128(0, 0);
    }

    /** Start announces id 1. */
    method Start(s: Server)
      modifies this, s
      ensures Value(s.current) == Max(old(Value(s.current)), 1)
      ensures Value(electionID) == 1
    {
      electionID := Uint128(1, 0);
      var reply := s.Announce(electionID);
    }

    /** A dummy announcement of id 1 reads the server's id; the client's own is left alone. */
    method LearnElectionID(s: Server) returns (id: Uint128)
      modifies s
      ensures Value(s.current) == Max(old(Value(s.current)), 1)
      ensures id == s.current
    {
      id := s.Announce(Uint128(1, 0));
    }

    method UpdateElectionID(s: Server, id: Uint128)
      modifies this, s
      ensures Value(s.current) == Max(old(Value(s.current)), Value(id))
      ensures electionID == id
    {
      var reply := s.Announce(id);
      electionID := id;
    }

    /** Uninterrupted: the id is the server's successor, and the server takes it over unless it wraps around. */
    method BecomeLeader(s: Server) returns (id: Uint128)
      modifies this, s
      ensures electionID == id && Value(id) == Led(old(Value(s.current)))
      ensures Value(s.current) == After(old(Value(s.current)), Lead)
      ensures s.current == id <==> old(Value(s.current)) < MAX_ID
    {
      var learned := LearnElectionID(s);
      IncrementDecrement(learned);
      UpdateElectionID(s, Increment(learned));
      id := Increment(learned);
      if Value(s.current) == Value(id) {
        ValueInjective(s.current, id);
      }
    }
  }

  // Runs: what the server's id becomes.

  datatype Event = Announced(id: nat) | Lead

  /** The id an uninterrupted BecomeLeader returns. */
  function Led(current: nat): nat {
    Succ(Max(current, 1))
  }

  function After(current: nat, e: Event): nat {
    match e
    case Announced(id) => Max(current, id)
    case Lead => Max(Max(current, 1), Led(current))
  }

  /** The server's id before event k of a run. */
  function Before(start: nat, run: seq<Event>, k: nat): nat
    requires k <= |run|
  {
    if k == 0 then start else After(Before(start, run, k - 1), run[k - 1])
  }

  lemma {:induction false} NeverGoesDown(start: nat, run: seq<Event>, i: nat, j: nat)
    requires i <= j <= |run|
    ensures Before(start, run, i) <= Before(start, run, j)
    decreases j
  {
    if i < j {
      NeverGoesDown(start, run, i, j - 1);
    }
  }

  /** The id an event puts forward. */
  function IdOf(start: nat, run: seq<Event>, k: nat): nat
    requires k < |run|
  {
    match run[k]
    case Announced(id) => id
    case Lead => Led(Before(start, run, k))
  }

  /**
   * Leadership over any run: a BecomeLeader returns an id above everything put forward before
   * it and above the server's id, unless the server is at 2^128 - 1, when it returns 0.
   */
  lemma LeaderOutranks(start: nat, run: seq<Event>, j: nat)
    requires j < |run| && run[j].Lead?
    ensures Before(start, run, j) < MAX_ID ==>
              && (forall i :: 0 <= i < j ==> IdOf(start, run, i) < IdOf(start, run, j))
              && Before(start, run, j) < IdOf(start, run, j) == Before(start, run, j + 1)
    ensures Before(start, run, j) >= MAX_ID ==> IdOf(start, run, j) == 0
  {
    forall i | 0 <= i < j && Before(start, run, j) < MAX_ID
      ensures IdOf(start, run, i) < IdOf(start, run, j)
    {
      NeverGoesDown(start, run, i + 1, j);
      NeverGoesDown(start, run, i, j);
    }
  }

  /** Successive leaders strictly outrank each other for as long as ids are left. */
  lemma SuccessiveLeaders(start: nat, run: seq<Event>, i: nat, j: nat)
    requires i < j < |run| && run[i].Lead? && run[j].Lead?
    ensures IdOf(start, run, i) < IdOf(start, run, j) <==> Before(start, run, j) < MAX_ID
  {
    LeaderOutranks(start, run, j);
  }

  // Interrupted: other clients act between the two requests of a BecomeLeader.

  /** The server's id, and the id each client has learned but not yet acted on. */
  datatype Cluster = Cluster(current: nat, learned: map<nat, nat>)

  datatype Action = Learn(client: nat) | Promote(client: nat) | Start

  predicate Enabled(c: Cluster, a: Action) {
    a.Promote? ==> a.client in c.learned
  }

  function Step(c: Cluster, a: Action): Cluster
    requires Enabled(c, a)
  {
    match a
    case Start => c.(current := Max(c.current, 1))
    case Learn(x) => var now := Max(c.current, 1); Cluster(now, c.learned[x := now])
    case Promote(x) => c.(current := Max(c.current, Succ(c.learned[x])))
  }

  ghost predicate IsRun(run: seq<Cluster>, actions: seq<Action>) {
    && |run| == |actions| + 1 && run[0] == Cluster(0, map[])
    && forall k :: 0 <= k < |actions| ==> Enabled(run[k], actions[k]) && run[k + 1] == Step(run[k], actions[k])
  }

  /** The id an action announces. */
  function Announces(c: Cluster, a: Action): nat
    requires Enabled(c, a)
  {
    if a.Promote? then Succ(c.learned[a.client]) else 1
  }

  /** What a client has learned is an id, and never above the server's. */
  lemma {:induction false} LearnedIsOld(run: seq<Cluster>, actions: seq<Action>, k: nat)
    requires IsRun(run, actions) && k < |run|
    ensures forall x :: x in run[k].learned ==> 1 <= run[k].learned[x] <= run[k].current
  {
    if k > 0 {
      LearnedIsOld(run, actions, k - 1);
      assert run[k] == Step(run[k - 1], actions[k - 1]);
    }
  }

  /** The server's id is the highest announced so far. */
  lemma {:induction false} CurrentIsHighest(run: seq<Cluster>, actions: seq<Action>, k: nat)
    requires IsRun(run, actions) && k < |run|
    ensures forall i :: 0 <= i < k ==> Enabled(run[i], actions[i]) && Announces(run[i], actions[i]) <= run[k].current
    ensures run[k].current == 0 || exists i :: 0 <= i < k && Announces(run[i], actions[i]) == run[k].current
  {
    if k > 0 {
      CurrentIsHighest(run, actions, k - 1);
      assert run[k] == Step(run[k - 1], actions[k - 1]);
      if run[k].current == run[k - 1].current {
        if run[k].current != 0 {
          var i :| 0 <= i < k - 1 && Announces(run[i], actions[i]) == run[k - 1].current;
          assert Announces(run[i], actions[i]) == run[k].current;
        }
      } else {
        assert Announces(run[k - 1], actions[k - 1]) == run[k].current;
      }
    }
  }

  /**
   * In any interleaving, a promotion outranks every id announced before it exactly when no
   * other client moved the server's id since this one learned it, and there is an id left.
   */
  lemma PromotionOutranksIff(run: seq<Cluster>, actions: seq<Action>, k: nat)
    requires IsRun(run, actions) && k < |actions| && actions[k].Promote?
    ensures forall i :: 0 <= i <= k ==> Enabled(run[i], actions[i])
    ensures var learned := run[k].learned[actions[k].client];
            (forall i :: 0 <= i < k ==> Announces(run[i], actions[i]) < Announces(run[k], actions[k])) <==>
            learned == run[k].current && learned < MAX_ID
  {
    LearnedIsOld(run, actions, k);
    CurrentIsHighest(run, actions, k);
  }
}
