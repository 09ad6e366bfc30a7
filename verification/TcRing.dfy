/** Whose turn it is in a round-robin class (bess/core/traffic_class.cc:310-428). */
module TcRing {
  import opened Wrappers
  import opened TokenBucket
  import opened TrafficClass
  import opened TcUnblock
  import opened TcBlock
  import opened TcAccount

  // ----- one operation -----

  /**
   What accounting does to the turn of a round robin. The schedulers report a count of 0 or 1; any count is
   added to the position, and a position past the end becomes the first.
   */
  lemma AccountPassesTurnIff(st: Store, p: Id, c: Id, usage: Usage, tsc: nat)
    requires AccountReady(st, p, c) && InOrder(st[p].body, tsc) && st[p].body.RoundRobin?
    ensures var b := st[p].body;
      var pick := Pick(AccountNode(st, p, c, usage, tsc).body);
      var behind := b.ready[Wrap(b.nextChild + 1, |b.ready|)];
      && (IsBlocked(st, c) && |b.ready| == 1 ==> pick == None)
      && (!IsBlocked(st, c) ==> pick == Some(b.ready[Wrap(b.nextChild + usage.count, |b.ready|)]))
      && (|b.ready| > 1 && usage.count <= 1 ==> (pick == Some(behind) <==> IsBlocked(st, c) || usage.count == 1))
      && (|b.ready| > 1 && usage.count <= 1 ==> (pick == Some(c) <==> !IsBlocked(st, c) && usage.count == 0))
  {
    var b := st[p].body;
    ReadyDistinct(b, b.nextChild, Wrap(b.nextChild + 1, |b.ready|));
  }

  lemma {:induction false} TwiceListed(s: seq<Id>, i: nat, j: nat)
    requires i < j < |s| && s[i] == s[j]
    ensures multiset(s)[s[i]] >= 2
  {
    assert s == [s[0]] + s[1..];
    if i == 0 {
      assert s[1..][j - 1] in multiset(s[1..]);
    } else {
      TwiceListed(s[1..], i - 1, j - 1);
    }
  }

  /** A child that is listed once stands at one position of the ring. */
  lemma ReadyDistinct(b: Body, i: nat, j: nat)
    requires b.RoundRobin? && i < |b.ready| && j < |b.ready| && Kids(b)[b.ready[i]] == 1
    ensures i != j ==> b.ready[i] != b.ready[j]
  {
    if i < j && b.ready[i] == b.ready[j] {
      TwiceListed(b.ready, i, j);
    } else if j < i && b.ready[i] == b.ready[j] {
      TwiceListed(b.ready, j, i);
    }
  }

  /** Leaf 3 has just backed off; its parent, class 1, goes on with leaf 4, and the root has class 1 and leaf 2. */
  ghost predicate IdleTree(st: Store, rank: map<Id, nat>, wakeup: nat) {
    && st.Keys == {0, 1, 2, 3, 4} && rank == map[0 := 2, 1 := 1, 2 := 0, 3 := 0, 4 := 0]
    && st[0] == Node(None, false, RoundRobin(0, [1, 2], []))
    && st[1] == Node(Some(0), false, RoundRobin(0, [3, 4], []))
    && st[2] == Node(Some(0), false, Leaf(INITIAL_WAIT, 0))
    && st[3] == Node(Some(1), true, Leaf(2 * INITIAL_WAIT, wakeup))
    && st[4] == Node(Some(1), false, Leaf(INITIAL_WAIT, 0))
  }

  lemma IdleTreeLinked(st: Store, rank: map<Id, nat>, wakeup: nat)
    requires IdleTree(st, rank, wakeup)
    ensures Linked(st, rank)
  {
    IdleRingsLinked(st, rank, wakeup);
    IdleLeavesLinked(st, rank, wakeup);
  }

  lemma IdleRingsLinked(st: Store, rank: map<Id, nat>, wakeup: nat)
    requires IdleTree(st, rank, wakeup)
    ensures LinkOk(st, rank, 0) && LinkOk(st, rank, 1)
  {
    TwoKids(st, 0, 1, 2);
    TwoKids(st, 1, 3, 4);
  }

  lemma IdleLeavesLinked(st: Store, rank: map<Id, nat>, wakeup: nat)
    requires IdleTree(st, rank, wakeup)
    ensures LinkOk(st, rank, 2) && LinkOk(st, rank, 3) && LinkOk(st, rank, 4)
  {
    TwoKids(st, 0, 1, 2);
    TwoKids(st, 1, 3, 4);
  }

  lemma TwoKids(st: Store, n: Id, a: Id, b: Id)
    requires n in st && st[n].body == RoundRobin(0, [a, b], []) && a != b
    ensures forall c :: c in Kids(st[n].body) <==> c == a || c == b
    ensures Kids(st[n].body)[a] == 1 && Kids(st[n].body)[b] == 1
  {
    assert multiset([a, b]) == multiset{a, b};
  }

  lemma IdleTreeConsistent(st: Store, rank: map<Id, nat>, wakeup: nat)
    requires IdleTree(st, rank, wakeup) && wakeup > 0
    ensures OkIfUnblocked(st, 3)
  {
    var lit := st[3 := st[3].(blocked := false)];
    assert NodeOk(lit, 0) && NodeOk(lit, 1) && NodeOk(lit, 2) && NodeOk(lit, 4);
  }

  lemma IdleTreePath(st: Store, rank: map<Id, nat>, wakeup: nat)
    requires IdleTree(st, rank, wakeup) && Climbs(st, rank)
    ensures PathReady(st, rank, 3)
  {
    AboveShrinks(rank, 3, 1);
    AboveShrinks(rank, 1, 0);
    assert PathReady(st, rank, 0);
    assert PathReady(st, rank, 1);
  }

  /**
   The turn can stay: an idle leaf below an inner class that goes on with another leaf reports a count of 0, and
   the round robin above that class picks it once more.
   */
  lemma IdleLeafKeepsTurn(st: Store, rank: map<Id, nat>, wakeup: nat, tsc: nat)
    requires IdleTree(st, rank, wakeup) && wakeup > 0 && tsc > 0
    ensures Linked(st, rank) && Climbs(st, rank) && OkIfUnblocked(st, 3) && PathReady(st, rank, 3) && AllInOrder(st, tsc)
    ensures var st' := FinishUp(st, rank, 3, Usage(0, 0, 0, 0), tsc);
      0 in st' && 1 in st' && Pick(st'[1].body) == Some(4) && Pick(st[0].body) == Pick(st'[0].body) == Some(1)
  {
    IdleTreeLinked(st, rank, wakeup);
    LinkedClimbs(st, rank);
    IdleTreeConsistent(st, rank, wakeup);
    IdleTreePath(st, rank, wakeup);
    var idle := Usage(0, 0, 0, 0);
    var x1 := AccountNode(st, 1, 3, idle, tsc);
    var ready, waiting := st[1].body.ready, st[1].body.waiting;
    assert ready[..0] + ready[1..] == [4] && waiting + [3] == [3];
    assert x1 == Node(Some(0), false, RoundRobin(0, [4], [3]));
    OneStepUp(st, rank, 3, idle, tsc);
    var st1 := st[1 := x1];
    assert AccountNode(st1, 0, 1, idle, tsc) == st[0];
    OneStepUp(st1, rank, 1, idle, tsc);
    var st2 := st1[0 := st[0]];
    assert st2[0].parent.None?;
    assert FinishUp(st2, rank, 0, idle, tsc) == st2;
  }

  /** Taking any child out of the ring leaves the turn where it was, or passes it on if it was that child's. */
  lemma EraseKeepsTurn(r: Ring, i: nat)
    requires i < |r.ready| && r.next < |r.ready| && |r.ready| > 1
    ensures var s := BlockOne(r, i);
      s.next < |s.ready| && s.ready[s.next] == r.ready[if i == r.next then Wrap(r.next + 1, |r.ready|) else r.next]
  {
  }

  /** Children that wake up queue behind: it stays the turn of whose it was. */
  lemma UnblockKeepsTurn(st: Store, b: Body, tsc: nat)
    requires b.RoundRobin? && b.nextChild < |b.ready|
    ensures Pick(UnblockBody(st, b, tsc)) == Pick(b)
  {
  }

  /** The children in the order of their turns after a ring lost child `i`: the same, without that child. */
  lemma EraseTurns(r: Ring, i: nat) returns (j: nat)
    requires i < |r.ready| && r.next < |r.ready|
    ensures var turns := r.ready[r.next..] + r.ready[..r.next];
      var s := BlockOne(r, i);
      && j < |turns| && turns[j] == r.ready[i] && s.next <= |s.ready|
      && s.ready[s.next..] + s.ready[..s.next] == turns[..j] + turns[j + 1..]
  {
    if i < r.next {
      j := |r.ready| - r.next + i;
      var s := BlockOne(r, i);
      assert s.ready[s.next..] == r.ready[r.next..];
    } else {
      j := i - r.next;
    }
  }

  lemma DroppedTurn(st: Store, turns: seq<Id>, j: nat)
    requires j < |turns| && IsBlocked(st, turns[j])
    ensures Awake(st, turns[..j] + turns[j + 1..]) == Awake(st, turns)
  {
    var c := turns[j];
    assert turns == turns[..j] + ([c] + turns[j + 1..]);
    AwakeInOrder(st, turns[..j], [c] + turns[j + 1..]);
    AwakeInOrder(st, [c], turns[j + 1..]);
    AwakeInOrder(st, turns[..j], turns[j + 1..]);
    AwakeAlone(st, c);
  }

  lemma {:induction false} AllAwake(st: Store, ids: seq<Id>)
    requires forall i :: 0 <= i < |ids| ==> !IsBlocked(st, ids[i])
    ensures Awake(st, ids) == ids
  {
    if ids != [] {
      AllAwake(st, ids[1..]);
      assert [ids[0]] + ids[1..] == ids;
    }
  }

  lemma {:induction false} RingTurns(st: Store, r: Ring, i: nat)
    requires i <= |r.ready| && (if r.ready == [] then r.next == 0 else r.next < |r.ready|)
    requires forall j :: 0 <= j < i ==> !IsBlocked(st, r.ready[j])
    ensures var s := BlockRing(st, r, i);
      && s.next <= |s.ready|
      && s.ready[s.next..] + s.ready[..s.next] == Awake(st, r.ready[r.next..] + r.ready[..r.next])
    decreases |r.ready| - i
  {
    if i == |r.ready| {
      AllAwake(st, r.ready[r.next..] + r.ready[..r.next]);
    } else if IsBlocked(st, r.ready[i]) {
      var j := EraseTurns(r, i);
      DroppedTurn(st, r.ready[r.next..] + r.ready[..r.next], j);
      RingTurns(st, BlockOne(r, i), i);
    } else {
      RingTurns(st, r, i + 1);
    }
  }

  /** `BlockTowardsRoot` takes the blocked children out of the order of turns, and changes nothing else about it. */
  lemma BlockKeepsTurns(st: Store, b: Body)
    requires b.RoundRobin? && (if b.ready == [] then b.nextChild == 0 else b.nextChild < |b.ready|)
    ensures var b' := BlockBody(st, b);
      b'.RoundRobin? && b'.nextChild <= |b'.ready| && Turns(b') == Awake(st, Turns(b))
  {
    RingTurns(st, Ring(b.nextChild, b.ready, b.waiting), 0);
  }

  /** `UnblockTowardsRoot` puts the children that woke up, in their order, behind the last position of the ring. */
  lemma UnblockTurns(st: Store, b: Body, tsc: nat)
    requires b.RoundRobin? && b.nextChild <= |b.ready|
    ensures var b' := UnblockBody(st, b, tsc);
      && b'.RoundRobin? && b'.nextChild <= |b'.ready|
      && Turns(b') == b.ready[b.nextChild..] + Awake(st, b.waiting) + b.ready[..b.nextChild]
  {
  }

  // ----- a run of rounds -----

  /** The child picked runs once, and may block. */
  datatype Round = Round(blocks: bool, usage: Usage, tsc: nat) {
    predicate Moves() {
      blocks || usage.count == 1
    }
  }

  predicate Counted(rounds: seq<Round>) {
    forall i :: 0 <= i < |rounds| ==> rounds[i].usage.count <= 1
  }

  function Moving(rounds: seq<Round>): nat {
    if rounds == [] then 0 else (if rounds[0].Moves() then 1 else 0) + Moving(rounds[1..])
  }

  ghost predicate RingReady(st: Store, p: Id) {
    && p in st && st[p].body.RoundRobin?
    && var b := st[p].body;
      && (if b.ready == [] then b.nextChild == 0 else b.nextChild < |b.ready|)
      && AllRunnable(st, b.ready) && p !in b.ready
      && (forall i, j :: 0 <= i < j < |b.ready| ==> b.ready[i] != b.ready[j])
  }

  /** The ready children in the order of their turns. */
  function Turns(b: Body): seq<Id>
    requires b.RoundRobin? && b.nextChild <= |b.ready|
  {
    b.ready[b.nextChild..] + b.ready[..b.nextChild]
  }

  /** The class after the child it picks has run and it has accounted for that. */
  ghost function AfterRound(st: Store, p: Id, r: Round): Store
    requires RingReady(st, p) && st[p].body.ready != []
  {
    var c := Pick(st[p].body).value;
    var st1 := if r.blocks then st[c := st[c].(blocked := true)] else st;
    st1[p := AccountNode(st1, p, c, r.usage, r.tsc)]
  }

  lemma RingMoves(ready: seq<Id>, next: nat)
    requires next < |ready|
    ensures var next' := Wrap(next + 1, |ready|);
      ready[next'..] + ready[..next'] == (ready[next..] + ready[..next])[1..] + [ready[next]]
  {
  }

  lemma RingWithout(ready: seq<Id>, next: nat)
    requires next < |ready|
    ensures var rest := ready[..next] + ready[next + 1..];
      var next' := Wrap(next, |rest|);
      && next' <= |rest| && rest[next'..] + rest[..next'] == (ready[next..] + ready[..next])[1..]
      && (forall j :: 0 <= j < |rest| ==> rest[j] == ready[if j < next then j else j + 1])
  {
  }

  /** The ring after one round. */
  lemma RoundBody(st: Store, p: Id, r: Round)
    requires RingReady(st, p) && st[p].body.ready != [] && r.usage.count <= 1
    ensures p in AfterRound(st, p, r)
    ensures var b, b' := st[p].body, AfterRound(st, p, r)[p].body;
      var next := b.nextChild;
      && b'.RoundRobin? && Pick(b) == Some(b.ready[next])
      && (if r.blocks then b'.ready == b.ready[..next] + b.ready[next + 1..] && b'.nextChild == Wrap(next, |b'.ready|)
          else b'.ready == b.ready && b'.nextChild == Wrap(next + r.usage.count, |b.ready|))
  {
  }

  lemma RoundKeepsReady(st: Store, p: Id, r: Round)
    requires RingReady(st, p) && st[p].body.ready != [] && r.usage.count <= 1
    ensures RingReady(AfterRound(st, p, r), p)
  {
    var b, st' := st[p].body, AfterRound(st, p, r);
    RoundBody(st, p, r);
    var ready' := st'[p].body.ready;
    if r.blocks {
      RingWithout(b.ready, b.nextChild);
      RestDistinct(b.ready, b.nextChild);
    }
    forall j | 0 <= j < |ready'| ensures IsRunnable(st', ready'[j]) && ready'[j] != p {
      var i := if !r.blocks || j < b.nextChild then j else j + 1;
      assert ready'[j] == b.ready[i];
      ReadyAt(st, p, i);
      RoundElsewhere(st, p, r, ready'[j]);
    }
  }

  lemma ReadyAt(st: Store, p: Id, i: nat)
    requires RingReady(st, p) && i < |st[p].body.ready|
    ensures IsRunnable(st, st[p].body.ready[i]) && st[p].body.ready[i] != p
  {
  }

  lemma RoundElsewhere(st: Store, p: Id, r: Round, x: Id)
    requires RingReady(st, p) && st[p].body.ready != [] && IsRunnable(st, x) && x != p
    requires r.blocks ==> x != st[p].body.ready[st[p].body.nextChild]
    ensures IsRunnable(AfterRound(st, p, r), x)
  {
  }

  lemma RestDistinct(ready: seq<Id>, k: nat)
    requires k < |ready| && forall i, j :: 0 <= i < j < |ready| ==> ready[i] != ready[j]
    ensures var rest := ready[..k] + ready[k + 1..];
      && (forall j :: 0 <= j < |rest| ==> rest[j] != ready[k])
      && (forall i, j :: 0 <= i < j < |rest| ==> rest[i] != rest[j])
  {
    var rest := ready[..k] + ready[k + 1..];
    assert forall j :: 0 <= j < |rest| ==> rest[j] == ready[if j < k then j else j + 1];
  }

  /** One round: the first in turn is picked; it stays, goes to the end, or leaves because it blocked. */
  lemma RoundMovesOn(st: Store, p: Id, r: Round)
    requires RingReady(st, p) && st[p].body.ready != [] && r.usage.count <= 1
    ensures var st' := AfterRound(st, p, r);
      var turns := Turns(st[p].body);
      && RingReady(st', p) && turns != [] && Pick(st[p].body) == Some(turns[0])
      && Turns(st'[p].body) == if !r.Moves() then turns else turns[1..] + (if r.blocks then [] else [turns[0]])
  {
    var b := st[p].body;
    RoundBody(st, p, r);
    RoundKeepsReady(st, p, r);
    if r.blocks {
      RingWithout(b.ready, b.nextChild);
    } else {
      RingMoves(b.ready, b.nextChild);
    }
  }

  /** The children that finished their turn in a run of rounds. */
  ghost function Finished(st: Store, p: Id, rounds: seq<Round>): seq<Id>
    requires RingReady(st, p) && Counted(rounds)
    decreases |rounds|
  {
    if rounds == [] || st[p].body.ready == [] then []
    else
      RoundMovesOn(st, p, rounds[0]);
      (if rounds[0].Moves() then [Pick(st[p].body).value] else []) + Finished(AfterRound(st, p, rounds[0]), p, rounds[1..])
  }

  /**
   Every child has its turn: once as many rounds have moved on as there are ready children, each of these was
   picked and finished its turn exactly once, in order, whichever of them blocked or stayed for idle rounds.
   */
  lemma EveryChildHasItsTurn(st: Store, p: Id, rounds: seq<Round>)
    requires RingReady(st, p) && Counted(rounds) && Moving(rounds) == |st[p].body.ready|
    ensures Finished(st, p, rounds) == Turns(st[p].body)
    ensures multiset(Finished(st, p, rounds)) == multiset(st[p].body.ready)
  {
    var b := st[p].body;
    assert Turns(b) + [] == Turns(b);
    FinishedInTurn(st, p, rounds, Turns(b), []);
    RotationBag(b.ready, b.nextChild);
  }

  lemma RotationBag(ids: seq<Id>, k: nat)
    requires k <= |ids|
    ensures multiset(ids[k..] + ids[..k]) == multiset(ids)
  {
    assert ids == ids[..k] + ids[k..];
  }

  lemma {:induction false} FinishedInTurn(st: Store, p: Id, rounds: seq<Round>, due: seq<Id>, done: seq<Id>)
    requires RingReady(st, p) && Counted(rounds) && Turns(st[p].body) == due + done && Moving(rounds) == |due|
    ensures Finished(st, p, rounds) == due
    decreases |rounds|
  {
    if rounds != [] && st[p].body.ready != [] {
      var r := rounds[0];
      RoundMovesOn(st, p, r);
      if r.Moves() {
        assert (due + done)[1..] == due[1..] + done;
        FinishedInTurn(AfterRound(st, p, r), p, rounds[1..], due[1..], done + (if r.blocks then [] else [due[0]]));
      } else {
        FinishedInTurn(AfterRound(st, p, r), p, rounds[1..], due, done);
      }
    }
  }
}
