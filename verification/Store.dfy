/** The two pools of phase 1 (phase1/src/tcb.c, phase1/src/msg.c), on linked lists in shared memory. */
module Store {
  import opened Types
  import opened Sequences
  import opened Listx

  /** Every member of a ring is the number of a control block or of a message. */
  ghost predicate InRange(rings: Rings) {
    forall h, x :: h in rings && x in rings[h] ==> x < if FieldOf(h) == MNext then NM else NT
  }

  /** A ring that only loses members stays in range. */
  lemma InRangeShrinks(rings: Rings, h: Head, s: seq<nat>)
    requires InRange(rings) && h in rings && forall x :: x in s ==> x in rings[h]
    ensures InRange(rings[h := s])
  {}

  lemma NotYetListed(rings: Rings, h: Head, i: nat)
    requires forall g :: g in rings ==> FieldOf(g) != FieldOf(h)
    ensures Loose(rings[h := UpTo(i)], L(FieldOf(h), i))
    ensures UpTo(i + 1) == UpTo(i) + [i]
    ensures rings[h := UpTo(i)][h := UpTo(i) + [i]] == rings[h := UpTo(i + 1)]
  {
    var r := rings[h := UpTo(i)];
    forall g | g in r ensures !OnRing(r, L(FieldOf(h), i), g) {}
  }

  /** An empty ring more does not take a link. */
  lemma StillLoose(rings: Rings, h: Head, n: Node)
    requires Loose(rings, n) && n.L?
    ensures Loose(rings[h := []], n)
  {
    var r := rings[h := []];
    forall g | g in r ensures !OnRing(r, n, g) {
      if g != h { assert !OnRing(rings, n, g); }
    }
  }

  /** `thread_array`: the words of every tcb_t, field by field. */
  datatype TcbRec = Tcbs(parent: seq<Option<Tid>>, waitingFor: seq<Addr>, v0: seq<Addr>, val: seq<Payload>,
                         sys: seq<Addr>, pgm: seq<Addr>, tlb: seq<Addr>, cpuTime: seq<nat>, cpuSlice: seq<nat>)
  type TcbArray = a: TcbRec |
      && |a.parent| == NT && |a.waitingFor| == NT && |a.v0| == NT && |a.val| == NT
      && |a.sys| == NT && |a.pgm| == NT && |a.tlb| == NT && |a.cpuTime| == NT && |a.cpuSlice| == NT
    witness ZeroTcbs()

  function ZeroTcbs(): (r: TcbRec) {
    Tcbs(seq(NT, _ => None), seq(NT, _ => Null), seq(NT, _ => Null), seq(NT, _ => Word(0)),
         seq(NT, _ => Null), seq(NT, _ => Null), seq(NT, _ => Null), seq(NT, _ => 0), seq(NT, _ => 0))
  }

  /** The fields that allocTcb resets, besides the lists. */
  function ResetTcb(a: TcbArray, n: Tid): (r: TcbArray) {
    a.(parent := a.parent[n := None], v0 := a.v0[n := Null], waitingFor := a.waitingFor[n := Magic],
       sys := a.sys[n := Null], pgm := a.pgm[n := Null], tlb := a.tlb[n := Null],
       cpuTime := a.cpuTime[n := 0], cpuSlice := a.cpuSlice[n := 0])
  }

  /** `msg_array`: sender and payload of every msg_t. */
  datatype MsgRec = Msgs(sender: seq<Addr>, message: seq<Payload>)
  type MsgArray = a: MsgRec | |a.sender| == NM && |a.message| == NM
    witness Msgs(seq(NM, _ => Null), seq(NM, _ => Word(0)))

  /** All the memory of phase 1 that later code depends on, with the lists as sequences. */
  datatype Image = Image(rings: Rings, prev: Memory, tcb: TcbArray, msg: MsgArray)

  class Pools {
    const links: Links
    var tcb: TcbArray
    var msg: MsgArray

    ghost predicate Valid()
      reads this, links
    {
      && links.Valid()
      && InRange(links.rings)
      && {Ready, Wait, TcbFree, MsgFree} <= links.rings.Keys
    }

    ghost function Now(): (im: Image)
      reads this, links
    {
      Image(links.rings, links.prev, tcb, msg)
    }

    /** initTcbs, initMsg and two mkEmptyThreadQ: two full free lists and two empty queues. */
    constructor ()
      ensures Valid() && fresh(links)
      ensures links.rings == Unbooted()
      ensures tcb == ZeroTcbs()
    {
      links := new Links();
      tcb := ZeroTcbs();
      msg := Msgs(seq(NM, _ => Null), seq(NM, _ => Word(0)));
      new;
      InitLists();
    }

    method InitLists()
      requires links.Valid() && links.rings == map[]
      modifies links
      ensures links.Valid() && InRange(links.rings)
      ensures links.rings == map[TcbFree := UpTo(NT), MsgFree := UpTo(NM), Ready := [], Wait := []]
    {
      InitFree(TcbFree, NT);
      InitFree(MsgFree, NM);
      assert InRange(links.rings);
      links.InitHead(Ready);
      links.InitHead(Wait);
    }

    /** initTcbs and initMsg */
    method InitFree(h: Head, n: nat)
      requires links.Valid() && h !in links.rings
      requires forall g :: g in links.rings ==> FieldOf(g) != FieldOf(h)
      modifies links
      ensures links.Valid() && links.rings == old(links.rings)[h := UpTo(n)]
    {
      links.InitHead(h);
      for i := 0 to n
        invariant links.Valid() && links.rings == old(links.rings)[h := UpTo(i)]
      {
        NotYetListed(old(links.rings), h, i);
        links.AddTail(i, h);
      }
    }

    // ----- thread queues -----

    /** insertThread, and freeTcb when h is the free list. */
    method InsertThread(h: Head, t: Tid)
      requires Valid() && h in links.rings && FieldOf(h) == TNext && Loose(links.rings, L(TNext, t))
      modifies links
      ensures Valid() && links.rings == old(links.rings)[h := old(links.rings)[h] + [t]]
      ensures SibsKept(old(links.prev), links.prev, [])
    {
      links.AddTail(t, h);
    }

    /** removeThread */
    method RemoveThread(h: Head) returns (r: Option<Tid>)
      requires Valid() && h in links.rings && FieldOf(h) == TNext
      modifies links
      ensures Valid()
      ensures r == if old(links.rings)[h] == [] then None else Some(old(links.rings)[h][0])
      ensures links.rings == if r.None? then old(links.rings) else old(links.rings)[h := old(links.rings)[h][1..]]
      ensures r.Some? ==> Loose(links.rings, L(TNext, r.value))
      ensures r.None? ==> links.next == old(links.next) && links.prev == old(links.prev)
      ensures SibsKept(old(links.prev), links.prev, [])
    {
      var empty := links.IsEmpty(h);
      if empty { return None; }
      InRangeShrinks(links.rings, h, links.rings[h][1..]);
      assert links.rings[h][0] in links.rings[h];
      var x := links.DelFirst(h);
      r := Some(x);
    }

    /** emptyThreadQ */
    method NoneIn(h: Head) returns (b: bool)
      requires Valid() && h in links.rings
      ensures b == (links.rings[h] == [])
    {
      b := links.IsEmpty(h);
    }

    /** thereIsThread */
    method ThereIsThread(h: Head, a: Addr) returns (found: bool)
      requires Valid() && h in links.rings && FieldOf(h) == TNext
      ensures found <==> a.Tcb? && a.t in links.rings[h]
    {
      var empty := links.IsEmpty(h);
      if empty { return false; }
      ghost var s := links.rings[h];
      ghost var i: nat := 0;
      var pos := links.Follow(H(h), h, 0);
      while pos != H(h)
        invariant 0 <= i <= |s| && pos == At(h, s, i)
        invariant a.Tcb? ==> a.t !in s[..i]
        decreases |s| - i
      {
        if a.Tcb? && pos.id == a.t { return true; }
        pos := links.Follow(pos, h, i + 1);
        i := i + 1;
      }
      assert s[..i] == s;
      return false;
    }

    /** outThread */
    method OutThread(h: Head, t: Tid) returns (found: bool)
      requires Valid() && h in links.rings && FieldOf(h) == TNext
      modifies links
      ensures Valid()
      ensures found <==> t in old(links.rings)[h]
      ensures links.rings == old(links.rings)[h := Remove<nat>(old(links.rings)[h], t)]
      ensures found ==> Loose(links.rings, L(TNext, t))
      ensures SibsKept(old(links.prev), links.prev, [])
    {
      ghost var s := links.rings[h];
      var empty := links.IsEmpty(h);
      if empty { return false; }
      ghost var i: nat := 0;
      var pos := links.Follow(H(h), h, 0);
      while pos != H(h)
        invariant unchanged(links)
        invariant 0 <= i <= |s| && pos == At(h, s, i) && t !in s[..i]
        decreases |s| - i
      {
        if pos.id == t {
          assert s[i] in s;
          RemoveIsMinus(s, t);
          InRangeShrinks(links.rings, h, Remove(s, t));
          links.Del(h, pos);
          return true;
        }
        pos := links.Follow(pos, h, i + 1);
        i := i + 1;
      }
      return false;
    }

    // ----- control blocks -----

    /** A free control block is in no child list, and its own lists are empty or not yet initialised. */
    ghost predicate Unused(x: nat)
      reads links
    {
      && Loose(links.rings, L(TSib, x))
      && (Child(x) in links.rings ==> links.rings[Child(x)] == [])
      && (Inbox(x) in links.rings ==> links.rings[Inbox(x)] == [])
    }

    /** The list work of allocTcb. */
    method TakeTcb() returns (r: Option<Tid>)
      requires Valid() && forall x :: x in links.rings[TcbFree] ==> Unused(x)
      modifies links
      ensures Valid()
      ensures r == if old(links.rings)[TcbFree] == [] then None else Some(old(links.rings)[TcbFree][0])
      ensures r.None? ==> links.rings == old(links.rings) && links.prev == old(links.prev)
      ensures r.Some? ==> links.rings == old(links.rings)[TcbFree := old(links.rings)[TcbFree][1..]][Child(r.value) := []][Inbox(r.value) := []]
      ensures r.Some? ==> Loose(links.rings, L(TNext, r.value)) && Loose(links.rings, L(TSib, r.value))
      ensures r.Some? ==> L(TSib, r.value) in links.prev && links.prev[L(TSib, r.value)] == L(TSib, r.value)
      ensures r.Some? ==> SibsKept(old(links.prev), links.prev, [r.value])
    {
      r := RemoveThread(TcbFree);
      if r.Some? {
        assert old(Unused(r.value)) by { assert r.value in old(links.rings)[TcbFree]; }
        StillLoose(old(links.rings), TcbFree, L(TSib, r.value));
        ResetLinks(r.value);
      }
    }

    /** allocTcb: the first free control block, reset; its link is left on no ring. */
    method AllocTcb() returns (r: Option<Tid>)
      requires Valid() && forall x :: x in links.rings[TcbFree] ==> Unused(x)
      modifies this`tcb, links
      ensures Valid()
      ensures r == if old(links.rings)[TcbFree] == [] then None else Some(old(links.rings)[TcbFree][0])
      ensures r.None? ==> tcb == old(tcb) && links.rings == old(links.rings) && links.prev == old(links.prev)
      ensures r.Some? ==> links.rings == old(links.rings)[TcbFree := old(links.rings)[TcbFree][1..]][Child(r.value) := []][Inbox(r.value) := []]
      ensures r.Some? ==> Loose(links.rings, L(TNext, r.value)) && Loose(links.rings, L(TSib, r.value))
      ensures r.Some? ==> L(TSib, r.value) in links.prev && links.prev[L(TSib, r.value)] == L(TSib, r.value)
      ensures r.Some? ==> SibsKept(old(links.prev), links.prev, [r.value])
      ensures r.Some? ==> tcb == ResetTcb(old(tcb), r.value)
    {
      hide Links.Valid, InRange;
      r := TakeTcb();
      if r.Some? {
        tcb := ResetTcb(tcb, r.value);
      }
    }

    /** The three INIT_LIST_HEAD calls of allocTcb. */
    method ResetLinks(n: Tid)
      requires Valid() && Loose(links.rings, L(TSib, n))
      requires Child(n) in links.rings ==> links.rings[Child(n)] == []
      requires Inbox(n) in links.rings ==> links.rings[Inbox(n)] == []
      modifies links
      ensures Valid()
      ensures links.rings == old(links.rings)[Child(n) := []][Inbox(n) := []]
      ensures Loose(links.rings, L(TSib, n))
      ensures Loose(old(links.rings), L(TNext, n)) ==> Loose(links.rings, L(TNext, n))
      ensures L(TSib, n) in links.prev && links.prev[L(TSib, n)] == L(TSib, n)
      ensures SibsKept(old(links.prev), links.prev, [n])
    {
      StillLoose(links.rings, Child(n), L(TSib, n));
      StillLoose(links.rings[Child(n) := []], Inbox(n), L(TSib, n));
      if Loose(links.rings, L(TNext, n)) {
        StillLoose(links.rings, Child(n), L(TNext, n));
        StillLoose(links.rings[Child(n) := []], Inbox(n), L(TNext, n));
      }
      links.InitHead(Child(n));
      links.InitLink(L(TSib, n));
      links.InitHead(Inbox(n));
    }

    // ----- the tree -----

    /** insertChild */
    method InsertChild(p: Tid, c: Tid)
      requires Valid() && Child(p) in links.rings && Loose(links.rings, L(TSib, c))
      modifies this`tcb, links
      ensures Valid() && tcb == old(tcb).(parent := old(tcb).parent[c := Some(p)])
      ensures links.rings == old(links.rings)[Child(p) := old(links.rings)[Child(p)] + [c]]
      ensures SibsKept(old(links.prev), links.prev, old(links.rings)[Child(p)] + [c])
    {
      tcb := tcb.(parent := tcb.parent[c := Some(p)]);
      links.AddTail(c, Child(p));
    }

    /** removeChild */
    method RemoveChild(p: Tid) returns (r: Option<Tid>)
      requires Valid() && Child(p) in links.rings
      modifies this`tcb, links
      ensures Valid()
      ensures r == if old(links.rings)[Child(p)] == [] then None else Some(old(links.rings)[Child(p)][0])
      ensures r.None? ==> links.rings == old(links.rings) && links.prev == old(links.prev) && tcb == old(tcb)
      ensures r.Some? ==> tcb == old(tcb).(parent := old(tcb).parent[r.value := None])
      ensures r.Some? ==> links.rings == old(links.rings)[Child(p) := old(links.rings)[Child(p)][1..]]
      ensures SibsKept(old(links.prev), links.prev, old(links.rings)[Child(p)])
    {
      var empty := links.IsEmpty(Child(p));
      if empty { return None; }
      InRangeShrinks(links.rings, Child(p), links.rings[Child(p)][1..]);
      assert links.rings[Child(p)][0] in links.rings[Child(p)];
      var x := links.DelFirst(Child(p));
      tcb := tcb.(parent := tcb.parent[x := None]);
      r := Some(x);
    }

    /** outChild */
    method OutChild(c: Tid)
      requires Valid()
      requires tcb.parent[c].Some? ==> Child(tcb.parent[c].value) in links.rings && c in links.rings[Child(tcb.parent[c].value)]
      modifies this`tcb, links
      ensures Valid() && tcb == old(tcb).(parent := old(tcb).parent[c := None])
      ensures links.rings == if old(tcb).parent[c].None? then old(links.rings)
        else var h := Child(old(tcb).parent[c].value); old(links.rings)[h := Remove(old(links.rings)[h], c)]
      ensures SibsKept(old(links.prev), links.prev, if old(tcb).parent[c].None? then [] else old(links.rings)[Child(old(tcb).parent[c].value)])
    {
      if tcb.parent[c].None? { return; }
      ghost var h := Child(tcb.parent[c].value);
      RemoveIsMinus(links.rings[h], c);
      InRangeShrinks(links.rings, h, Remove(links.rings[h], c));
      links.Del(h, L(TSib, c));
      tcb := tcb.(parent := tcb.parent[c := None]);
    }

    /** insertSibling, next to a link that is in no child list and follows one that is in none. */
    method InsertSibling(s: Tid, n: Tid)
      requires Valid() && L(TSib, s) in links.prev
      requires Loose(links.rings, L(TSib, s)) && Loose(links.rings, L(TSib, n)) && Loose(links.rings, links.prev[L(TSib, s)])
      modifies links`next, links`prev
      ensures Valid()
      ensures links.prev == old(links.prev)[L(TSib, s) := L(TSib, n)][L(TSib, n) := old(links.prev[L(TSib, s)])]
    {
      links.AddTailLoose(L(TSib, n), L(TSib, s));
    }

    // ----- messages -----

    /** allocMsg: the first free message, reset; its link is left on no ring. */
    method AllocMsg() returns (r: Option<Mid>)
      requires Valid()
      modifies this`msg, links
      ensures Valid()
      ensures r == if old(links.rings)[MsgFree] == [] then None else Some(old(links.rings)[MsgFree][0])
      ensures r.None? ==> links.rings == old(links.rings) && links.prev == old(links.prev) && msg == old(msg)
      ensures r.Some? ==>
        && links.rings == old(links.rings)[MsgFree := old(links.rings)[MsgFree][1..]]
        && Loose(links.rings, L(MNext, r.value))
        && msg == Msgs(old(msg).sender[r.value := Null], old(msg).message[r.value := Word(0)])
      ensures SibsKept(old(links.prev), links.prev, [])
    {
      var empty := links.IsEmpty(MsgFree);
      if empty { return None; }
      InRangeShrinks(links.rings, MsgFree, links.rings[MsgFree][1..]);
      assert links.rings[MsgFree][0] in links.rings[MsgFree];
      var x := links.DelFirst(MsgFree);
      msg := Msgs(msg.sender[x := Null], msg.message[x := Word(0)]);
      r := Some(x);
    }

    /** insertMessage, and freeMsg when h is the free list. */
    method InsertMessage(h: Head, m: Mid)
      requires Valid() && h in links.rings && FieldOf(h) == MNext && Loose(links.rings, L(MNext, m))
      modifies links
      ensures Valid() && links.rings == old(links.rings)[h := old(links.rings)[h] + [m]]
      ensures SibsKept(old(links.prev), links.prev, [])
    {
      links.AddTail(m, h);
    }

    /** pushMessage */
    method PushMessage(h: Head, m: Mid)
      requires Valid() && h in links.rings && FieldOf(h) == MNext && Loose(links.rings, L(MNext, m))
      modifies links
      ensures Valid() && links.rings == old(links.rings)[h := [m] + old(links.rings)[h]]
      ensures SibsKept(old(links.prev), links.prev, [])
    {
      links.Add(m, h);
    }

    ghost predicate SenderIs(m: nat, a: Addr)
      reads this
    {
      m < NM && msg.sender[m] == a
    }

    /** thereIsMessage, the search of popMessage: the first message from a, at index i. */
    method SeekMessage(t: Tid, a: Addr) returns (pos: Node, ghost i: nat)
      requires Valid() && Inbox(t) in links.rings
      ensures var s := links.rings[Inbox(t)];
        && i <= |s| && pos == At(Inbox(t), s, i)
        && (i < |s| ==> SenderIs(s[i], a))
        && (forall j :: 0 <= j < i ==> !SenderIs(s[j], a))
    {
      var h := Inbox(t);
      ghost var s := links.rings[h];
      i := 0;
      pos := links.Follow(H(h), h, 0);
      while pos != H(h)
        invariant 0 <= i <= |s| && pos == At(h, s, i)
        invariant forall j :: 0 <= j < i ==> !SenderIs(s[j], a)
        decreases |s| - i
      {
        assert s[i] in s;
        if msg.sender[pos.id] == a { return; }
        pos := links.Follow(pos, h, i + 1);
        i := i + 1;
      }
    }

    /** popMessage: the first message, or the first from a given sender; i is where it was. */
    method PopMessage(t: Tid, a: Addr) returns (r: Option<Mid>, ghost i: nat)
      requires Valid() && Inbox(t) in links.rings
      modifies links
      ensures Valid()
      ensures var s := old(links.rings)[Inbox(t)];
        && i <= |s|
        && (forall j :: 0 <= j < i ==> a != Null && !SenderIs(s[j], a))
        && (a == Null ==> i == 0)
        && (i == |s| ==> r == None && links.rings == old(links.rings))
        && (i < |s| ==> r == Some(s[i]) && (a == Null || SenderIs(s[i], a)) && links.rings == old(links.rings)[Inbox(t) := RemoveAt(s, i)])
      ensures r.Some? ==> Loose(links.rings, L(MNext, r.value))
      ensures r.None? ==> unchanged(links)
      ensures SibsKept(old(links.prev), links.prev, [])
    {
      ghost var s := links.rings[Inbox(t)];
      var empty := links.IsEmpty(Inbox(t));
      if empty { return None, 0; }
      var pos;
      if a == Null {
        pos := links.Follow(H(Inbox(t)), Inbox(t), 0);
        i := 0;
      } else {
        pos, i := SeekMessage(t, a);
        if pos == H(Inbox(t)) { return None, i; }
      }
      assert s[i] in s;
      FoundAt(s, i);
      InRangeShrinks(links.rings, Inbox(t), RemoveAt(s, i));
      links.Del(Inbox(t), pos);
      r := Some(pos.id);
    }

    // ----- the list work of phase 2 -----

    /** Plain stores into the fields of control blocks. */
    method SetTcb(a: TcbArray)
      requires Valid()
      modifies this`tcb
      ensures Valid() && tcb == a
    {
      tcb := a;
    }

    /** main: allocTcb and insertThread(&ready_queue, ...). */
    method Admit() returns (n: Tid)
      requires Valid() && links.rings[TcbFree] != [] && forall x :: x in links.rings[TcbFree] ==> Unused(x)
      modifies this`tcb, links
      ensures Valid() && n == old(links.rings)[TcbFree][0] && tcb == ResetTcb(old(tcb), n)
      ensures links.rings == old(links.rings)[TcbFree := old(links.rings)[TcbFree][1..]][Child(n) := []][Inbox(n) := []]
        [Ready := old(links.rings)[Ready] + [n]]
      ensures L(TSib, n) in links.prev && links.prev[L(TSib, n)] == L(TSib, n)
      ensures SibsKept(old(links.prev), links.prev, [n])
    {
      hide Links.Valid, InRange;
      var r := AllocTcb();
      n := r.value;
      InsertThread(Ready, n);
    }

    method AdmitSsi()
      requires Valid() && links.rings == Unbooted()
      modifies this`tcb, links
      ensures Valid() && tcb == ResetTcb(old(tcb), 0) && links.rings == HalfBooted()
      ensures L(TSib, 0) in links.prev && links.prev[L(TSib, 0)] == L(TSib, 0)
    {
      hide Links.Valid, InRange;
      AdmitUnused();
      var n := Admit();
    }

    method AdmitTest()
      requires Valid() && links.rings == HalfBooted()
      modifies this`tcb, links
      ensures Valid() && tcb == ResetTcb(old(tcb), 1) && links.rings == Booted()
      ensures L(TSib, 1) in links.prev && links.prev[L(TSib, 1)] == L(TSib, 1)
      ensures SibsKept(old(links.prev), links.prev, [1])
    {
      hide Links.Valid, InRange;
      AdmitUnused();
      var n := Admit();
    }

    /** main: the SSI first, TEST second. */
    method BootThreads()
      requires Valid() && tcb == ZeroTcbs() && links.rings == Unbooted()
      modifies this`tcb, links
      ensures Valid() && tcb == ResetTcb(ResetTcb(ZeroTcbs(), 0), 1) && links.rings == Booted()
      ensures forall t :: 0 <= t < 2 ==> L(TSib, t) in links.prev && links.prev[L(TSib, t)] == L(TSib, t)
    {
      hide Links.Valid, InRange;
      AdmitSsi();
      AdmitTest();
    }

    /** SSI: a new child of p, made ready. */
    method SpawnChild(p: Tid) returns (n: Tid)
      requires Valid() && links.rings[TcbFree] != [] && forall x :: x in links.rings[TcbFree] ==> Unused(x)
      requires Child(p) in links.rings && p != links.rings[TcbFree][0]
      modifies this`tcb, links
      ensures Valid() && n == old(links.rings)[TcbFree][0]
      ensures tcb == ResetTcb(old(tcb), n).(parent := old(tcb).parent[n := Some(p)])
      ensures links.rings == Born(old(links.rings), n)[Child(p) := old(links.rings)[Child(p)] + [n]][Ready := old(links.rings)[Ready] + [n]]
      ensures SibsKept(old(links.prev), links.prev, old(links.rings)[Child(p)] + [n])
    {
      hide Links.Valid, InRange;
      var r := AllocTcb();
      n := r.value;
      InsertChild(p, n);
      StillLooseThread(Born(old(links.rings), n), Child(p), old(links.rings)[Child(p)] + [n], n);
      InsertThread(Ready, n);
      assert ResetTcb(old(tcb), n).parent[n := Some(p)] == old(tcb).parent[n := Some(p)];
    }

    /** SSI: a new thread next to the parentless s, made ready. */
    method SpawnSibling(s: Tid) returns (n: Tid)
      requires Valid() && links.rings[TcbFree] != [] && forall x :: x in links.rings[TcbFree] ==> Unused(x)
      requires s != links.rings[TcbFree][0] && L(TSib, s) in links.prev
      requires Loose(links.rings, L(TSib, s)) && links.prev[L(TSib, s)].L? && Loose(links.rings, links.prev[L(TSib, s)])
      modifies this`tcb, links
      ensures Valid() && n == old(links.rings)[TcbFree][0] && tcb == ResetTcb(old(tcb), n)
      ensures links.rings == Born(old(links.rings), n)[Ready := old(links.rings)[Ready] + [n]]
      ensures L(TSib, s) in links.prev && links.prev[L(TSib, s)] == L(TSib, n)
      ensures L(TSib, n) in links.prev && links.prev[L(TSib, n)] == old(links.prev)[L(TSib, s)]
      ensures SibsKept(old(links.prev), links.prev, [s, n])
    {
      hide Links.Valid, InRange;
      var r := AllocTcb();
      n := r.value;
      BornLoose(old(links.rings), n, L(TSib, s));
      BornLoose(old(links.rings), n, old(links.prev)[L(TSib, s)]);
      InsertSibling(s, n);
      InsertThread(Ready, n);
    }

    /** send: a message is allocated and filled in. */
    method Compose(l: Letter) returns (r: Option<Mid>)
      requires Valid()
      modifies this`msg, links
      ensures Valid()
      ensures r == if old(links.rings)[MsgFree] == [] then None else Some(old(links.rings)[MsgFree][0])
      ensures r.None? ==> links.rings == old(links.rings) && links.prev == old(links.prev) && msg == old(msg)
      ensures r.Some? ==>
        && links.rings == old(links.rings)[MsgFree := old(links.rings)[MsgFree][1..]]
        && Loose(links.rings, L(MNext, r.value))
        && msg == Msgs(old(msg).sender[r.value := l.from], old(msg).message[r.value := l.body])
      ensures SibsKept(old(links.prev), links.prev, [])
    {
      hide Links.Valid, InRange;
      r := AllocMsg();
      if r.Some? {
        msg := Msgs(msg.sender[r.value := l.from], msg.message[r.value := l.body]);
      }
    }

    /** send: a message is allocated, filled in and queued, at the head if it is a tick. */
    method Post(r: Tid, l: Letter) returns (ok: bool)
      requires Valid() && Inbox(r) in links.rings
      modifies this`msg, links
      ensures Valid() && ok == (old(links.rings)[MsgFree] != [])
      ensures !ok ==> links.rings == old(links.rings) && links.prev == old(links.prev) && msg == old(msg)
      ensures ok ==> Posted(old(links.rings), old(msg), r, l, links.rings, msg)
      ensures SibsKept(old(links.prev), links.prev, [])
    {
      hide Links.Valid, InRange;
      var m := Compose(l);
      if m.None? { return false; }
      if l.from == Timer {
        PushMessage(Inbox(r), m.value);
      } else {
        InsertMessage(Inbox(r), m.value);
      }
      return true;
    }

    /** send and TRAPCONTINUE: from wait_queue to the tail of ready_queue. */
    method WakeUp(t: Tid)
      requires Valid() && t in links.rings[Wait]
      modifies links
      ensures Valid()
      ensures links.rings == old(links.rings)[Wait := Remove<nat>(old(links.rings)[Wait], t)][Ready := old(links.rings)[Ready] + [t]]
      ensures SibsKept(old(links.prev), links.prev, [])
    {
      hide Links.Valid, InRange;
      var found := OutThread(Wait, t);
      InsertThread(Ready, t);
    }

    /** recv: the message, if there is one, is taken out, read and freed. */
    method Receive(t: Tid, a: Addr) returns (r: Option<Letter>, ghost i: nat)
      requires Valid() && Inbox(t) in links.rings
      modifies links
      ensures Valid()
      ensures var s := old(links.rings)[Inbox(t)];
        && i <= |s|
        && (forall j :: 0 <= j < i ==> a != Null && !SenderIs(s[j], a))
        && (a == Null ==> i == 0)
        && (i == |s| ==> r == None && links.rings == old(links.rings))
        && (i < |s| ==> s[i] < NM && r == Some(Letter(msg.sender[s[i]], msg.message[s[i]])) && (a == Null || SenderIs(s[i], a)))
        && (i < |s| ==> links.rings == old(links.rings)[Inbox(t) := RemoveAt(s, i)][MsgFree := old(links.rings)[MsgFree] + [s[i]]])
      ensures r.None? ==> unchanged(links)
      ensures SibsKept(old(links.prev), links.prev, [])
    {
      hide Links.Valid, InRange;
      var m;
      m, i := PopMessage(t, a);
      if m.None? { return None, i; }
      r := Some(Letter(msg.sender[m.value], msg.message[m.value]));
      InsertMessage(MsgFree, m.value);
    }

    /** One turn of the loop below. */
    method DrainOne(t: Tid) returns (done: bool)
      requires Valid() && Inbox(t) in links.rings
      modifies links
      ensures Valid() && done == (old(links.rings)[Inbox(t)] == [])
      ensures done ==> links.rings == old(links.rings)
      ensures !done ==> var s := old(links.rings)[Inbox(t)];
        links.rings == old(links.rings)[Inbox(t) := s[1..]][MsgFree := old(links.rings)[MsgFree] + [s[0]]]
      ensures SibsKept(old(links.prev), links.prev, [])
    {
      hide Links.Valid, InRange;
      ghost var s := links.rings[Inbox(t)];
      var m, i := PopMessage(t, Null);
      if m.None? { return true; }
      InsertMessage(MsgFree, m.value);
      assert RemoveAt(s, 0) == s[1..];
      return false;
    }

    /** terminate: the inbox is emptied into the free list, message by message. */
    method Drain(t: Tid)
      requires Valid() && Inbox(t) in links.rings
      modifies links
      ensures Valid()
      ensures links.rings == old(links.rings)[Inbox(t) := []][MsgFree := old(links.rings)[MsgFree] + old(links.rings)[Inbox(t)]]
      ensures SibsKept(old(links.prev), links.prev, [])
    {
      hide Links.Valid, InRange;
      ghost var s, free := links.rings[Inbox(t)], links.rings[MsgFree];
      ghost var n := 0;
      assert s[0..] == s && free + s[..0] == free;
      assert links.rings[Inbox(t) := s][MsgFree := free] == links.rings;
      while true
        invariant Valid() && 0 <= n <= |s|
        invariant links.rings == old(links.rings)[Inbox(t) := s[n..]][MsgFree := free + s[..n]]
        invariant SibsKept(old(links.prev), links.prev, [])
        decreases |s| - n
      {
        var done := DrainOne(t);
        if done { break; }
        assert s[n..][1..] == s[n + 1..] && free + s[..n] + [s[n]] == free + s[..n + 1];
        n := n + 1;
      }
      assert s[n..] == [] && s[..n] == s;
    }

    /** terminate: the inbox is emptied and the control block freed. */
    method Bury(t: Tid)
      requires Valid() && Inbox(t) in links.rings && Loose(links.rings, L(TNext, t))
      modifies links
      ensures Valid()
      ensures links.rings == old(links.rings)[Inbox(t) := []][MsgFree := old(links.rings)[MsgFree] + old(links.rings)[Inbox(t)]]
        [TcbFree := old(links.rings)[TcbFree] + [t]]
      ensures SibsKept(old(links.prev), links.prev, [])
    {
      hide Links.Valid, InRange;
      Drain(t);
      InsertThread(TcbFree, t);
    }

    /** outThread on ready_queue, and on wait_queue for a thread found in neither place before. */
    method Unqueue(t: Tid, running: bool) returns (ok: bool, waited: bool)
      requires Valid() && (t in links.rings[Ready] ==> t !in links.rings[Wait])
      requires running ==> t !in links.rings[Ready] && t !in links.rings[Wait]
      modifies links
      ensures Valid() && ok == (running || t in old(links.rings)[Ready] || t in old(links.rings)[Wait])
      ensures waited == (t in old(links.rings)[Wait])
      ensures links.rings == old(links.rings)[Ready := Remove<nat>(old(links.rings)[Ready], t)][Wait := Remove<nat>(old(links.rings)[Wait], t)]
      ensures t in old(links.rings)[Ready] || t in old(links.rings)[Wait] ==> Loose(links.rings, L(TNext, t))
      ensures SibsKept(old(links.prev), links.prev, [])
    {
      hide Links.Valid, InRange;
      waited := false;
      ok := OutThread(Ready, t);
      ghost var rings := links.rings;
      if !ok && !running {
        waited := OutThread(Wait, t);
        ok := waited;
      } else {
        ok := true;
        assert Remove<nat>(rings[Wait], t) == rings[Wait];
        assert rings[Wait := rings[Wait]] == rings;
      }
    }

    /** terminate: whoever is left without relatives leaves its queue, its messages and finally its
        control block; the result says whether it was in a queue or on the CPU at all. */
    method Retire(t: Tid, running: bool) returns (ok: bool, waited: bool)
      requires Valid()
      requires running || t in links.rings[Ready] || t in links.rings[Wait] ==> Inbox(t) in links.rings
      requires t in links.rings[Ready] ==> t !in links.rings[Wait]
      requires running ==> t !in links.rings[Ready] && t !in links.rings[Wait] && Loose(links.rings, L(TNext, t))
      modifies links
      ensures Valid() && ok == (running || t in old(links.rings)[Ready] || t in old(links.rings)[Wait])
      ensures waited == (t in old(links.rings)[Wait])
      ensures !ok ==> links.rings == old(links.rings)
      ensures ok ==> Gone(old(links.rings), links.rings, t)
      ensures SibsKept(old(links.prev), links.prev, [])
    {
      hide Links.Valid, InRange;
      ok, waited := Unqueue(t, running);
      if ok {
        RemoveAbsent(old(links.rings), t);
        Bury(t);
        GoneIs(old(links.rings), t);
      } else {
        RemoveAbsent(old(links.rings), t);
      }
    }
  }

  /** Removing a thread that is in neither queue changes nothing. */
  lemma RemoveAbsent(rings: Rings, t: nat)
    requires Ready in rings && Wait in rings
    ensures t !in rings[Ready] && t !in rings[Wait] ==>
      rings[Ready := Remove<nat>(rings[Ready], t)][Wait := Remove<nat>(rings[Wait], t)] == rings
  {
    if t !in rings[Ready] && t !in rings[Wait] {
      assert rings[Ready := rings[Ready]][Wait := rings[Wait]] == rings;
    }
  }

  lemma GoneIs(rings: Rings, t: Tid)
    requires {Ready, Wait, TcbFree, MsgFree, Inbox(t)} <= rings.Keys
    ensures Gone(rings, rings[Ready := Remove<nat>(rings[Ready], t)][Wait := Remove<nat>(rings[Wait], t)]
      [Inbox(t) := []][MsgFree := rings[MsgFree] + rings[Inbox(t)]][TcbFree := rings[TcbFree] + [t]], t)
  {}

  ghost function Unbooted(): (r: Rings) {
    map[TcbFree := UpTo(NT), MsgFree := UpTo(NM), Ready := [], Wait := []]
  }

  ghost function HalfBooted(): (r: Rings) {
    Unbooted()[TcbFree := UpTo(NT)[1..]][Child(0) := []][Inbox(0) := []][Ready := [] + [0]]
  }

  ghost function Booted(): (r: Rings) {
    HalfBooted()[TcbFree := UpTo(NT)[1..][1..]][Child(1) := []][Inbox(1) := []][Ready := [] + [0] + [1]]
  }

  /** Nothing has been linked yet except the control blocks admitted so far. */
  lemma AdmitUnused()
    ensures forall x :: x in Unbooted()[TcbFree] ==>
      Loose(Unbooted(), L(TSib, x)) && Child(x) !in Unbooted() && Inbox(x) !in Unbooted()
    ensures forall x :: x in HalfBooted()[TcbFree] ==>
      Loose(HalfBooted(), L(TSib, x)) && Child(x) !in HalfBooted() && Inbox(x) !in HalfBooted()
  {}

  /** The rings after `AllocTcb`. */
  ghost function Born(rings: Rings, n: nat): (r: Rings)
    requires TcbFree in rings && rings[TcbFree] != []
  {
    rings[TcbFree := rings[TcbFree][1..]][Child(n) := []][Inbox(n) := []]
  }

  lemma BornLoose(rings: Rings, n: nat, x: Node)
    requires TcbFree in rings && rings[TcbFree] != [] && Loose(rings, x) && x.L?
    ensures Loose(Born(rings, n), x)
  {
    var r := rings[TcbFree := rings[TcbFree][1..]];
    forall g | g in r ensures !OnRing(r, x, g) { assert !OnRing(rings, x, g); }
    StillLoose(r, Child(n), x);
    StillLoose(r[Child(n) := []], Inbox(n), x);
  }

  lemma StillLooseThread(rings: Rings, h: Head, s: seq<nat>, n: nat)
    requires Loose(rings, L(TNext, n)) && FieldOf(h) != TNext
    ensures Loose(rings[h := s], L(TNext, n))
  {
    var r := rings[h := s];
    forall g | g in r ensures !OnRing(r, L(TNext, n), g) {
      if g != h { assert !OnRing(rings, L(TNext, n), g); }
    }
  }

  /** The rings and messages after `Post`. */
  ghost predicate Posted(rings: Rings, msg: MsgArray, r: Tid, l: Letter, rings': Rings, msg': MsgArray) {
    && MsgFree in rings && rings[MsgFree] != [] && rings[MsgFree][0] < NM && Inbox(r) in rings
    && var id, s := rings[MsgFree][0], rings[Inbox(r)];
       && rings' == rings[MsgFree := rings[MsgFree][1..]][Inbox(r) := if l.from == Timer then [id] + s else s + [id]]
       && msg' == Msgs(msg.sender[id := l.from], msg.message[id := l.body])
  }

  /** The rings after `Retire`. */
  ghost predicate Gone(rings: Rings, rings': Rings, t: Tid) {
    && {Ready, Wait, TcbFree, MsgFree, Inbox(t)} <= rings.Keys && {Ready, Wait, TcbFree, MsgFree, Inbox(t)} <= rings'.Keys
    && OnlyAt(rings, rings', {Ready, Wait, TcbFree, MsgFree, Inbox(t)})
    && rings'[Ready] == Remove<nat>(rings[Ready], t) && rings'[Wait] == Remove<nat>(rings[Wait], t)
    && rings'[TcbFree] == rings[TcbFree] + [t]
    && rings'[Inbox(t)] == [] && rings'[MsgFree] == rings[MsgFree] + rings[Inbox(t)]
  }

  /** The rings differ at most at the heads hs. */
  ghost predicate OnlyAt(rings: Rings, rings': Rings, hs: set<Head>) {
    forall h :: h !in hs ==> (h in rings' <==> h in rings) && (h in rings ==> rings'[h] == rings[h])
  }

  function UpTo(n: nat): (s: seq<nat>)
    ensures |s| == n && forall i :: 0 <= i < n ==> s[i] == i
  {
    seq(n, i => i)
  }

  lemma FoundAt<T(!new)>(s: seq<T>, i: nat)
    requires NoDup(s) && i < |s|
    ensures IndexOf(s, s[i]) == i
  {
    assert s[i] !in s[..IndexOf(s, s[i])];
  }
}
