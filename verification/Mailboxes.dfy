/** Inboxes and the message pool (phase1/src/msg.c), with the effect of `send` and `recv` on them. */
module Mailboxes {
  import opened Types
  import opened Sequences

  function Ids(s: seq<Msg>): (r: seq<Mid>) {
    seq(|s|, i requires 0 <= i < |s| => s[i].id)
  }

  function Letters(s: seq<Msg>): (r: seq<Letter>) {
    seq(|s|, i requires 0 <= i < |s| => s[i].letter)
  }

  /** The position of the first message from a, or the length. */
  function FirstFrom(s: seq<Msg>, a: Addr): (i: nat)
    ensures i <= |s|
    ensures i < |s| ==> s[i].letter.from == a
    ensures forall j :: 0 <= j < i ==> s[j].letter.from != a
  {
    if s == [] || s[0].letter.from == a then 0 else 1 + FirstFrom(s[1..], a)
  }

  /** What the letters of one sender say, in order. */
  function From(ls: seq<Letter>, a: Addr): (r: seq<Payload>) {
    if ls == [] then []
    else
      var l := ls[|ls| - 1];
      From(ls[..|ls| - 1], a) + if l.from == a then [l.body] else []
  }

  // ----- operations -----

  /** A message is taken from the pool and queued: ticks at the head, all others at the tail. */
  function Enqueue(m: Mail, r: Tid, l: Letter): (n: Mail)
    requires m.free != []
  {
    var x := Msg(m.free[0], l);
    m.(free := m.free[1..],
       inbox := m.inbox[r := if l.from == Timer then [x] + m.inbox[r] else m.inbox[r] + [x]],
       log := m.log[r := m.log[r] + [l]])
  }

  /** A waiting thread gets the letter directly. */
  function HandOver(m: Mail, r: Tid, l: Letter): (n: Mail) {
    m.(waitingFor := m.waitingFor[r := Magic], frozen := m.frozen[r := false],
       v0 := m.v0[r := l.from], val := m.val[r := l.body],
       log := m.log[r := m.log[r] + [l]], got := m.got[r := m.got[r] + [l]])
  }

  /** Thread t takes message i out of its inbox; the message returns to the pool. */
  function Take(m: Mail, t: Tid, i: nat): (n: Mail)
    requires i < |m.inbox[t]|
  {
    var x := m.inbox[t][i];
    m.(free := m.free + [x.id], inbox := m.inbox[t := RemoveAt(m.inbox[t], i)],
       v0 := m.v0[t := x.letter.from], val := m.val[t := x.letter.body],
       got := m.got[t := m.got[t] + [x.letter]])
  }

  /** Thread t starts waiting for a. */
  function Await(m: Mail, t: Tid, a: Addr, frozen: bool): (n: Mail) {
    m.(waitingFor := m.waitingFor[t := a], frozen := m.frozen[t := frozen],
       v0 := if frozen then m.v0 else m.v0[t := Null])
  }

  /** `allocTcb` on the message fields of n. (The new thread's state, with v0, is then copied from the request.) */
  function Renew(m: Mail, n: Tid): (r: Mail) {
    m.(v0 := m.v0[n := Null], inbox := m.inbox[n := []], waitingFor := m.waitingFor[n := Magic], frozen := m.frozen[n := false],
       log := m.log[n := []], got := m.got[n := []])
  }

  /** The identities of all messages held by the threads of ds, in that order. */
  function HeldBy(inbox: seq<seq<Msg>>, ds: seq<Tid>): (r: seq<Mid>)
    requires |inbox| == NT
  {
    if ds == [] then []
    else HeldBy(inbox, ds[..|ds| - 1]) + Ids(inbox[ds[|ds| - 1]])
  }

  function Emptied(inbox: seq<seq<Msg>>, d: set<Tid>): (r: seq<seq<Msg>>)
    requires |inbox| == NT
    ensures |r| == NT
  {
    seq(NT, t requires 0 <= t < NT => if t in d then [] else inbox[t])
  }

  /** The inboxes of ds return to the pool. */
  function Discard(m: Mail, ds: seq<Tid>): (r: Mail) {
    m.(inbox := Emptied(m.inbox, Elems(ds)), free := m.free + HeldBy(m.inbox, ds))
  }

  // ----- the message pool -----

  /** How often message i occurs in the first n inboxes. */
  ghost function Held(inbox: seq<seq<Msg>>, n: nat, i: Mid): (r: nat)
    requires n <= |inbox|
  {
    if n == 0 then 0 else Held(inbox, n - 1, i) + multiset(Ids(inbox[n - 1]))[i]
  }

  /** Every message is in the free list or in one inbox, and in one place only. */
  ghost predicate PoolOk(m: Mail) {
    forall i: Mid :: multiset(m.free)[i] + Held(m.inbox, NT, i) == 1
  }

  lemma {:induction false} HeldUpdate(inbox: seq<seq<Msg>>, n: nat, t: nat, s: seq<Msg>, i: Mid)
    requires n <= |inbox| && t < |inbox|
    ensures Held(inbox[t := s], n, i) + (if t < n then multiset(Ids(inbox[t]))[i] else 0)
         == Held(inbox, n, i) + (if t < n then multiset(Ids(s))[i] else 0)
  {
    if n > 0 {
      HeldUpdate(inbox, n - 1, t, s, i);
    }
  }

  lemma EnqueuePool(m: Mail, r: Tid, l: Letter)
    requires PoolOk(m) && m.free != []
    ensures PoolOk(Enqueue(m, r, l))
  {
    var n := Enqueue(m, r, l);
    var x := Msg(m.free[0], l);
    assert Ids([x] + m.inbox[r]) == [x.id] + Ids(m.inbox[r]);
    assert Ids(m.inbox[r] + [x]) == Ids(m.inbox[r]) + [x.id];
    assert m.free == [x.id] + m.free[1..];
    forall i: Mid ensures multiset(n.free)[i] + Held(n.inbox, NT, i) == 1 {
      HeldUpdate(m.inbox, NT, r, n.inbox[r], i);
    }
  }

  lemma TakePool(m: Mail, t: Tid, k: nat)
    requires PoolOk(m) && k < |m.inbox[t]|
    ensures PoolOk(Take(m, t, k))
  {
    var n := Take(m, t, k);
    assert Ids(n.inbox[t]) == RemoveAt(Ids(m.inbox[t]), k);
    RemoveAtBag(Ids(m.inbox[t]), k);
    forall i: Mid ensures multiset(n.free)[i] + Held(n.inbox, NT, i) == 1 {
      HeldUpdate(m.inbox, NT, t, n.inbox[t], i);
    }
  }

  lemma {:induction false} EmptiedHeld(inbox: seq<seq<Msg>>, ds: seq<Tid>, i: Mid)
    requires |inbox| == NT && NoDup(ds)
    ensures Held(Emptied(inbox, Elems(ds)), NT, i) + multiset(HeldBy(inbox, ds))[i] == Held(inbox, NT, i)
  {
    if ds == [] {
      assert Emptied(inbox, Elems(ds)) == inbox;
    } else {
      var n := |ds| - 1;
      var es, d := ds[..n], ds[n];
      EmptiedHeld(inbox, es, i);
      assert d !in es;
      assert Elems(ds) == Elems(es) + {d};
      assert Emptied(inbox, Elems(ds)) == Emptied(inbox, Elems(es))[d := []];
      HeldUpdate(Emptied(inbox, Elems(es)), NT, d, [], i);
    }
  }

  lemma DiscardPool(m: Mail, ds: seq<Tid>)
    requires PoolOk(m) && NoDup(ds)
    ensures PoolOk(Discard(m, ds))
  {
    forall i: Mid ensures multiset(Discard(m, ds).free)[i] + Held(Discard(m, ds).inbox, NT, i) == 1 {
      EmptiedHeld(m.inbox, ds, i);
    }
  }

  lemma RenewPool(m: Mail, n: Tid)
    requires PoolOk(m) && m.inbox[n] == []
    ensures PoolOk(Renew(m, n))
  {
    assert m.inbox[n := []] == m.inbox;
  }

  lemma {:induction false} HeldByConcat(inbox: seq<seq<Msg>>, a: seq<Tid>, b: seq<Tid>)
    requires |inbox| == NT
    ensures HeldBy(inbox, a + b) == HeldBy(inbox, a) + HeldBy(inbox, b)
  {
    if b == [] {
      assert a + b == a;
    } else {
      HeldByConcat(inbox, a, b[..|b| - 1]);
      assert (a + b)[..|a + b| - 1] == a + b[..|b| - 1];
    }
  }

  lemma {:induction false} HeldByFrame(x: seq<seq<Msg>>, y: seq<seq<Msg>>, ds: seq<Tid>)
    requires |x| == NT && |y| == NT && forall t :: t in ds ==> x[t] == y[t]
    ensures HeldBy(x, ds) == HeldBy(y, ds)
  {
    if ds != [] {
      HeldByFrame(x, y, ds[..|ds| - 1]);
      assert ds[|ds| - 1] in ds;
    }
  }

  lemma DiscardTwice(m: Mail, a: seq<Tid>, b: seq<Tid>)
    requires forall t :: t in a ==> t !in b
    ensures Discard(Discard(m, a), b) == Discard(m, a + b)
  {
    assert Elems(a + b) == Elems(a) + Elems(b);
    assert Discard(Discard(m, a), b).inbox == Discard(m, a + b).inbox;
    HeldByConcat(m.inbox, a, b);
    HeldByFrame(m.inbox, Emptied(m.inbox, Elems(a)), b);
    assert m.free + HeldBy(m.inbox, a) + HeldBy(m.inbox, b) == m.free + (HeldBy(m.inbox, a) + HeldBy(m.inbox, b));
  }

  // ----- delivery -----

  /** Per channel: what t got from a is a prefix of what a sent it, and the rest is in the inbox, in order. */
  ghost predicate Fifo(m: Mail, t: Tid) {
    forall a :: a != Timer ==> From(m.log[t], a) == From(m.got[t], a) + From(Letters(m.inbox[t]), a)
  }

  /** Every accepted letter, ticks included, is delivered once or still in the inbox once. */
  ghost predicate Once(m: Mail, t: Tid) {
    multiset(m.log[t]) == multiset(m.got[t]) + multiset(Letters(m.inbox[t]))
  }

  ghost predicate DeliveryOk(m: Mail, t: Tid) {
    Fifo(m, t) && Once(m, t)
  }

  /** Ticks are at the front. */
  ghost predicate TicksFirst(s: seq<Msg>) {
    forall i, j :: 0 <= i < j < |s| && s[j].letter.from == Timer ==> s[i].letter.from == Timer
  }

  /** The inbox of t holds nothing that t waits for. */
  ghost predicate Quiet(m: Mail, t: Tid) {
    && (m.waitingFor[t] == Null ==> m.inbox[t] == [])
    && (forall i :: 0 <= i < |m.inbox[t]| ==> m.inbox[t][i].letter.from != m.waitingFor[t])
  }

  lemma {:induction false} FromConcat(x: seq<Letter>, y: seq<Letter>, a: Addr)
    ensures From(x + y, a) == From(x, a) + From(y, a)
  {
    if y == [] {
      assert x + y == x;
    } else {
      FromConcat(x, y[..|y| - 1], a);
      assert (x + y)[..|x + y| - 1] == x + y[..|y| - 1];
    }
  }

  lemma {:induction false} FromNone(x: seq<Letter>, a: Addr)
    requires forall i :: 0 <= i < |x| ==> x[i].from != a
    ensures From(x, a) == []
  {
    if x != [] {
      FromNone(x[..|x| - 1], a);
    }
  }

  lemma EnqueueDelivery(m: Mail, r: Tid, l: Letter, t: Tid)
    requires m.free != [] && DeliveryOk(m, t)
    ensures DeliveryOk(Enqueue(m, r, l), t)
  {
    hide From;
    if t == r {
      var n, box := Enqueue(m, r, l), Letters(m.inbox[r]);
      var x := Msg(m.free[0], l);
      assert Letters(n.inbox[t]) == if l.from == Timer then [l] + box else box + [l];
      forall a | a != Timer ensures From(n.log[t], a) == From(n.got[t], a) + From(Letters(n.inbox[t]), a) {
        EnqueueChannel(m.log[t], m.got[t], box, l, a);
      }
    }
  }

  lemma EnqueueChannel(log: seq<Letter>, got: seq<Letter>, box: seq<Letter>, l: Letter, a: Addr)
    requires From(log, a) == From(got, a) + From(box, a) && a != Timer
    ensures From(log + [l], a) == From(got, a) + From(if l.from == Timer then [l] + box else box + [l], a)
  {
    hide From;
    FromConcat(log, [l], a);
    FromOne(l, a);
    if l.from == Timer {
      FromConcat([l], box, a);
    } else {
      FromConcat(box, [l], a);
    }
  }

  lemma HandOverDelivery(m: Mail, r: Tid, l: Letter, t: Tid)
    requires DeliveryOk(m, t) && Quiet(m, r)
    requires m.waitingFor[r] == l.from || m.waitingFor[r] == Null
    ensures DeliveryOk(HandOver(m, r, l), t)
  {
    if t == r {
      var n := HandOver(m, r, l);
      forall a | a != Timer ensures From(n.log[t], a) == From(n.got[t], a) + From(Letters(n.inbox[t]), a) {
        HandOverChannel(m.log[t], m.got[t], Letters(m.inbox[t]), l, a);
      }
    }
  }

  lemma HandOverChannel(log: seq<Letter>, got: seq<Letter>, box: seq<Letter>, l: Letter, a: Addr)
    requires From(log, a) == From(got, a) + From(box, a)
    requires forall i :: 0 <= i < |box| ==> box[i].from != l.from
    ensures From(log + [l], a) == From(got + [l], a) + From(box, a)
  {
    FromConcat(log, [l], a);
    FromConcat(got, [l], a);
    if a == l.from {
      FromNone(box, a);
    } else {
      FromNone([l], a);
    }
  }

  /** Taking the first letter of its sender keeps every channel in order. */
  lemma TakeDelivery(m: Mail, r: Tid, i: nat, t: Tid)
    requires i < |m.inbox[r]| && DeliveryOk(m, t)
    requires forall j :: 0 <= j < i ==> m.inbox[r][j].letter.from != m.inbox[r][i].letter.from
    ensures DeliveryOk(Take(m, r, i), t)
  {
    if t == r {
      var n := Take(m, r, i);
      var ls := Letters(m.inbox[t]);
      var l := ls[i];
      assert ls == ls[..i] + [l] + ls[i + 1..];
      assert Letters(n.inbox[t]) == ls[..i] + ls[i + 1..];
      RemoveAtBag(ls, i);
      forall a | a != Timer ensures From(n.log[t], a) == From(n.got[t], a) + From(Letters(n.inbox[t]), a) {
        TakeChannel(ls[..i], l, ls[i + 1..], a);
        FromConcat(m.got[t], [l], a);
      }
    }
  }

  lemma TakeChannel(x: seq<Letter>, l: Letter, y: seq<Letter>, a: Addr)
    requires forall j :: 0 <= j < |x| ==> x[j].from != l.from
    ensures From(x + [l] + y, a) == From([l], a) + From(x + y, a)
  {
    FromConcat(x + [l], y, a);
    FromConcat(x, [l], a);
    FromConcat(x, y, a);
    if a == l.from {
      FromNone(x, a);
    } else {
      FromNone([l], a);
    }
  }

  lemma RenewDelivery(m: Mail, n: Tid, t: Tid)
    requires t == n || DeliveryOk(m, t)
    ensures DeliveryOk(Renew(m, n), t)
  {
    assert Letters([]) == [];
  }

  // ----- a direct hand-over that the thread is not quiet for -----

  /** A direct hand-over keeps every channel of r in order if and only if whatever the same sender still
      has in the inbox says the same. (A thread blocked in MsgRecv has nothing there, see `Quiet`; a
      thread frozen by a trap may have.) */
  lemma HandOverFifoIff(m: Mail, r: Tid, l: Letter)
    requires Fifo(m, r) && l.from != Timer
    ensures Fifo(HandOver(m, r, l), r) <==>
      forall i :: 0 <= i < |m.inbox[r]| && m.inbox[r][i].letter.from == l.from ==> m.inbox[r][i].letter.body == l.body
  {
    hide From;
    var n, box := HandOver(m, r, l), Letters(m.inbox[r]);
    forall a | a != Timer
      ensures From(n.log[r], a) == From(n.got[r], a) + From(box, a) <==> (a == l.from ==> SaysOnly(box, l))
    {
      ChannelIff(m.log[r], m.got[r], box, l, a);
    }
    assert n.inbox == m.inbox && Letters(n.inbox[r]) == box;
    if Fifo(n, r) {
      assert From(n.log[r], l.from) == From(n.got[r], l.from) + From(box, l.from);
    }
    assert SaysOnly(box, l) <==>
      forall i :: 0 <= i < |m.inbox[r]| && m.inbox[r][i].letter.from == l.from ==> m.inbox[r][i].letter.body == l.body
    by {
      assert forall i :: 0 <= i < |box| ==> box[i] == m.inbox[r][i].letter;
    }
  }

  /** Every letter from the sender of l says what l says. */
  ghost predicate SaysOnly(box: seq<Letter>, l: Letter) {
    forall i :: 0 <= i < |box| && box[i].from == l.from ==> box[i].body == l.body
  }

  lemma ChannelIff(log: seq<Letter>, got: seq<Letter>, box: seq<Letter>, l: Letter, a: Addr)
    requires From(log, a) == From(got, a) + From(box, a)
    ensures From(log + [l], a) == From(got + [l], a) + From(box, a) <==> (a == l.from ==> SaysOnly(box, l))
  {
    FromConcat(log, [l], a);
    FromConcat(got, [l], a);
    FromOne(l, a);
    if a == l.from {
      FromSaysOnly(box, l);
      SwapIff(From(got, a), From(box, a), l.body);
      Rotated(From(box, a), l.body);
    }
  }

  lemma FromOne(l: Letter, a: Addr)
    ensures From([l], a) == if l.from == a then [l.body] else []
  {}

  lemma SwapIff<T(!new)>(x: seq<T>, y: seq<T>, b: T)
    ensures x + y + [b] == x + [b] + y <==> y + [b] == [b] + y
  {
    assert (x + y + [b])[|x|..] == y + [b] && (x + [b] + y)[|x|..] == [b] + y;
    assert x + y + [b] == x + (y + [b]) && x + [b] + y == x + ([b] + y);
  }

  /** A sequence that begins and ends alike in this way repeats one element. */
  lemma Rotated<T(!new)>(s: seq<T>, b: T)
    ensures s + [b] == [b] + s <==> forall i :: 0 <= i < |s| ==> s[i] == b
  {
    if s + [b] == [b] + s {
      RotatedAt(s, b, |s|);
    }
  }

  lemma {:induction false} RotatedAt<T(!new)>(s: seq<T>, b: T, n: nat)
    requires s + [b] == [b] + s && n <= |s|
    ensures forall i :: 0 <= i < n ==> s[i] == b
  {
    if n > 0 {
      RotatedAt(s, b, n - 1);
      assert s[n - 1] == (s + [b])[n - 1] == ([b] + s)[n - 1];
    }
  }

  lemma {:induction false} FromSaysOnly(box: seq<Letter>, l: Letter)
    ensures (forall i :: 0 <= i < |From(box, l.from)| ==> From(box, l.from)[i] == l.body) <==> SaysOnly(box, l)
  {
    if box != [] {
      var n := |box| - 1;
      FromSaysOnly(box[..n], l);
      var rest := From(box[..n], l.from);
      assert box[n].from == l.from ==> From(box, l.from)[|rest|] == box[n].body;
      assert forall i :: 0 <= i < |rest| ==> From(box, l.from)[i] == rest[i];
      assert forall i :: 0 <= i < n ==> box[i] == box[..n][i];
    }
  }
}
