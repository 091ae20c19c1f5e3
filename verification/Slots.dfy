/** The 48 slots in which the interrupt handler describes an interrupt to the SSI (phase2/src/interrupts.c). A
    message carries only the address of its slot, and slots are used again. */
module Slots {
  import opened Types

  /** The request structure that an interrupt message points to. */
  datatype Slot = Slot(service: nat, arg: nat)

  /** What each entry of the handler writes in its slot. */
  ghost function Contents(written: seq<Option<Letter>>): (ss: seq<Option<Slot>>)
    ensures |ss| == |written|
  {
    seq(|written|, n requires 0 <= n < |written| =>
      if written[n].Some? && written[n].value.body.Irq? then Some(Slot(written[n].value.body.service, written[n].value.body.status))
      else None)
  }

  /** `interrupt_msg_array` and the static index `i`: every handler entry moves the index on, whether it
      wrote a message or not. */
  class MessageSlots {
    const slot: array<Slot>
    var i: nat
    /** What each handler entry so far wrote, if anything. */
    ghost var entries: seq<Option<Slot>>

    /** Every slot holds what was last written to it. */
    ghost predicate Filled()
      reads this, slot
    {
      && slot.Length == SLOTS
      && forall r :: 0 <= r < SLOTS && Writer(entries, r) >= 0 ==> slot[r] == entries[Writer(entries, r)].value
    }

    /** No entry of the handler is under way. */
    ghost predicate Valid()
      reads this, slot
    {
      Filled() && i == |entries| % SLOTS
    }

    /** The last of the entries is under way. */
    ghost predicate Open()
      reads this, slot
    {
      Filled() && entries != [] && i == (|entries| - 1) % SLOTS
    }

    constructor ()
      ensures Valid() && fresh(slot) && entries == []
    {
      slot := new Slot[SLOTS](_ => Slot(0, 0));
      i := 0;
      entries := [];
    }

    /** This entry of the handler writes a message. */
    method Write(m: Slot)
      requires Valid()
      modifies this`entries, slot
      ensures Open() && entries == old(entries) + [Some(m)]
    {
      slot[i] := m;
      assert (entries + [Some(m)])[..|entries|] == entries;
      entries := entries + [Some(m)];
    }

    /** This entry of the handler writes nothing. */
    ghost method Skip()
      requires Valid()
      modifies this`entries
      ensures Open() && entries == old(entries) + [None]
    {
      assert (entries + [None])[..|entries|] == entries;
      entries := entries + [None];
    }

    /** The last line before the handler calls the scheduler. */
    method Next()
      requires Open()
      modifies this`i
      ensures Valid()
    {
      i := (i + 1) % SLOTS;
    }

    /** The SSI follows the address in a message of entry n: it reads what the last writer of the slot wrote,
        which is entry n if at most 47 entries followed it, however many of them wrote nothing. */
    method Read(at: nat, ghost n: nat) returns (m: Slot)
      requires Valid() && n < |entries| && entries[n].Some? && at == n % SLOTS
      ensures Writer(entries, at) >= n && m == entries[Writer(entries, at)].value
      ensures |entries| <= n + SLOTS ==> m == entries[n].value
    {
      StillThere(entries, n);
      m := slot[at];
    }
  }

  lemma ContentsGrow(written: seq<Option<Letter>>, l: Option<Letter>)
    ensures Contents(written + [l]) ==
      Contents(written) + [if l.Some? && l.value.body.Irq? then Some(Slot(l.value.body.service, l.value.body.status)) else None]
  {}

  /** The last entry that wrote slot r; -1 if none has. */
  ghost function Writer(es: seq<Option<Slot>>, r: nat): (n: int)
    ensures -1 <= n < |es|
    ensures n >= 0 ==> es[n].Some? && n % SLOTS == r
    ensures forall m :: n < m < |es| && m % SLOTS == r ==> es[m].None?
  {
    if es == [] then -1
    else if es[|es| - 1].Some? && (|es| - 1) % SLOTS == r then |es| - 1
    else Writer(es[..|es| - 1], r)
  }

  /** A message stays in its slot exactly as long as no later entry writes the same slot, and the first
      that can is the 48th. */
  lemma StillThere(es: seq<Option<Slot>>, n: nat)
    requires n < |es| && es[n].Some?
    ensures Writer(es, n % SLOTS) >= n
    ensures Writer(es, n % SLOTS) == n <==> forall m :: n + SLOTS <= m < |es| && m % SLOTS == n % SLOTS ==> es[m].None?
    ensures |es| <= n + SLOTS ==> Writer(es, n % SLOTS) == n
  {
    var w := Writer(es, n % SLOTS);
    if n < w {
      Apart(n, w);
    }
  }

  /** Less than 48 entries apart, two entries have different slots. */
  lemma Apart(n: nat, m: nat)
    requires n < m && n % SLOTS == m % SLOTS
    ensures n + SLOTS <= m
  {}
}
