/** Every step of the bus keeps its invariant, and what that means for every run. */
module BusInvariant {
  import opened Wrappers
  import opened Wire
  import opened EventBus

  /** The steps of enqueue and publish calls. */
  predicate IsPublishing(s: Step) {
    s.InsertRow? || s.RecordRequest? || s.RecordOther? || s.Append? || s.AbandonRow? || s.AbandonEvent?
  }

  lemma {:induction false} PublishingKeepsTables(w: World, s: Step)
    requires Inv(w) && IsPublishing(s) && Enabled(w, s)
    ensures Recorded(Effect(w, s)) && RequestsHaveRows(Effect(w, s))
  {
    var w' := Effect(w, s);
    match s
    case InsertRow(nid, tenant, channel) =>
      forall m ensures Published(w', m) <==> Published(w, m) {}
    case RecordRequest(nid, eid, at) =>
      var m0 := Message(eid, w.notifications[nid].tenant, REQUESTED, nid, at);
      forall m ensures Published(w', m) <==> Published(w, m) || m == m0 {}
      assert !Published(w, m0);
    case RecordOther(m0) =>
      forall m ensures Published(w', m) <==> Published(w, m) || m == m0 {}
      assert !Published(w, m0);
    case Append(m0) =>
      forall m ensures Published(w', m) <==> Published(w, m) {}
    case AbandonRow(_) =>
      forall m ensures Published(w', m) <==> Published(w, m) {}
    case AbandonEvent(_) =>
      forall m ensures Published(w', m) ==> Published(w, m) {}
  }

  lemma {:induction false} PublishingKeepsDelivery(w: World, s: Step)
    requires Inv(w) && IsPublishing(s) && Enabled(w, s)
    ensures GroupSplit(Effect(w, s)) && HeldOnce(Effect(w, s))
  {
    var w' := Effect(w, s);
    forall c ensures Con(w', c) == Con(w, c) {}
  }

  lemma PublishingKeepsSends(w: World, s: Step)
    requires Inv(w) && IsPublishing(s) && Enabled(w, s)
    ensures SendsOnce(Effect(w, s))
  {
    var w' := Effect(w, s);
    forall c ensures Con(w', c) == Con(w, c) {}
  }

  lemma {:induction false} PublishingKeepsStatuses(w: World, s: Step)
    requires Inv(w) && IsPublishing(s) && Enabled(w, s)
    ensures StatusesHonest(Effect(w, s))
  {
    var w' := Effect(w, s);
    forall c
      ensures Con(w', c) == Con(w, c) && (Con(w, c).phase != Idle ==> At(w, c) && Current(w', c) == Current(w, c))
    {
      HeldInStream(w, c);
    }
    forall i | i in w.acked
      ensures i < |w.stream| && w'.stream[i] == w.stream[i]
    {
    }
  }

  lemma HeldInStream(w: World, c: Id)
    requires Inv(w)
    ensures Con(w, c).phase != Idle ==> At(w, c)
  {
    if Con(w, c).phase != Idle {
      HeldIsPending(w, c, Con(w, c).phase.entry);
    }
  }

  lemma HeldIsPending(w: World, c: Id, i: nat)
    requires GroupSplit(w) && HeldOnce(w) && Holds(Con(w, c), i)
    ensures i in w.pending && i !in w.acked && i < w.cursor <= |w.stream|
  {
  }

  /** What a step of consumer `c` leaves alone. */
  lemma ConsumerFrame(w: World, s: Step)
    requires Enabled(w, s) && !IsPublishing(s)
    ensures
      var w' := Effect(w, s);
      w'.stream == w.stream && w'.toAppend == w.toAppend && w'.toPublish == w.toPublish && w'.events == w.events &&
      w'.notifications.Keys == w.notifications.Keys &&
      (forall nid :: nid in w.notifications ==>
         w'.notifications[nid].tenant == w.notifications[nid].tenant &&
         w'.notifications[nid].channel == w.notifications[nid].channel) &&
      forall d :: d != s.c ==> Con(w', d) == Con(w, d)
  {
  }

  lemma {:induction false} ConsumingKeepsTables(w: World, s: Step)
    requires Inv(w) && !IsPublishing(s) && Enabled(w, s)
    ensures Recorded(Effect(w, s)) && RequestsHaveRows(Effect(w, s))
  {
    var w' := Effect(w, s);
    ConsumerFrame(w, s);
    forall m ensures Published(w', m) <==> Published(w, m) {}
  }

  lemma ConsumingKeepsSplit(w: World, s: Step)
    requires Inv(w) && !IsPublishing(s) && Enabled(w, s)
    ensures GroupSplit(Effect(w, s))
  {
    ConsumerFrame(w, s);
    if s.Ack? {
      HeldIsPending(w, s.c, Con(w, s.c).phase.entry);
    }
    if s.Read? {
      var batch := Range(w.cursor, w.cursor + s.count);
      forall i | w.cursor <= i < w.cursor + s.count
        ensures i in batch
      {
        assert batch[i - w.cursor] == i;
      }
    }
  }

  /** After its step the consumer holds only what it held, or what it has just read. */
  lemma StepHolds(w: World, s: Step, i: nat)
    requires Inv(w) && !IsPublishing(s) && Enabled(w, s) && Holds(Con(Effect(w, s), s.c), i)
    ensures if s.Read? then w.cursor <= i < w.cursor + s.count else Holds(Con(w, s.c), i)
    ensures s.Ack? ==> i != Con(w, s.c).phase.entry
  {
  }

  lemma ConsumingKeepsPending(w: World, s: Step, c: Id, i: nat)
    requires Inv(w) && !IsPublishing(s) && Enabled(w, s) && Holds(Con(Effect(w, s), c), i)
    ensures i in Effect(w, s).pending
  {
    ConsumerFrame(w, s);
    if c == s.c {
      StepHolds(w, s, i);
    }
    if s.Ack? {
      assert Holds(Con(w, s.c), Con(w, s.c).phase.entry);
    }
  }

  lemma ConsumingKeepsOwner(w: World, s: Step, c: Id, d: Id, i: nat)
    requires Inv(w) && !IsPublishing(s) && Enabled(w, s)
    requires Holds(Con(Effect(w, s), c), i) && Holds(Con(Effect(w, s), d), i)
    ensures c == d
  {
    ConsumerFrame(w, s);
    if c != d {
      var other := if c == s.c then d else c;
      HeldIsPending(w, other, i);
      if c == s.c || d == s.c {
        StepHolds(w, s, i);
      }
    }
  }

  lemma ConsumingKeepsHolds(w: World, s: Step)
    requires Inv(w) && !IsPublishing(s) && Enabled(w, s)
    ensures HeldOnce(Effect(w, s))
  {
    var w' := Effect(w, s);
    ConsumerFrame(w, s);
    forall c, i: nat | Holds(Con(w', c), i)
      ensures i in w'.pending
    {
      ConsumingKeepsPending(w, s, c, i);
    }
    forall c, d, i: nat | Holds(Con(w', c), i) && Holds(Con(w', d), i)
      ensures c == d
    {
      ConsumingKeepsOwner(w, s, c, d, i);
    }
  }

  /** Two entries asking for the same notification are one entry. */
  lemma OneEntryPerRequest(w: World, i: nat, j: nat)
    requires Recorded(w) && RequestsHaveRows(w) && i < |w.stream| && j < |w.stream|
    requires IsRequest(w.stream[i]) && IsRequest(w.stream[j]) && w.stream[i].payload == w.stream[j].payload
    ensures i == j
  {
  }

  lemma {:induction false} InvokeKeepsSends(w: World, s: Step)
    requires Inv(w) && s.Invoke? && Enabled(w, s)
    ensures SendsOnce(Effect(w, s))
  {
    var w' := Effect(w, s);
    var e, nid := Con(w, s.c).phase.entry, Current(w, s.c).payload;
    ConsumerFrame(w, s);
    HeldIsPending(w, s.c, e);
    forall i | w.cursor <= i < |w.stream| && IsRequest(w.stream[i])
      ensures w.stream[i].payload != nid
    {
      if w.stream[i].payload == nid {
        OneEntryPerRequest(w, i, e);
      }
    }
    forall d, i: nat | Waits(Con(w', d), i) && i < |w.stream| && IsRequest(w.stream[i])
      ensures w.stream[i].payload !in w'.sends
    {
      assert Waits(Con(w, d), i);
      if w.stream[i].payload == nid {
        OneEntryPerRequest(w, i, e);
        assert Holds(Con(w, d), e) && Holds(Con(w, s.c), e);
      }
    }
  }

  lemma {:induction false} ConsumingKeepsSends(w: World, s: Step)
    requires Inv(w) && !IsPublishing(s) && Enabled(w, s)
    ensures SendsOnce(Effect(w, s))
  {
    if s.Invoke? {
      InvokeKeepsSends(w, s);
    } else {
      var w' := Effect(w, s);
      ConsumerFrame(w, s);
      forall d, i: nat | Waits(Con(w', d), i) && i < |w.stream| && IsRequest(w.stream[i])
        ensures w.stream[i].payload !in w.sends
      {
      }
    }
  }

  lemma EntryIsActionable(w: World, c: Id)
    requires Inv(w) && At(w, c) && IsRequest(Current(w, c))
    ensures Actionable(w, Current(w, c))
  {
  }

  lemma {:induction false} ConsumingKeepsSettled(w: World, s: Step)
    requires Inv(w) && !IsPublishing(s) && Enabled(w, s)
    ensures AckedSettled(Effect(w, s))
  {
    var w' := Effect(w, s);
    ConsumerFrame(w, s);
    forall m | Settled(w, m)
      ensures Settled(w', m)
    {
    }
  }

  lemma {:induction false} ConsumingKeepsHonest(w: World, s: Step)
    requires Inv(w) && !IsPublishing(s) && Enabled(w, s)
    ensures SentHonest(Effect(w, s))
  {
    var w' := Effect(w, s);
    ConsumerFrame(w, s);
    forall d | d != s.c && At(w, d)
      ensures At(w', d) && Current(w', d) == Current(w, d)
    {
    }
  }

  lemma {:induction false} StepKeepsInv(w: World, s: Step)
    requires Inv(w)
    ensures Inv(Apply(w, s))
  {
    if Enabled(w, s) {
      if IsPublishing(s) {
        PublishingKeepsTables(w, s);
        PublishingKeepsDelivery(w, s);
        PublishingKeepsSends(w, s);
        PublishingKeepsStatuses(w, s);
      } else {
        ConsumingKeepsTables(w, s);
        ConsumingKeepsSplit(w, s);
        ConsumingKeepsHolds(w, s);
        ConsumingKeepsSends(w, s);
        ConsumingKeepsSettled(w, s);
        ConsumingKeepsHonest(w, s);
      }
    }
  }

  lemma {:induction false} RunKeepsInv(w: World, ss: seq<Step>)
    requires Inv(w)
    ensures Inv(Run(w, ss))
  {
    if ss != [] {
      RunKeepsInv(w, ss[..|ss| - 1]);
      StepKeepsInv(Run(w, ss[..|ss| - 1]), ss[|ss| - 1]);
    }
  }

  lemma InitInv()
    ensures Inv(INIT)
  {
  }

  // ---------- What holds of every run ----------

  lemma {:induction false} DistinctCount(s: seq<Id>, x: Id)
    requires forall a, b :: 0 <= a < b < |s| ==> s[a] != s[b]
    ensures multiset(s)[x] <= 1
  {
    if s != [] {
      var n := |s| - 1;
      DistinctCount(s[..n], x);
      assert s == s[..n] + [s[n]];
      if s[n] == x {
        assert x !in s[..n];
      }
    }
  }

  /** Whatever fails and whoever crashes, `send` is called at most once for a notification. */
  lemma SentAtMostOnce(ss: seq<Step>, nid: Id)
    ensures multiset(Run(INIT, ss).sends)[nid] <= 1
  {
    InitInv();
    RunKeepsInv(INIT, ss);
    DistinctCount(Run(INIT, ss).sends, nid);
  }

  /** The stream never runs ahead of the tables. */
  lemma StreamIsRecorded(ss: seq<Step>, i: nat)
    requires i < |Run(INIT, ss).stream|
    ensures
      var w := Run(INIT, ss);
      var m := w.stream[i];
      m.id in w.events && w.events[m.id] == RowOf(m) &&
      (IsRequest(m) ==> m.payload in w.notifications && w.notifications[m.payload].tenant == m.tenantId)
  {
    InitInv();
    RunKeepsInv(INIT, ss);
    assert Published(Run(INIT, ss), Run(INIT, ss).stream[i]);
  }

  /** The group's entries split exactly into acknowledged, pending and not yet delivered. */
  lemma GroupPartition(ss: seq<Step>, i: nat)
    requires i < |Run(INIT, ss).stream|
    ensures
      var w := Run(INIT, ss);
      (i in w.acked || i in w.pending || i >= w.cursor) &&
      !(i in w.acked && i in w.pending) && (i >= w.cursor ==> i !in w.acked && i !in w.pending)
  {
    InitInv();
    RunKeepsInv(INIT, ss);
  }

  /**
    An acknowledged request has been sent or failed, so the event of a queued
    notification is never acknowledged; and `sent` is only ever written after
    `send` resolved, which a stub channel never does.
   */
  lemma {:induction false} StatusesTellTheTruth(ss: seq<Step>)
    ensures
      var w := Run(INIT, ss);
      (forall i :: i in w.acked ==> i < |w.stream|) &&
      (forall i :: i in w.acked && IsRequest(w.stream[i]) ==>
         w.stream[i].payload in w.notifications && w.notifications[w.stream[i].payload].status in {Sent, Failed}) &&
      (forall nid :: nid in w.notifications && w.notifications[nid].status == Sent ==>
         nid in w.delivered && nid in w.sends && w.notifications[nid].channel in CHANNELS - STUBS)
  {
    InitInv();
    RunKeepsInv(INIT, ss);
  }
}
