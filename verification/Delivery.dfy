/** What a crash loses: which delivered entries can still be acknowledged, and what runs lead to. */
module Delivery {
  import opened Wrappers
  import opened Wire
  import opened EventBus
  import opened BusInvariant

  /** Delivered, never acknowledged, and in no consumer's hands. */
  ghost predicate Orphaned(w: World, i: nat) {
    i in w.pending && forall c :: !Holds(Con(w, c), i)
  }

  lemma {:induction false} OrphanStep(w: World, s: Step, i: nat)
    requires Inv(w) && Orphaned(w, i)
    ensures Orphaned(Apply(w, s), i) && i < |w.stream| <= |Apply(w, s).stream| && Apply(w, s).stream[i] == w.stream[i]
  {
    var w' := Apply(w, s);
    if Enabled(w, s) && !IsPublishing(s) {
      ConsumerFrame(w, s);
      forall c
        ensures !Holds(Con(w', c), i)
      {
        if Holds(Con(w', c), i) {
          assert c == s.c by {
            assert !Holds(Con(w, c), i);
          }
          StepHolds(w, s, i);
        }
      }
    } else if Enabled(w, s) {
      forall c ensures Con(w', c) == Con(w, c) {}
    }
  }

  /** The orphaned request's notification keeps the status it has. */
  lemma OrphanStatus(w: World, s: Step, i: nat)
    requires Inv(w) && Orphaned(w, i) && i < |w.stream| && IsRequest(w.stream[i])
    ensures
      var nid, w' := w.stream[i].payload, Apply(w, s);
      nid in w.notifications && nid in w'.notifications && w'.notifications[nid] == w.notifications[nid]
  {
    var nid := w.stream[i].payload;
    assert Published(w, w.stream[i]);
    if Enabled(w, s) && (s.FailUnsent? || s.Finish?) {
      var e := Con(w, s.c).phase.entry;
      assert Holds(Con(w, s.c), e);
      if Current(w, s.c).payload == nid {
        OneEntryPerRequest(w, e, i);
      }
    }
  }

  /** No later run picks an orphaned entry up again: consumers only ever read entries past the cursor. */
  lemma {:induction false} OrphanedForever(w: World, ss: seq<Step>, i: nat)
    requires Inv(w) && Orphaned(w, i)
    ensures Orphaned(Run(w, ss), i) && i !in Run(w, ss).acked
    ensures
      var w' := Run(w, ss);
      i < |w.stream| && i < |w'.stream| && w'.stream[i] == w.stream[i] &&
      (IsRequest(w.stream[i]) ==>
        w.stream[i].payload in w.notifications && w.stream[i].payload in w'.notifications &&
        w'.notifications[w.stream[i].payload] == w.notifications[w.stream[i].payload])
  {
    RunKeepsInv(w, ss);
    if ss == [] {
      assert IsRequest(w.stream[i]) ==> Published(w, w.stream[i]);
    } else {
      var n := |ss| - 1;
      var v := Run(w, ss[..n]);
      OrphanedForever(w, ss[..n], i);
      RunKeepsInv(w, ss[..n]);
      OrphanStep(v, ss[n], i);
      if IsRequest(w.stream[i]) {
        OrphanStatus(v, ss[n], i);
      }
    }
  }

  lemma {:induction false} RunSnoc(w: World, ss: seq<Step>, s: Step)
    ensures Run(w, ss + [s]) == Apply(Run(w, ss), s)
  {
    assert (ss + [s])[..|ss|] == ss;
  }

  lemma {:induction false} RunAppend(w: World, a: seq<Step>, b: seq<Step>)
    ensures Run(w, a + b) == Run(Run(w, a), b)
  {
    if b == [] {
      assert a + b == a;
    } else {
      var front, last := b[..|b| - 1], b[|b| - 1];
      RunAppend(w, a, front);
      RunSnoc(w, a + front, last);
      RunSnoc(Run(w, a), front, last);
      AppendSnoc(a, front, last);
      Unsnoc(b);
    }
  }

  lemma RunOne(w: World, s: Step)
    ensures Run(w, [s]) == Apply(w, s)
  {
    RunSnoc(w, [], s);
    assert [] + [s] == [s];
  }

  /** Some run leads from one world to another. */
  ghost predicate Leads(w: World, w': World) {
    exists ss: seq<Step> :: Run(w, ss) == w'
  }

  lemma StepLeads(w: World, s: Step)
    ensures Leads(w, Apply(w, s))
  {
    RunOne(w, s);
  }

  lemma LeadsOn(w: World, u: World, v: World)
    requires Leads(w, u) && Leads(u, v)
    ensures Leads(w, v)
  {
    var a: seq<Step> :| Run(w, a) == u;
    var b: seq<Step> :| Run(u, b) == v;
    RunAppend(w, a, b);
  }

  lemma LeadsKeepsInv(w: World, w': World)
    requires Inv(w) && Leads(w, w')
    ensures Inv(w')
  {
    var ss: seq<Step> :| Run(w, ss) == w';
    RunKeepsInv(w, ss);
  }

  ghost predicate CanBeAcked(w: World, i: nat) {
    exists w' :: Leads(w, w') && i in w'.acked
  }

  lemma CanLater(w: World, s: Step, i: nat)
    requires CanBeAcked(Apply(w, s), i)
    ensures CanBeAcked(w, i)
  {
    var w' :| Leads(Apply(w, s), w') && i in w'.acked;
    StepLeads(w, s);
    LeadsOn(w, Apply(w, s), w');
  }

  /** How a consumer can bring its current entry to a resolved handler. */
  function Resolution(w: World, c: Id): Step
    requires At(w, c) && !Con(w, c).phase.Resolved?
  {
    if Con(w, c).phase.SendReturned? then Finish(c, true)
    else if Actionable(w, Current(w, c)) then FailUnsent(c)
    else PassOver(c)
  }

  lemma ResolvedCanAck(w: World, c: Id)
    requires Inv(w) && Con(w, c).phase.Resolved?
    ensures CanBeAcked(w, Con(w, c).phase.entry)
  {
    HeldInStream(w, c);
    StepLeads(w, Ack(c));
  }

  /** A consumer that has started on an entry can still see it through. */
  lemma HandlingCanAck(w: World, c: Id)
    requires Inv(w) && Con(w, c).phase != Idle
    ensures CanBeAcked(w, Con(w, c).phase.entry)
  {
    HeldInStream(w, c);
    if Con(w, c).phase.Resolved? {
      ResolvedCanAck(w, c);
    } else {
      if Con(w, c).phase.SendReturned? {
        EntryIsActionable(w, c);
      }
      var s := Resolution(w, c);
      StepKeepsInv(w, s);
      ResolutionResolves(w, c);
      ResolvedCanAck(Apply(w, s), c);
      CanLater(w, s, Con(w, c).phase.entry);
    }
  }

  lemma ResolutionResolves(w: World, c: Id)
    requires At(w, c) && !Con(w, c).phase.Resolved?
    requires Con(w, c).phase.SendReturned? ==> Actionable(w, Current(w, c))
    ensures Con(Apply(w, Resolution(w, c)), c).phase == Resolved(Con(w, c).phase.entry)
  {
  }

  /** A consumer can start on the head of its batch, and can drop what it has started. */
  lemma HeadStarts(w: World, c: Id)
    requires Con(w, c).phase == Idle && Con(w, c).todo != []
    ensures Con(Apply(w, Start(c)), c) == Consumer(Con(w, c).todo[1..], Started(Con(w, c).todo[0]))
    ensures Con(Apply(Apply(w, Start(c)), Throw(c)), c) == Consumer(Con(w, c).todo[1..], Idle)
  {
  }

  lemma HeadCanAck(w: World, c: Id)
    requires Inv(w) && Con(w, c).phase == Idle && Con(w, c).todo != []
    ensures CanBeAcked(w, Con(w, c).todo[0])
  {
    HeadStarts(w, c);
    StepKeepsInv(w, Start(c));
    HandlingCanAck(Apply(w, Start(c)), c);
    CanLater(w, Start(c), Con(w, c).todo[0]);
  }

  lemma {:induction false} QueuedCanAck(w: World, c: Id, k: nat)
    requires Inv(w) && Con(w, c).phase == Idle && k < |Con(w, c).todo|
    ensures CanBeAcked(w, Con(w, c).todo[k])
    decreases k
  {
    if k == 0 {
      HeadCanAck(w, c);
    } else {
      var dropped := Apply(Apply(w, Start(c)), Throw(c));
      HeadStarts(w, c);
      DropKeepsInv(w, c);
      QueuedCanAck(dropped, c, k - 1);
      CanAfterDrop(w, c, Con(w, c).todo[k]);
    }
  }

  lemma {:induction false} DropKeepsInv(w: World, c: Id)
    requires Inv(w)
    ensures Inv(Apply(Apply(w, Start(c)), Throw(c)))
  {
    StepKeepsInv(w, Start(c));
    StepKeepsInv(Apply(w, Start(c)), Throw(c));
  }

  lemma CanAfterDrop(w: World, c: Id, i: nat)
    requires CanBeAcked(Apply(Apply(w, Start(c)), Throw(c)), i)
    ensures CanBeAcked(w, i)
  {
    CanLater(Apply(w, Start(c)), Throw(c), i);
    CanLater(w, Start(c), i);
  }

  lemma HeldCanAck(w: World, c: Id, i: nat)
    requires Inv(w) && Holds(Con(w, c), i)
    ensures CanBeAcked(w, i)
  {
    var k := Con(w, c);
    if k.phase != Idle && k.phase.entry == i {
      HandlingCanAck(w, c);
    } else {
      var j :| 0 <= j < |k.todo| && k.todo[j] == i;
      if k.phase == Idle {
        QueuedCanAck(w, c, j);
      } else {
        StepKeepsInv(w, Throw(c));
        assert Con(Apply(w, Throw(c)), c) == Consumer(k.todo, Idle);
        QueuedCanAck(Apply(w, Throw(c)), c, j);
        CanLater(w, Throw(c), i);
      }
    }
  }

  /**
    A delivered entry can still be acknowledged exactly when some consumer
    holds it and has not let go. What a crashed consumer had read, and what a
    handler threw on, stays pending for good.
   */
  lemma PendingCanBeAckedIffHeld(w: World, i: nat)
    requires Inv(w) && i in w.pending
    ensures CanBeAcked(w, i) <==> exists c :: Holds(Con(w, c), i)
  {
    if c :| Holds(Con(w, c), i) {
      HeldCanAck(w, c, i);
    } else if CanBeAcked(w, i) {
      var w' :| Leads(w, w') && i in w'.acked;
      var ss: seq<Step> :| Run(w, ss) == w';
      OrphanedForever(w, ss, i);
    }
  }

  const LOST := Message("e", "t", REQUESTED, "n", "now")
  const LOST_ROW := Notification("t", "email", Queued)
  const REQUESTED_ONCE :=
    INIT.(notifications := map["n" := LOST_ROW], events := map["e" := RowOf(LOST)], stream := [LOST])

  lemma RequestExample() returns (ss: seq<Step>)
    ensures Run(INIT, ss) == REQUESTED_ONCE
  {
    var w1 := INIT.(notifications := map["n" := LOST_ROW], toPublish := {"n"});
    var w2 := REQUESTED_ONCE.(stream := [], toAppend := {LOST});
    ss := Goes([], INIT, InsertRow("n", "t", "email"), w1);
    ss := Goes(ss, w1, RecordRequest("n", "e", "now"), w2);
    ss := Goes(ss, w2, Append(LOST), REQUESTED_ONCE);
  }

  const READ_ONCE := REQUESTED_ONCE.(cursor := 1, pending := {0}, consumers := map["c" := Consumer([0], Idle)])
  const CRASHED := READ_ONCE.(consumers := map["c" := Consumer([], Idle)])

  lemma CrashOrphans()
    ensures Enabled(READ_ONCE, Crash("c")) && Effect(READ_ONCE, Crash("c")) == CRASHED && Orphaned(CRASHED, 0)
  {
  }

  /** It does happen: a consumer that crashes right after reading orphans its entry, whose notification stays queued. */
  lemma OrphanExample() returns (ss: seq<Step>)
    ensures Run(INIT, ss) == CRASHED && Orphaned(CRASHED, 0) && !CanBeAcked(CRASHED, 0)
    ensures CRASHED.notifications == map["n" := LOST_ROW]
  {
    ss := RequestExample();
    ReadsFirst(REQUESTED_ONCE);
    ss := Goes(ss, REQUESTED_ONCE, Read("c", 1), READ_ONCE);
    CrashOrphans();
    ss := Goes(ss, READ_ONCE, Crash("c"), CRASHED);
    InitInv();
    RunKeepsInv(INIT, ss);
    OrphanCannot(CRASHED, 0);
  }

  lemma OrphanCannot(w: World, i: nat)
    requires Inv(w) && Orphaned(w, i)
    ensures !CanBeAcked(w, i)
  {
    PendingCanBeAckedIffHeld(w, i);
  }

  lemma ReadsFirst(w: World)
    requires w.cursor == 0 && |w.stream| == 1 && w.consumers == map[] && w.pending == {}
    ensures
      Enabled(w, Read("c", 1)) &&
      Effect(w, Read("c", 1)) == w.(cursor := 1, pending := {0}, consumers := map["c" := Consumer([0], Idle)])
  {
    assert Range(0, 1) == [0];
  }

  lemma Goes(ss: seq<Step>, w: World, s: Step, w': World) returns (tt: seq<Step>)
    requires Run(INIT, ss) == w && Enabled(w, s) && Effect(w, s) == w'
    ensures Run(INIT, tt) == w'
  {
    RunSnoc(INIT, ss, s);
    tt := ss + [s];
  }
}
