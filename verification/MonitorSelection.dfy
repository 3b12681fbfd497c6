/** Which messages of a batch a poll of the topic monitor handles. */
module MonitorSelection {
  import opened Common
  import opened Monitor

  predicate Ascending(s: seq<HcsMessage>) {
    forall i, j :: 0 <= i < j < |s| ==> s[i].sequenceNumber < s[j].sequenceNumber
  }

  predicate Numbered(batch: seq<HcsMessage>) {
    forall i, j :: 0 <= i < j < |batch| ==> batch[i].sequenceNumber != batch[j].sequenceNumber
  }

  lemma {:induction false} InsertAscends(sorted: seq<HcsMessage>, m: HcsMessage)
    requires Ascending(sorted) && forall x <- sorted :: x.sequenceNumber != m.sequenceNumber
    ensures Ascending(Insert(sorted, m))
  {
    if sorted != [] && sorted[|sorted| - 1].sequenceNumber > m.sequenceNumber {
      var init := sorted[..|sorted| - 1];
      InsertAscends(init, m);
      var r := Insert(init, m);
      forall i | 0 <= i < |r| ensures r[i].sequenceNumber < sorted[|sorted| - 1].sequenceNumber {
        assert r[i] in r;
      }
    }
  }

  lemma {:induction false} SortedAscends(batch: seq<HcsMessage>)
    requires Numbered(batch)
    ensures Ascending(Sorted(batch))
  {
    if batch != [] {
      var init, m := batch[..|batch| - 1], batch[|batch| - 1];
      SortedAscends(init);
      forall x | x in Sorted(init) ensures x.sequenceNumber != m.sequenceNumber {
        var i :| 0 <= i < |init| && init[i] == x;
        assert batch[i].sequenceNumber != batch[|batch| - 1].sequenceNumber;
      }
      InsertAscends(Sorted(init), m);
    }
  }

  lemma {:induction false} AboveNumbered(batch: seq<HcsMessage>, mark: nat)
    requires Numbered(batch)
    ensures Numbered(Above(batch, mark))
  {
    if batch != [] {
      var init, m := batch[..|batch| - 1], batch[|batch| - 1];
      AboveNumbered(init, mark);
      var r := Above(init, mark);
      forall i | 0 <= i < |r| ensures r[i].sequenceNumber != m.sequenceNumber {
        assert r[i] in r;
        var k :| 0 <= k < |init| && init[k] == r[i];
        assert batch[k].sequenceNumber != batch[|batch| - 1].sequenceNumber;
      }
    }
  }

  lemma {:induction false} OnlyNewestAscends(batch: seq<HcsMessage>, newest: nat)
    requires Ascending(batch)
    ensures Ascending(OnlyNewest(batch, newest))
  {
    if batch != [] {
      var init, m := batch[..|batch| - 1], batch[|batch| - 1];
      OnlyNewestAscends(init, newest);
      var r := OnlyNewest(init, newest);
      forall i | 0 <= i < |r| ensures r[i].sequenceNumber < m.sequenceNumber {
        assert r[i] in r;
        var k :| 0 <= k < |init| && init[k] == r[i];
        assert batch[k].sequenceNumber < batch[|batch| - 1].sequenceNumber;
      }
    }
  }

  /** A newer connection request above the mark is in the batch. */
  predicate Superseded(mark: nat, inbound: bool, batch: seq<HcsMessage>, m: HcsMessage) {
    inbound && m.op.ConnectionRequest? &&
    exists x :: x in batch && x.op.ConnectionRequest? && x.sequenceNumber > mark && x.sequenceNumber > m.sequenceNumber
  }

  /** Keeping only the newest of several requests drops exactly the superseded ones. */
  lemma NewestSupersedes(mark: nat, batch: seq<HcsMessage>, requests: seq<HcsMessage>, m: HcsMessage)
    requires Numbered(batch) && requests != [] && m in batch && m.sequenceNumber > mark
    requires forall x :: x in requests <==> x in batch && x.sequenceNumber > mark && x.op.ConnectionRequest?
    ensures !m.op.ConnectionRequest? || m.sequenceNumber == Newest(requests).sequenceNumber <==> !Superseded(mark, true, batch, m)
  {
  }

  lemma SingleNotSuperseded(mark: nat, batch: seq<HcsMessage>, requests: seq<HcsMessage>, m: HcsMessage)
    requires |requests| <= 1 && m in batch && m.sequenceNumber > mark
    requires forall x :: x in requests <==> x in batch && x.sequenceNumber > mark && x.op.ConnectionRequest?
    ensures !Superseded(mark, true, batch, m)
  {
  }

  /** A poll delivers, in ascending order, exactly the messages above the mark that no newer request supersedes. */
  lemma PlanSelects(mark: nat, inbound: bool, batch: seq<HcsMessage>)
    requires Numbered(batch)
    ensures Ascending(Plan(mark, inbound, batch))
    ensures forall m :: m in Plan(mark, inbound, batch) <==>
                          m in batch && m.sequenceNumber > mark && !Superseded(mark, inbound, batch, m)
  {
    AboveNumbered(batch, mark);
    SortedAscends(Above(batch, mark));
    var news := Sorted(Above(batch, mark));
    var requests := Requests(news);
    if inbound {
      if |requests| > 1 { OnlyNewestAscends(news, Newest(requests).sequenceNumber); }
      forall m | m in batch && m.sequenceNumber > mark
        ensures m in Plan(mark, inbound, batch) <==> !Superseded(mark, inbound, batch, m)
      {
        if |requests| > 1 { NewestSupersedes(mark, batch, requests, m); } else { SingleNotSuperseded(mark, batch, requests, m); }
      }
    }
  }

  lemma LastIsLargest(s: seq<HcsMessage>, top: HcsMessage)
    requires Ascending(s) && top in s && forall m <- s :: m.sequenceNumber <= top.sequenceNumber
    ensures s[|s| - 1].sequenceNumber == top.sequenceNumber
  {
  }

  /** What a poll that read a mark should handle of a batch. */
  ghost predicate IsPlan(mark: nat, inbound: bool, batch: seq<HcsMessage>, plan: seq<HcsMessage>) {
    && Ascending(plan)
    && forall m :: m in plan <==> m in batch && m.sequenceNumber > mark && !Superseded(mark, inbound, batch, m)
  }

  lemma PlanIsPlan(mark: nat, inbound: bool, batch: seq<HcsMessage>)
    requires Numbered(batch)
    ensures IsPlan(mark, inbound, batch, Plan(mark, inbound, batch))
  {
    PlanSelects(mark, inbound, batch);
  }

  /** The newest message of a batch is never superseded, so a poll ends with it. */
  lemma EndsAtHighest(mark: nat, inbound: bool, batch: seq<HcsMessage>, plan: seq<HcsMessage>)
    requires IsPlan(mark, inbound, batch, plan)
    ensures if Highest(batch) > mark then plan != [] && plan[|plan| - 1].sequenceNumber == Highest(batch) else plan == []
  {
    assert plan != [] ==> plan[0] in plan;
    if Highest(batch) > mark {
      var m :| m in batch && m.sequenceNumber == Highest(batch);
      assert !Superseded(mark, inbound, batch, m);
      LastIsLargest(plan, m);
    }
  }

  lemma PlanEndsAtHighest(mark: nat, inbound: bool, batch: seq<HcsMessage>)
    requires Numbered(batch)
    ensures var plan := Plan(mark, inbound, batch);
            if Highest(batch) > mark then plan != [] && plan[|plan| - 1].sequenceNumber == Highest(batch) else plan == []
  {
    PlanIsPlan(mark, inbound, batch);
    EndsAtHighest(mark, inbound, batch, Plan(mark, inbound, batch));
  }
}
