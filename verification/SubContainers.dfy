/** One container as the object the handlers update. */
module SubContainers {
  import opened Words
  import opened Windows
  import opened Containers

  class SubContainer {
    const id: ContainerId
    const fd: int
    const rtWindow: Window
    const thWindow: Window
    var quota: Word
    var quotaMismatchCounter: nat
    var seqNum: Word
    var nrThrottled: nat
    var lastSeen: int
    var memLimit: nat
    var inserted: bool

    /** The objects a container is made of; they never change. */
    ghost function Footprint(): set<object> {
      {this, rtWindow, rtWindow.winstat, thWindow, thWindow.winstat}
    }

    ghost predicate Valid()
      reads Footprint()
    {
      && rtWindow.Valid() && thWindow.Valid()
      && rtWindow != thWindow && rtWindow.winstat != thWindow.winstat
    }

    ghost function View(): Container
      requires Valid()
      reads Footprint()
    {
      Container(fd, quota, quotaMismatchCounter, seqNum, nrThrottled, lastSeen,
                rtWindow.View(), thWindow.View(), memLimit, inserted)
    }

    constructor (id: ContainerId, fd: int, quota: Word, nrThrottled: nat, now: int)
      ensures Valid() && fresh(Footprint()) && this.id == id
      ensures View() == NewContainer(fd, quota, nrThrottled, now, false)
    {
      var rt := new Window(WINDOW_SIZE);
      var th := new Window(WINDOW_SIZE);
      this.id, this.fd, rtWindow, thWindow := id, fd, rt, th;
      this.quota, quotaMismatchCounter, seqNum := quota, 0, 0;
      this.nrThrottled, lastSeen, memLimit, inserted := nrThrottled, now, 0, false;
    }

    method GetQuota() returns (q: Word)
      requires Valid()
      ensures q == View().quota
    {
      q := quota;
    }

    method SetQuotaTo(q: Word)
      requires Valid()
      modifies this`quota
      ensures Valid() && View() == old(View()).(quota := q)
    {
      quota := q;
    }

    method FlushWindows()
      requires Valid()
      modifies rtWindow, rtWindow.winstat, thWindow, thWindow.winstat
      ensures Valid() && View() == FlushStats(old(View()))
    {
      rtWindow.FlushAll();
      thWindow.FlushAll();
    }

    /** Both windows take the sample; the throttle window takes the counter's growth. */
    method InsertStats(rtRemaining: Word, throttled: nat) returns (rtMean: Word, thrMean: real)
      requires Valid()
      modifies Footprint()
      ensures Valid() && View() == Sample(old(View()), rtRemaining, throttled)
      ensures rtMean == Cast(View().rt.mean) && thrMean == View().th.mean
    {
      var m := rtWindow.InsertElement(rtRemaining as real);
      rtMean := Cast(m);
      var increase := (throttled - nrThrottled) % TWO32;
      thrMean := thWindow.InsertElement(increase as real);
      nrThrottled := throttled;
    }

    method SyncSeqNum(rx: Word)
      requires Valid()
      modifies this`seqNum
      ensures Valid() && View() == old(View()).(seqNum := rx)
    {
      seqNum := Wrap(seqNum + 1);
      if seqNum != rx {
        seqNum := rx;
      }
    }

    /** Returns the counter before the increment. */
    method IncrQuotaMismatchCounter() returns (before: nat)
      requires Valid()
      modifies this`quotaMismatchCounter
      ensures Valid() && before == old(quotaMismatchCounter)
      ensures View() == old(View()).(mismatches := before + 1)
    {
      before := quotaMismatchCounter;
      quotaMismatchCounter := quotaMismatchCounter + 1;
    }

    method ResetQuotaMismatchCounter()
      requires Valid()
      modifies this`quotaMismatchCounter
      ensures Valid() && View() == old(View()).(mismatches := 0)
    {
      quotaMismatchCounter := 0;
    }

    method CheckIfIdle(now: int) returns (idle: bool)
      requires Valid()
      ensures idle <==> IsIdle(View(), now)
    {
      var diff := now - lastSeen;
      idle := diff > 2_000_000;
    }

    method UpdateLastSeen(now: int)
      requires Valid()
      modifies this`lastSeen
      ensures Valid() && View() == old(View()).(lastSeen := now)
    {
      lastSeen := now;
    }

    method SetInserted()
      requires Valid()
      modifies this`inserted
      ensures Valid() && View() == old(View()).(inserted := true)
    {
      inserted := true;
    }

    method SetMemLimit(pages: nat)
      requires Valid()
      modifies this`memLimit
      ensures Valid() && View() == old(View()).(memLimit := pages)
    {
      memLimit := pages;
    }
  }
}
