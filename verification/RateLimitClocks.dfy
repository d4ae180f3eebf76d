/** Exactly which clocks keep the rate limiter's two caps, whoever calls and whatever the
    caps are. */
module RateLimitClocks {
  import opened Catalogue
  import opened RateLimit

  /** Calls made at the same instants, by whomever. */
  ghost predicate SameClock(a: seq<Call>, b: seq<Call>) {
    |a| == |b| && forall i :: 0 <= i < |a| ==> a[i].at == b[i].at
  }

  // ---- The daily cap ---------------------------------------------------------------------------

  predicate DayAt(calls: seq<Call>, i: nat, day: int)
    requires i < |calls|
  {
    DayOf(calls[i].at) == day
  }

  ghost predicate Reached(calls: seq<Call>, day: int) {
    exists i :: 0 <= i < |calls| && DayAt(calls, i, day)
  }

  /** The clock leaves the day and comes back to it. */
  ghost predicate Returns(calls: seq<Call>, day: int) {
    exists i, j, k :: 0 <= i < j < k < |calls| && DayAt(calls, i, day) && !DayAt(calls, j, day) && DayAt(calls, k, day)
  }

  lemma DayKeyIsLast(o: Options, calls: seq<Call>)
    ensures After(o, calls).dayKey == if calls == [] then None else Some(DayOf(calls[|calls| - 1].at))
  {
  }

  lemma EarlierReturns(calls: seq<Call>, day: int)
    requires calls != [] && Returns(calls[..|calls| - 1], day)
    ensures Returns(calls, day)
  {
    var earlier := calls[..|calls| - 1];
    var i, j, k :| 0 <= i < j < k < |earlier| && DayAt(earlier, i, day) && !DayAt(earlier, j, day) && DayAt(earlier, k, day);
    assert DayAt(calls, i, day) && !DayAt(calls, j, day) && DayAt(calls, k, day);
  }

  /** A day that is entered anew by the last call, though it was reached before, returns. */
  lemma EnteredAgain(calls: seq<Call>, day: int)
    requires |calls| >= 2 && DayAt(calls, |calls| - 1, day) && !DayAt(calls, |calls| - 2, day)
    requires Reached(calls[..|calls| - 1], day)
    ensures Returns(calls, day)
  {
    var earlier := calls[..|calls| - 1];
    var i :| 0 <= i < |earlier| && DayAt(earlier, i, day);
    assert DayAt(calls, i, day) && i < |calls| - 2;
  }

  /** The counter holds the day's admissions while the day is current, and the cap is kept. */
  ghost predicate Counted(o: Options, s: State, log: seq<Call>, day: int) {
    && (s.dayKey == Some(day) ==> s.dayCount == OnDay(log, day))
    && OnDay(log, day) <= AtLeastZero(o.globalPerDay)
  }

  lemma CountedStep(o: Options, s: State, log: seq<Call>, call: Call, day: int)
    requires Counted(o, s, log, day)
    requires DayOf(call.at) == day && s.dayKey != Some(day) ==> OnDay(log, day) == 0
    ensures Counted(o, Checked(o, s, call), Logged(log, call, Decide(o, s, call)), day)
    ensures DayOf(call.at) != day ==> OnDay(Logged(log, call, Decide(o, s, call)), day) == OnDay(log, day)
  {
    assert (log + [call])[..|log|] == log;
  }

  /** A day that does not return is counted in full while it is the current one. */
  lemma {:induction false} CountedInFull(o: Options, calls: seq<Call>, day: int)
    requires !Returns(calls, day)
    ensures !Reached(calls, day) ==> OnDay(Admissions(o, calls), day) == 0
    ensures Counted(o, After(o, calls), Admissions(o, calls), day)
  {
    if calls == [] {
    } else {
      var n := |calls| - 1;
      var earlier := calls[..n];
      if Returns(earlier, day) {
        EarlierReturns(calls, day);
      }
      CountedInFull(o, earlier, day);
      DayKeyIsLast(o, earlier);
      if DayAt(calls, n, day) && n > 0 && !DayAt(calls, n - 1, day) && Reached(earlier, day) {
        EnteredAgain(calls, day);
      }
      CountedStep(o, After(o, earlier), Admissions(o, earlier), calls[n], day);
      StillUnreached(calls, day);
    }
  }

  lemma StillUnreached(calls: seq<Call>, day: int)
    requires calls != []
    ensures !Reached(calls, day) ==> !Reached(calls[..|calls| - 1], day) && !DayAt(calls, |calls| - 1, day)
  {
    var earlier := calls[..|calls| - 1];
    if Reached(earlier, day) {
      var i :| 0 <= i < |earlier| && DayAt(earlier, i, day);
      assert DayAt(calls, i, day);
    }
  }

  lemma {:induction false} StoredAtMost(o: Options, calls: seq<Call>, p: Phone)
    ensures |Stored(After(o, calls), p)| <= |calls|
  {
    if calls == [] {
    } else {
      var earlier, last := calls[..|calls| - 1], calls[|calls| - 1];
      StoredAtMost(o, earlier, p);
      RecentAtMost(Stored(After(o, earlier), last.phone), last.at - HOUR);
    }
  }

  /** With an hourly cap out of reach and a daily cap of one, every entry into a day admits. */
  lemma EntryAdmits(o: Options, calls: seq<Call>, last: Call)
    requires o.globalPerDay == 1 && o.perPhonePerHour > |calls|
    requires After(o, calls).dayKey != Some(DayOf(last.at))
    ensures Decide(o, After(o, calls), last) == Admitted
  {
    StoredAtMost(o, calls, last.phone);
    RecentAtMost(Stored(After(o, calls), last.phone), last.at - HOUR);
  }

  /** The days entered, at least as often as they are entered. */
  lemma {:induction false} EntriesCount(o: Options, calls: seq<Call>, day: int)
    requires o.globalPerDay == 1 && o.perPhonePerHour > |calls|
    ensures Reached(calls, day) ==> OnDay(Admissions(o, calls), day) >= 1
    ensures Returns(calls, day) ==> OnDay(Admissions(o, calls), day) >= 2
  {
    if calls == [] {
    } else {
      var n := |calls| - 1;
      var earlier, last := calls[..n], calls[n];
      EntriesCount(o, earlier, day);
      DayKeyIsLast(o, earlier);
      var log := Admissions(o, earlier);
      assert (log + [last])[..|log|] == log;
      if DayAt(calls, n, day) && (n == 0 || !DayAt(calls, n - 1, day)) {
        EntryAdmits(o, earlier, last);
        ReachedEarlier(calls, day);
      } else {
        NotEntered(calls, day);
      }
    }
  }

  lemma ReachedEarlier(calls: seq<Call>, day: int)
    requires calls != []
    ensures Returns(calls, day) ==> Reached(calls[..|calls| - 1], day)
  {
    if Returns(calls, day) {
      var i, j, k :| 0 <= i < j < k < |calls| && DayAt(calls, i, day) && !DayAt(calls, j, day) && DayAt(calls, k, day);
      assert DayAt(calls[..|calls| - 1], i, day);
    }
  }

  /** A last call that does not enter the day changes nothing about it. */
  lemma NotEntered(calls: seq<Call>, day: int)
    requires calls != [] && (DayAt(calls, |calls| - 1, day) ==> |calls| >= 2 && DayAt(calls, |calls| - 2, day))
    ensures Reached(calls, day) ==> Reached(calls[..|calls| - 1], day)
    ensures Returns(calls, day) ==> Returns(calls[..|calls| - 1], day)
  {
    var n := |calls| - 1;
    var earlier := calls[..n];
    if Reached(calls, day) {
      var i :| 0 <= i < |calls| && DayAt(calls, i, day);
      assert DayAt(earlier, if i < n then i else n - 1, day);
    }
    if Returns(calls, day) {
      var i, j, k :| 0 <= i < j < k < |calls| && DayAt(calls, i, day) && !DayAt(calls, j, day) && DayAt(calls, k, day);
      assert DayAt(earlier, i, day) && !DayAt(earlier, j, day) && DayAt(earlier, if k < n then k else n - 1, day);
    }
  }

  /** Whoever calls and whatever the caps, the day holds at most the daily cap. */
  ghost predicate CapHolds(clock: seq<Call>, day: int) {
    forall o, calls :: SameClock(clock, calls) ==> OnDay(Admissions(o, calls), day) <= AtLeastZero(o.globalPerDay)
  }

  lemma SameReturns(a: seq<Call>, b: seq<Call>, day: int)
    requires SameClock(a, b) && Returns(b, day)
    ensures Returns(a, day)
  {
    var i, j, k :| 0 <= i < j < k < |b| && DayAt(b, i, day) && !DayAt(b, j, day) && DayAt(b, k, day);
    assert DayAt(a, i, day) && !DayAt(a, j, day) && DayAt(a, k, day);
  }

  /** Exactly which clocks keep the daily cap: for the instants of a run, a day's admissions
      stay within the cap, whatever it is and whoever calls, if and only if the clock
      does not come back to that day after leaving it. */
  lemma DailyCapExactly(clock: seq<Call>, day: int)
    ensures CapHolds(clock, day) <==> !Returns(clock, day)
  {
    if Returns(clock, day) {
      var o := Options(|clock| + 1, 1);
      EntriesCount(o, clock, day);
      assert SameClock(clock, clock);
    } else {
      forall o, calls | SameClock(clock, calls) ensures OnDay(Admissions(o, calls), day) <= AtLeastZero(o.globalPerDay) {
        if Returns(calls, day) {
          SameReturns(clock, calls, day);
        }
        CountedInFull(o, calls, day);
      }
    }
  }

  /** A clock that steps back over midnight and returns admits more than the daily cap. */
  lemma ClockMatters(p: Phone)
    ensures OnDay(Admissions(Options(4, 1), [Call(p, DAY), Call(p, 0), Call(p, DAY)]), 1) > 1
  {
    var calls := [Call(p, DAY), Call(p, 0), Call(p, DAY)];
    assert DayAt(calls, 0, 1) && !DayAt(calls, 1, 1) && DayAt(calls, 2, 1);
    EntriesCount(Options(4, 1), calls, 1);
  }

  // ---- The hourly cap ------------------------------------------------------------------------------

  predicate InWindow(calls: seq<Call>, i: nat, end: int)
    requires i < |calls|
  {
    end - HOUR < calls[i].at <= end
  }

  /** Call `j` forgets what was recorded at call `i`. */
  predicate Forgets(calls: seq<Call>, j: nat, i: nat)
    requires i < j < |calls|
  {
    calls[i].at <= calls[j].at - HOUR
  }

  /** The clock passed two instants of the window, then stood an hour past both of them. */
  ghost predicate Jumped(calls: seq<Call>, end: int) {
    exists a, b, j :: 0 <= a < b < j < |calls| && InWindow(calls, a, end) && InWindow(calls, b, end)
      && Forgets(calls, j, a) && Forgets(calls, j, b)
  }

  /** And then it came back into the window. */
  ghost predicate JumpsBack(calls: seq<Call>, end: int) {
    exists k :: 0 <= k < |calls| && InWindow(calls, k, end) && Jumped(calls[..k], end)
  }

  lemma JumpedGrows(calls: seq<Call>, n: nat, end: int)
    requires n <= |calls| && Jumped(calls[..n], end)
    ensures Jumped(calls, end)
  {
    var c := calls[..n];
    var a, b, j :| 0 <= a < b < j < |c| && InWindow(c, a, end) && InWindow(c, b, end) && Forgets(c, j, a) && Forgets(c, j, b);
    assert InWindow(calls, a, end) && InWindow(calls, b, end) && Forgets(calls, j, a) && Forgets(calls, j, b);
  }

  /** How many calls, by anyone, after `lo` and no later than `hi`. */
  function Between(calls: seq<Call>, lo: int, hi: int): nat {
    if calls == [] then 0
    else Between(calls[..|calls| - 1], lo, hi) + if lo < calls[|calls| - 1].at <= hi then 1 else 0
  }

  lemma {:induction false} AdmittedAreCalls(o: Options, calls: seq<Call>, p: Phone, lo: int, hi: int)
    ensures Within(Admissions(o, calls), p, lo, hi) <= Between(calls, lo, hi)
  {
    if calls == [] {
    } else {
      var earlier, last := calls[..|calls| - 1], calls[|calls| - 1];
      AdmittedAreCalls(o, earlier, p, lo, hi);
      var log := Admissions(o, earlier);
      assert (log + [last])[..|log|] == log;
    }
  }

  lemma {:induction false} OneBetween(calls: seq<Call>, lo: int, hi: int) returns (i: nat)
    requires Between(calls, lo, hi) >= 1
    ensures i < |calls| && lo < calls[i].at <= hi
  {
    i := |calls| - 1;
    if !(lo < calls[i].at <= hi) {
      i := OneBetween(calls[..|calls| - 1], lo, hi);
    }
  }

  lemma {:induction false} TwoBetween(calls: seq<Call>, lo: int, hi: int) returns (i: nat, j: nat)
    requires Between(calls, lo, hi) >= 2
    ensures i < j < |calls| && lo < calls[i].at <= hi && lo < calls[j].at <= hi
  {
    j := |calls| - 1;
    if lo < calls[j].at <= hi {
      i := OneBetween(calls[..j], lo, hi);
    } else {
      i, j := TwoBetween(calls[..j], lo, hi);
    }
  }

  /** Unless the clock jumped, a call past the window forgets at most one of it. */
  lemma ForgetsOne(o: Options, calls: seq<Call>, p: Phone, end: int)
    requires calls != [] && !Jumped(calls, end) && calls[|calls| - 1].at > end
    ensures Within(Admissions(o, calls[..|calls| - 1]), p, end - HOUR, Earlier(calls[|calls| - 1].at - HOUR, end)) <= 1
  {
    var n := |calls| - 1;
    var earlier, hi := calls[..n], Earlier(calls[n].at - HOUR, end);
    AdmittedAreCalls(o, earlier, p, end - HOUR, hi);
    if Between(earlier, end - HOUR, hi) >= 2 {
      var i, j := TwoBetween(earlier, end - HOUR, hi);
      assert InWindow(calls, i, end) && InWindow(calls, j, end) && Forgets(calls, n, i) && Forgets(calls, n, j);
    }
  }

  function Earlier(a: int, b: int): int {
    if a < b then a else b
  }

  lemma {:induction false} WithinSplits(log: seq<Call>, p: Phone, lo: int, mid: int, hi: int)
    requires lo <= mid <= hi
    ensures Within(log, p, lo, hi) == Within(log, p, lo, mid) + Within(log, p, mid, hi)
  {
    if log != [] {
      WithinSplits(log[..|log| - 1], p, lo, mid, hi);
    }
  }

  lemma {:induction false} RecentShrinks(ts: seq<int>, c: int, d: int)
    requires c <= d
    ensures |Recent(ts, d)| <= |Recent(ts, c)|
  {
    if ts != [] {
      RecentShrinks(ts[..|ts| - 1], c, d);
    }
  }

  /** The list holds as many instants after `x` as the window's end has admissions. */
  ghost predicate HoldsAt(s: State, log: seq<Call>, p: Phone, x: int, end: int) {
    Within(log, p, x, end) <= |Recent(Stored(s, p), x)|
  }

  ghost predicate HoldsEnough(s: State, log: seq<Call>, p: Phone, end: int) {
    forall x :: end - HOUR <= x <= end ==> HoldsAt(s, log, p, x, end)
  }

  lemma {:induction false} EmptyWindow(log: seq<Call>, p: Phone, lo: int)
    ensures Within(log, p, lo, lo) == 0
  {
    if log != [] {
      EmptyWindow(log[..|log| - 1], p, lo);
    }
  }

  /** A call of the phone in the window or before it: nothing of the window is forgotten. */
  lemma CallInTime(o: Options, s: State, log: seq<Call>, call: Call, end: int, x: int)
    requires HoldsAt(s, log, call.phone, x, end) && end - HOUR <= x <= end && call.at <= end
    ensures HoldsAt(Checked(o, s, call), Logged(log, call, Decide(o, s, call)), call.phone, x, end)
  {
    var ts := Stored(s, call.phone);
    assert (log + [call])[..|log|] == log;
    RecentTwice(ts, call.at - HOUR, x);
    RecentAppend(Recent(ts, call.at - HOUR), call.at, x);
  }

  /** What lies after a later cutoff lies after an earlier one. */
  lemma {:induction false} RecentEarlier(ts: seq<int>, c: int, d: int)
    requires d <= c
    ensures Recent(Recent(ts, c), d) == Recent(ts, c)
  {
    if ts != [] {
      var rest, t := ts[..|ts| - 1], ts[|ts| - 1];
      RecentEarlier(rest, c, d);
      if t > c {
        RecentAppend(Recent(rest, c), t, d);
      } else {
        assert Recent(ts, c) == Recent(rest, c);
      }
    }
  }

  /** What a call past the window forgets of it is at most one admission. */
  lemma ForgottenCount(ts: seq<int>, log: seq<Call>, p: Phone, end: int, x: int, cut: int)
    requires end - HOUR <= x <= end && x < cut
    requires Within(log, p, end - HOUR, Earlier(cut, end)) <= 1
    requires cut < end ==> Within(log, p, cut, end) <= |Recent(ts, cut)|
    ensures Within(log, p, x, end) <= |Recent(ts, cut)| + 1
  {
    var mid := Earlier(cut, end);
    WithinSplits(log, p, x, mid, end);
    WithinShrinks(log, p, x, mid, end - HOUR, mid);
    EmptyWindow(log, p, end);
  }

  /** A call of the phone past the window forgets no more than it records. */
  lemma CallPast(o: Options, s: State, log: seq<Call>, call: Call, end: int, x: int)
    requires HoldsEnough(s, log, call.phone, end) && end - HOUR <= x <= end && call.at > end
    requires Within(log, call.phone, end - HOUR, end) <= AtLeastZero(o.perPhonePerHour)
    requires Within(log, call.phone, end - HOUR, Earlier(call.at - HOUR, end)) <= 1
    ensures HoldsAt(Checked(o, s, call), Logged(log, call, Decide(o, s, call)), call.phone, x, end)
  {
    var ts, cut := Stored(s, call.phone), call.at - HOUR;
    PastLog(o, s, log, call, end, x);
    assert HoldsAt(s, log, call.phone, x, end);
    WithinShrinks(log, call.phone, x, end, end - HOUR, end);
    RecentAppend(Recent(ts, cut), call.at, x);
    if x >= cut {
      RecentTwice(ts, cut, x);
    } else {
      RecentEarlier(ts, cut, x);
      assert cut < end ==> HoldsAt(s, log, call.phone, cut, end);
      ForgottenCount(ts, log, call.phone, end, x, cut);
    }
  }

  lemma PastLog(o: Options, s: State, log: seq<Call>, call: Call, end: int, x: int)
    requires call.at > end
    ensures Within(Logged(log, call, Decide(o, s, call)), call.phone, x, end) == Within(log, call.phone, x, end)
  {
    assert (log + [call])[..|log|] == log;
  }

  /** The cap, decided on a list that holds enough. */
  lemma CapStep(o: Options, s: State, log: seq<Call>, call: Call, p: Phone, end: int)
    requires HoldsEnough(s, log, p, end)
    requires Within(log, p, end - HOUR, end) <= AtLeastZero(o.perPhonePerHour)
    ensures Within(Logged(log, call, Decide(o, s, call)), p, end - HOUR, end) <= AtLeastZero(o.perPhonePerHour)
  {
    assert (log + [call])[..|log|] == log;
    if call.phone == p && call.at <= end {
      assert HoldsAt(s, log, p, end - HOUR, end);
      RecentShrinks(Stored(s, p), call.at - HOUR, end - HOUR);
    }
  }

  lemma OthersCall(o: Options, s: State, log: seq<Call>, call: Call, p: Phone, end: int)
    requires HoldsEnough(s, log, p, end) && call.phone != p
    ensures HoldsEnough(Checked(o, s, call), Logged(log, call, Decide(o, s, call)), p, end)
  {
    assert (log + [call])[..|log|] == log;
    forall x | end - HOUR <= x <= end
      ensures HoldsAt(Checked(o, s, call), Logged(log, call, Decide(o, s, call)), p, x, end)
    {
      assert HoldsAt(s, log, p, x, end);
    }
  }

  /** While the clock has not jumped, the list holds enough and the cap is kept. */
  lemma {:induction false} NothingMissing(o: Options, calls: seq<Call>, p: Phone, end: int)
    requires !Jumped(calls, end)
    ensures HoldsEnough(After(o, calls), Admissions(o, calls), p, end)
    ensures Within(Admissions(o, calls), p, end - HOUR, end) <= AtLeastZero(o.perPhonePerHour)
  {
    if calls == [] {
    } else {
      var n := |calls| - 1;
      var earlier, last := calls[..n], calls[n];
      if Jumped(earlier, end) {
        JumpedGrows(calls, n, end);
      }
      NothingMissing(o, earlier, p, end);
      var s, log := After(o, earlier), Admissions(o, earlier);
      CapStep(o, s, log, last, p, end);
      if last.phone != p {
        OthersCall(o, s, log, last, p, end);
      } else {
        if last.at > end {
          ForgetsOne(o, calls, p, end);
        }
        forall x | end - HOUR <= x <= end
          ensures HoldsAt(Checked(o, s, last), Logged(log, last, Decide(o, s, last)), p, x, end)
        {
          assert HoldsAt(s, log, p, x, end);
          if last.at <= end { CallInTime(o, s, log, last, end, x); } else { CallPast(o, s, log, last, end, x); }
        }
      }
    }
  }

  lemma {:induction false} WindowKept(o: Options, calls: seq<Call>, p: Phone, end: int)
    requires !JumpsBack(calls, end)
    ensures Within(Admissions(o, calls), p, end - HOUR, end) <= AtLeastZero(o.perPhonePerHour)
  {
    if calls == [] {
    } else {
      var n := |calls| - 1;
      var earlier, last := calls[..n], calls[n];
      var log := Admissions(o, earlier);
      assert (log + [last])[..|log|] == log;
      if InWindow(calls, n, end) {
        NothingMissing(o, earlier, p, end);
        CapStep(o, After(o, earlier), log, last, p, end);
      } else {
        if JumpsBack(earlier, end) {
          var k :| 0 <= k < |earlier| && InWindow(earlier, k, end) && Jumped(earlier[..k], end);
          assert earlier[..k] == calls[..k] && InWindow(calls, k, end);
        }
        WindowKept(o, earlier, p, end);
      }
    }
  }
  // ---- A clock that jumps back breaks the hourly cap -----------------------------------------------

  /** `p` makes none of the calls from `m` up to `n`. */
  ghost predicate Silent(calls: seq<Call>, p: Phone, m: int, n: int)
    requires 0 <= m <= n <= |calls|
  {
    forall i :: m <= i < n ==> calls[i].phone != p
  }

  /** `p` makes exactly the calls `a`, `b`, `j` and `k`. */
  ghost predicate FourOf(calls: seq<Call>, p: Phone, a: nat, b: nat, j: nat, k: nat)
    requires a < b < j < k < |calls|
  {
    && calls[a].phone == p && calls[b].phone == p && calls[j].phone == p && calls[k].phone == p
    && Silent(calls, p, 0, a) && Silent(calls, p, a + 1, b) && Silent(calls, p, b + 1, j)
    && Silent(calls, p, j + 1, k) && Silent(calls, p, k + 1, |calls|)
  }

  /** What the limiter keeps of `p`, and how often it admitted `p` in the window. */
  ghost predicate StandsAt(o: Options, calls: seq<Call>, n: nat, p: Phone, end: int, ts: seq<int>, count: nat)
    requires n <= |calls|
  {
    && Stored(After(o, calls[..n]), p) == ts
    && Within(Admissions(o, calls[..n]), p, end - HOUR, end) == count
  }

  lemma {:induction false} DayCountAtMost(o: Options, calls: seq<Call>)
    ensures After(o, calls).dayCount <= |calls|
  {
    if calls != [] {
      DayCountAtMost(o, calls[..|calls| - 1]);
    }
  }

  lemma OneMore(o: Options, calls: seq<Call>, n: nat)
    requires n < |calls|
    ensures After(o, calls[..n + 1]) == Checked(o, After(o, calls[..n]), calls[n])
    ensures var log := Admissions(o, calls[..n]);
      Admissions(o, calls[..n + 1]) == Logged(log, calls[n], Decide(o, After(o, calls[..n]), calls[n]))
  {
    assert calls[..n + 1][..n] == calls[..n];
  }

  lemma WithinLogged(log: seq<Call>, call: Call, decision: Decision, p: Phone, lo: int, hi: int)
    ensures Within(Logged(log, call, decision), p, lo, hi)
         == Within(log, p, lo, hi) + if decision == Admitted && call.phone == p && lo < call.at <= hi then 1 else 0
  {
    assert (log + [call])[..|log|] == log;
  }

  /** Nothing happens to a phone that does not call. */
  lemma {:induction false} Idle(o: Options, calls: seq<Call>, m: nat, n: nat, p: Phone, end: int, ts: seq<int>, count: nat)
    requires m <= n <= |calls| && StandsAt(o, calls, m, p, end, ts, count)
    requires Silent(calls, p, m, n)
    ensures StandsAt(o, calls, n, p, end, ts, count)
  {
    if m < n {
      var s, log := After(o, calls[..n - 1]), Admissions(o, calls[..n - 1]);
      Idle(o, calls, m, n - 1, p, end, ts, count);
      OneMore(o, calls, n - 1);
      WithinLogged(log, calls[n - 1], Decide(o, s, calls[n - 1]), p, end - HOUR, end);
    }
  }

  lemma RoomAdmits(o: Options, s: State, call: Call)
    requires s.dayCount < o.globalPerDay && 0 < o.globalPerDay
    requires |Recent(Stored(s, call.phone), call.at - HOUR)| < o.perPhonePerHour
    ensures Decide(o, s, call) == Admitted
    ensures Stored(Checked(o, s, call), call.phone) == Recent(Stored(s, call.phone), call.at - HOUR) + [call.at]
  {
  }

  /** With the daily cap out of reach, a call with room in its list is admitted. */
  lemma Takes(o: Options, calls: seq<Call>, n: nat, p: Phone, end: int, ts: seq<int>, count: nat)
    requires n < |calls| && StandsAt(o, calls, n, p, end, ts, count) && calls[n].phone == p
    requires o.globalPerDay > |calls| && |Recent(ts, calls[n].at - HOUR)| < o.perPhonePerHour
    ensures StandsAt(o, calls, n + 1, p, end, Recent(ts, calls[n].at - HOUR) + [calls[n].at],
                     count + if InWindow(calls, n, end) then 1 else 0)
  {
    var s, log := After(o, calls[..n]), Admissions(o, calls[..n]);
    DayCountAtMost(o, calls[..n]);
    RoomAdmits(o, s, calls[n]);
    OneMore(o, calls, n);
    WithinLogged(log, calls[n], Admitted, p, end - HOUR, end);
  }

  lemma RecentPair(x: int, y: int, cut: int)
    ensures Recent([x], cut) == if x > cut then [x] else []
    ensures Recent([x, y], cut) == (if x > cut then [x] else []) + if y > cut then [y] else []
  {
    RecentAppend([], x, cut);
    RecentAppend([x], y, cut);
    assert [] + [x] == [x] && [x] + [y] == [x, y];
  }

  /** Two admissions in the window. */
  lemma TwoOfTwo(o: Options, calls: seq<Call>, p: Phone, a: nat, b: nat, end: int)
    requires o.perPhonePerHour == 2 && o.globalPerDay > |calls| && a < b < |calls|
    requires calls[a].phone == p && calls[b].phone == p && Silent(calls, p, 0, a) && Silent(calls, p, a + 1, b)
    requires InWindow(calls, a, end) && InWindow(calls, b, end)
    ensures StandsAt(o, calls, b + 1, p, end, [calls[a].at, calls[b].at], 2)
  {
    var ta, tb := calls[a].at, calls[b].at;
    Idle(o, calls, 0, a, p, end, [], 0);
    Takes(o, calls, a, p, end, [], 0);
    assert [] + [ta] == [ta] && [ta] + [tb] == [ta, tb];
    Idle(o, calls, a + 1, b, p, end, [ta], 1);
    RecentPair(ta, tb, tb - HOUR);
    Takes(o, calls, b, p, end, [ta], 1);
  }

  /** A third forgets them. */
  lemma ThirdForgets(o: Options, calls: seq<Call>, p: Phone, m: nat, j: nat, end: int, x: int, y: int)
    requires o.perPhonePerHour == 2 && o.globalPerDay > |calls| && m <= j < |calls|
    requires StandsAt(o, calls, m, p, end, [x, y], 2) && calls[j].phone == p
    requires Silent(calls, p, m, j)
    requires x <= calls[j].at - HOUR && y <= calls[j].at - HOUR && !InWindow(calls, j, end)
    ensures StandsAt(o, calls, j + 1, p, end, [calls[j].at], 2)
  {
    Idle(o, calls, m, j, p, end, [x, y], 2);
    RecentPair(x, y, calls[j].at - HOUR);
    Takes(o, calls, j, p, end, [x, y], 2);
    assert [] + [calls[j].at] == [calls[j].at];
  }

  lemma ThirdOfTwo(o: Options, calls: seq<Call>, p: Phone, a: nat, b: nat, j: nat, end: int)
    requires o.perPhonePerHour == 2 && o.globalPerDay > |calls| && a < b < j < |calls|
    requires calls[a].phone == p && calls[b].phone == p && calls[j].phone == p
    requires Silent(calls, p, 0, a) && Silent(calls, p, a + 1, b) && Silent(calls, p, b + 1, j)
    requires InWindow(calls, a, end) && InWindow(calls, b, end) && Forgets(calls, j, a) && Forgets(calls, j, b)
    ensures StandsAt(o, calls, j + 1, p, end, [calls[j].at], 2)
  {
    TwoOfTwo(o, calls, p, a, b, end);
    ThirdForgets(o, calls, p, b + 1, j, end, calls[a].at, calls[b].at);
  }

  /** And a fourth is admitted. */
  lemma FourthTakes(o: Options, calls: seq<Call>, p: Phone, m: nat, k: nat, end: int, x: int)
    requires o.perPhonePerHour == 2 && o.globalPerDay > |calls| && m <= k < |calls|
    requires StandsAt(o, calls, m, p, end, [x], 2) && calls[k].phone == p && InWindow(calls, k, end)
    requires Silent(calls, p, m, k) && Silent(calls, p, k + 1, |calls|)
    ensures Within(Admissions(o, calls), p, end - HOUR, end) == 3
  {
    Idle(o, calls, m, k, p, end, [x], 2);
    RecentAtMost([x], calls[k].at - HOUR);
    Takes(o, calls, k, p, end, [x], 2);
    Idle(o, calls, k + 1, |calls|, p, end, Recent([x], calls[k].at - HOUR) + [calls[k].at], 3);
    assert calls[..|calls|] == calls;
  }

  /** Two admissions forgotten by a third, and a fourth: three in the window, where two
      are allowed. */
  lemma ThreeOfTwo(o: Options, calls: seq<Call>, p: Phone, a: nat, b: nat, j: nat, k: nat, end: int)
    requires o.perPhonePerHour == 2 && o.globalPerDay > |calls|
    requires a < b < j < k < |calls| && FourOf(calls, p, a, b, j, k)
    requires InWindow(calls, a, end) && InWindow(calls, b, end) && InWindow(calls, k, end)
    requires Forgets(calls, j, a) && Forgets(calls, j, b)
    ensures Within(Admissions(o, calls), p, end - HOUR, end) == 3
  {
    ThirdOfTwo(o, calls, p, a, b, j, end);
    FourthTakes(o, calls, p, j + 1, k, end, calls[j].at);
  }

  /** Whoever calls and whatever the caps, each phone stays within its cap in the window. */
  ghost predicate HourHolds(clock: seq<Call>, end: int) {
    forall o, calls, p :: SameClock(clock, calls) ==> WithinCap(o, calls, p, end)
  }

  ghost predicate WithinCap(o: Options, calls: seq<Call>, p: Phone, end: int) {
    Within(Admissions(o, calls), p, end - HOUR, end) <= AtLeastZero(o.perPhonePerHour)
  }

  lemma SameJumps(a: seq<Call>, b: seq<Call>, end: int)
    requires SameClock(a, b) && JumpsBack(b, end)
    ensures JumpsBack(a, end)
  {
    var k :| 0 <= k < |b| && InWindow(b, k, end) && Jumped(b[..k], end);
    var c, d := a[..k], b[..k];
    var x, y, j :| 0 <= x < y < j < |d| && InWindow(d, x, end) && InWindow(d, y, end) && Forgets(d, j, x) && Forgets(d, j, y);
    assert InWindow(c, x, end) && InWindow(c, y, end) && Forgets(c, j, x) && Forgets(c, j, y);
    assert InWindow(a, k, end);
  }

  lemma JumpBreaks(clock: seq<Call>, end: int, p: Phone, q: Phone) returns (calls: seq<Call>)
    requires p != q && JumpsBack(clock, end)
    ensures SameClock(clock, calls)
    ensures Within(Admissions(Options(2, |clock| + 1), calls), p, end - HOUR, end) == 3
  {
    var k :| 0 <= k < |clock| && InWindow(clock, k, end) && Jumped(clock[..k], end);
    var c := clock[..k];
    var a, b, j :| 0 <= a < b < j < |c| && InWindow(c, a, end) && InWindow(c, b, end) && Forgets(c, j, a) && Forgets(c, j, b);
    calls := seq(|clock|, i requires 0 <= i < |clock| =>
      Call(if i == a || i == b || i == j || i == k then p else q, clock[i].at));
    ThreeOfTwo(Options(2, |clock| + 1), calls, p, a, b, j, k, end);
  }

  /** Exactly which clocks keep the hourly cap: the admissions of each phone in a window of
      one hour stay within the cap, whatever it is and whoever calls, if and only if the
      clock does not return to the window after it passed two of its instants and then
      stood an hour past both. */
  lemma HourlyCapExactly(clock: seq<Call>, end: int, p: Phone, q: Phone)
    requires p != q
    ensures HourHolds(clock, end) <==> !JumpsBack(clock, end)
  {
    if JumpsBack(clock, end) {
      var calls := JumpBreaks(clock, end, p, q);
      assert !WithinCap(Options(2, |clock| + 1), calls, p, end);
    } else {
      forall o, calls, r | SameClock(clock, calls)
        ensures WithinCap(o, calls, r, end)
      {
        if JumpsBack(calls, end) {
          SameJumps(clock, calls, end);
        }
        WindowKept(o, calls, r, end);
      }
    }
  }
}
