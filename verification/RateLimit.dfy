/** The rate limiter: an hour's sliding window for each phone, kept as a list pruned on
    every check, and a daily cap over all of them. */
module RateLimit {
  import opened Catalogue

  type Phone(==, !new)

  const HOUR: int := 3600000
  const DAY: int := 86400000

  datatype Options = Options(perPhonePerHour: int, globalPerDay: int)
  datatype Decision = Admitted | PhoneLimited | GlobalLimited
  datatype Call = Call(phone: Phone, at: int)
  datatype State = State(perPhone: map<Phone, seq<int>>, dayKey: Maybe<int>, dayCount: int)

  /** The UTC day of an instant, in milliseconds since the epoch. */
  function DayOf(at: int): int {
    at / DAY
  }

  /** The instants of `ts` after the cutoff. */
  function Recent(ts: seq<int>, cutoff: int): seq<int> {
    if ts == [] then []
    else Recent(ts[..|ts| - 1], cutoff) + if ts[|ts| - 1] > cutoff then [ts[|ts| - 1]] else []
  }

  function Stored(s: State, p: Phone): seq<int> {
    if p in s.perPhone then s.perPhone[p] else []
  }

  function NewDay(s: State, now: int): State {
    if s.dayKey == Some(DayOf(now)) then s else s.(dayKey := Some(DayOf(now)), dayCount := 0)
  }

  function Decide(o: Options, s: State, call: Call): Decision {
    var s1 := NewDay(s, call.at);
    if s1.dayCount >= o.globalPerDay then GlobalLimited
    else if |Recent(Stored(s, call.phone), call.at - HOUR)| >= o.perPhonePerHour then PhoneLimited
    else Admitted
  }

  function Checked(o: Options, s: State, call: Call): State {
    var s1 := NewDay(s, call.at);
    var recent := Recent(Stored(s, call.phone), call.at - HOUR);
    match Decide(o, s, call)
    case GlobalLimited => s1
    case PhoneLimited => s1.(perPhone := s1.perPhone[call.phone := recent])
    case Admitted => s1.(perPhone := s1.perPhone[call.phone := recent + [call.at]], dayCount := s1.dayCount + 1)
  }

  const Fresh: State := State(map[], None, 0)

  // ---- Whole runs -----------------------------------------------------------------------------------

  /** The limiter after a run of checks, and the checks it admitted. */
  function After(o: Options, calls: seq<Call>): State {
    if calls == [] then Fresh else Checked(o, After(o, calls[..|calls| - 1]), calls[|calls| - 1])
  }

  function Admissions(o: Options, calls: seq<Call>): seq<Call> {
    if calls == [] then []
    else
      var earlier := calls[..|calls| - 1];
      var last := calls[|calls| - 1];
      Logged(Admissions(o, earlier), last, Decide(o, After(o, earlier), last))
  }

  function Logged(log: seq<Call>, call: Call, decision: Decision): seq<Call> {
    if decision == Admitted then log + [call] else log
  }

  ghost predicate Steady(calls: seq<Call>) {
    forall i, j :: 0 <= i < j < |calls| ==> calls[i].at <= calls[j].at
  }

  /** How many checks of a list are of phone `p`, after `lo` and no later than `hi`. */
  function Within(log: seq<Call>, p: Phone, lo: int, hi: int): nat {
    if log == [] then 0
    else
      var last := log[|log| - 1];
      Within(log[..|log| - 1], p, lo, hi) + if last.phone == p && lo < last.at <= hi then 1 else 0
  }

  function OnDay(log: seq<Call>, day: int): nat {
    if log == [] then 0
    else OnDay(log[..|log| - 1], day) + if DayOf(log[|log| - 1].at) == day then 1 else 0
  }

  function AtLeastZero(n: int): nat {
    if n < 0 then 0 else n
  }

  function TimesOf(log: seq<Call>, p: Phone): seq<int> {
    if log == [] then []
    else TimesOf(log[..|log| - 1], p) + if log[|log| - 1].phone == p then [log[|log| - 1].at] else []
  }

  // ---- What the pruned lists still know ----------------------------------------------------------

  lemma {:induction false} RecentAppend(ts: seq<int>, t: int, cutoff: int)
    ensures Recent(ts + [t], cutoff) == Recent(ts, cutoff) + if t > cutoff then [t] else []
  {
    assert (ts + [t])[..|ts|] == ts;
  }

  /** Pruning first at an earlier cutoff loses nothing. */
  lemma {:induction false} RecentTwice(ts: seq<int>, c: int, d: int)
    requires c <= d
    ensures Recent(Recent(ts, c), d) == Recent(ts, d)
  {
    if ts != [] {
      var rest := ts[..|ts| - 1];
      var t := ts[|ts| - 1];
      RecentTwice(rest, c, d);
      if t > c {
        RecentAppend(Recent(rest, c), t, d);
      } else {
        assert Recent(ts, c) == Recent(rest, c);
      }
    }
  }

  predicate NoneAfter(log: seq<Call>, hi: int) {
    forall i :: 0 <= i < |log| ==> log[i].at <= hi
  }

  /** What is recent of a phone's admissions is what lies in the window that ends now. */
  lemma {:induction false} RecentIsWithin(log: seq<Call>, p: Phone, lo: int, hi: int)
    requires NoneAfter(log, hi)
    ensures |Recent(TimesOf(log, p), lo)| == Within(log, p, lo, hi)
  {
    if log != [] {
      var rest := log[..|log| - 1];
      RecentIsWithin(rest, p, lo, hi);
      assert log[|log| - 1].at <= hi;
      RecentAppend(TimesOf(rest, p), log[|log| - 1].at, lo);
      assert TimesOf(rest, p) + [] == TimesOf(rest, p);
    }
  }

  /** The stored list and the full history agree from a cutoff on. */
  predicate AgreesAt(s: State, log: seq<Call>, p: Phone, cutoff: int) {
    Recent(Stored(s, p), cutoff) == Recent(TimesOf(log, p), cutoff)
  }

  ghost predicate Agrees(s: State, log: seq<Call>, since: int) {
    forall p, cutoff :: since <= cutoff ==> AgreesAt(s, log, p, cutoff)
  }

  ghost predicate DayAgrees(s: State, log: seq<Call>) {
    match s.dayKey
    case None => log == []
    case Some(d) => s.dayCount == OnDay(log, d) && forall i :: 0 <= i < |log| ==> DayOf(log[i].at) <= d
  }

  lemma CheckAgrees(o: Options, s: State, log: seq<Call>, call: Call, since: int)
    requires Agrees(s, log, since) && since <= call.at - HOUR
    ensures Agrees(Checked(o, s, call), Logged(log, call, Decide(o, s, call)), call.at - HOUR)
  {
    var t := Checked(o, s, call);
    var log' := Logged(log, call, Decide(o, s, call));
    var now := call.at - HOUR;
    forall p, cutoff | now <= cutoff ensures AgreesAt(t, log', p, cutoff) {
      assert AgreesAt(s, log, p, cutoff);
      RecentTwice(Stored(s, call.phone), now, cutoff);
      if Decide(o, s, call) == Admitted {
        assert log'[..|log'| - 1] == log;
        if p == call.phone {
          RecentAppend(Recent(Stored(s, p), now), call.at, cutoff);
          RecentAppend(TimesOf(log, p), call.at, cutoff);
        } else {
          assert TimesOf(log', p) == TimesOf(log, p);
        }
      } else {
        assert log' == log;
      }
    }
  }

  /** A day no check has reached yet has no admission. */
  lemma {:induction false} LaterDayIsEmpty(log: seq<Call>, d: int)
    requires forall i :: 0 <= i < |log| ==> DayOf(log[i].at) < d
    ensures OnDay(log, d) == 0
  {
    if log != [] {
      LaterDayIsEmpty(log[..|log| - 1], d);
    }
  }

  lemma NewDayAgrees(s: State, log: seq<Call>, now: int)
    requires DayAgrees(s, log) && (s.dayKey.Some? ==> s.dayKey.value <= DayOf(now))
    ensures DayAgrees(NewDay(s, now), log)
  {
    if s.dayKey != Some(DayOf(now)) {
      LaterDayIsEmpty(log, DayOf(now));
    }
  }

  lemma DaysFollow(a: int, b: int)
    requires a <= b
    ensures DayOf(a) <= DayOf(b)
  {
  }

  lemma CheckDayAgrees(o: Options, s: State, log: seq<Call>, call: Call)
    requires DayAgrees(s, log) && (s.dayKey.Some? ==> s.dayKey.value <= DayOf(call.at))
    ensures DayAgrees(Checked(o, s, call), Logged(log, call, Decide(o, s, call)))
    ensures Checked(o, s, call).dayKey == Some(DayOf(call.at))
  {
    NewDayAgrees(s, log, call.at);
    if Decide(o, s, call) == Admitted {
      assert (log + [call])[..|log|] == log;
    }
  }

  /** With a steady clock, the pruned state knows of the whole history all it decides on. */
  lemma {:induction false} StateKnows(o: Options, calls: seq<Call>)
    requires Steady(calls)
    ensures calls == [] ==> After(o, calls) == Fresh && Admissions(o, calls) == []
    ensures calls != [] ==> Agrees(After(o, calls), Admissions(o, calls), calls[|calls| - 1].at - HOUR)
    ensures calls != [] ==> After(o, calls).dayKey == Some(DayOf(calls[|calls| - 1].at))
    ensures calls != [] ==> NoneAfter(Admissions(o, calls), calls[|calls| - 1].at)
    ensures DayAgrees(After(o, calls), Admissions(o, calls))
  {
    if calls != [] {
      var earlier := calls[..|calls| - 1];
      var last := calls[|calls| - 1];
      var s := After(o, earlier);
      var log := Admissions(o, earlier);
      StateKnows(o, earlier);
      if earlier == [] {
        CheckAgrees(o, s, log, last, last.at - HOUR);
      } else {
        DaysFollow(earlier[|earlier| - 1].at, last.at);
        CheckAgrees(o, s, log, last, earlier[|earlier| - 1].at - HOUR);
      }
      CheckDayAgrees(o, s, log, last);
    }
  }

  /** The history says which answer `call` deserves. */
  ghost predicate Deserves(o: Options, log: seq<Call>, call: Call, decision: Decision) {
    var today := OnDay(log, DayOf(call.at));
    var lastHour := Within(log, call.phone, call.at - HOUR, call.at);
    match decision
    case GlobalLimited => today >= o.globalPerDay
    case PhoneLimited => today < o.globalPerDay && lastHour >= o.perPhonePerHour
    case Admitted => today < o.globalPerDay && lastHour < o.perPhonePerHour
  }

  lemma DecidesOn(o: Options, s: State, log: seq<Call>, call: Call)
    requires DayAgrees(s, log) && (s.dayKey.Some? ==> s.dayKey.value <= DayOf(call.at))
    requires AgreesAt(s, log, call.phone, call.at - HOUR) && NoneAfter(log, call.at)
    ensures Deserves(o, log, call, Decide(o, s, call))
  {
    NewDayAgrees(s, log, call.at);
    RecentIsWithin(log, call.phone, call.at - HOUR, call.at);
  }

  /** The decision is exact. With a steady clock a check is refused for the day only when
      the whole history holds that many admissions today, and refused for its phone only
      when that many of its own admissions really lie in the last hour, although the
      limiter keeps neither history. */
  lemma DecidedExactly(o: Options, calls: seq<Call>, call: Call)
    requires Steady(calls + [call])
    ensures Deserves(o, Admissions(o, calls), call, Decide(o, After(o, calls), call))
    ensures NoneAfter(Admissions(o, calls), call.at)
  {
    var s := After(o, calls);
    var log := Admissions(o, calls);
    SteadyPrefix(calls, call);
    StateKnows(o, calls);
    if calls != [] {
      DaysFollow(calls[|calls| - 1].at, call.at);
    }
    assert AgreesAt(s, log, call.phone, call.at - HOUR);
    DecidesOn(o, s, log, call);
  }

  lemma SteadyPrefix(calls: seq<Call>, call: Call)
    requires Steady(calls + [call])
    ensures Steady(calls) && (calls != [] ==> calls[|calls| - 1].at <= call.at)
  {
    var all := calls + [call];
    assert forall i :: 0 <= i < |calls| ==> calls[i] == all[i];
    assert calls != [] ==> all[|calls| - 1].at <= all[|calls|].at;
  }

  // ---- The two caps ----------------------------------------------------------------------------------

  lemma {:induction false} WithinShrinks(log: seq<Call>, p: Phone, lo: int, hi: int, lo': int, hi': int)
    requires lo' <= lo && (hi <= hi' || NoneAfter(log, hi'))
    ensures Within(log, p, lo, hi) <= Within(log, p, lo', hi')
  {
    if log != [] {
      assert hi <= hi' || log[|log| - 1].at <= hi';
      WithinShrinks(log[..|log| - 1], p, lo, hi, lo', hi');
    }
  }

  lemma HourlyStep(o: Options, log: seq<Call>, call: Call, decision: Decision, p: Phone, end: int)
    requires NoneAfter(log, call.at) && Deserves(o, log, call, decision)
    requires Within(log, p, end - HOUR, end) <= AtLeastZero(o.perPhonePerHour)
    ensures Within(Logged(log, call, decision), p, end - HOUR, end) <= AtLeastZero(o.perPhonePerHour)
  {
    assert (log + [call])[..|log|] == log;
    if call.phone == p && call.at <= end {
      WithinShrinks(log, p, end - HOUR, end, call.at - HOUR, call.at);
    }
  }

  lemma DailyStep(o: Options, log: seq<Call>, call: Call, decision: Decision, day: int)
    requires Deserves(o, log, call, decision)
    requires OnDay(log, day) <= AtLeastZero(o.globalPerDay)
    ensures OnDay(Logged(log, call, decision), day) <= AtLeastZero(o.globalPerDay)
  {
    assert (log + [call])[..|log|] == log;
  }

  /** The hourly cap. With a steady clock, every one-hour window of every run holds at most
      `perPhonePerHour` admissions of each phone. */
  lemma {:induction false} HourlyCap(o: Options, calls: seq<Call>, p: Phone, end: int)
    requires Steady(calls)
    ensures Within(Admissions(o, calls), p, end - HOUR, end) <= AtLeastZero(o.perPhonePerHour)
  {
    if calls != [] {
      var earlier := calls[..|calls| - 1];
      var last := calls[|calls| - 1];
      HourlyCap(o, earlier, p, end);
      assert calls == earlier + [last];
      DecidedExactly(o, earlier, last);
      HourlyStep(o, Admissions(o, earlier), last, Decide(o, After(o, earlier), last), p, end);
    }
  }

  /** The daily cap. With a steady clock, each UTC day holds at most `globalPerDay`. */
  lemma {:induction false} DailyCap(o: Options, calls: seq<Call>, day: int)
    requires Steady(calls)
    ensures OnDay(Admissions(o, calls), day) <= AtLeastZero(o.globalPerDay)
  {
    if calls != [] {
      var earlier := calls[..|calls| - 1];
      var last := calls[|calls| - 1];
      DailyCap(o, earlier, day);
      assert calls == earlier + [last];
      DecidedExactly(o, earlier, last);
      DailyStep(o, Admissions(o, earlier), last, Decide(o, After(o, earlier), last), day);
    }
  }

  lemma {:induction false} RecentAtMost(ts: seq<int>, cutoff: int)
    ensures |Recent(ts, cutoff)| <= |ts|
  {
    if ts != [] {
      RecentAtMost(ts[..|ts| - 1], cutoff);
    }
  }

  // ---- The notice ------------------------------------------------------------------------------------

  predicate Due(sent: map<Phone, int>, call: Call) {
    call.phone in sent ==> call.at - sent[call.phone] >= HOUR
  }

  function Notified(sent: map<Phone, int>, call: Call): map<Phone, int> {
    if Due(sent, call) then sent[call.phone := call.at] else sent
  }

  function SentAfter(calls: seq<Call>): map<Phone, int> {
    if calls == [] then map[] else Notified(SentAfter(calls[..|calls| - 1]), calls[|calls| - 1])
  }

  function Notices(calls: seq<Call>): seq<Call> {
    if calls == [] then []
    else
      var earlier := calls[..|calls| - 1];
      var last := calls[|calls| - 1];
      Notices(earlier) + if Due(SentAfter(earlier), last) then [last] else []
  }

  ghost predicate SentIsLatest(sent: map<Phone, int>, log: seq<Call>) {
    forall i :: 0 <= i < |log| ==> log[i].phone in sent && log[i].at <= sent[log[i].phone]
  }

  ghost predicate Spaced(log: seq<Call>) {
    forall i, j :: 0 <= i < j < |log| && log[i].phone == log[j].phone ==> log[j].at - log[i].at >= HOUR
  }

  /** The notice cannot be provoked: whatever the clock does, two notices to one phone lie
      an hour apart. */
  lemma {:induction false} NoticesSpaced(calls: seq<Call>)
    ensures Spaced(Notices(calls)) && SentIsLatest(SentAfter(calls), Notices(calls))
  {
    if calls != [] {
      NoticesSpaced(calls[..|calls| - 1]);
    }
  }

  ghost predicate IsLastTo(log: seq<Call>, p: Phone, at: int, i: int) {
    0 <= i < |log| && log[i] == Call(p, at) && forall j :: i < j < |log| ==> log[j].phone != p
  }

  /** The last notice to the phone was sent then. */
  ghost predicate LastSent(log: seq<Call>, p: Phone, at: int) {
    exists i :: IsLastTo(log, p, at, i)
  }

  ghost predicate NeverSent(log: seq<Call>, p: Phone) {
    forall i :: 0 <= i < |log| ==> log[i].phone != p
  }

  ghost predicate SentIsLast(sent: map<Phone, int>, log: seq<Call>) {
    forall p :: if p in sent then LastSent(log, p, sent[p]) else NeverSent(log, p)
  }

  lemma {:induction false} SentAfterIsLast(calls: seq<Call>)
    ensures SentIsLast(SentAfter(calls), Notices(calls))
  {
    if calls != [] {
      var earlier, last := calls[..|calls| - 1], calls[|calls| - 1];
      SentAfterIsLast(earlier);
      if Due(SentAfter(earlier), last) {
        NoticeMore(SentAfter(earlier), Notices(earlier), last);
      } else {
        assert Notices(calls) == Notices(earlier) + [] == Notices(earlier);
      }
    }
  }

  lemma NoticeMore(sent: map<Phone, int>, log: seq<Call>, last: Call)
    requires SentIsLast(sent, log)
    ensures SentIsLast(sent[last.phone := last.at], log + [last])
  {
    var more := log + [last];
    assert IsLastTo(more, last.phone, last.at, |log|);
    forall p | p in sent && p != last.phone ensures LastSent(more, p, sent[p]) {
      var i :| IsLastTo(log, p, sent[p], i);
      assert IsLastTo(more, p, sent[p], i);
    }
  }

  /** Every notice to the phone in the log is an hour old. */
  ghost predicate HourOld(log: seq<Call>, call: Call) {
    forall i :: 0 <= i < |log| && log[i].phone == call.phone ==> call.at - log[i].at >= HOUR
  }

  lemma DueIsHourOld(sent: map<Phone, int>, log: seq<Call>, call: Call)
    requires SentIsLast(sent, log) && SentIsLatest(sent, log)
    ensures Due(sent, call) <==> HourOld(log, call)
  {
    assert if call.phone in sent then LastSent(log, call.phone, sent[call.phone]) else NeverSent(log, call.phone);
    if call.phone in sent {
      var i :| IsLastTo(log, call.phone, sent[call.phone], i);
      assert log[i].phone == call.phone && log[i].at == sent[call.phone];
      if Due(sent, call) {
        forall j | 0 <= j < |log| && log[j].phone == call.phone ensures call.at - log[j].at >= HOUR {
          assert log[j].at <= sent[log[j].phone];
        }
      }
    }
  }

  /** A notice is due exactly when every earlier one to the phone is an hour old. */
  lemma NoticeExactly(calls: seq<Call>, call: Call)
    ensures Due(SentAfter(calls), call) <==> HourOld(Notices(calls), call)
    ensures Notices(calls + [call]) == if Due(SentAfter(calls), call) then Notices(calls) + [call] else Notices(calls)
  {
    NoticesSpaced(calls);
    SentAfterIsLast(calls);
    DueIsHourOld(SentAfter(calls), Notices(calls), call);
    assert (calls + [call])[..|calls|] == calls;
    assert Notices(calls) + [] == Notices(calls);
  }

  // ---- The class -------------------------------------------------------------------------------------

  ghost function ListOf(lists: map<Phone, seq<int>>, p: Phone): seq<int> {
    if p in lists then lists[p] else []
  }

  /** `recent` holds the instants of `was` from the hour before `now`, each as often. */
  ghost predicate LastHour(was: seq<int>, now: int, recent: seq<int>) {
    forall t :: multiset(recent)[t] == if now - t < 3600000 then multiset(was)[t] else 0
  }

  ghost predicate StillCount(was: seq<int>, now: int, recent: seq<int>, cap: int) {
    LastHour(was, now, recent) && |recent| >= cap
  }

  /** And `now` is one of them from now on. */
  ghost predicate NowCounted(was: seq<int>, now: int, recent: seq<int>, cap: int) {
    recent != [] && recent[|recent| - 1] == now && LastHour(was, now, recent[..|recent| - 1]) && |recent| <= cap
  }

  lemma {:induction false} RecentIsLastHour(ts: seq<int>, now: int)
    ensures LastHour(ts, now, Recent(ts, now - HOUR))
  {
    if ts != [] {
      RecentIsLastHour(ts[..|ts| - 1], now);
      assert ts == ts[..|ts| - 1] + [ts[|ts| - 1]];
    }
  }

  method Prune(ts: seq<int>, cutoff: int) returns (recent: seq<int>)
    ensures recent == Recent(ts, cutoff)
  {
    recent := [];
    for i := 0 to |ts|
      invariant recent == Recent(ts[..i], cutoff)
    {
      assert ts[..i + 1][..i] == ts[..i];
      if ts[i] > cutoff {
        recent := recent + [ts[i]];
      }
    }
    assert ts[..|ts|] == ts;
  }

  class RateLimiter {
    const options: Options
    var perPhone: map<Phone, seq<int>>
    var noticeSentAt: map<Phone, int>
    var dayKey: Maybe<int>
    var dayCount: int

    ghost function Value(): State
      reads this
    {
      State(perPhone, dayKey, dayCount)
    }

    constructor (options: Options)
      ensures Value() == Fresh && noticeSentAt == map[] && this.options == options
    {
      this.options := options;
      perPhone, noticeSentAt, dayKey, dayCount := map[], map[], None, 0;
    }

    /** `check`: admit (and record) or reject one turn for a phone. */
    method Check(phone: Phone, now: int) returns (decision: Decision)
      modifies this`perPhone, this`dayKey, this`dayCount
      ensures decision == Decide(options, old(Value()), Call(phone, now))
      ensures Value() == Checked(options, old(Value()), Call(phone, now))
      ensures dayKey == Some(now / 86400000)
      ensures var today := if old(dayKey) == Some(now / 86400000) then old(dayCount) else 0;
        && (decision == GlobalLimited <==> today >= options.globalPerDay)
        && dayCount == today + if decision == Admitted then 1 else 0
      ensures decision == GlobalLimited ==> perPhone == old(perPhone)
      ensures decision != GlobalLimited ==>
        phone in perPhone && perPhone == old(perPhone)[phone := perPhone[phone]]
        && if decision == PhoneLimited then StillCount(ListOf(old(perPhone), phone), now, perPhone[phone], options.perPhonePerHour)
           else NowCounted(ListOf(old(perPhone), phone), now, perPhone[phone], options.perPhonePerHour)
    {
      var today := Some(DayOf(now));
      if dayKey != today {
        dayKey, dayCount := today, 0;
      }
      if dayCount >= options.globalPerDay {
        return GlobalLimited;
      }
      var stored := if phone in perPhone then perPhone[phone] else [];
      var recent := Prune(stored, now - HOUR);
      RecentIsLastHour(stored, now);
      assert (recent + [now])[..|recent|] == recent;
      if |recent| >= options.perPhonePerHour {
        perPhone := perPhone[phone := recent];
        return PhoneLimited;
      }
      perPhone := perPhone[phone := recent + [now]];
      dayCount := dayCount + 1;
      return Admitted;
    }

    /** `shouldNotify`. */
    method ShouldNotify(phone: Phone, now: int) returns (send: bool)
      modifies this`noticeSentAt
      ensures send == Due(old(noticeSentAt), Call(phone, now))
      ensures noticeSentAt == Notified(old(noticeSentAt), Call(phone, now))
      ensures send <==> phone !in old(noticeSentAt) || now - old(noticeSentAt)[phone] >= HOUR
      ensures noticeSentAt == if send then old(noticeSentAt)[phone := now] else old(noticeSentAt)
    {
      if phone in noticeSentAt && now - noticeSentAt[phone] < HOUR {
        return false;
      }
      noticeSentAt := noticeSentAt[phone := now];
      return true;
    }
  }
}
