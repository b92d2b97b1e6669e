/** The limiter of the public shop endpoints (internal/modules/shop/shop.go:142-168). */
module RateLimit {
  // Per key, the times of the granted calls of the last window.

  const MAX_KEYS: nat := 20_000

  /** "order:" and an address, and the like. */
  datatype Key = Key(action: string, client: string)

  type Hits = map<Key, seq<int>>

  datatype Call = Call(key: Key, max: int, window: int, now: int)

  /** The times after the cut. */
  function After(times: seq<int>, cut: int): seq<int> {
    if times == [] then [] else
    var front, t := After(times[..|times| - 1], cut), times[|times| - 1];
    if t > cut then front + [t] else front
  }

  function TimesOf(h: Hits, key: Key): seq<int> { if key in h then h[key] else [] }

  /** One call, as the code answers it. */
  function Step(h: Hits, c: Call): (Hits, bool) {
    var keep := After(TimesOf(h, c.key), c.now - c.window);
    if |keep| >= c.max then (h[c.key := keep], false)
    else
      var h' := h[c.key := keep + [c.now]];
      (if |h'.Keys| > MAX_KEYS then map[c.key := keep + [c.now]] else h', true)
  }

  function Run(calls: seq<Call>): Hits {
    if calls == [] then map[] else Step(Run(calls[..|calls| - 1]), calls[|calls| - 1]).0
  }

  /** The answer to the last call. */
  predicate Answer(calls: seq<Call>)
    requires calls != []
  {
    Step(Run(calls[..|calls| - 1]), calls[|calls| - 1]).1
  }

  /** The whole history of a key: the times of all its granted calls. */
  function Granted(calls: seq<Call>, key: Key): seq<int> {
    if calls == [] then [] else
    var front, c := Granted(calls[..|calls| - 1], key), calls[|calls| - 1];
    if c.key == key && Answer(calls) then front + [c.now] else front
  }

  function KeysOf(calls: seq<Call>): set<Key> { set c | c in calls :: c.key }

  /** Time does not run backwards, and every key has its fixed limit. */
  ghost predicate InOrder(calls: seq<Call>) {
    && (forall i, j :: 0 <= i < j < |calls| ==> calls[i].now <= calls[j].now)
    && (forall c, d :: c in calls && d in calls ==> SameLimit(c, d))
  }

  /** And there are not too many keys. */
  ghost predicate Orderly(calls: seq<Call>) { InOrder(calls) && |KeysOf(calls)| <= MAX_KEYS }

  predicate SameLimit(c: Call, d: Call) { c.key == d.key ==> c.max == d.max && c.window == d.window }

  lemma {:induction false} SubsetIsSmaller(a: set<Key>, b: set<Key>)
    requires a <= b
    ensures |a| <= |b|
  {
    assert b == a + (b - a);
  }

  lemma {:induction false} OrderlyFront(calls: seq<Call>)
    requires Orderly(calls) && calls != []
    ensures Orderly(calls[..|calls| - 1])
  {
    SubsetIsSmaller(KeysOf(calls[..|calls| - 1]), KeysOf(calls));
  }

  lemma {:induction false} CutsGrow(calls: seq<Call>)
    requires Orderly(calls) && calls != []
    ensures var last := calls[|calls| - 1];
      forall c :: c in calls[..|calls| - 1] && c.key == last.key ==> c.now - c.window <= last.now - last.window
  {
    var front, last := calls[..|calls| - 1], calls[|calls| - 1];
    forall c | c in front && c.key == last.key
      ensures c.now - c.window <= last.now - last.window
    {
      var i :| 0 <= i < |front| && front[i] == c;
      assert calls[i] == c && last in calls && SameLimit(c, last);
    }
  }

  lemma {:induction false} KeysWereCalled(calls: seq<Call>)
    ensures Run(calls).Keys <= KeysOf(calls)
  {
    if calls != [] {
      var front, last := calls[..|calls| - 1], calls[|calls| - 1];
      KeysWereCalled(front);
      assert last in calls && forall c :: c in front ==> c in calls;
    }
  }

  lemma {:induction false} AfterTwice(times: seq<int>, early: int, late: int)
    requires early <= late
    ensures After(After(times, early), late) == After(times, late)
  {
    if times != [] {
      var front, t := times[..|times| - 1], times[|times| - 1];
      AfterTwice(front, early, late);
    }
  }

  /** With orderly calls nothing is reset. */
  lemma {:induction false} NothingIsReset(calls: seq<Call>)
    requires calls != [] && Orderly(calls)
    ensures |Run(calls[..|calls| - 1]).Keys + {calls[|calls| - 1].key}| <= MAX_KEYS
  {
    var front, c := calls[..|calls| - 1], calls[|calls| - 1];
    KeysWereCalled(front);
    assert c in calls && forall d :: d in front ==> d in calls;
    SubsetIsSmaller(Run(front).Keys + {c.key}, KeysOf(calls));
  }

  lemma {:induction false} TimesAfter(h: Hits, key: Key, times: seq<int>, other: Key)
    ensures TimesOf(h[key := times], other) == if other == key then times else TimesOf(h, other)
    ensures h[key := times].Keys == h.Keys + {key}
  {}

  lemma {:induction false} StepWithoutReset(h: Hits, c: Call, key: Key)
    requires |h.Keys + {c.key}| <= MAX_KEYS
    ensures var keep := After(TimesOf(h, c.key), c.now - c.window);
      && (Step(h, c).1 <==> |keep| < c.max)
      && TimesOf(Step(h, c).0, key) == if key != c.key then TimesOf(h, key) else if Step(h, c).1 then keep + [c.now] else keep
  {
    var keep := After(TimesOf(h, c.key), c.now - c.window);
    TimesAfter(h, c.key, keep, key);
    TimesAfter(h, c.key, keep + [c.now], key);
  }

  lemma {:induction false} AfterMore(times: seq<int>, t: int, cut: int)
    ensures After(times + [t], cut) == if t > cut then After(times, cut) + [t] else After(times, cut)
  {
    assert (times + [t])[..|times|] == times;
  }

  lemma {:induction false} KeptAndHistory(times: seq<int>, history: seq<int>, early: int, cut: int, now: int)
    requires early <= cut && After(times, cut) == After(history, cut)
    ensures After(After(times, early), cut) == After(history, cut)
    ensures After(After(times, early) + [now], cut) == After(history + [now], cut)
  {
    AfterTwice(times, early, cut);
    AfterMore(After(times, early), now, cut);
    AfterMore(history, now, cut);
  }

  /** One call on a key whose kept times agree with its history leaves them in agreement. */
  lemma {:induction false} StepKeepsHistory(h: Hits, c: Call, history: seq<int>, cut: int)
    requires |h.Keys + {c.key}| <= MAX_KEYS && c.now - c.window <= cut
    requires After(TimesOf(h, c.key), cut) == After(history, cut)
    ensures After(TimesOf(Step(h, c).0, c.key), cut) == After(if Step(h, c).1 then history + [c.now] else history, cut)
  {
    StepWithoutReset(h, c, c.key);
    KeptAndHistory(TimesOf(h, c.key), history, c.now - c.window, cut, c.now);
  }

  /** What is kept of a key is its history, from the latest cut on. */
  lemma {:induction false} KeepsRecentHistory(calls: seq<Call>, key: Key, cut: int)
    requires Orderly(calls) && forall c :: c in calls && c.key == key ==> c.now - c.window <= cut
    ensures After(TimesOf(Run(calls), key), cut) == After(Granted(calls, key), cut)
  {
    if calls != [] {
      var front, c := calls[..|calls| - 1], calls[|calls| - 1];
      assert c in calls && forall d :: d in front ==> d in calls;
      OrderlyFront(calls);
      NothingIsReset(calls);
      KeepsRecentHistory(front, key, cut);
      if key == c.key {
        StepKeepsHistory(Run(front), c, Granted(front, key), cut);
      } else {
        StepWithoutReset(Run(front), c, key);
      }
    }
  }

  lemma {:induction false} AnswerByHistory(calls: seq<Call>, history: seq<int>)
    requires calls != []
    requires var h, c := Run(calls[..|calls| - 1]), calls[|calls| - 1];
      |h.Keys + {c.key}| <= MAX_KEYS && After(TimesOf(h, c.key), c.now - c.window) == After(history, c.now - c.window)
    ensures var c := calls[|calls| - 1]; Answer(calls) <==> |After(history, c.now - c.window)| < c.max
  {
    StepWithoutReset(Run(calls[..|calls| - 1]), calls[|calls| - 1], calls[|calls| - 1].key);
  }

  lemma {:induction false} KeptIsHistory(calls: seq<Call>)
    requires Orderly(calls) && calls != []
    ensures var front, c := calls[..|calls| - 1], calls[|calls| - 1];
      After(TimesOf(Run(front), c.key), c.now - c.window) == After(Granted(front, c.key), c.now - c.window)
  {
    var c := calls[|calls| - 1];
    OrderlyFront(calls);
    CutsGrow(calls);
    KeepsRecentHistory(calls[..|calls| - 1], c.key, c.now - c.window);
  }

  /** The pruned limiter refines the full history: a call is granted exactly when fewer than max of all the key's grants
      lie within the last window. */
  lemma {:induction false} AnswersFromHistory(calls: seq<Call>)
    requires Orderly(calls) && calls != []
    ensures var front, c := calls[..|calls| - 1], calls[|calls| - 1];
      Answer(calls) <==> |After(Granted(front, c.key), c.now - c.window)| < c.max
  {
    KeptIsHistory(calls);
    NothingIsReset(calls);
    AnswerByHistory(calls, Granted(calls[..|calls| - 1], calls[|calls| - 1].key));
  }

  /** The last answer is the one the full history gives. */
  predicate ByHistory(calls: seq<Call>)
    requires calls != []
  {
    var front, c := calls[..|calls| - 1], calls[|calls| - 1];
    Answer(calls) <==> |After(Granted(front, c.key), c.now - c.window)| < c.max
  }

  lemma {:induction false} AfterIsWithin(times: seq<int>, from: int, now: int)
    requires forall i :: 0 <= i < |times| ==> times[i] <= now
    ensures After(times, from) == Within(times, from, now)
  {
    if times != [] { AfterIsWithin(times[..|times| - 1], from, now); }
  }

  lemma {:induction false} GrantedBefore(calls: seq<Call>, key: Key, now: int)
    requires forall i :: 0 <= i < |calls| ==> calls[i].now <= now
    ensures forall i :: 0 <= i < |Granted(calls, key)| ==> Granted(calls, key)[i] <= now
  {
    if calls != [] {
      GrantedBefore(calls[..|calls| - 1], key, now);
      GrantedMore(calls, key);
    }
  }

  /** Said of times: a call is granted exactly when fewer than max of the key's calls were granted later than a window ago. */
  lemma {:induction false} GrantedExactly(calls: seq<Call>)
    requires Orderly(calls) && calls != []
    ensures var front, c := calls[..|calls| - 1], calls[|calls| - 1];
      Answer(calls) <==> |Within(Granted(front, c.key), c.now - c.window, c.now)| < c.max
  {
    AnswersFromHistory(calls);
    RecentOfFront(calls);
  }

  lemma {:induction false} RecentOfFront(calls: seq<Call>)
    requires Orderly(calls) && calls != []
    ensures var front, c := calls[..|calls| - 1], calls[|calls| - 1];
      After(Granted(front, c.key), c.now - c.window) == Within(Granted(front, c.key), c.now - c.window, c.now)
  {
    var front, c := calls[..|calls| - 1], calls[|calls| - 1];
    GrantedBefore(front, c.key, c.now);
    AfterIsWithin(Granted(front, c.key), c.now - c.window, c.now);
  }


  /** The answer is the one the full history gives, provided the calls so far are orderly. */
  ghost predicate FromHistory(calls: seq<Call>, c: Call, ok: bool) {
    Orderly(calls + [c]) ==> (ok <==> |After(Granted(calls, c.key), c.now - c.window)| < c.max)
  }

  lemma {:induction false} RunMore(calls: seq<Call>, c: Call)
    ensures Run(calls + [c]) == Step(Run(calls), c).0 && Answer(calls + [c]) == Step(Run(calls), c).1
  {
    assert (calls + [c])[..|calls|] == calls;
  }

  lemma {:induction false} NextAnswer(calls: seq<Call>, c: Call)
    ensures Run(calls + [c]) == Step(Run(calls), c).0 && Answer(calls + [c]) == Step(Run(calls), c).1
    ensures FromHistory(calls, c, Answer(calls + [c]))
  {
    RunMore(calls, c);
    NextByHistory(calls, c);
  }

  lemma {:induction false} NextByHistory(calls: seq<Call>, c: Call)
    ensures FromHistory(calls, c, Answer(calls + [c]))
  {
    FrontOfMore(calls, c);
    if Orderly(calls + [c]) { ByHistoryOf(calls + [c], calls, c); }
  }

  lemma {:induction false} ByHistoryOf(more: seq<Call>, calls: seq<Call>, c: Call)
    requires more != [] && more[..|more| - 1] == calls && more[|more| - 1] == c && Orderly(more)
    ensures Answer(more) <==> |After(Granted(calls, c.key), c.now - c.window)| < c.max
  {
    AnswersFromHistory(more);
  }

  lemma {:induction false} FrontOfMore(calls: seq<Call>, c: Call)
    ensures var more := calls + [c]; more[..|more| - 1] == calls && more[|more| - 1] == c
  {}

  /** The times in (from, upTo]. */
  function Within(times: seq<int>, from: int, upTo: int): seq<int> {
    if times == [] then [] else
    var front, t := Within(times[..|times| - 1], from, upTo), times[|times| - 1];
    if from < t <= upTo then front + [t] else front
  }

  lemma {:induction false} WithinMore(times: seq<int>, t: int, from: int, upTo: int)
    ensures Within(times + [t], from, upTo) == if from < t <= upTo then Within(times, from, upTo) + [t] else Within(times, from, upTo)
  {
    assert (times + [t])[..|times|] == times;
  }

  lemma {:induction false} WithinIsAfter(times: seq<int>, from: int, upTo: int, cut: int)
    requires cut <= from
    ensures |Within(times, from, upTo)| <= |After(times, cut)|
  {
    if times != [] { WithinIsAfter(times[..|times| - 1], from, upTo, cut); }
  }

  function AtLeast0(n: int): nat { if n > 0 then n else 0 }

  lemma {:induction false} GrantedMore(calls: seq<Call>, key: Key)
    requires calls != []
    ensures var front, c := Granted(calls[..|calls| - 1], key), calls[|calls| - 1];
      Granted(calls, key) == if c.key == key && Answer(calls) then front + [c.now] else front
  {}

  /** One more grant does not overfill a window: either it lies outside, or the window was counted when it was granted. */
  lemma {:induction false} OneGrantMore(history: seq<int>, c: Call, upTo: int)
    requires |Within(history, upTo - c.window, upTo)| <= AtLeast0(c.max) && |After(history, c.now - c.window)| < c.max
    ensures |Within(history + [c.now], upTo - c.window, upTo)| <= AtLeast0(c.max)
  {
    WithinMore(history, c.now, upTo - c.window, upTo);
    if c.now <= upTo { WithinIsAfter(history, upTo - c.window, upTo, c.now - c.window); }
  }

  lemma {:induction false} WindowKept(history: seq<int>, after: seq<int>, c: Call, granted: bool, max: int, window: int, upTo: int)
    requires after == (if granted then history + [c.now] else history) && |Within(history, upTo - window, upTo)| <= AtLeast0(max)
    requires granted ==> c.max == max && c.window == window && |After(history, c.now - window)| < max
    ensures |Within(after, upTo - window, upTo)| <= AtLeast0(max)
  {
    if granted { OneGrantMore(history, c, upTo); }
  }

  predicate Limited(c: Call, key: Key, max: int, window: int) { c.key == key ==> c.max == max && c.window == window }

  /** Every answer so far was the one the full history gives. */
  predicate Faithful(calls: seq<Call>) {
    calls == [] || (Faithful(calls[..|calls| - 1]) &&
      var c := calls[|calls| - 1];
      (Answer(calls) <==> |After(Granted(calls[..|calls| - 1], c.key), c.now - c.window)| < c.max))
  }

  lemma {:induction false} OrderlyIsFaithful(calls: seq<Call>)
    requires Orderly(calls)
    ensures Faithful(calls)
  {
    if calls != [] {
      OrderlyFront(calls);
      OrderlyIsFaithful(calls[..|calls| - 1]);
      AnswersFromHistory(calls);
    }
  }

  predicate AllLimited(calls: seq<Call>, key: Key, max: int, window: int) { forall c :: c in calls ==> Limited(c, key, max, window) }

  lemma {:induction false} FaithfulWindows(calls: seq<Call>, key: Key, max: int, window: int, upTo: int)
    requires Faithful(calls) && AllLimited(calls, key, max, window)
    ensures |Within(Granted(calls, key), upTo - window, upTo)| <= AtLeast0(max)
  {
    if calls != [] {
      var front, last := calls[..|calls| - 1], calls[|calls| - 1];
      assert Limited(last, key, max, window);
      FaithfulWindows(front, key, max, window, upTo);
      GrantedMore(calls, key);
      WindowKept(Granted(front, key), Granted(calls, key), last, last.key == key && Answer(calls), max, window, upTo);
    }
  }

  /** No window of the key's length, wherever it ends, ever holds more than max grants. */
  lemma {:induction false} NoWindowOverfull(calls: seq<Call>, key: Key, max: int, window: int, upTo: int)
    requires Orderly(calls) && AllLimited(calls, key, max, window)
    ensures |Within(Granted(calls, key), upTo - window, upTo)| <= AtLeast0(max)
  {
    OrderlyIsFaithful(calls);
    FaithfulWindows(calls, key, max, window, upTo);
  }

  // ---- how many keys ------------------------------------------------------------------------

  /** Every run in order over at most n keys is answered by its history throughout. */
  ghost predicate AllByHistory(n: nat) { forall calls :: calls != [] && InOrder(calls) && |KeysOf(calls)| <= n ==> ByHistory(calls) }

  /** One call each of several clients, with a limit of one, all at once. */
  ghost predicate OnceEach(calls: seq<Call>) {
    && (forall i, j :: 0 <= i < j < |calls| ==> calls[i].key != calls[j].key)
    && forall i :: 0 <= i < |calls| ==> calls[i].max == 1 && calls[i].window == 1 && calls[i].now == 0
  }

  lemma {:induction false} KeysMore(calls: seq<Call>, c: Call)
    ensures KeysOf(calls + [c]) == KeysOf(calls) + {c.key}
  {
    assert forall d :: d in calls + [c] <==> d in calls || d == c;
  }

  /** A key not in the table: its call is granted, and the table grows or starts afresh. */
  lemma {:induction false} FirstCall(h: Hits, c: Call)
    requires c.key !in h && c.max == 1
    ensures Step(h, c).1
    ensures Step(h, c).0 == if |h.Keys| < MAX_KEYS then h[c.key := [c.now]] else map[c.key := [c.now]]
  {
    var h' := h[c.key := [c.now]];
    assert h'.Keys == h.Keys + {c.key};
    assert [] + [c.now] == [c.now];
  }

  lemma {:induction false} OneKeyMore(calls: seq<Call>, c: Call)
    requires c.key !in Run(calls) && c.max == 1
    ensures Answer(calls + [c])
    ensures |Run(calls).Keys| < MAX_KEYS ==> Run(calls + [c]).Keys == Run(calls).Keys + {c.key}
    ensures |Run(calls).Keys| >= MAX_KEYS ==> Run(calls + [c]) == map[c.key := [c.now]]
  {
    RunMore(calls, c);
    FirstCall(Run(calls), c);
  }

  lemma {:induction false} LastIsNew(calls: seq<Call>)
    requires OnceEach(calls) && calls != []
    ensures var front, c := calls[..|calls| - 1], calls[|calls| - 1];
      calls == front + [c] && OnceEach(front) && c.key !in KeysOf(front) && c.max == 1
  {}

  /** Up to the bound the table holds every client. */
  lemma {:induction false} TableFills(calls: seq<Call>)
    requires OnceEach(calls) && |calls| <= MAX_KEYS
    ensures Run(calls).Keys == KeysOf(calls) && |KeysOf(calls)| == |calls|
  {
    if calls != [] {
      var front, c := calls[..|calls| - 1], calls[|calls| - 1];
      LastIsNew(calls);
      TableFills(front);
      FillsNext(front, c);
    }
  }

  lemma {:induction false} FillsNext(calls: seq<Call>, c: Call)
    requires Run(calls).Keys == KeysOf(calls) && |KeysOf(calls)| == |calls| && c.key !in KeysOf(calls) && c.max == 1
    ensures KeysOf(calls + [c]) == KeysOf(calls) + {c.key} && |KeysOf(calls + [c])| == |calls + [c]|
    ensures |calls| < MAX_KEYS ==> Run(calls + [c]).Keys == KeysOf(calls + [c])
    ensures |calls| >= MAX_KEYS ==> Run(calls + [c]) == map[c.key := [c.now]]
  {
    KeysMore(calls, c);
    OneKeyMore(calls, c);
  }

  /** One client more, and only that client is left. */
  lemma {:induction false} TableStartsAfresh(calls: seq<Call>)
    requires OnceEach(calls) && |calls| == MAX_KEYS + 1
    ensures Run(calls) == map[calls[MAX_KEYS].key := [calls[MAX_KEYS].now]] && |KeysOf(calls)| == |calls|
  {
    var front, c := calls[..|calls| - 1], calls[|calls| - 1];
    LastIsNew(calls);
    TableFills(front);
    FillsNext(front, c);
  }

  lemma {:induction false} FirstWasGranted(calls: seq<Call>)
    requires OnceEach(calls) && calls != []
    ensures Granted(calls, calls[0].key) == [0]
  {
    if |calls| == 1 {
      OneKeyMore([], calls[0]);
      assert [] + [calls[0]] == calls;
    } else {
      FirstWasGranted(calls[..|calls| - 1]);
    }
    GrantedMore(calls, calls[0].key);
  }

  lemma {:induction false} GrantedTwice(calls: seq<Call>, again: Call)
    requires Granted(calls, again.key) == [0] && again.now == 0 && again.max == again.window == 1 && Answer(calls + [again])
    ensures Granted(calls + [again], again.key) == [0, 0] && !ByHistory(calls + [again])
  {
    assert (calls + [again])[..|calls|] == calls;
    assert After([], -1) == [] && [0][..0] == [] && [0] + [0] == [0, 0];
  }

  lemma {:induction false} AgainInOrder(calls: seq<Call>)
    requires OnceEach(calls) && calls != []
    ensures InOrder(calls + [calls[0]]) && KeysOf(calls + [calls[0]]) == KeysOf(calls)
  {
    KeysMore(calls, calls[0]);
  }

  /** 20001 clients call once each, then the first again: it is granted a second call within its window. */
  lemma {:induction false} TooManyClients(calls: seq<Call>)
    requires OnceEach(calls) && |calls| == MAX_KEYS + 1
    ensures var again := calls + [calls[0]];
      InOrder(again) && |KeysOf(again)| == MAX_KEYS + 1 && Granted(again, calls[0].key) == [0, 0] && !ByHistory(again)
  {
    AgainInOrder(calls);
    TableStartsAfresh(calls);
    FirstWasGranted(calls);
    assert calls[0].key != calls[MAX_KEYS].key;
    OneKeyMore(calls, calls[0]);
    GrantedTwice(calls, calls[0]);
  }

  /** As many different clients as it takes. */
  lemma {:induction false} Clients(n: nat) returns (calls: seq<Call>)
    ensures |calls| == n && OnceEach(calls)
  {
    calls := [];
    for k := 0 to n
      invariant |calls| == k && OnceEach(calls) && forall i :: 0 <= i < k ==> |calls[i].key.client| == i
    {
      calls := calls + [Call(Key("order", seq(k, j => 'a')), 1, 1, 0)];
    }
  }

  /** The pruned table answers like the full history exactly as long as it holds all keys. */
  lemma {:induction false} HistoryExactly(n: nat)
    ensures AllByHistory(n) <==> n <= 20_000
  {
    if n <= MAX_KEYS {
      forall calls | calls != [] && InOrder(calls) && |KeysOf(calls)| <= n
        ensures ByHistory(calls)
      {
        AnswersFromHistory(calls);
      }
    } else {
      var calls := Clients(MAX_KEYS + 1);
      TooManyClients(calls);
      assert calls + [calls[0]] != [];
    }
  }

  class Limiter {
    var hits: Hits
    ghost var calls: seq<Call>          // every call so far

    ghost predicate Valid()
      reads this
    {
      hits == Run(calls)
    }

    constructor ()
      ensures Valid() && calls == []
    {
      hits, calls := map[], [];
    }

    method Prune(key: Key, cut: int) returns (keep: seq<int>)
      ensures keep == After(TimesOf(hits, key), cut)
    {
      var times := TimesOf(hits, key);
      keep := [];
      for i := 0 to |times|
        invariant keep == After(times[..i], cut)
      {
        assert times[..i + 1][..i] == times[..i];
        if times[i] > cut {
          keep := keep + [times[i]];
        }
      }
      assert times[..|times|] == times;
    }

    /** The change to the table. */
    method Record(key: Key, max: int, window: int, now: int) returns (ok: bool)
      modifies this`hits
      ensures (hits, ok) == Step(old(hits), Call(key, max, window, now))
    {
      var keep := Prune(key, now - window);
      if |keep| >= max {
        hits := hits[key := keep];
        return false;
      }
      hits := hits[key := keep + [now]];
      if |hits.Keys| > MAX_KEYS {
        hits := map[key := hits[key]];
      }
      return true;
    }

    /** allow: grants unless the window is full, whatever the calls before; with orderly calls that means the window of the whole history. */
    method Allow(key: Key, max: int, window: int, now: int) returns (ok: bool)
      requires Valid()
      modifies this
      ensures Valid() && calls == old(calls) + [Call(key, max, window, now)] && ok == Answer(calls)
      ensures FromHistory(old(calls), Call(key, max, window, now), ok)
    {
      NextAnswer(calls, Call(key, max, window, now));
      ok := Record(key, max, window, now);
      calls := calls + [Call(key, max, window, now)];
    }
  }
}
