/** The message table against the log of everything ever posted: statements that sort rows by id
    and cut at a limit, interleaved as they may be, always speak about the end of the log. */
module RoomHistory {
  import opened Common
  import opened Room

  function Interval(lo: nat, hi: nat): (ids: set<nat>)
    ensures forall i :: i in ids <==> lo <= i < hi
    decreases hi
  {
    if hi <= lo then {} else Interval(lo, hi - 1) + {hi - 1}
  }

  lemma {:induction false} IntervalSize(lo: nat, hi: nat)
    requires lo <= hi
    ensures |Interval(lo, hi)| == hi - lo
  {
    if lo < hi {
      IntervalSize(lo, hi - 1);
    }
  }

  function Max(a: int, b: int): int {
    if a < b then b else a
  }

  function Min(a: nat, b: nat): nat {
    if a < b then a else b
  }

  /** The rows are the posts of the log from position `base` on. */
  ghost predicate Suffix(rows: map<nat, Post>, log: seq<Entry>, base: nat) {
    base <= |log|
    && rows.Keys == Interval(base, |log|)
    && forall i :: base <= i < |log| ==> rows[i] == log[i].post
  }

  lemma {:induction false} NewestOfInterval(lo: nat, hi: nat, n: nat)
    requires lo <= hi
    ensures NewestIds(Interval(lo, hi), n) == Interval(Max(lo, hi - n), hi)
    decreases n
  {
    if n == 0 || lo == hi {
      assert lo == hi ==> Interval(lo, hi) == {};
      assert Interval(Max(lo, hi - n), hi) == {};
    } else {
      assert hi - 1 in Interval(lo, hi);
      assert Largest(Interval(lo, hi)) == hi - 1;
      assert Interval(lo, hi) - {hi - 1} == Interval(lo, hi - 1);
      NewestOfInterval(lo, hi - 1, n - 1);
    }
  }

  function Posts(log: seq<Entry>): (posts: seq<Post>)
    ensures |posts| == |log|
  {
    seq(|log|, i requires 0 <= i < |log| => log[i].post)
  }

  lemma PostsTail(log: seq<Entry>, base: nat, n: nat)
    requires base < |log| && n > 0
    ensures var last := |log| - 1;
            Posts(log)[Max(base, |log| - n)..] == Posts(log[..last])[Max(base, last - (n - 1))..] + [log[last].post]
  {
    var last := |log| - 1;
    assert Posts(log[..last]) == Posts(log)[..last];
  }

  /** A read of at most `n` rows yields the last of the log, in the order of posting. */
  lemma {:induction false} ReadOfSuffix(rows: map<nat, Post>, log: seq<Entry>, base: nat, n: nat)
    requires Suffix(rows, log, base)
    ensures ReadNewest(rows, n) == Posts(log)[Max(base, |log| - n)..]
    decreases n
  {
    if n == 0 || base == |log| {
      assert base == |log| ==> rows.Keys == {};
    } else {
      var last := |log| - 1;
      assert last in rows;
      assert Largest(rows.Keys) == last;
      var shorter := log[..last];
      assert (rows - {last}).Keys == Interval(base, last);
      ReadOfSuffix(rows - {last}, shorter, base, n - 1);
      PostsTail(log, base, n);
    }
  }

  // ---------------------------------------------------------------------------
  // The invariant

  /** The agents that have inserted a message, or failed to, and have not trimmed yet. */
  function Filing(agents: seq<Agent>): set<nat> {
    set p: nat | p < |agents| && agents[p].pc.Filed?
  }

  ghost predicate HistoryOk(cfg: Config, s: State) {
    |s.rows| <= |s.log|
    && Suffix(s.rows, s.log, |s.log| - |s.rows|)
    && (|s.rows| == |s.log| || cfg.limit <= |s.rows|)
    && |s.rows| <= cfg.limit + |Filing(s.agents)| + s.failedTrims
  }

  lemma TrimOfSuffix(rows: map<nat, Post>, log: seq<Entry>, base: nat, n: nat)
    requires Suffix(rows, log, base)
    ensures Suffix(Trim(rows, n), log, Max(base, |log| - n)) && |Trim(rows, n)| == Min(|rows|, n)
  {
    NewestOfInterval(base, |log|, n);
    var kept := Max(base, |log| - n);
    assert Trim(rows, n).Keys == Interval(kept, |log|);
    IntervalSize(base, |log|);
    IntervalSize(kept, |log|);
  }

  lemma OneFilingMore(agents: seq<Agent>, p: nat, a: Agent)
    requires p < |agents| && !agents[p].pc.Filed? && a.pc.Filed?
    ensures |Filing(agents[p := a])| == |Filing(agents)| + 1
  {
    assert Filing(agents[p := a]) == Filing(agents) + {p};
  }

  lemma OneFilingLess(agents: seq<Agent>, p: nat, a: Agent)
    requires p < |agents| && agents[p].pc.Filed? && !a.pc.Filed?
    ensures |Filing(agents[p := a])| == |Filing(agents)| - 1
  {
    assert Filing(agents[p := a]) == Filing(agents) - {p};
  }

  lemma SuffixGrows(rows: map<nat, Post>, log: seq<Entry>, base: nat, e: Entry)
    requires Suffix(rows, log, base)
    ensures Suffix(rows[|log| := e.post], log + [e], base) && |rows[|log| := e.post]| == |rows| + 1
  {
    assert |log| !in rows.Keys;
    assert rows[|log| := e.post].Keys == rows.Keys + {|log|};
  }

  lemma StoreKeepsHistory(cfg: Config, s: State, p: nat, post: Post, stored: bool)
    requires HistoryOk(cfg, s) && p < |s.agents| && s.agents[p].pc.Idle?
    ensures HistoryOk(cfg, Store(cfg, s, p, post, stored))
  {
    hide Filing, Suffix;
    OneFilingMore(s.agents, p, s.agents[p].(pc := Filed(post)));
    SuffixGrows(s.rows, s.log, |s.log| - |s.rows|, Entry(post, p, |s.agents[p].sent|));
  }

  lemma TrimKeepsHistory(cfg: Config, s: State, p: nat, ok: bool)
    requires HistoryOk(cfg, s) && Enabled(cfg, s, TrimHistory(p, ok))
    ensures HistoryOk(cfg, Step(cfg, s, TrimHistory(p, ok)))
  {
    hide Filing, Trim, Interval;
    OneFilingLess(s.agents, p, s.agents[p].(pc := Trimmed(s.agents[p].pc.post)));
    TrimOfSuffix(s.rows, s.log, |s.log| - |s.rows|, cfg.limit);
  }

  ghost predicate SameHistory(s: State, t: State) {
    t.rows == s.rows && t.log == s.log && t.failedTrims == s.failedTrims && |Filing(t.agents)| == |Filing(s.agents)|
  }

  ghost predicate SamePcs(before: seq<Agent>, after: seq<Agent>, p: nat) {
    |before| == |after| && forall q :: 0 <= q < |before| && q != p ==> after[q].pc == before[q].pc
  }

  lemma CloseKeepsPcs(conns: map<string, nat>, agents: seq<Agent>, user: string)
    ensures SamePcs(agents, Close(conns, agents, user), |agents|)
  {}

  lemma RegisterKeepsPcs(s: State, p: nat)
    requires p < |s.agents|
    ensures var t := RegisterAgent(s, p);
            SamePcs(s.agents, t.agents, p) && t.agents[p].pc == Registered
                && t == s.(agents := t.agents, conns := t.conns)
  {
    hide Close, SentCounts;
    CloseKeepsPcs(s.conns, s.agents, s.agents[p].user);
  }

  lemma DeliverKeepsPcs(s: State, p: nat, c: nat)
    requires p < |s.agents| && s.agents[p].pc.Sending? && s.agents[p].sent != []
    ensures var t := Deliver(s, p, c);
            SamePcs(s.agents, t.agents, p) && t.agents[p].pc.Sending? && t == s.(agents := t.agents)
  {}

  lemma SameFiling(before: seq<Agent>, after: seq<Agent>)
    requires |before| <= |after|
    requires forall p :: 0 <= p < |before| ==> (after[p].pc.Filed? <==> before[p].pc.Filed?)
    requires forall p :: |before| <= p < |after| ==> !after[p].pc.Filed?
    ensures Filing(after) == Filing(before)
  {}

  lemma UnregisterSameHistory(cfg: Config, s: State, p: nat)
    requires Enabled(cfg, s, Unregister(p))
    ensures SameHistory(s, Step(cfg, s, Unregister(p)))
  {
    hide Filing, NoReaders, Close;
    CloseKeepsPcs(s.conns, s.agents, s.agents[p].user);
    SameFiling(s.agents, Step(cfg, s, Unregister(p)).agents);
  }

  lemma ElsewhereSameHistory(cfg: Config, s: State, e: Event)
    requires Enabled(cfg, s, e) && !e.Receive? && !e.TrimHistory?
    ensures SameHistory(s, Step(cfg, s, e))
  {
    hide Filing, SentCounts, ReadNewest, NoReaders, NextBody, RegisterAgent, Deliver, Close;
    if e.Register? {
      RegisterKeepsPcs(s, e.p);
      SameFiling(s.agents, RegisterAgent(s, e.p).agents);
    } else if e.Unregister? {
      UnregisterSameHistory(cfg, s, e.p);
    } else if e.Send? && s.agents[e.p].sent != [] {
      DeliverKeepsPcs(s, e.p, e.c);
      SameFiling(s.agents, Deliver(s, e.p, e.c).agents);
    } else {
      SameFiling(s.agents, Step(cfg, s, e).agents);
    }
  }

  lemma StepKeepsHistory(cfg: Config, s: State, e: Event)
    requires HistoryOk(cfg, s) && Enabled(cfg, s, e)
    ensures HistoryOk(cfg, Step(cfg, s, e))
  {
    if e.Receive? {
      StoreKeepsHistory(cfg, s, e.p, Post(s.agents[e.p].user, e.data, e.ts), e.stored);
    } else if e.TrimHistory? {
      TrimKeepsHistory(cfg, s, e.p, e.ok);
    } else {
      ElsewhereSameHistory(cfg, s, e);
    }
  }

  lemma {:induction false} RunKeepsHistory(cfg: Config, before: State, es: seq<Event>, after: State)
    requires HistoryOk(cfg, before) && Reaches(cfg, before, es, after)
    ensures HistoryOk(cfg, after)
    decreases |es|
  {
    hide HistoryOk, Step, Enabled;
    if es != [] {
      StepKeepsHistory(cfg, before, es[0]);
      RunKeepsHistory(cfg, Step(cfg, before, es[0]), es[1..], after);
    }
  }

  /** The table is always the end of the log: at least `limit` messages of it or all there are,
      at most `limit` and one for each agent between its insert and its trim and for each trim
      that failed. */
  lemma TableIsEndOfLog(cfg: Config, es: seq<Event>, s: State)
    requires Reaches(cfg, START, es, s)
    ensures |s.rows| <= |s.log| && Suffix(s.rows, s.log, |s.log| - |s.rows|)
    ensures Min(cfg.limit, |s.log|) <= |s.rows| <= cfg.limit + |Filing(s.agents)| + s.failedTrims
  {
    assert HistoryOk(cfg, START) by {
      assert Interval(0, 0) == {};
    }
    RunKeepsHistory(cfg, START, es, s);
  }

  lemma ReadsEndOfLog(cfg: Config, s: State)
    requires HistoryOk(cfg, s)
    ensures ReadNewest(s.rows, cfg.limit) == Posts(s.log)[Max(0, |s.log| - cfg.limit)..]
  {
    hide Suffix, Filing, ReadNewest, Posts;
    ReadOfSuffix(s.rows, s.log, |s.log| - |s.rows|, cfg.limit);
    assert Max(|s.log| - |s.rows|, |s.log| - cfg.limit) == Max(0, |s.log| - cfg.limit);
  }

  /** A read of the history, whenever it happens, returns exactly the last `limit` messages ever
      inserted, or all of them, in the order of insertion: trimming is invisible. */
  lemma HistoryReadsTheLog(cfg: Config, es: seq<Event>, s: State)
    requires Reaches(cfg, START, es, s)
    ensures ReadNewest(s.rows, cfg.limit) == Posts(s.log)[Max(0, |s.log| - cfg.limit)..]
  {
    TableIsEndOfLog(cfg, es, s);
    hide Reaches, Suffix;
    ReadsEndOfLog(cfg, s);
  }
}
