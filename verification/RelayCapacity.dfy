/** How many sessions the relay tables can hold: the bound, that it is reached, and so when the
    configured maximum holds. */
module RelayCapacity {
  import opened Common
  import opened RelayTable
  import opened RelaySafety

  // ---------------------------------------------------------------------------
  // The bound

  function UpgradingSids(arcs: seq<Arc>): set<string> {
    set h | h in Upgrading(arcs) :: arcs[h].sid
  }

  /** The sessions that hold a table entry or are about to. */
  function Occupied(s: State): set<string> {
    s.init.Keys + s.pending.Keys + UpgradingSids(s.arcs)
  }

  lemma {:induction false} ImageSize(ids: set<nat>, arcs: seq<Arc>)
    requires forall h :: h in ids ==> h < |arcs|
    ensures |set h | h in ids :: arcs[h].sid| <= |ids|
  {
    if ids != {} {
      var k :| k in ids;
      ImageSize(ids - {k}, arcs);
      assert (set h | h in ids :: arcs[h].sid) == (set h | h in ids - {k} :: arcs[h].sid) + {arcs[k].sid};
    }
  }

  ghost predicate UnderCap(cfg: Config, s: State, m: nat) {
    cfg.maxSessions > 0 ==> |Occupied(s)| + s.creating <= cfg.maxSessions - 1 + m
  }

  lemma UpgradingSize(arcs: seq<Arc>)
    ensures |UpgradingSids(arcs)| <= |Upgrading(arcs)|
  {
    ImageSize(Upgrading(arcs), arcs);
  }

  lemma CheckKeepsCap(cfg: Config, s: State, m: nat)
    requires Inv(s) && Enabled(cfg, s, CreateCheck) && s.creating + 1 + |Upgrading(s.arcs)| <= m
    ensures UnderCap(cfg, s.(creating := s.creating + 1), m)
  {
    hide Inv, Upgrading, UpgradingSids;
    TablesSize(s);
    UpgradingSize(s.arcs);
    UnionSize(s.init.Keys + s.pending.Keys, UpgradingSids(s.arcs));
  }

  lemma OccupiedShrinksWhen(s: State, e: Event, t: State)
    requires !e.CreateInsert? && MovesOn(s, e, t)
    requires e.CloneInit? ==> e.sid in s.init
    requires e.InsertPending? ==> e.h in Upgrading(s.arcs)
    ensures Occupied(t) <= Occupied(s)
  {
    forall h | h in Upgrading(t.arcs)
      ensures t.arcs[h].sid in Occupied(s)
    {
      if h < |s.arcs| {
        assert h in Upgrading(s.arcs);
      }
    }
  }

  /** No other step adds to the sessions that are or will be in a table, and creations under way. */
  lemma OccupiedShrinks(cfg: Config, s: State, e: Event)
    requires Enabled(cfg, s, e) && !e.CreateCheck? && !e.CreateInsert?
    ensures Occupied(Step(cfg, s, e)) <= Occupied(s)
  {
    hide Step;
    StepMovesOn(cfg, s, e);
    OccupiedShrinksWhen(s, e, Step(cfg, s, e));
  }

  lemma InsertKeepsCap(cfg: Config, s: State, id: string, tokens: Session, m: nat)
    requires Enabled(cfg, s, CreateInsert(id, tokens)) && UnderCap(cfg, s, m)
    ensures UnderCap(cfg, Step(cfg, s, CreateInsert(id, tokens)), m)
  {
    hide UpgradingSids;
    UnionSize(Occupied(s), {id});
    Smaller(Occupied(Step(cfg, s, CreateInsert(id, tokens))), Occupied(s) + {id});
  }

  lemma PublishLeavesCreating(s: State, h: nat)
    requires h < |s.arcs|
    ensures PublishArc(s, h).creating == s.creating
  {}

  lemma CreatingShrinks(cfg: Config, s: State, e: Event)
    requires Enabled(cfg, s, e) && !e.CreateCheck?
    ensures Step(cfg, s, e).creating <= s.creating
  {
    hide PublishArc, SweptArcs, StalePending, Stale;
    if e.InsertPending? {
      PublishLeavesCreating(s, e.h);
    }
  }

  lemma StepKeepsCap(cfg: Config, s: State, e: Event, m: nat)
    requires Inv(s) && Enabled(cfg, s, e) && UnderCap(cfg, s, m) && Allows(Limited(m), cfg, s, e)
    ensures UnderCap(cfg, Step(cfg, s, e), m)
  {
    hide Inv, Upgrading, UpgradingSids, PublishArc, RunTask, SweptArcs, Occupied, Admitted;
    if e.CreateCheck? {
      CheckKeepsCap(cfg, s, m);
    } else if e.CreateInsert? {
      InsertKeepsCap(cfg, s, e.id, e.tokens, m);
    } else {
      OccupiedShrinks(cfg, s, e);
      Smaller(Occupied(Step(cfg, s, e)), Occupied(s));
      CreatingShrinks(cfg, s, e);
    }
  }

  lemma {:induction false} RunKeepsCap(cfg: Config, before: State, es: seq<Event>, after: State, m: nat)
    requires Inv(before) && UnderCap(cfg, before, m) && Reaches(Limited(m), cfg, before, es, after)
    ensures UnderCap(cfg, after, m)
    decreases |es|
  {
    hide Inv, Step, Enabled, UnderCap, Allows;
    if es != [] {
      StepKeepsInv(cfg, before, es[0]);
      StepKeepsCap(cfg, before, es[0], m);
      RunKeepsCap(cfg, Step(cfg, before, es[0]), es[1..], after, m);
    }
  }

  /** With at most `m` creations and creator upgrades under way at any time, the tables hold at most
      `maxSessions - 1 + m` sessions, those of the creations included that have passed the check. */
  lemma SessionCap(cfg: Config, es: seq<Event>, s: State, m: nat)
    requires cfg.maxSessions > 0 && Reaches(Limited(m), cfg, START, es, s)
    ensures |s.init| + |s.pending| + s.creating <= cfg.maxSessions - 1 + m
  {
    StartInv();
    assert Occupied(START) == {};
    hide Reaches, Inv, Upgrading;
    RunKeepsCap(cfg, START, es, s, m);
    ReachableInv(Limited(m), cfg, es, s);
    TablesSize(s);
    Smaller(s.init.Keys + s.pending.Keys, Occupied(s));
  }

  /** Handlers that run one at a time, upgrades among them, never exceed the configured maximum. */
  lemma SessionCapOneAtATime(cfg: Config, es: seq<Event>, s: State)
    requires cfg.maxSessions > 0 && Reaches(Limited(1), cfg, START, es, s)
    ensures |s.init| + |s.pending| <= cfg.maxSessions
  {
    hide Reaches;
    SessionCap(cfg, es, s, 1);
  }

  lemma {:induction false} CappedIsLimited(cfg: Config, before: State, es: seq<Event>, after: State, c: nat, r: nat)
    requires Reaches(Capped(c, r), cfg, before, es, after)
    ensures Reaches(Limited(c + r), cfg, before, es, after)
    decreases |es|
  {
    hide Step, Enabled, Upgrading;
    if es != [] {
      CappedIsLimited(cfg, Step(cfg, before, es[0]), es[1..], after, c, r);
    }
  }

  /** With separate bounds, at most `c` creations and at most `r` upgrades. */
  lemma SessionCapByKind(cfg: Config, es: seq<Event>, s: State, c: nat, r: nat)
    requires cfg.maxSessions > 0 && Reaches(Capped(c, r), cfg, START, es, s)
    ensures |s.init| + |s.pending| + s.creating <= cfg.maxSessions - 1 + c + r
  {
    hide Reaches;
    CappedIsLimited(cfg, START, es, s, c, r);
    SessionCap(cfg, es, s, c + r);
  }

  // ---------------------------------------------------------------------------
  // The bound is reached

  const TOKENS := Session("a", "b")

  function Sessions(n: nat): (sessions: map<string, Session>)
    ensures forall id :: id in sessions ==> |id| < n && sessions[id] == TOKENS
    ensures |sessions| == n
  {
    if n == 0 then map[] else Sessions(n - 1)[Name(n - 1) := TOKENS]
  }

  /** The entries of sessions created at the beginning. */
  function Entries(n: nat): (init: map<string, Initialized>)
    ensures forall id :: id in init ==> |id| < n
    ensures |init| == n
  {
    if n == 0 then map[] else Entries(n - 1)[Name(n - 1) := Initialized(TOKENS, 0)]
  }

  /** `n` sessions have been created and `checked` creations are past their check. */
  function Filled(n: nat, checked: nat): State {
    START.(sessions := Sessions(n), init := Entries(n), creating := checked)
  }

  lemma OneMoreCheck(cfg: Config, m: nat, n: nat, checked: nat)
    requires n < cfg.maxSessions && checked + 1 <= m
    ensures Enabled(cfg, Filled(n, checked), CreateCheck)
    ensures Allows(Limited(m), cfg, Filled(n, checked), CreateCheck)
    ensures Step(cfg, Filled(n, checked), CreateCheck) == Filled(n, checked + 1)
  {
    assert Upgrading([]) == {};
  }

  lemma OneMoreSession(cfg: Config, m: nat, n: nat, checked: nat)
    requires 0 < checked <= m
    ensures Enabled(cfg, Filled(n, checked), CreateInsert(Name(n), TOKENS))
    ensures Allows(Limited(m), cfg, Filled(n, checked), CreateInsert(Name(n), TOKENS))
    ensures Step(cfg, Filled(n, checked), CreateInsert(Name(n), TOKENS)) == Filled(n + 1, checked - 1)
  {
    assert Upgrading([]) == {};
  }

  function Checks(k: nat): seq<Event> {
    if k == 0 then [] else Checks(k - 1) + [CreateCheck]
  }

  function Inserts(n: nat, k: nat): seq<Event> {
    if k == 0 then [] else Inserts(n, k - 1) + [CreateInsert(Name(n + k - 1), TOKENS)]
  }

  lemma {:induction false} ManyChecks(cfg: Config, m: nat, n: nat, k: nat)
    requires n < cfg.maxSessions && k <= m
    ensures Reaches(Limited(m), cfg, Filled(n, 0), Checks(k), Filled(n, k))
  {
    hide Enabled, Allows, Step, Filled, Name;
    if k > 0 {
      ManyChecks(cfg, m, n, k - 1);
      OneMoreCheck(cfg, m, n, k - 1);
      RunThenStep(Limited(m), cfg, Filled(n, 0), Checks(k - 1), Filled(n, k - 1), CreateCheck);
    }
  }

  lemma {:induction false} ManySessions(cfg: Config, m: nat, n: nat, checked: nat, k: nat)
    requires k <= checked <= m
    ensures Reaches(Limited(m), cfg, Filled(n, checked), Inserts(n, k), Filled(n + k, checked - k))
  {
    hide Enabled, Allows, Step, Filled, Name;
    if k > 0 {
      ManySessions(cfg, m, n, checked, k - 1);
      OneMoreSession(cfg, m, n + k - 1, checked - (k - 1));
      RunThenStep(Limited(m), cfg, Filled(n, checked), Inserts(n, k - 1), Filled(n + k - 1, checked - (k - 1)),
                  CreateInsert(Name(n + k - 1), TOKENS));
    }
  }

  /** `k` creations, one after the other. */
  function OneByOne(k: nat): seq<Event> {
    if k == 0 then [] else OneByOne(k - 1) + (Checks(1) + Inserts(k - 1, 1))
  }

  lemma {:induction false} FillOneByOne(cfg: Config, m: nat, k: nat)
    requires k <= cfg.maxSessions && 1 <= m
    ensures Reaches(Limited(m), cfg, Filled(0, 0), OneByOne(k), Filled(k, 0))
  {
    hide Enabled, Allows, Step, Filled, Checks, Inserts;
    if k > 0 {
      FillOneByOne(cfg, m, k - 1);
      ManyChecks(cfg, m, k - 1, 1);
      ManySessions(cfg, m, k - 1, 1, 1);
      RunThenRun(Limited(m), cfg, Filled(k - 1, 0), Checks(1), Filled(k - 1, 1), Inserts(k - 1, 1), Filled(k, 0));
      RunThenRun(Limited(m), cfg, Filled(0, 0), OneByOne(k - 1), Filled(k - 1, 0), Checks(1) + Inserts(k - 1, 1),
                 Filled(k, 0));
    }
  }

  /** A table one short of full, and then `m` creations that all check before any inserts. */
  function Overfill(cfg: Config, m: nat): seq<Event>
    requires cfg.maxSessions > 0
  {
    OneByOne(cfg.maxSessions - 1) + Checks(m) + Inserts(cfg.maxSessions - 1, m)
  }

  lemma NothingFilled()
    ensures START == Filled(0, 0)
  {}

  lemma FilledSize(n: nat, checked: nat)
    ensures |Filled(n, checked).init| + |Filled(n, checked).pending| == n
  {}

  /** For every number of overlapping handlers the bound is reached. */
  lemma SessionCapIsReached(cfg: Config, m: nat)
    requires cfg.maxSessions > 0 && m > 0
    ensures Reaches(Limited(m), cfg, START, Overfill(cfg, m), Filled(cfg.maxSessions - 1 + m, 0))
    ensures var s := Filled(cfg.maxSessions - 1 + m, 0); |s.init| + |s.pending| == cfg.maxSessions - 1 + m
  {
    hide Reaches, Checks, Inserts, OneByOne, Filled;
    var n := cfg.maxSessions - 1;
    NothingFilled();
    FillOneByOne(cfg, m, n);
    ManyChecks(cfg, m, n, m);
    ManySessions(cfg, m, n, m, m);
    RunThenRun(Limited(m), cfg, START, OneByOne(n), Filled(n, 0), Checks(m), Filled(n, m));
    RunThenRun(Limited(m), cfg, START, OneByOne(n) + Checks(m), Filled(n, m), Inserts(n, m), Filled(n + m, 0));
    FilledSize(n + m, 0);
  }

  /** The configured maximum holds in all runs with at most `m` creations and upgrades under way if
      and only if `m` is at most one: any two handlers that may overlap can exceed it. */
  lemma SessionMaximumHoldsIff(cfg: Config, m: nat)
    requires cfg.maxSessions > 0
    ensures (forall es, s :: Reaches(Limited(m), cfg, START, es, s) ==> |s.init| + |s.pending| <= cfg.maxSessions)
       <==> m <= 1
  {
    hide Reaches, Filled;
    if m <= 1 {
      forall es, s | Reaches(Limited(m), cfg, START, es, s)
        ensures |s.init| + |s.pending| <= cfg.maxSessions
      {
        SessionCap(cfg, es, s, m);
      }
    } else {
      SessionCapIsReached(cfg, m);
    }
  }
}
