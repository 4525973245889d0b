/** Two creator upgrades of one relay session that overlap: when they do, and that each of the
    session's tokens then admits two sockets. */
module RelayRaces {
  import opened Common
  import P = RelayPipe
  import opened RelayTable
  import opened RelaySafety

  // ---------------------------------------------------------------------------
  // An upgrade on its way

  predicate SameRecord(a: Arc, b: Arc) {
    b.sid == a.sid && b.tokenA == a.tokenA && b.tokenB == a.tokenB && b.guests == a.guests
  }

  /** What stays of the upgrades while upgrade `h` moves on to `stage`. */
  ghost predicate Advances(before: seq<Arc>, after: seq<Arc>, h: nat, stage: Stage) {
    |after| == |before| && h < |before| && after[h].stage == stage
    && (forall k :: 0 <= k < |before| && k != h ==> after[k].stage == before[k].stage)
    && (forall k :: 0 <= k < |before| ==> SameRecord(before[k], after[k]))
  }

  predicate Listed(s: State, h: nat) {
    h < |s.arcs| && s.arcs[h].sid in s.pending && s.pending[s.arcs[h].sid] == h
  }

  lemma BuildAdvances(cfg: Config, s: State, h: nat)
    requires h < |s.arcs| && s.arcs[h].stage == Cloned
    ensures Enabled(cfg, s, Build(h)) && Advances(s.arcs, Step(cfg, s, Build(h)).arcs, h, Built)
  {}

  lemma RemoveAdvances(cfg: Config, s: State, h: nat)
    requires h < |s.arcs| && s.arcs[h].stage == Built
    ensures Enabled(cfg, s, RemoveInit(h)) && Advances(s.arcs, Step(cfg, s, RemoveInit(h)).arcs, h, Removed)
  {}

  lemma UnlistedRecords(s: State, sid: string)
    ensures var after := Unlisted(s, sid).arcs;
            |after| == |s.arcs|
            && forall k :: 0 <= k < |s.arcs| ==> SameRecord(s.arcs[k], after[k]) && after[k].stage == s.arcs[k].stage
  {
    hide Forget;
    if sid in s.pending && s.pending[sid] < |s.arcs| {
      ForgetKeeps(s.arcs[s.pending[sid]]);
    }
  }

  lemma PublishAdvances(cfg: Config, s: State, h: nat)
    requires h < |s.arcs| && s.arcs[h].stage == Removed
    ensures Enabled(cfg, s, InsertPending(h)) && Advances(s.arcs, Step(cfg, s, InsertPending(h)).arcs, h, Serving)
    ensures Listed(Step(cfg, s, InsertPending(h)), h)
  {
    hide Published, Unlisted;
    UnlistedRecords(s, s.arcs[h].sid);
  }

  lemma AdvancesTwice(first: seq<Arc>, second: seq<Arc>, third: seq<Arc>, h: nat, stage: Stage, last: Stage)
    requires Advances(first, second, h, stage) && Advances(second, third, h, last)
    ensures Advances(first, third, h, last)
  {}

  /** An upgrade that has cloned its entry can be carried to its end, whatever else is under way,
      and then its record is the one under its session id. */
  lemma UpgradeFinishes(cfg: Config, s: State, h: nat)
    requires h < |s.arcs| && s.arcs[h].stage in {Cloned, Built}
    ensures exists es, t :: Reaches(Racing, cfg, s, es, t) && Advances(s.arcs, t.arcs, h, Serving) && Listed(t, h)
    decreases s.arcs[h].stage.Cloned?
  {
    hide Step, Enabled, Reaches, Listed, SameRecord;
    if s.arcs[h].stage == Cloned {
      BuildAdvances(cfg, s, h);
      OneStep(Racing, cfg, s, Build(h));
      var t := Step(cfg, s, Build(h));
      UpgradeFinishes(cfg, t, h);
      var es, u :| Reaches(Racing, cfg, t, es, u) && Advances(t.arcs, u.arcs, h, Serving) && Listed(u, h);
      RunThenRun(Racing, cfg, s, [Build(h)], t, es, u);
      AdvancesTwice(s.arcs, t.arcs, u.arcs, h, Built, Serving);
    } else {
      RemoveAdvances(cfg, s, h);
      var t := Step(cfg, s, RemoveInit(h));
      PublishAdvances(cfg, t, h);
      OneStep(Racing, cfg, s, RemoveInit(h));
      RunThenStep(Racing, cfg, s, [RemoveInit(h)], t, InsertPending(h));
      AdvancesTwice(s.arcs, t.arcs, Step(cfg, t, InsertPending(h)).arcs, h, Removed, Serving);
    }
  }

  /** Record `h` has admitted a joiner with the second token; nothing else has changed. */
  ghost predicate AdmitsOne(before: seq<Arc>, after: seq<Arc>, h: nat) {
    |after| == |before| && h < |before|
    && after[h].sid == before[h].sid && after[h].tokenA == before[h].tokenA && after[h].tokenB == before[h].tokenB
    && after[h].stage == Serving
    && after[h].guests == before[h].guests + [before[h].tokenB]
    && forall k :: 0 <= k < |before| && k != h ==>
         SameRecord(before[k], after[k]) && after[k].stage == before[k].stage
  }

  lemma AdmissionOnly(cfg: Config, s: State, h: nat)
    requires Listed(s, h) && s.arcs[h].stage == Serving
    ensures var e := AdmitJoiner(s.arcs[h].sid, s.arcs[h].tokenB);
            Enabled(cfg, s, e) && AdmitsOne(s.arcs, Step(cfg, s, e).arcs, h)
  {
    hide Admitted;
  }

  lemma AdvanceThenAdmit(first: seq<Arc>, second: seq<Arc>, third: seq<Arc>, h: nat)
    requires Advances(first, second, h, Serving) && AdmitsOne(second, third, h)
    ensures AdmitsOne(first, third, h)
  {}

  /** An upgrade on its way can be carried to its end and its record then admit a joiner. */
  lemma RecordAdmits(cfg: Config, s: State, h: nat)
    requires h < |s.arcs| && s.arcs[h].stage in {Cloned, Built}
    ensures exists es, t :: Reaches(Racing, cfg, s, es, t) && AdmitsOne(s.arcs, t.arcs, h)
  {
    hide Step, Enabled, Reaches, Listed, AdmitsOne, SameRecord;
    UpgradeFinishes(cfg, s, h);
    var es, t :| Reaches(Racing, cfg, s, es, t) && Advances(s.arcs, t.arcs, h, Serving) && Listed(t, h);
    AdmissionOnly(cfg, t, h);
    var e := AdmitJoiner(t.arcs[h].sid, t.arcs[h].tokenB);
    RunThenStep(Racing, cfg, s, es, t, e);
    AdvanceThenAdmit(s.arcs, t.arcs, Step(cfg, t, e).arcs, h);
  }

  // ---------------------------------------------------------------------------
  // Both tokens are admitted twice

  ghost predicate EarlyUpgrade(arcs: seq<Arc>, sid: string) {
    exists h :: 0 <= h < |arcs| && arcs[h].sid == sid && arcs[h].stage in {Cloned, Built}
  }

  predicate HasRecord(arcs: seq<Arc>, sid: string) {
    exists h :: 0 <= h < |arcs| && arcs[h].sid == sid
  }

  /** While a session is in the first table, an upgrade of it has not yet removed it from there. */
  lemma RecordIsEarly(s: State, sid: string)
    requires Inv(s) && sid in s.init
    ensures HasRecord(s.arcs, sid) <==> EarlyUpgrade(s.arcs, sid)
  {
    hide ArcsOk, TableOk;
    if HasRecord(s.arcs, sid) {
      var h :| 0 <= h < |s.arcs| && s.arcs[h].sid == sid;
      assert s.arcs[h].stage !in {Removed, Serving};
      assert s.arcs[h].stage.Cloned? || s.arcs[h].stage.Built?;
    }
  }

  /** A creator is admitted with an already used first token exactly when an earlier upgrade of
      the same session has not yet removed the entry: this race is the only way. */
  lemma SecondCreatorIffOverlap(cfg: Config, es: seq<Event>, s: State, sid: string, token: string)
    requires Reaches(Racing, cfg, START, es, s) && Enabled(cfg, s, CloneInit(sid, token))
    ensures (exists h :: 0 <= h < |s.arcs| && s.arcs[h].sid == sid && s.arcs[h].tokenA == token)
       <==> EarlyUpgrade(s.arcs, sid)
  {
    hide P.Inv;
    ReachableInv(Racing, cfg, es, s);
    assert token == s.sessions[sid].tokenA;
    forall h | 0 <= h < |s.arcs| && s.arcs[h].sid == sid
      ensures s.arcs[h].stage in {Cloned, Built} && s.arcs[h].tokenA == token
    {
      PartOfInv(s, h);
    }
  }

  /** A joiner showed the session's second token to this record, and no other joiner did. */
  predicate AdmittedOne(s: State, h: nat, sid: string) {
    h < |s.arcs| && s.arcs[h].sid == sid && s.arcs[h].guests == [s.arcs[h].tokenB]
  }

  lemma NoGuestsYet(s: State, h: nat)
    requires Inv(s) && h < |s.arcs| && s.arcs[h].stage != Serving
    ensures s.arcs[h].guests == []
  {
    PartOfInv(s, h);
  }

  /** From any state with two upgrades of one session before their removal, both come to serve a
      creator and to admit a joiner: each of the two tokens is used twice. */
  lemma OverlapAdmitsTwoJoiners(cfg: Config, s: State, h: nat, k: nat, sid: string)
    requires Inv(s) && h < |s.arcs| && k < |s.arcs| && h != k
    requires s.arcs[h].sid == s.arcs[k].sid == sid
    requires s.arcs[h].stage in {Cloned, Built} && s.arcs[k].stage in {Cloned, Built}
    ensures exists es, t :: Reaches(Racing, cfg, s, es, t) && AdmittedOne(t, h, sid) && AdmittedOne(t, k, sid)
  {
    hide Inv, Reaches;
    NoGuestsYet(s, h);
    NoGuestsYet(s, k);
    RecordAdmits(cfg, s, h);
    var es, t :| Reaches(Racing, cfg, s, es, t) && AdmitsOne(s.arcs, t.arcs, h);
    RecordAdmits(cfg, t, k);
    var fs, u :| Reaches(Racing, cfg, t, fs, u) && AdmitsOne(t.arcs, u.arcs, k);
    RunThenRun(Racing, cfg, s, es, t, fs, u);
  }

  lemma AdmittedEarlier(cfg: Config, s: State, sid: string, token: string, h: nat, fs: seq<Event>, t: State)
    requires Enabled(cfg, s, CloneInit(sid, token)) && h < |s.arcs| && AdmittedOne(t, h, sid)
    requires Reaches(Racing, cfg, Step(cfg, s, CloneInit(sid, token)), fs, t)
    ensures s.arcs[h].sid == sid
  {
    hide Reaches;
    RunKeepsSessions(Racing, cfg, Step(cfg, s, CloneInit(sid, token)), fs, t);
  }

  /** When the second token admits two joiners: a creator upgrade can be followed by a run in which
      its record and an earlier one of the session each admit a joiner exactly when an earlier
      upgrade of the session has not yet removed its entry. */
  lemma SecondTokenAdmitsTwiceIffOverlap(cfg: Config, es: seq<Event>, s: State, sid: string, token: string)
    requires Reaches(Racing, cfg, START, es, s) && Enabled(cfg, s, CloneInit(sid, token))
    ensures EarlyUpgrade(s.arcs, sid)
       <==> exists h, fs, t :: 0 <= h < |s.arcs| && Reaches(Racing, cfg, Step(cfg, s, CloneInit(sid, token)), fs, t)
              && AdmittedOne(t, h, sid) && AdmittedOne(t, |s.arcs|, sid)
  {
    hide Inv, Reaches, AdmittedOne, MovesOn;
    ReachableInv(Racing, cfg, es, s);
    RecordIsEarly(s, sid);
    var u := Step(cfg, s, CloneInit(sid, token));
    StepKeepsInv(cfg, s, CloneInit(sid, token));
    if EarlyUpgrade(s.arcs, sid) {
      var h: nat :| h < |s.arcs| && s.arcs[h].sid == sid && s.arcs[h].stage in {Cloned, Built};
      OverlapAdmitsTwoJoiners(cfg, u, h, |s.arcs|, sid);
    }
    forall h: nat, fs, t |
      h < |s.arcs| && Reaches(Racing, cfg, u, fs, t) && AdmittedOne(t, h, sid) && AdmittedOne(t, |s.arcs|, sid)
      ensures HasRecord(s.arcs, sid)
    {
      AdmittedEarlier(cfg, s, sid, token, h, fs, t);
    }
  }

  // ---------------------------------------------------------------------------
  // Over whole runs

  /** Some event of the run clones the entry of a session that an earlier upgrade has not removed. */
  ghost predicate Overlaps(cfg: Config, before: State, es: seq<Event>, sid: string)
    decreases |es|
  {
    es != [] && Enabled(cfg, before, es[0])
    && ((es[0].CloneInit? && es[0].sid == sid && EarlyUpgrade(before.arcs, sid))
        || Overlaps(cfg, Step(cfg, before, es[0]), es[1..], sid))
  }

  ghost predicate TwoRecords(arcs: seq<Arc>, sid: string) {
    exists h, k :: 0 <= h < k < |arcs| && arcs[h].sid == arcs[k].sid == sid
  }

  lemma SecondRecord(s: State, e: Event, t: State, sid: string)
    requires MovesOn(s, e, t)
    ensures TwoRecords(t.arcs, sid)
       <==> TwoRecords(s.arcs, sid) || (e.CloneInit? && e.sid == sid && HasRecord(s.arcs, sid))
  {
    hide InitMovesOn, PendingMovesOn, SameClock;
    if TwoRecords(s.arcs, sid) {
      var h: nat, k: nat :| h < k < |s.arcs| && s.arcs[h].sid == s.arcs[k].sid == sid;
      assert t.arcs[h].sid == t.arcs[k].sid == sid;
    } else if e.CloneInit? && e.sid == sid && HasRecord(s.arcs, sid) {
      var h: nat :| h < |s.arcs| && s.arcs[h].sid == sid;
      assert t.arcs[h].sid == t.arcs[|s.arcs|].sid == sid;
    }
  }

  lemma {:induction false} RunDoubles(cfg: Config, before: State, es: seq<Event>, after: State, sid: string)
    requires Inv(before) && Reaches(Racing, cfg, before, es, after)
    ensures TwoRecords(after.arcs, sid) <==> TwoRecords(before.arcs, sid) || Overlaps(cfg, before, es, sid)
    decreases |es|
  {
    hide Inv, MovesOn, Step, TwoRecords, EarlyUpgrade, HasRecord;
    if es != [] {
      var e, t := es[0], Step(cfg, before, es[0]);
      StepKeepsInv(cfg, before, e);
      StepMovesOn(cfg, before, e);
      SecondRecord(before, e, t, sid);
      if e.CloneInit? {
        RecordIsEarly(before, e.sid);
      }
      RunDoubles(cfg, t, es[1..], after, sid);
    }
  }

  /** Over whole runs: a session has two records if and only if two of its upgrades overlapped, and
      each record admits one joiner at most. Without an overlap no second joiner ever comes. */
  lemma TwoRecordsIffOverlap(cfg: Config, es: seq<Event>, s: State, sid: string)
    requires Reaches(Racing, cfg, START, es, s)
    ensures TwoRecords(s.arcs, sid) <==> Overlaps(cfg, START, es, sid)
    ensures forall h :: 0 <= h < |s.arcs| && s.arcs[h].sid == sid ==>
              s.arcs[h].guests == [] || AdmittedOne(s, h, sid)
  {
    StartInv();
    ReachableInv(Racing, cfg, es, s);
    hide Inv, Reaches, Overlaps;
    RunDoubles(cfg, START, es, s, sid);
    forall h: nat | h < |s.arcs| && s.arcs[h].sid == sid
      ensures s.arcs[h].guests == [] || AdmittedOne(s, h, sid)
    {
      PartOfInv(s, h);
      PipeRendezvous(s.arcs[h].pipe);
    }
  }

  // ---------------------------------------------------------------------------
  // A run from the empty tables

  lemma BothClone(cfg: Config, id: string, tokens: Session)
    ensures exists es, s :: Reaches(Racing, cfg, START, es, s)
              && |s.arcs| == 2 && s.arcs[0].sid == s.arcs[1].sid == id
              && s.arcs[0].tokenA == s.arcs[1].tokenA == tokens.tokenA
              && s.arcs[0].tokenB == s.arcs[1].tokenB == tokens.tokenB
              && s.arcs[0].guests == s.arcs[1].guests == []
              && s.arcs[0].stage == s.arcs[1].stage == Cloned
  {
    var created := START.(sessions := map[id := tokens], init := map[id := Initialized(tokens, 0)]);
    var first := Arc(id, tokens.tokenA, tokens.tokenB, 0, 0, Cloned, [], P.NEW_PIPE);
    var es := [CreateCheck, CreateInsert(id, tokens), CloneInit(id, tokens.tokenA), CloneInit(id, tokens.tokenA)];
    var s := created.(arcs := [first, first]);
    hide P.Enabled, P.Step, PublishArc, RunTask, SweptArcs;
    assert Step(cfg, Step(cfg, START, es[0]), es[1]) == created;
    assert Step(cfg, created, es[2]) == created.(arcs := [first]);
    assert Step(cfg, created.(arcs := [first]), es[3]) == s;
    assert es[1..][1..][1..][1..] == [];
    assert Reaches(Racing, cfg, s, es[1..][1..][1..][1..], s);
    assert Reaches(Racing, cfg, created.(arcs := [first]), es[1..][1..][1..], s);
    assert Reaches(Racing, cfg, created, es[1..][1..], s);
    assert Reaches(Racing, cfg, START, es, s);
  }

  /** Two creator upgrades that overlap both succeed, whatever the configuration: one first token
      ends up with two records, each serving a creator's socket, and the second token has admitted
      a joiner to each. */
  lemma OverlappingUpgradesBothSucceed(cfg: Config, id: string, tokens: Session)
    ensures exists es, s :: Reaches(Racing, cfg, START, es, s)
              && |s.arcs| == 2 && s.arcs[0].sid == s.arcs[1].sid == id
              && s.arcs[0].tokenA == s.arcs[1].tokenA == tokens.tokenA
              && s.arcs[0].stage == s.arcs[1].stage == Serving
              && s.arcs[0].guests == s.arcs[1].guests == [tokens.tokenB]
  {
    hide Reaches;
    BothClone(cfg, id, tokens);
    var es, s :| Reaches(Racing, cfg, START, es, s)
                 && |s.arcs| == 2 && s.arcs[0].sid == s.arcs[1].sid == id
                 && s.arcs[0].tokenA == s.arcs[1].tokenA == tokens.tokenA
                 && s.arcs[0].tokenB == s.arcs[1].tokenB == tokens.tokenB
                 && s.arcs[0].guests == s.arcs[1].guests == []
                 && s.arcs[0].stage == s.arcs[1].stage == Cloned;
    RecordAdmits(cfg, s, 0);
    var fs, t :| Reaches(Racing, cfg, s, fs, t) && AdmitsOne(s.arcs, t.arcs, 0);
    RecordAdmits(cfg, t, 1);
    var gs, u :| Reaches(Racing, cfg, t, gs, u) && AdmitsOne(t.arcs, u.arcs, 1);
    RunThenRun(Racing, cfg, START, es, s, fs, t);
    RunThenRun(Racing, cfg, START, es + fs, t, gs, u);
  }
}
