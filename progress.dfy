/** The learning-progress side of the results page: the three updates of the
    sparse progress map, the set of completed topics, the missing
    prerequisites of a topic, the next suggested topic, the dashboard
    statistics and the lookup of the selected role's roadmap. */
module RoadmapProgress {
  import opened Types
  import opened Catalog
  import opened Collections

  // ---------------------------------------------------------------------------
  // The three updates

  /** The record a topic without one starts from: `{ completed: false }`. */
  const FRESH_RECORD: ProgressDetails := ProgressDetails(false, None, None, None)

  /** `progress[topicId] || { completed: false }`. */
  function RecordOf(progress: Progress, id: string): (d: ProgressDetails)
    ensures id !in progress ==> d == FRESH_RECORD
    ensures id in progress ==> d == progress[id]
  {
    if id in progress then progress[id] else FRESH_RECORD
  }

  /** Only the record of `id` differs between `p` and `p'`, and `p'` has one. */
  predicate OnlyRecordChanged(p: Progress, p': Progress, id: string)
  {
    && p'.Keys == p.Keys + {id}
    && (forall k :: k in p && k != id ==> p'[k] == p[k])
  }

  /** Ticking or unticking a topic: the completion flag is set, the date is
      stamped with `now` when ticked (again, even if it was already ticked)
      and cleared when unticked; hours and notes are kept. */
  function ToggleComplete(progress: Progress, id: string, completed: bool, now: string): (p: Progress)
    ensures OnlyRecordChanged(progress, p, id)
    ensures p[id].completed == completed
    ensures p[id].dateCompleted == (if completed then Some(now) else None)
    ensures p[id].hoursLogged == RecordOf(progress, id).hoursLogged
    ensures p[id].notes == RecordOf(progress, id).notes
  {
    var d := RecordOf(progress, id);
    progress[id := d.(completed := completed, dateCompleted := if completed then Some(now) else None)]
  }

  /** Logging hours replaces only the hours of the one record. The value is
      not checked: it may be zero or negative. */
  function LogHours(progress: Progress, id: string, hours: int): (p: Progress)
    ensures OnlyRecordChanged(progress, p, id)
    ensures p[id] == RecordOf(progress, id).(hoursLogged := Some(hours))
  {
    progress[id := RecordOf(progress, id).(hoursLogged := Some(hours))]
  }

  /** Saving notes replaces only the notes of the one record. */
  function SaveNotes(progress: Progress, id: string, notes: string): (p: Progress)
    ensures OnlyRecordChanged(progress, p, id)
    ensures p[id] == RecordOf(progress, id).(notes := Some(notes))
  {
    progress[id := RecordOf(progress, id).(notes := Some(notes))]
  }

  // ---------------------------------------------------------------------------
  // Completed topics

  /** The ids whose record says completed. */
  function CompletedTopicIds(progress: Progress): (ids: set<string>)
    ensures ids <= progress.Keys
    ensures forall id :: id in ids <==> id in progress && progress[id].completed
  {
    set id | id in progress && progress[id].completed
  }

  /** Ticking adds the topic to the completed set, unticking removes it, and
      nothing else moves. */
  lemma ToggleMovesOnlyTarget(progress: Progress, id: string, completed: bool, now: string)
    ensures CompletedTopicIds(ToggleComplete(progress, id, completed, now)) ==
      if completed then CompletedTopicIds(progress) + {id} else CompletedTopicIds(progress) - {id}
  {
  }

  /** Ticking and then unticking a topic leaves its record as it was with
      the flag off and no date, whatever the two times. */
  lemma ToggleOnThenOff(progress: Progress, id: string, now: string, later: string)
    ensures ToggleComplete(ToggleComplete(progress, id, true, now), id, false, later)
         == progress[id := RecordOf(progress, id).(completed := false, dateCompleted := None)]
  {
  }

  /** Hours and notes do not touch completion. */
  lemma HoursAndNotesKeepCompletion(progress: Progress, id: string, hours: int, notes: string)
    ensures CompletedTopicIds(LogHours(progress, id, hours)) == CompletedTopicIds(progress)
    ensures CompletedTopicIds(SaveNotes(progress, id, notes)) == CompletedTopicIds(progress)
  {
  }

  // ---------------------------------------------------------------------------
  // Missing prerequisites

  /** `topic.prerequisites.filter(id => !completed.has(id))`. */
  function MissingPrerequisites(prerequisites: seq<string>, completed: set<string>): (m: seq<string>)
    ensures Subsequence(m, prerequisites)
    ensures forall q :: multiset(m)[q] == if q in completed then 0 else multiset(prerequisites)[q]
    ensures forall q :: q in m <==> q in prerequisites && q !in completed
    ensures m == [] <==> forall q :: q in prerequisites ==> q in completed
  {
    if prerequisites == [] then []
    else
      var rest := MissingPrerequisites(prerequisites[1..], completed);
      assert prerequisites == [prerequisites[0]] + prerequisites[1..];
      assert forall q :: q in prerequisites <==> q == prerequisites[0] || q in prerequisites[1..];
      if prerequisites[0] in completed then
        SubsequenceSkip(rest, prerequisites);
        rest
      else
        assert ([prerequisites[0]] + rest)[1..] == rest;
        [prerequisites[0]] + rest
  }

  /** The warning box on an expanded topic: some prerequisite is missing and
      the topic itself is not ticked. */
  predicate ShowsPrerequisiteWarning(topic: RoadmapTopic, progress: Progress)
  {
    |MissingPrerequisites(topic.prerequisites, CompletedTopicIds(progress))| > 0
    && !(topic.id in progress && progress[topic.id].completed)
  }

  /** The warning shows exactly when an unticked topic has an unticked
      prerequisite. */
  lemma WarningIffPrerequisiteMissing(topic: RoadmapTopic, progress: Progress)
    ensures ShowsPrerequisiteWarning(topic, progress) <==>
      topic.id !in CompletedTopicIds(progress)
      && exists q :: q in topic.prerequisites && q !in CompletedTopicIds(progress)
  {
    var m := MissingPrerequisites(topic.prerequisites, CompletedTopicIds(progress));
    if m != [] {
      assert m[0] in m;
    }
  }

  // ---------------------------------------------------------------------------
  // Next suggested topic

  /** A topic can be suggested: it is not ticked and all its prerequisites are. */
  predicate Ready(topic: RoadmapTopic, completed: set<string>)
  {
    topic.id !in completed && forall q :: q in topic.prerequisites ==> q in completed
  }

  /** (p, t) is the first position, in phase-then-topic order, of a ready topic. */
  ghost predicate IsFirstReady(rm: Roadmap, completed: set<string>, p: int, t: int)
  {
    && ValidPos(rm, p, t)
    && Ready(rm.phases[p].topics[t], completed)
    && forall p', t' :: ValidPos(rm, p', t') && Earlier(p', t', p, t) ==> !Ready(rm.phases[p'].topics[t'], completed)
  }

  /** The scan of the roadmap, phase by phase and topic by topic, that stops
      at the first ready topic. */
  method NextSuggestedTopic(rm: Roadmap, completed: set<string>) returns (r: Option<RoadmapTopic>)
    ensures r.None? <==> forall p, t :: ValidPos(rm, p, t) ==> !Ready(rm.phases[p].topics[t], completed)
    ensures r.Some? ==> exists p, t :: IsFirstReady(rm, completed, p, t) && r.value == rm.phases[p].topics[t]
  {
    var p := 0;
    while p < |rm.phases|
      invariant 0 <= p <= |rm.phases|
      invariant forall p', t' :: ValidPos(rm, p', t') && p' < p ==> !Ready(rm.phases[p'].topics[t'], completed)
    {
      var topics := rm.phases[p].topics;
      var t := 0;
      while t < |topics|
        invariant 0 <= t <= |topics|
        invariant forall t' :: 0 <= t' < t ==> !Ready(topics[t'], completed)
      {
        var topic := topics[t];
        if topic.id in completed {
          t := t + 1;
          continue;
        }
        var prerequisitesMet := forall q :: q in topic.prerequisites ==> q in completed;
        if prerequisitesMet {
          assert IsFirstReady(rm, completed, p, t);
          return Some(topic);
        }
        t := t + 1;
      }
      p := p + 1;
    }
    return None;
  }

  /** There is at most one first ready position. */
  lemma FirstReadyIsUnique(rm: Roadmap, completed: set<string>, p1: int, t1: int, p2: int, t2: int)
    requires IsFirstReady(rm, completed, p1, t1)
    requires IsFirstReady(rm, completed, p2, t2)
    ensures p1 == p2 && t1 == t2
  {
  }

  /** Every topic is ticked. */
  ghost predicate AllCompleted(rm: Roadmap, completed: set<string>)
  {
    forall p, t :: ValidPos(rm, p, t) ==> rm.phases[p].topics[t].id in completed
  }

  /** Some unticked topic is at (p, t) and every earlier topic is ticked. */
  lemma FirstIncomplete(rm: Roadmap, completed: set<string>) returns (p: int, t: int)
    requires !AllCompleted(rm, completed)
    ensures ValidPos(rm, p, t) && rm.phases[p].topics[t].id !in completed
    ensures forall p', t' :: ValidPos(rm, p', t') && Earlier(p', t', p, t) ==> rm.phases[p'].topics[t'].id in completed
  {
    p := 0;
    while p < |rm.phases|
      invariant 0 <= p <= |rm.phases|
      invariant forall p', t' :: ValidPos(rm, p', t') && p' < p ==> rm.phases[p'].topics[t'].id in completed
    {
      t := 0;
      while t < |rm.phases[p].topics|
        invariant 0 <= t <= |rm.phases[p].topics|
        invariant forall t' :: 0 <= t' < t ==> rm.phases[p].topics[t'].id in completed
      {
        if rm.phases[p].topics[t].id !in completed {
          return;
        }
        t := t + 1;
      }
      p := p + 1;
    }
    assert false;
  }

  /** When prerequisites only point backward the suggestion never gets
      stuck: no topic is suggested exactly when every topic is ticked. */
  lemma NoSuggestionIffAllCompleted(rm: Roadmap, completed: set<string>)
    requires PrerequisitesPointBackward(rm)
    ensures (forall p, t :: ValidPos(rm, p, t) ==> !Ready(rm.phases[p].topics[t], completed))
        <==> AllCompleted(rm, completed)
  {
    if !AllCompleted(rm, completed) {
      var p, t := FirstIncomplete(rm, completed);
      var topic := rm.phases[p].topics[t];
      forall q | q in topic.prerequisites ensures q in completed {
        var p', t' :| ValidPos(rm, p', t') && Earlier(p', t', p, t) && rm.phases[p'].topics[t'].id == q;
      }
      assert Ready(topic, completed);
    }
  }

  /** With no progress at all, every catalog roadmap suggests its first topic. */
  lemma EmptyProgressSuggestsFirstTopic(r: int)
    requires 0 <= r < |ROADMAPS|
    ensures CompletedTopicIds(map[]) == {}
    ensures IsFirstReady(ROADMAPS[r], {}, 0, 0)
  {
    FirstTopicsHaveNoPrerequisites();
  }

  /** In the catalog roadmaps the suggestion only disappears once every
      topic is ticked. */
  lemma CatalogSuggestionNeverStuck(r: int, completed: set<string>)
    requires 0 <= r < |ROADMAPS|
    ensures (forall p, t :: ValidPos(ROADMAPS[r], p, t) ==> !Ready(ROADMAPS[r].phases[p].topics[t], completed))
        <==> AllCompleted(ROADMAPS[r], completed)
  {
    CatalogPrerequisitesPointBackward();
    NoSuggestionIffAllCompleted(ROADMAPS[r], completed);
  }

  // ---------------------------------------------------------------------------
  // Dashboard statistics

  /** `roadmap.phases.reduce((sum, phase) => sum + phase.topics.length, 0)`. */
  function TotalTopics(phases: seq<RoadmapPhase>): (n: nat)
    ensures n == |AllTopics(phases)|
  {
    if phases == [] then 0 else TotalTopics(phases[..|phases| - 1]) + |phases[|phases| - 1].topics|
  }

  /** The ids of a list of topics. */
  function IdsOf(ts: seq<RoadmapTopic>): set<string>
  {
    set topic | topic in ts :: topic.id
  }

  /** The ids of all topics of a roadmap. */
  function TopicIdSet(rm: Roadmap): set<string>
  {
    IdsOf(AllTopics(rm.phases))
  }

  /** A list of topics has no more ids than topics. */
  lemma {:induction false} IdSetBound(ts: seq<RoadmapTopic>)
    ensures |IdsOf(ts)| <= |ts|
  {
    if ts != [] {
      var init, last := ts[..|ts| - 1], ts[|ts| - 1];
      assert ts == init + [last];
      IdSetBound(init);
      IdsOfSnoc(init, last);
    }
  }

  /** The hours of one record: a missing value counts as 0. */
  function HoursOf(d: ProgressDetails): int
  {
    match d.hoursLogged
    case Some(h) => h
    case None => 0
  }

  /** `Object.values(progress).reduce((sum, p) => sum + (p.hoursLogged || 0), 0)`:
      a sum over every record, in whatever order the records come. */
  ghost function TotalHours(progress: Progress): int
    decreases |progress.Keys|
  {
    if progress == map[] then 0
    else
      var k :| k in progress;
      HoursOf(progress[k]) + TotalHours(progress - {k})
  }

  /** The sum does not depend on which record is taken first. */
  lemma {:induction false} TotalHoursRemove(progress: Progress, k: string)
    requires k in progress
    ensures TotalHours(progress) == HoursOf(progress[k]) + TotalHours(progress - {k})
    decreases |progress.Keys|
  {
    var j :| j in progress && TotalHours(progress) == HoursOf(progress[j]) + TotalHours(progress - {j});
    if j != k {
      var rest := progress - {j};
      TotalHoursRemove(rest, k);
      TotalHoursRemove(progress - {k}, j);
      assert rest - {k} == (progress - {k}) - {j};
    }
  }

  /** Logging `h` hours on a topic replaces its old hours in the total. */
  lemma LogHoursTotal(progress: Progress, id: string, hours: int)
    ensures TotalHours(LogHours(progress, id, hours))
         == TotalHours(progress) - HoursOf(RecordOf(progress, id)) + hours
  {
    var p := LogHours(progress, id, hours);
    TotalHoursRemove(p, id);
    assert p - {id} == progress - {id};
    if id in progress {
      TotalHoursRemove(progress, id);
    } else {
      assert progress - {id} == progress;
    }
  }

  /** `Object.values(progress).filter(p => p.completed).length`. */
  ghost function CompletedRecords(progress: Progress): nat
    decreases |progress.Keys|
  {
    if progress == map[] then 0
    else
      var k :| k in progress;
      (if progress[k].completed then 1 else 0) + CompletedRecords(progress - {k})
  }

  /** Counting completed records counts the completed ids. */
  lemma {:induction false} CompletedRecordsCount(progress: Progress)
    ensures CompletedRecords(progress) == |CompletedTopicIds(progress)|
    decreases |progress.Keys|
  {
    if progress != map[] {
      var k :| k in progress && CompletedRecords(progress) ==
        (if progress[k].completed then 1 else 0) + CompletedRecords(progress - {k});
      CompletedRecordsCount(progress - {k});
      if progress[k].completed {
        assert CompletedTopicIds(progress) == CompletedTopicIds(progress - {k}) + {k};
      } else {
        assert CompletedTopicIds(progress) == CompletedTopicIds(progress - {k});
      }
    }
  }

  /** `Math.round(completed / total * 100)`, or 0 without topics: the
      nearest whole percentage, halves rounded up. */
  function Percentage(completed: nat, total: nat): (pct: nat)
    ensures total == 0 ==> pct == 0
    ensures total > 0 ==> 2 * total * pct - total <= 200 * completed < 2 * total * pct + total
  {
    if total > 0 then (200 * completed + total) / (2 * total) else 0
  }

  /** Completion never shows above 100% while only the roadmap's own topics
      are ticked. */
  lemma PercentageAtMost100(completed: nat, total: nat)
    requires completed <= total
    ensures Percentage(completed, total) <= 100
  {
    if total > 0 {
      var a := 200 * completed + total;
      var b := 2 * total;
      assert a < b * 101;
      DivBelow(a, b, 101);
    }
  }

  lemma DivBelow(a: nat, b: nat, k: nat)
    requires b > 0 && a < b * k
    ensures a / b < k
  {
    var q := a / b;
    assert b * q <= a;
    if q >= k {
      MulMonotone(b, k, q);
    }
  }

  lemma MulMonotone(b: nat, x: nat, y: nat)
    requires x <= y
    ensures b * x <= b * y
  {
    assert b * y == b * x + b * (y - x);
  }

  datatype Dashboard = Dashboard(totalTopics: nat, completedTopics: nat, totalHours: int, percentage: nat)

  /** The dashboard of a roadmap. Completed topics and hours are counted over
      the whole progress map, including records of other roadmaps. */
  ghost function DashboardOf(rm: Roadmap, progress: Progress): (d: Dashboard)
    ensures d.completedTopics == |CompletedTopicIds(progress)|
    ensures d.totalTopics == |AllTopics(rm.phases)|
  {
    CompletedRecordsCount(progress);
    var total := TotalTopics(rm.phases);
    var done := CompletedRecords(progress);
    Dashboard(total, done, TotalHours(progress), Percentage(done, total))
  }

  /** The congratulation banner. */
  ghost predicate ShowsCongratulations(rm: Roadmap, progress: Progress)
  {
    var d := DashboardOf(rm, progress);
    d.totalTopics > 0 && d.completedTopics == d.totalTopics
  }

  /** When every ticked record is a topic of this roadmap, the percentage is
      at most 100. */
  lemma OwnTopicsStayWithin100(rm: Roadmap, progress: Progress)
    requires CompletedTopicIds(progress) <= TopicIdSet(rm)
    ensures DashboardOf(rm, progress).percentage <= 100
  {
    var d := DashboardOf(rm, progress);
    IdSetBound(AllTopics(rm.phases));
    SubsetSize(CompletedTopicIds(progress), TopicIdSet(rm));
    PercentageAtMost100(d.completedTopics, d.totalTopics);
  }

  /** Appending a topic adds its id. */
  lemma IdsOfSnoc(init: seq<RoadmapTopic>, last: RoadmapTopic)
    ensures IdsOf(init + [last]) == IdsOf(init) + {last.id}
  {
  }

  /** Topics with distinct ids have as many ids as topics. */
  lemma {:induction false} DistinctIdSetSize(ts: seq<RoadmapTopic>)
    requires DistinctTopicIds(ts)
    ensures |IdsOf(ts)| == |ts|
  {
    if ts != [] {
      var init, last := ts[..|ts| - 1], ts[|ts| - 1];
      assert ts == init + [last];
      assert DistinctTopicIds(init);
      DistinctIdSetSize(init);
      IdsOfSnoc(init, last);
      forall topic | topic in init
        ensures topic.id != last.id
      {
        var i :| 0 <= i < |init| && init[i] == topic;
        assert ts[i] == topic;
      }
    }
  }

  /** On a roadmap with distinct topic ids, while only its own topics are
      ticked, the congratulation banner shows exactly when the roadmap has
      topics and every one of them is ticked. */
  lemma CongratulationsIffAllTicked(rm: Roadmap, progress: Progress)
    requires DistinctTopicIds(AllTopics(rm.phases))
    requires CompletedTopicIds(progress) <= TopicIdSet(rm)
    ensures ShowsCongratulations(rm, progress) <==>
      |AllTopics(rm.phases)| > 0 && TopicIdSet(rm) <= CompletedTopicIds(progress)
  {
    var done := CompletedTopicIds(progress);
    var d := DashboardOf(rm, progress);
    DistinctIdSetSize(AllTopics(rm.phases));
    if TopicIdSet(rm) <= done {
      assert done == TopicIdSet(rm);
    }
    if |done| == |TopicIdSet(rm)| {
      EqualSizeSubset(done, TopicIdSet(rm));
    }
  }

  lemma AppSecRoadmapHasFiveTopics()
    ensures TotalTopics(APPSEC_ENGINEER_ROADMAP.phases) == 5
  {
    var phases := APPSEC_ENGINEER_ROADMAP.phases;
    assert |phases| == 2 && |phases[0].topics| == 2 && |phases[1].topics| == 3;
    assert phases[..1][..0] == [];
    assert TotalTopics(phases[..1]) == 2;
  }

  /** Six ticked web topics. */
  const SIX_WEB_TOPICS_DONE: Progress := map[
    "networking_basics" := ProgressDetails(true, None, None, None),
    "linux_fundamentals" := ProgressDetails(true, None, None, None),
    "web_fundamentals" := ProgressDetails(true, None, None, None),
    "scripting_basics" := ProgressDetails(true, None, None, None),
    "owasp_top10" := ProgressDetails(true, None, None, None),
    "burp_suite" := ProgressDetails(true, None, None, None)]

  lemma SixWebTopicsDone()
    ensures |CompletedTopicIds(SIX_WEB_TOPICS_DONE)| == 6
  {
    var ids := CompletedTopicIds(SIX_WEB_TOPICS_DONE);
    assert ids == {"networking_basics", "linux_fundamentals", "web_fundamentals",
                   "scripting_basics", "owasp_top10", "burp_suite"};
  }

  /** Records of another roadmap count too: six ticked web topics against the
      five-topic application security roadmap show 120%. */
  lemma PercentageCanExceed100()
    ensures DashboardOf(APPSEC_ENGINEER_ROADMAP, SIX_WEB_TOPICS_DONE).percentage == 120
  {
    AppSecRoadmapHasFiveTopics();
    SixWebTopicsDone();
    CompletedRecordsCount(SIX_WEB_TOPICS_DONE);
  }

  // ---------------------------------------------------------------------------
  // The selected role's roadmap

  /** `ROADMAPS.find(r => r.id === id)`: the first roadmap with that id. */
  function FindRoadmap(roadmaps: seq<Roadmap>, id: string): (r: Option<Roadmap>)
    ensures r.Some? <==> exists i :: 0 <= i < |roadmaps| && roadmaps[i].id == id
    ensures r.Some? ==> exists i :: 0 <= i < |roadmaps| && roadmaps[i] == r.value && r.value.id == id
                                  && (forall j :: 0 <= j < i ==> roadmaps[j].id != id)
  {
    if roadmaps == [] then None
    else if roadmaps[0].id == id then Some(roadmaps[0])
    else
      var r := FindRoadmap(roadmaps[1..], id);
      assert forall i :: 0 < i < |roadmaps| ==> roadmaps[i] == roadmaps[1..][i - 1];
      if r.Some? then
        var k :| 0 <= k < |roadmaps[1..]| && roadmaps[1..][k] == r.value && r.value.id == id
                 && (forall j :: 0 <= j < k ==> roadmaps[1..][j].id != id);
        assert roadmaps[k + 1] == r.value;
        r
      else r
  }

  /** The roadmap shown: none before a role is chosen, else the lookup. */
  function SelectedRoadmap(selectedRole: Option<Role>): (r: Option<Roadmap>)
    ensures selectedRole.None? ==> r.None?
    ensures r.Some? ==> r.value in ROADMAPS && r.value.id == selectedRole.value.roadmapId
    ensures selectedRole.Some? ==>
      (r.Some? <==> exists i :: 0 <= i < |ROADMAPS| && ROADMAPS[i].id == selectedRole.value.roadmapId)
  {
    match selectedRole
    case None => None
    case Some(role) => FindRoadmap(ROADMAPS, role.roadmapId)
  }

  /** Every catalog role has its roadmap: "Roadmap not found" never shows for
      a role picked from the recommendations. */
  lemma CatalogRolesHaveRoadmaps()
    ensures forall i :: 0 <= i < |ROLE_DATABASE| ==>
      SelectedRoadmap(Some(ROLE_DATABASE[i])).Some?
  {
    assert ROADMAPS[0].id == "WEB_APP_PENTESTER_ROADMAP";
    assert ROADMAPS[1].id == "SOC_ANALYST_ROADMAP";
    assert ROADMAPS[2].id == "APPSEC_ENGINEER_ROADMAP";
    forall i | 0 <= i < |ROLE_DATABASE| ensures SelectedRoadmap(Some(ROLE_DATABASE[i])).Some? {
      assert ROLE_DATABASE[i].roadmapId in ["WEB_APP_PENTESTER_ROADMAP", "SOC_ANALYST_ROADMAP", "APPSEC_ENGINEER_ROADMAP"];
    }
  }
}
