/** Role recommendation: every role starts at a baseline score, fixed
    adjustments keyed on the answers to q1, q3, q5 and q6 are added, the roles
    are sorted by score (stably, highest first) and the first three are shown
    with a display score of min(99, round(raw / 1.5)). */
module Scoring {
  import opened Types
  import opened Catalog

  const BASELINE: int := 50
  const ORIENTATION_BONUS: int := 30
  const STYLE_BONUS: int := 25
  const BOTH_BONUS: int := 10
  const BEGINNER_PENALTY: int := 20

  /** The roles that answer q3 = coding favours. */
  const CODING_ROLES: seq<string> := ["appsec_engineer", "devsecops_engineer", "exploit_developer", "web_app_pentester"]
  /** The roles that answer q3 = analysis favours. */
  const ANALYSIS_ROLES: seq<string> := ["soc_analyst", "threat_hunter", "incident_responder", "malware_analyst"]
  /** The roles judged to need prior experience, penalised for q5 = beginner. */
  const EXPERIENCED_ROLES: seq<string> := ["exploit_developer", "security_architect", "red_team_operator"]
  /** The roles that receive an interest bonus from q6. */
  const INTEREST_ROLES: seq<string> := ["web_app_pentester", "appsec_engineer", "bug_bounty_hunter",
    "network_pentester", "soc_analyst", "cloud_security_engineer", "devsecops_engineer", "malware_analyst"]

  /** A role's entry in the score table: its position in the table (the
      catalog order), its id and its raw score. */
  datatype Scored = Scored(index: nat, id: string, score: int)

  /** One recommendation card. The role is looked up by id; the lookup can
      fail in general, and the card then has no role. */
  datatype Recommendation = Recommendation(role: Option<Role>, score: int)

  // ---------------------------------------------------------------------------
  // Reading answers

  /** The answer to `qid` is exactly the string `v`. */
  predicate AnswerIs(answers: Answers, qid: string, v: string)
  {
    qid in answers && answers[qid] == Single(v)
  }

  /** `needle` occurs in `s` as a contiguous piece. */
  predicate IsSubstring(needle: string, s: string)
  {
    exists i | 0 <= i <= |s| - |needle| :: OccursAt(needle, s, i)
  }

  predicate OccursAt(needle: string, s: string, i: int)
    requires 0 <= i <= |s| - |needle|
  {
    s[i..i + |needle|] == needle
  }

  /** `q6.includes(v)`: membership for a list; for a (malformed) string answer
      the string method of the same name is called, which searches for a
      substring; nothing for an absent or null answer. */
  predicate Includes(answers: Answers, qid: string, v: string)
  {
    qid in answers &&
    match answers[qid]
    case Multi(vs) => v in vs
    case Single(s) => IsSubstring(v, s)
    case Unset => false
  }

  // ---------------------------------------------------------------------------
  // The score of one role, adjustment by adjustment

  function OrientationBonus(answers: Answers, c: Category): int
  {
    if (AnswerIs(answers, "q1", "offense") && c == Offense)
      || (AnswerIs(answers, "q1", "defense") && c == Defense)
      || (AnswerIs(answers, "q1", "engineering") && c == Engineering)
    then ORIENTATION_BONUS else 0
  }

  function StyleBonus(answers: Answers, id: string): int
  {
    if AnswerIs(answers, "q3", "coding") then (if id in CODING_ROLES then STYLE_BONUS else 0)
    else if AnswerIs(answers, "q3", "analysis") then (if id in ANALYSIS_ROLES then STYLE_BONUS else 0)
    else if AnswerIs(answers, "q3", "both") then BOTH_BONUS
    else 0
  }

  function LevelPenalty(answers: Answers, id: string): int
  {
    if AnswerIs(answers, "q5", "beginner") && id in EXPERIENCED_ROLES then -BEGINNER_PENALTY else 0
  }

  /** q6 = web_apps. */
  function WebBonus(answers: Answers, id: string): int
  {
    if Includes(answers, "q6", "web_apps") then
      (if id == "web_app_pentester" then 40 else if id == "appsec_engineer" then 35
       else if id == "bug_bounty_hunter" then 20 else 0)
    else 0
  }

  /** q6 = networks. */
  function NetworkBonus(answers: Answers, id: string): int
  {
    if Includes(answers, "q6", "networks") then
      (if id == "network_pentester" then 40 else if id == "soc_analyst" then 30 else 0)
    else 0
  }

  /** q6 = cloud. */
  function CloudBonus(answers: Answers, id: string): int
  {
    if Includes(answers, "q6", "cloud") then
      (if id == "cloud_security_engineer" then 40 else if id == "devsecops_engineer" then 20 else 0)
    else 0
  }

  /** q6 = malware. */
  function MalwareBonus(answers: Answers, id: string): int
  {
    if Includes(answers, "q6", "malware") && id == "malware_analyst" then 40 else 0
  }

  function InterestBonus(answers: Answers, id: string): int
  {
    WebBonus(answers, id) + NetworkBonus(answers, id) + CloudBonus(answers, id) + MalwareBonus(answers, id)
  }

  /** The raw score of one role: the baseline plus every adjustment that
      applies to it. */
  function RawScore(answers: Answers, role: Role): int
  {
    BASELINE + OrientationBonus(answers, role.category) + StyleBonus(answers, role.id)
      + LevelPenalty(answers, role.id) + InterestBonus(answers, role.id)
  }

  /** Whatever the answers, a raw score lies between 30 and 145. */
  lemma RawScoreBounds(answers: Answers, role: Role)
    ensures 30 <= RawScore(answers, role) <= 145
  {
  }

  /** Only q1 answered, with offense: every offensive role scores 80, every
      other role stays at the baseline 50. */
  lemma OffenseOnlyScores(role: Role)
    ensures RawScore(map["q1" := Single("offense")], role) == if role.category == Offense then 80 else 50
  {
  }

  /** A defender who likes analysis and networks: the SOC analyst collects
      the orientation, style and network bonuses for a raw score of 135. */
  lemma SocAnalystScores(role: Role)
    requires role.id == "soc_analyst" && role.category == Defense
    ensures RawScore(map["q1" := Single("defense"), "q3" := Single("analysis"), "q6" := Multi(["networks"])], role) == 135
  {
    var answers := map["q1" := Single("defense"), "q3" := Single("analysis"), "q6" := Multi(["networks"])];
    assert "soc_analyst" in ANALYSIS_ROLES;
    assert "networks" in answers["q6"].values;
  }

  // ---------------------------------------------------------------------------
  // The imperative accumulation

  predicate DistinctRoleIds(roles: seq<Role>)
  {
    forall i, j :: 0 <= i < j < |roles| ==> roles[i].id != roles[j].id
  }

  function RoleIdSet(roles: seq<Role>): set<string>
  {
    set r | r in roles :: r.id
  }

  /** Every id the score adjustments name is the id of a role. */
  predicate TablesNameRoles(roles: seq<Role>)
  {
    && (forall id :: id in CODING_ROLES ==> id in RoleIdSet(roles))
    && (forall id :: id in ANALYSIS_ROLES ==> id in RoleIdSet(roles))
    && (forall id :: id in EXPERIENCED_ROLES ==> id in RoleIdSet(roles))
    && (forall id :: id in INTEREST_ROLES ==> id in RoleIdSet(roles))
  }

  /** What `ids.forEach(id => scores[id] += delta)` adds to the entry `k`:
      `delta` once per occurrence of `k` in `ids`. */
  function AddedTo(ids: seq<string>, k: string, delta: int): int
  {
    if ids == [] then 0 else AddedTo(ids[..|ids| - 1], k, delta) + (if ids[|ids| - 1] == k then delta else 0)
  }

  lemma {:induction false} AddedToDistinct(ids: seq<string>, k: string, delta: int)
    requires DistinctIds(ids)
    ensures AddedTo(ids, k, delta) == if k in ids then delta else 0
  {
    if ids != [] {
      var init := ids[..|ids| - 1];
      AddedToDistinct(init, k, delta);
      assert k in ids <==> k in init || k == ids[|ids| - 1];
      assert ids[|ids| - 1] !in init;
    }
  }

  /** No id repeats in a list. */
  predicate DistinctIds(ids: seq<string>)
  {
    forall i, j :: 0 <= i < j < |ids| ==> ids[i] != ids[j]
  }

  /** The fixed lists of the adjustments name each role at most once. */
  lemma AdjustmentListsAreDistinct()
    ensures DistinctIds(CODING_ROLES) && DistinctIds(ANALYSIS_ROLES) && DistinctIds(EXPERIENCED_ROLES)
  {
  }

  /** `ids.forEach(id => scores[id] += delta)`. */
  method AddToEach(scores: map<string, int>, ids: seq<string>, delta: int) returns (scores': map<string, int>)
    requires forall id :: id in ids ==> id in scores
    ensures scores'.Keys == scores.Keys
    ensures forall k :: k in scores ==> scores'[k] == scores[k] + AddedTo(ids, k, delta)
  {
    scores' := scores;
    var i := 0;
    while i < |ids|
      invariant 0 <= i <= |ids|
      invariant scores'.Keys == scores.Keys
      invariant forall k :: k in scores ==> scores'[k] == scores[k] + AddedTo(ids[..i], k, delta)
    {
      assert ids[..i + 1][..i] == ids[..i];
      scores' := scores'[ids[i] := scores'[ids[i]] + delta];
      i := i + 1;
    }
    assert ids[..i] == ids;
  }

  /** Every role enters the score table at the baseline. */
  method InitialScores(roles: seq<Role>) returns (scores: map<string, int>)
    ensures scores.Keys == RoleIdSet(roles)
    ensures forall k :: k in scores ==> scores[k] == BASELINE
  {
    scores := map[];
    var i := 0;
    while i < |roles|
      invariant 0 <= i <= |roles|
      invariant scores.Keys == RoleIdSet(roles[..i])
      invariant forall k :: k in scores ==> scores[k] == BASELINE
    {
      assert roles[..i + 1] == roles[..i] + [roles[i]];
      scores := scores[roles[i].id := BASELINE];
      i := i + 1;
    }
    assert roles[..i] == roles;
  }

  /** q1 for one role: the three orientation checks of the loop body. */
  method OrientRole(answers: Answers, role: Role, scores: map<string, int>) returns (scores': map<string, int>)
    requires role.id in scores
    ensures scores'.Keys == scores.Keys
    ensures scores'[role.id] == scores[role.id] + OrientationBonus(answers, role.category)
    ensures forall k :: k in scores && k != role.id ==> scores'[k] == scores[k]
  {
    scores' := scores;
    if AnswerIs(answers, "q1", "offense") && role.category == Offense {
      scores' := scores'[role.id := scores'[role.id] + ORIENTATION_BONUS];
    }
    if AnswerIs(answers, "q1", "defense") && role.category == Defense {
      scores' := scores'[role.id := scores'[role.id] + ORIENTATION_BONUS];
    }
    if AnswerIs(answers, "q1", "engineering") && role.category == Engineering {
      scores' := scores'[role.id := scores'[role.id] + ORIENTATION_BONUS];
    }
  }

  /** q1: the orientation adds its bonus to every role of the matching category. */
  method AddOrientation(roles: seq<Role>, answers: Answers, scores: map<string, int>) returns (scores': map<string, int>)
    requires DistinctRoleIds(roles)
    requires forall i :: 0 <= i < |roles| ==> roles[i].id in scores
    ensures scores'.Keys == scores.Keys
    ensures forall i :: 0 <= i < |roles| ==>
      scores'[roles[i].id] == scores[roles[i].id] + OrientationBonus(answers, roles[i].category)
  {
    scores' := scores;
    var i := 0;
    while i < |roles|
      invariant 0 <= i <= |roles|
      invariant scores'.Keys == scores.Keys
      invariant forall j :: 0 <= j < i ==>
        scores'[roles[j].id] == scores[roles[j].id] + OrientationBonus(answers, roles[j].category)
      invariant forall j :: i <= j < |roles| ==> scores'[roles[j].id] == scores[roles[j].id]
    {
      scores' := OrientRole(answers, roles[i], scores');
      assert forall j :: 0 <= j < |roles| && j != i ==> roles[j].id != roles[i].id;
      i := i + 1;
    }
  }

  /** q3: coding or analysis favour a fixed list of roles; both adds to every
      key of the table. */
  method AddStyle(roles: seq<Role>, answers: Answers, scores: map<string, int>) returns (scores': map<string, int>)
    requires DistinctRoleIds(roles)
    requires TablesNameRoles(roles)
    requires scores.Keys == RoleIdSet(roles)
    ensures scores'.Keys == scores.Keys
    ensures forall k :: k in scores ==> scores'[k] == scores[k] + StyleBonus(answers, k)
  {
    scores' := scores;
    AdjustmentListsAreDistinct();
    if AnswerIs(answers, "q3", "coding") {
      scores' := AddToEach(scores, CODING_ROLES, STYLE_BONUS);
      forall k | k in scores ensures scores'[k] == scores[k] + StyleBonus(answers, k) {
        AddedToDistinct(CODING_ROLES, k, STYLE_BONUS);
      }
    } else if AnswerIs(answers, "q3", "analysis") {
      scores' := AddToEach(scores, ANALYSIS_ROLES, STYLE_BONUS);
      forall k | k in scores ensures scores'[k] == scores[k] + StyleBonus(answers, k) {
        AddedToDistinct(ANALYSIS_ROLES, k, STYLE_BONUS);
      }
    } else if AnswerIs(answers, "q3", "both") {
      var keys := RoleIds(roles);
      scores' := AddToEach(scores, keys, BOTH_BONUS);
      forall k | k in scores ensures scores'[k] == scores[k] + StyleBonus(answers, k) {
        AddedToDistinct(keys, k, BOTH_BONUS);
      }
    }
  }

  /** q5: a beginner loses points on the roles that need experience. */
  method AddLevel(roles: seq<Role>, answers: Answers, scores: map<string, int>) returns (scores': map<string, int>)
    requires TablesNameRoles(roles)
    requires scores.Keys == RoleIdSet(roles)
    ensures scores'.Keys == scores.Keys
    ensures forall k :: k in scores ==> scores'[k] == scores[k] + LevelPenalty(answers, k)
  {
    scores' := scores;
    AdjustmentListsAreDistinct();
    if AnswerIs(answers, "q5", "beginner") {
      scores' := AddToEach(scores, EXPERIENCED_ROLES, -BEGINNER_PENALTY);
      forall k | k in scores ensures scores'[k] == scores[k] + LevelPenalty(answers, k) {
        AddedToDistinct(EXPERIENCED_ROLES, k, -BEGINNER_PENALTY);
      }
    }
  }

  /** `scores[id] += delta` for a key already in the table. */
  method Bump(scores: map<string, int>, id: string, delta: int) returns (scores': map<string, int>)
    requires id in scores
    ensures scores'.Keys == scores.Keys
    ensures forall k :: k in scores ==> scores'[k] == scores[k] + (if k == id then delta else 0)
  {
    scores' := scores[id := scores[id] + delta];
  }

  /** q6 includes web_apps. */
  method AddWebBonus(answers: Answers, scores: map<string, int>) returns (scores': map<string, int>)
    requires forall id :: id in INTEREST_ROLES ==> id in scores
    ensures scores'.Keys == scores.Keys
    ensures forall k :: k in scores ==> scores'[k] == scores[k] + WebBonus(answers, k)
  {
    scores' := scores;
    if Includes(answers, "q6", "web_apps") {
      scores' := Bump(scores', "web_app_pentester", 40);
      scores' := Bump(scores', "appsec_engineer", 35);
      scores' := Bump(scores', "bug_bounty_hunter", 20);
    }
  }

  /** q6 includes networks. */
  method AddNetworkBonus(answers: Answers, scores: map<string, int>) returns (scores': map<string, int>)
    requires forall id :: id in INTEREST_ROLES ==> id in scores
    ensures scores'.Keys == scores.Keys
    ensures forall k :: k in scores ==> scores'[k] == scores[k] + NetworkBonus(answers, k)
  {
    scores' := scores;
    if Includes(answers, "q6", "networks") {
      scores' := Bump(scores', "network_pentester", 40);
      scores' := Bump(scores', "soc_analyst", 30);
    }
  }

  /** q6 includes cloud. */
  method AddCloudBonus(answers: Answers, scores: map<string, int>) returns (scores': map<string, int>)
    requires forall id :: id in INTEREST_ROLES ==> id in scores
    ensures scores'.Keys == scores.Keys
    ensures forall k :: k in scores ==> scores'[k] == scores[k] + CloudBonus(answers, k)
  {
    scores' := scores;
    if Includes(answers, "q6", "cloud") {
      scores' := Bump(scores', "cloud_security_engineer", 40);
      scores' := Bump(scores', "devsecops_engineer", 20);
    }
  }

  /** q6 includes malware. */
  method AddMalwareBonus(answers: Answers, scores: map<string, int>) returns (scores': map<string, int>)
    requires forall id :: id in INTEREST_ROLES ==> id in scores
    ensures scores'.Keys == scores.Keys
    ensures forall k :: k in scores ==> scores'[k] == scores[k] + MalwareBonus(answers, k)
  {
    scores' := scores;
    if Includes(answers, "q6", "malware") {
      scores' := Bump(scores', "malware_analyst", 40);
    }
  }

  /** q6: each selected interest adds its fixed bonuses, once. */
  method AddInterests(roles: seq<Role>, answers: Answers, scores: map<string, int>) returns (scores': map<string, int>)
    requires TablesNameRoles(roles)
    requires scores.Keys == RoleIdSet(roles)
    ensures scores'.Keys == scores.Keys
    ensures forall k :: k in scores ==> scores'[k] == scores[k] + InterestBonus(answers, k)
  {
    var s0 := AddWebBonus(answers, scores);
    var s1 := AddNetworkBonus(answers, s0);
    var s2 := AddCloudBonus(answers, s1);
    scores' := AddMalwareBonus(answers, s2);
  }

  /** The score table, built adjustment by adjustment as the component does:
      every role ends with exactly its raw score. */
  method ComputeScores(roles: seq<Role>, answers: Answers) returns (scores: map<string, int>)
    requires DistinctRoleIds(roles)
    requires TablesNameRoles(roles)
    ensures scores.Keys == RoleIdSet(roles)
    ensures forall i :: 0 <= i < |roles| ==> scores[roles[i].id] == RawScore(answers, roles[i])
  {
    var s0 := InitialScores(roles);
    assert forall i :: 0 <= i < |roles| ==> roles[i] in roles;
    var s1 := AddOrientation(roles, answers, s0);
    var s2 := AddStyle(roles, answers, s1);
    var s3 := AddLevel(roles, answers, s2);
    scores := AddInterests(roles, answers, s3);
    forall i | 0 <= i < |roles| ensures scores[roles[i].id] == RawScore(answers, roles[i]) {
      var k := roles[i].id;
      assert k in s0;
    }
  }

  /** The ids of `roles`, in order (the keys of the score table). */
  function RoleIds(roles: seq<Role>): (ids: seq<string>)
    ensures |ids| == |roles|
    ensures forall i :: 0 <= i < |roles| ==> ids[i] == roles[i].id
  {
    seq(|roles|, i requires 0 <= i < |roles| => roles[i].id)
  }

  // ---------------------------------------------------------------------------
  // Ranking: Object.entries, a stable sort on descending score, the first three

  /** The table's entries in key-insertion order, which is the order of `roles`. */
  function Entries(roles: seq<Role>, answers: Answers): (es: seq<Scored>)
    ensures |es| == |roles|
    ensures forall i :: 0 <= i < |es| ==>
      es[i].index == i && es[i].id == roles[i].id && es[i].score == RawScore(answers, roles[i])
  {
    seq(|roles|, i requires 0 <= i < |roles| => Scored(i, roles[i].id, RawScore(answers, roles[i])))
  }

  /** `Object.entries(scores)` over a table whose keys are the role ids. */
  function TableEntries(roles: seq<Role>, scores: map<string, int>): (es: seq<Scored>)
    requires RoleIdSet(roles) <= scores.Keys
    ensures |es| == |roles|
    ensures forall i :: 0 <= i < |es| ==> es[i] == Scored(i, roles[i].id, scores[roles[i].id])
  {
    seq(|roles|, i requires 0 <= i < |roles| => Scored(i, roles[i].id, scores[roles[i].id]))
  }

  /** `a` is placed before `b` by a stable sort on descending score: a higher
      score first, and on a tie the entry that came first. */
  predicate Before(a: Scored, b: Scored)
  {
    a.score > b.score || (a.score == b.score && a.index < b.index)
  }

  predicate SortedBy(t: seq<Scored>)
  {
    forall i, j :: 0 <= i < j < |t| ==> Before(t[i], t[j])
  }

  /** Entries listed in their original order. */
  predicate IndexOrdered(s: seq<Scored>)
  {
    forall i, j :: 0 <= i < j < |s| ==> s[i].index < s[j].index
  }

  /** Places `x` in front of the first entry whose score it reaches. */
  function Insert(x: Scored, t: seq<Scored>): (r: seq<Scored>)
    ensures multiset(r) == multiset(t) + multiset{x}
    ensures |r| == |t| + 1
  {
    if t == [] || x.score >= t[0].score then [x] + t
    else
      assert t == [t[0]] + t[1..];
      [t[0]] + Insert(x, t[1..])
  }

  /** `entries.sort(([, a], [, b]) => b - a)` with a stable sort: each entry is
      inserted in front of the later ones whose score it reaches. */
  function SortByScore(s: seq<Scored>): (r: seq<Scored>)
    ensures multiset(r) == multiset(s)
    ensures |r| == |s|
  {
    if s == [] then []
    else
      assert s == [s[0]] + s[1..];
      Insert(s[0], SortByScore(s[1..]))
  }

  lemma {:induction false} InsertSorted(x: Scored, t: seq<Scored>)
    requires SortedBy(t)
    requires forall y :: y in t ==> x.index < y.index
    ensures SortedBy(Insert(x, t))
  {
    if t == [] || x.score >= t[0].score {
      var r := [x] + t;
      forall i, j | 0 <= i < j < |r| ensures Before(r[i], r[j]) {
        if i == 0 {
          assert r[j] == t[j - 1] && r[j] in t;
          if j > 1 { assert Before(t[0], t[j - 1]); }
        } else {
          assert Before(t[i - 1], t[j - 1]);
        }
      }
    } else {
      var rest := Insert(x, t[1..]);
      InsertSorted(x, t[1..]);
      var r := [t[0]] + rest;
      forall i, j | 0 <= i < j < |r| ensures Before(r[i], r[j]) {
        if i == 0 {
          assert r[j] in multiset(rest);
          assert r[j] == x || r[j] in multiset(t[1..]);
          if r[j] != x {
            assert r[j] in t[1..];
            var k :| 0 <= k < |t[1..]| && t[1..][k] == r[j];
            assert Before(t[0], t[k + 1]);
          }
        } else {
          assert Before(rest[i - 1], rest[j - 1]);
        }
      }
    }
  }

  /** The sort orders the entries by `Before`, and only reorders them. */
  lemma {:induction false} SortByScoreSorted(s: seq<Scored>)
    requires IndexOrdered(s)
    ensures SortedBy(SortByScore(s))
    ensures multiset(SortByScore(s)) == multiset(s)
  {
    if s != [] {
      var tail := SortByScore(s[1..]);
      SortByScoreSorted(s[1..]);
      forall y | y in tail ensures s[0].index < y.index {
        assert y in multiset(s[1..]);
        var k :| 0 <= k < |s[1..]| && s[1..][k] == y;
        assert s[k + 1] == y;
      }
      InsertSorted(s[0], tail);
    }
  }

  function Min(a: int, b: int): int
  {
    if a <= b then a else b
  }

  /** `ROLE_DATABASE.find(r => r.id === id)`: the first role with that id. */
  function FindRole(roles: seq<Role>, id: string): (r: Option<Role>)
    ensures r.Some? <==> exists i :: 0 <= i < |roles| && roles[i].id == id
    ensures r.Some? ==> exists i :: 0 <= i < |roles| && roles[i] == r.value && r.value.id == id
                                  && (forall j :: 0 <= j < i ==> roles[j].id != id)
  {
    if roles == [] then None
    else if roles[0].id == id then Some(roles[0])
    else
      var r := FindRole(roles[1..], id);
      assert forall i :: 0 < i < |roles| ==> roles[i] == roles[1..][i - 1];
      if r.Some? then
        var k :| 0 <= k < |roles[1..]| && roles[1..][k] == r.value && r.value.id == id
                 && (forall j :: 0 <= j < k ==> roles[1..][j].id != id);
        assert roles[k + 1] == r.value;
        r
      else r
  }

  /** With distinct ids the lookup finds the role at the entry's position. */
  lemma FindRoleAt(roles: seq<Role>, i: int)
    requires DistinctRoleIds(roles)
    requires 0 <= i < |roles|
    ensures FindRole(roles, roles[i].id) == Some(roles[i])
  {
  }

  /** `Math.min(99, Math.round(raw / 1.5))`: round(2 raw / 3) is
      floor((4 raw + 3) / 6), and 2 raw / 3 is never exactly halfway between
      two integers, so the rounding direction of ties does not arise. */
  function DisplayScore(raw: int): (s: int)
    ensures s <= 99
  {
    var rounded := (4 * raw + 3) / 6;
    if rounded < 99 then rounded else 99
  }

  /** The shown score is capped at 99 exactly when 2 raw / 3 rounds to 99 or
      more, and below the cap it is 2 raw / 3 rounded to the nearest integer. */
  lemma DisplayScoreRounds(raw: int)
    ensures DisplayScore(raw) == 99 <==> 4 * raw >= 591
    ensures DisplayScore(raw) < 99 ==> -3 < 4 * raw - 6 * DisplayScore(raw) < 3
  {
    var q := (4 * raw + 3) / 6;
    DivisionBounds(4 * raw + 3, 6);
    RoundingStep(raw, q);
  }

  /** The rounding facts for any quotient bracketed like (4 raw + 3) / 6. */
  lemma RoundingStep(raw: int, q: int)
    requires 6 * q <= 4 * raw + 3 < 6 * q + 6
    ensures q >= 99 <==> 4 * raw >= 591
    ensures q < 99 ==> -3 < 4 * raw - 6 * q < 3
  {
  }

  /** Euclidean division brackets the dividend. */
  lemma DivisionBounds(x: int, d: int)
    requires d > 0
    ensures d * (x / d) <= x < d * (x / d) + d
  {
  }

  /** The cards for the two example answer sets: 80 and 50 show as 53 and
      33, and the catalog's SOC analyst (raw 135) shows as 90. */
  lemma ExampleDisplayScores()
    ensures DisplayScore(80) == 53 && DisplayScore(50) == 33
    ensures ROLE_DATABASE[4].id == "soc_analyst"
    ensures RawScore(map["q1" := Single("defense"), "q3" := Single("analysis"), "q6" := Multi(["networks"])], ROLE_DATABASE[4]) == 135
    ensures DisplayScore(135) == 90
  {
    SocAnalystScores(ROLE_DATABASE[4]);
  }

  /** The entries that make the cards: the first three after the sort. */
  function Top(es: seq<Scored>): seq<Scored>
  {
    var sorted := SortByScore(es);
    sorted[..Min(3, |sorted|)]
  }

  /** The chosen entries come from the table and keep the ranking order. */
  lemma {:induction false} TopFromTable(es: seq<Scored>)
    requires forall i :: 0 <= i < |es| ==> es[i].index == i
    ensures var top := Top(es);
      && |top| == Min(3, |es|)
      && (forall i :: 0 <= i < |top| ==> 0 <= top[i].index < |es| && top[i] == es[top[i].index])
      && SortedBy(top)
  {
    var sorted := SortByScore(es);
    var top := Top(es);
    SortByScoreSorted(es);
    forall i | 0 <= i < |top|
      ensures 0 <= top[i].index < |es| && top[i] == es[top[i].index]
    {
      assert top[i] == sorted[i];
      assert sorted[i] in multiset(es);
    }
  }

  /** In a sorted list, an element outside the first `n` ranks below each of them. */
  lemma LeftOutRanksBelow(sorted: seq<Scored>, n: int, x: Scored, i: int)
    requires SortedBy(sorted)
    requires 0 <= i < n <= |sorted|
    requires x in sorted && x !in sorted[..n]
    ensures Before(sorted[i], x)
  {
    var j :| 0 <= j < |sorted| && sorted[j] == x;
    assert j >= n by {
      assert forall m :: 0 <= m < n ==> sorted[..n][m] == sorted[m];
    }
  }

  /** Every entry left out ranks below every entry chosen. */
  lemma {:induction false} TopBeatsTheRest(es: seq<Scored>)
    requires forall i :: 0 <= i < |es| ==> es[i].index == i
    ensures var top := Top(es);
      forall k, i :: 0 <= k < |es| && es[k] !in top && 0 <= i < |top| ==> Before(top[i], es[k])
  {
    var sorted := SortByScore(es);
    var top := Top(es);
    SortByScoreSorted(es);
    forall k, i | 0 <= k < |es| && es[k] !in top && 0 <= i < |top| ensures Before(top[i], es[k]) {
      assert es[k] in multiset(es);
      LeftOutRanksBelow(sorted, |top|, es[k], i);
    }
  }

  function TopEntries(roles: seq<Role>, answers: Answers): seq<Scored>
  {
    Top(Entries(roles, answers))
  }

  /** One card per top entry: the role looked up by id and the display score. */
  function Cards(roles: seq<Role>, top: seq<Scored>): (cards: seq<Recommendation>)
    ensures |cards| == |top|
    ensures forall i :: 0 <= i < |top| ==>
      cards[i] == Recommendation(FindRole(roles, top[i].id), DisplayScore(top[i].score))
  {
    seq(|top|, i requires 0 <= i < |top| => Recommendation(FindRole(roles, top[i].id), DisplayScore(top[i].score)))
  }

  /** The recommendations shown for `answers`. */
  function Recommendations(roles: seq<Role>, answers: Answers): seq<Recommendation>
  {
    Cards(roles, TopEntries(roles, answers))
  }

  /** The cards are min(3, n) distinct roles, in ranking order, each with
      the display score of its raw score, and every role left out ranks below
      every role chosen. */
  lemma RecommendationsAreTheBest(roles: seq<Role>, answers: Answers)
    requires DistinctRoleIds(roles)
    ensures var top := TopEntries(roles, answers);
      var recs := Recommendations(roles, answers);
      && |recs| == |top| == Min(3, |roles|)
      && (forall i :: 0 <= i < |recs| ==>
            0 <= top[i].index < |roles| && recs[i] == Recommendation(Some(roles[top[i].index]), DisplayScore(RawScore(answers, roles[top[i].index]))))
      && (forall i, j :: 0 <= i < j < |top| ==> Before(top[i], top[j]))
      && (forall k, i :: 0 <= k < |roles| && Entries(roles, answers)[k] !in top && 0 <= i < |top| ==>
            RawScore(answers, roles[top[i].index]) >= RawScore(answers, roles[k]))
  {
    var es := Entries(roles, answers);
    TopFromTable(es);
    TopBeatsTheRest(es);
    var top := TopEntries(roles, answers);
    forall i | 0 <= i < |top| ensures FindRole(roles, top[i].id) == Some(roles[top[i].index]) {
      assert top[i] == es[top[i].index];
      FindRoleAt(roles, top[i].index);
    }
    forall k, i | 0 <= k < |roles| && es[k] !in top && 0 <= i < |top|
      ensures RawScore(answers, roles[top[i].index]) >= RawScore(answers, roles[k])
    {
      assert Before(top[i], es[k]);
      assert top[i] == es[top[i].index];
    }
  }

  /** Whatever the answers, a shown score lies between 20 and 97: the cap of
      99 is never reached by the catalog's adjustments. */
  lemma DisplayScoreRange(answers: Answers, role: Role)
    ensures 20 <= DisplayScore(RawScore(answers, role)) <= 97
  {
    RawScoreBounds(answers, role);
    DisplayScoreRounds(RawScore(answers, role));
  }

  /** The ranking the results page computes: the score table, its entries,
      the stable sort, the first three and their cards. */
  method RecommendedRoles(roles: seq<Role>, answers: Answers) returns (recs: seq<Recommendation>)
    requires DistinctRoleIds(roles)
    requires TablesNameRoles(roles)
    ensures recs == Recommendations(roles, answers)
  {
    var scores := ComputeScores(roles, answers);
    var entries := TableEntries(roles, scores);
    assert entries == Entries(roles, answers);
    var sorted := SortByScore(entries);
    recs := Cards(roles, sorted[..Min(3, |sorted|)]);
  }

  /** The ids of the catalog roles, in catalog order. */
  lemma CatalogRoleIds()
    ensures RoleIds(ROLE_DATABASE) == ROLE_IDS
  {
    RoleIdList();
  }

  /** Every id the adjustments name is in a list of ids. */
  predicate ListsNamed(ids: seq<string>)
  {
    && (forall id :: id in CODING_ROLES ==> id in ids)
    && (forall id :: id in ANALYSIS_ROLES ==> id in ids)
    && (forall id :: id in EXPERIENCED_ROLES ==> id in ids)
    && (forall id :: id in INTEREST_ROLES ==> id in ids)
  }

  lemma CatalogIdsNamed()
    ensures ListsNamed(ROLE_IDS)
  {
  }

  /** A role list whose ids include every id the adjustments name meets
      the tables' requirement. */
  lemma ListsNamedGiveTables(roles: seq<Role>)
    requires ListsNamed(RoleIds(roles))
    ensures TablesNameRoles(roles)
  {
    var ids := RoleIds(roles);
    forall id | id in ids ensures id in RoleIdSet(roles) {
      var i :| 0 <= i < |ids| && ids[i] == id;
      assert roles[i] in roles;
    }
  }

  /** The catalog meets the requirements of the ranking. */
  lemma CatalogRolesFitTheTables()
    ensures DistinctRoleIds(ROLE_DATABASE)
    ensures TablesNameRoles(ROLE_DATABASE)
  {
    RoleIdsAreUnique();
    CatalogRoleIds();
    CatalogIdsNamed();
    ListsNamedGiveTables(ROLE_DATABASE);
  }
}
