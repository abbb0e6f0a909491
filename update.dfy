/** The server-side action engine of the tracker (`api/update.js`).

    The handler loads the tracker document, applies one action to it in place
    and writes it back. This module holds the catalogs, a value model of the
    document (`Doc`) with the pure specification of one action (`Process`),
    the properties of that specification, and the document as a mutable object
    (`TrackerDocument`) whose `ApplyAction` follows the handler statement by
    statement and is proved to agree with `Process`.

    Conventions: a string field that is missing or falsy in the request is
    the empty string; a missing `customXp` is 0. The day of the week and the
    timestamp are parameters (`isWeekend`, `now`). */
module Update {
  import opened Wrappers
  import opened Progression

  /** A catalog definition `{ title, xp, stat }`. */
  datatype CatalogEntry = CatalogEntry(title: string, xp: int, stat: string)

  /** `quests[id]`: the quest catalog entry for an id, if there is one; only
      `work` depends on the day. */
  function Quest(id: string, isWeekend: bool): (e: Option<CatalogEntry>)
    ensures e.Some? ==> e.value.xp > 0 && e.value.title != "" && e.value.stat != ""
    ensures e.Some? ==> id != ""
  {
    if id == "steps" then Some(CatalogEntry("7000 Pas", 15, "endurance"))
    else if id == "water" then Some(CatalogEntry("Hydratation 2L", 10, "vitality"))
    else if id == "workout" then Some(CatalogEntry("Sport", 20, "strength"))
    else if id == "eatHealthy" then Some(CatalogEntry("Manger Sain", 15, "vitality"))
    else if id == "work" then
      Some(CatalogEntry(if isWeekend then "Travail 3-4h" else "Travail 8h",
                        if isWeekend then 15 else 25, "intelligence"))
    else if id == "reading" then Some(CatalogEntry("Lecture 30min", 15, "intelligence"))
    else if id == "post" then Some(CatalogEntry("1 Post", 20, "discipline"))
    else if id == "noPhoneWake" then Some(CatalogEntry("Réveil Sans Tel", 10, "discipline"))
    else if id == "noPhoneSleep" then Some(CatalogEntry("Coucher Sans Tel", 10, "discipline"))
    else None
  }

  /** `penalties[id]`: the penalty catalog entry for an id, if there is one;
      only `noWork` depends on the day. */
  function Penalty(id: string, isWeekend: bool): (e: Option<CatalogEntry>)
    ensures e.Some? ==> e.value.xp < 0 && e.value.title != "" && e.value.stat != ""
    ensures e.Some? ==> id != ""
  {
    if id == "missedSteps" then Some(CatalogEntry("Pas de 7000 pas", -40, "endurance"))
    else if id == "noWater" then Some(CatalogEntry("Pas assez d'eau", -30, "vitality"))
    else if id == "missedWorkout" then Some(CatalogEntry("Pas de sport", -50, "strength"))
    else if id == "junkFood" then Some(CatalogEntry("Junk food", -45, "vitality"))
    else if id == "noWork" then
      Some(CatalogEntry(if isWeekend then "Pas travaillé 3-4h" else "Pas travaillé 8h",
                        if isWeekend then -35 else -60, "intelligence"))
    else if id == "noReading" then Some(CatalogEntry("Pas de lecture", -35, "intelligence"))
    else if id == "noPost" then Some(CatalogEntry("Pas de post", -40, "discipline"))
    else if id == "phoneWake" then Some(CatalogEntry("Tel au réveil", -40, "discipline"))
    else if id == "phoneSleep" then Some(CatalogEntry("Tel au coucher", -40, "discipline"))
    else if id == "procrastination" then Some(CatalogEntry("Procrastination", -50, "discipline"))
    else if id == "stayedUpLate" then Some(CatalogEntry("Couché après minuit", -35, "vitality"))
    else None
  }

  /** The day changes the `work` quest and the `noWork` penalty, in both title
      and xp, and nothing else: the same ids exist on every day and every
      other entry is the same. */
  lemma WeekendVariant(id: string)
    ensures Quest(id, true).Some? == Quest(id, false).Some?
    ensures Penalty(id, true).Some? == Penalty(id, false).Some?
    ensures id != "work" ==> Quest(id, true) == Quest(id, false)
    ensures id != "noWork" ==> Penalty(id, true) == Penalty(id, false)
    ensures Quest("work", true).value.title != Quest("work", false).value.title
    ensures Quest("work", true).value.xp == 15 && Quest("work", false).value.xp == 25
    ensures Penalty("noWork", true).value.title != Penalty("noWork", false).value.title
    ensures Penalty("noWork", true).value.xp == -35 && Penalty("noWork", false).value.xp == -60
  {
  }

  /** The request body `{ action, questId, penaltyId, customAction, customXp }`. */
  datatype Request = Request(action: string, questId: string, penaltyId: string,
                             customAction: string, customXp: int)

  /** One ledger line `{ action, xp, date }`. */
  datatype HistoryEntry = HistoryEntry(action: string, xp: int, date: string)

  /** The fields of the tracker document the handler reads or writes. `xp`
      and `history` may be absent from a stored document. */
  datatype Doc = Doc(
    xp: Option<int>,
    level: int,
    rank: string,
    stats: map<string, int>,
    completedToday: seq<string>,
    penaltiesToday: seq<string>,
    history: Option<seq<HistoryEntry>>,
    lastUpdated: string)

  /** The handler's answer: success with the new xp, level and rank; the
      "already completed/applied today" reply with the stored xp; or the
      bad-request reply. Only `Ok` is followed by a write of the document. */
  datatype Outcome = Ok(xp: int, level: int, rank: string) | AlreadyApplied(storedXp: Option<int>) | Invalid

  const HistoryCap: nat := 50

  const ResetTitle: string := "Reset journalier"

  /** `xp || 0`: a missing xp counts as 0. */
  function XpOrZero(xp: Option<int>): (x: int)
    ensures xp.Some? ==> x == xp.value
    ensures xp.None? ==> x == 0
  {
    xp.GetOr(0)
  }

  predicate NoDuplicates(s: seq<string>)
  {
    forall i, j :: 0 <= i < j < |s| ==> s[i] != s[j]
  }

  /** Every stat is at least 1. */
  predicate StatsAtLeastOne(stats: map<string, int>)
  {
    forall k :: k in stats ==> stats[k] >= 1
  }

  /** A stored ledger holds at most `HistoryCap` entries. */
  predicate WithinCap(history: Option<seq<HistoryEntry>>)
  {
    history.Some? ==> |history.value| <= HistoryCap
  }

  /** The invariants the document keeps from one write to the next. */
  predicate WellFormed(d: Doc)
  {
    XpOrZero(d.xp) >= 0
    && StatsAtLeastOne(d.stats)
    && NoDuplicates(d.completedToday)
    && NoDuplicates(d.penaltiesToday)
    && WithinCap(d.history)
    && d.level == Level(XpOrZero(d.xp))
    && d.rank == RankName(RankOf(d.level))
  }

  /** The server's stat nudge: the sign of the xp change, 0 when it is 0. */
  function StatChange(xpChange: int): (c: int)
    ensures xpChange > 0 ==> c == 1
    ensures xpChange < 0 ==> c == -1
    ensures xpChange == 0 ==> c == 0
  {
    if xpChange > 0 then 1 else if xpChange < 0 then -1 else 0
  }

  /** Adjust the named stat by the sign of the xp change, floored at 1; only a
      stat already present is touched. */
  function NudgeStat(stats: map<string, int>, stat: string, xpChange: int): (r: map<string, int>)
    ensures r.Keys == stats.Keys
    ensures forall k :: k in stats && k != stat ==> r[k] == stats[k]
    ensures stat != "" && stat in stats ==> r[stat] == Max(1, stats[stat] + StatChange(xpChange))
    ensures stat == "" ==> r == stats
  {
    if stat != "" && stat in stats then stats[stat := Max(1, stats[stat] + StatChange(xpChange))]
    else stats
  }

  /** Push an entry and keep only the newest `HistoryCap` entries. */
  function AppendCapped(h: seq<HistoryEntry>, e: HistoryEntry): (r: seq<HistoryEntry>)
    ensures |r| == Min(|h| + 1, HistoryCap)
    ensures r == (h + [e])[|h| + 1 - |r|..]
    ensures r[|r| - 1] == e
  {
    var pushed := h + [e];
    if |pushed| > HistoryCap then pushed[|pushed| - HistoryCap..] else pushed
  }

  /** Appending to a full ledger drops exactly the oldest entry. */
  lemma AppendToFullLedger(h: seq<HistoryEntry>, e: HistoryEntry)
    requires |h| == HistoryCap
    ensures AppendCapped(h, e) == h[1..] + [e]
  {
    assert (h + [e])[1..] == h[1..] + [e];
  }

  /** What the dispatch on `action` decided: reject the request, reply that
      it was already done today, or go on with the new daily lists and the
      values of the handler's `xpChange`, `statToUpdate` and `actionTitle`
      (the empty string standing for no stat). */
  datatype Decision =
    | Rejected
    | Repeated
    | Proceed(completedToday: seq<string>, penaltiesToday: seq<string>,
              xpChange: int, stat: string, title: string)

  /** The dispatch on `action`: a request is rejected exactly when it is not
      recognised, answered as repeated exactly when its id is already on
      its daily list, and otherwise goes on with daily lists that stay free
      of duplicates. */
  function Decide(d: Doc, req: Request, isWeekend: bool): (r: Decision)
    ensures r == Rejected <==> !Recognised(req, isWeekend)
    ensures r == Repeated <==>
              (req.action == "quest" && Quest(req.questId, isWeekend).Some? && req.questId in d.completedToday)
              || (req.action == "penalty" && Penalty(req.penaltyId, isWeekend).Some?
                  && req.penaltyId in d.penaltiesToday)
    ensures r.Proceed? && NoDuplicates(d.completedToday) ==> NoDuplicates(r.completedToday)
    ensures r.Proceed? && NoDuplicates(d.penaltiesToday) ==> NoDuplicates(r.penaltiesToday)
  {
    var quest := Quest(req.questId, isWeekend);
    var penalty := Penalty(req.penaltyId, isWeekend);
    if req.action == "quest" && req.questId != "" && quest.Some? then
      var q := quest.value;
      if req.questId !in d.completedToday then
        Proceed(d.completedToday + [req.questId], d.penaltiesToday, q.xp, q.stat, q.title)
      else Repeated
    else if req.action == "penalty" && req.penaltyId != "" && penalty.Some? then
      var p := penalty.value;
      if req.penaltyId !in d.penaltiesToday then
        Proceed(d.completedToday, d.penaltiesToday + [req.penaltyId], p.xp, p.stat, p.title)
      else Repeated
    else if req.action == "custom" && req.customAction != "" then
      Proceed(d.completedToday, d.penaltiesToday, req.customXp, "", req.customAction)
    else if req.action == "reset" then
      Proceed([], [], 0, "", ResetTitle)
    else Rejected
  }

  /** Steps 4 to 8 of the handler: xp, stat, level, rank, history, timestamp. */
  function Settle(d: Doc, completed: seq<string>, penalties: seq<string>,
                  xpChange: int, stat: string, title: string, now: string): (r: Doc)
    ensures r.xp.Some? && r.xp.value >= 0 && r.xp.value >= XpOrZero(d.xp) + xpChange
    ensures r.xp == Some(Max(0, XpOrZero(d.xp) + xpChange))
    ensures r.stats == NudgeStat(d.stats, stat, xpChange)
    ensures r.completedToday == completed && r.penaltiesToday == penalties
    ensures title != "" && xpChange != 0 ==>
      r.history == Some(AppendCapped(d.history.GetOr([]), HistoryEntry(title, xpChange, now)))
    ensures r.level == Level(r.xp.value) && r.rank == RankName(RankOf(r.level))
    ensures r.stats.Keys == d.stats.Keys
    ensures StatsAtLeastOne(d.stats) ==> StatsAtLeastOne(r.stats)
    ensures WithinCap(d.history) ==> WithinCap(r.history)
    ensures title == "" || xpChange == 0 ==> r.history == d.history
    ensures r.lastUpdated == now
  {
    var xp := Max(0, XpOrZero(d.xp) + xpChange);
    var level := Level(xp);
    d.(xp := Some(xp),
       level := level,
       rank := RankName(RankOf(level)),
       stats := NudgeStat(d.stats, stat, xpChange),
       completedToday := completed,
       penaltiesToday := penalties,
       history := if title != "" && xpChange != 0
                  then Some(AppendCapped(d.history.GetOr([]), HistoryEntry(title, xpChange, now)))
                  else d.history,
       lastUpdated := now)
  }

  /** One request against the stored document: the reply and the document
      as it is afterwards (the stored one when nothing is written). */
  function Process(d: Doc, req: Request, isWeekend: bool, now: string): (r: (Outcome, Doc))
    ensures !r.0.Ok? ==> r.1 == d
    ensures r.0.AlreadyApplied? ==> r.0.storedXp == d.xp
    ensures r.0.Ok? ==> r.1.xp == Some(r.0.xp) && r.1.lastUpdated == now
  {
    match Decide(d, req, isWeekend)
    case Rejected => (Invalid, d)
    case Repeated => (AlreadyApplied(d.xp), d)
    case Proceed(completed, penalties, xpChange, stat, title) =>
      var d' := Settle(d, completed, penalties, xpChange, stat, title, now);
      (Ok(d'.xp.value, d'.level, d'.rank), d')
  }

  /** The request names something the handler knows how to apply. */
  predicate Recognised(req: Request, isWeekend: bool)
  {
    (req.action == "quest" && Quest(req.questId, isWeekend).Some?)
    || (req.action == "penalty" && Penalty(req.penaltyId, isWeekend).Some?)
    || (req.action == "custom" && req.customAction != "")
    || req.action == "reset"
  }

  /** An unknown action, unknown or missing id, or untitled custom action is
      rejected and nothing is changed; every recognised request is not. */
  lemma InvalidExactlyWhenUnrecognised(d: Doc, req: Request, isWeekend: bool, now: string)
    ensures Process(d, req, isWeekend, now).0 == Invalid <==> !Recognised(req, isWeekend)
    ensures Process(d, req, isWeekend, now).0 == Invalid ==> Process(d, req, isWeekend, now).1 == d
  {
  }

  /** Every successful reply reports the written xp, which is never negative,
      with the level and rank derived from it. */
  lemma OkReportsDerivedValues(d: Doc, req: Request, isWeekend: bool, now: string)
    requires Process(d, req, isWeekend, now).0.Ok?
    ensures var (out, d') := Process(d, req, isWeekend, now);
      && d'.xp == Some(out.xp)
      && out.xp >= 0
      && out.level == Level(out.xp) == d'.level
      && out.rank == RankName(RankOf(out.level)) == d'.rank
  {
  }

  /** A quest not yet completed today is recorded once and its xp applied,
      whatever else the request carries. */
  lemma QuestFirstTime(d: Doc, req: Request, isWeekend: bool, now: string)
    requires req.action == "quest" && Quest(req.questId, isWeekend).Some?
    requires req.questId !in d.completedToday
    ensures var q := Quest(req.questId, isWeekend).value;
      var (out, d') := Process(d, req, isWeekend, now);
      && out.Ok?
      && d'.completedToday == d.completedToday + [req.questId]
      && d'.penaltiesToday == d.penaltiesToday
      && d'.xp == Some(Max(0, XpOrZero(d.xp) + q.xp))
      && d'.stats == NudgeStat(d.stats, q.stat, q.xp)
      && d'.history == Some(AppendCapped(d.history.GetOr([]), HistoryEntry(q.title, q.xp, now)))
  {
  }

  /** A quest already completed today is answered with the stored xp and
      changes nothing. */
  lemma QuestRepeated(d: Doc, req: Request, isWeekend: bool, now: string)
    requires req.action == "quest" && Quest(req.questId, isWeekend).Some?
    requires req.questId in d.completedToday
    ensures Process(d, req, isWeekend, now) == (AlreadyApplied(d.xp), d)
  {
  }

  /** A penalty not yet applied today is recorded once and its xp applied,
      whatever else the request carries. */
  lemma PenaltyFirstTime(d: Doc, req: Request, isWeekend: bool, now: string)
    requires req.action == "penalty" && Penalty(req.penaltyId, isWeekend).Some?
    requires req.penaltyId !in d.penaltiesToday
    ensures var p := Penalty(req.penaltyId, isWeekend).value;
      var (out, d') := Process(d, req, isWeekend, now);
      && out.Ok?
      && d'.penaltiesToday == d.penaltiesToday + [req.penaltyId]
      && d'.completedToday == d.completedToday
      && d'.xp == Some(Max(0, XpOrZero(d.xp) + p.xp))
      && d'.stats == NudgeStat(d.stats, p.stat, p.xp)
      && d'.history == Some(AppendCapped(d.history.GetOr([]), HistoryEntry(p.title, p.xp, now)))
  {
  }

  /** A penalty already applied today is answered with the stored xp and
      changes nothing. */
  lemma PenaltyRepeated(d: Doc, req: Request, isWeekend: bool, now: string)
    requires req.action == "penalty" && Penalty(req.penaltyId, isWeekend).Some?
    requires req.penaltyId in d.penaltiesToday
    ensures Process(d, req, isWeekend, now) == (AlreadyApplied(d.xp), d)
  {
  }

  /** A titled custom action applies its xp, touches no stat and no daily
      list, is logged exactly when its xp is not 0, and is never "already
      done": applying it again succeeds again. */
  lemma CustomAction(d: Doc, req: Request, isWeekend: bool, now: string)
    requires req.action == "custom" && req.customAction != ""
    ensures var (out, d') := Process(d, req, isWeekend, now);
      && out.Ok?
      && d'.xp == Some(Max(0, XpOrZero(d.xp) + req.customXp))
      && d'.stats == d.stats
      && d'.completedToday == d.completedToday
      && d'.penaltiesToday == d.penaltiesToday
      && d'.history == (if req.customXp != 0
                        then Some(AppendCapped(d.history.GetOr([]), HistoryEntry(req.customAction, req.customXp, now)))
                        else d.history)
      && Process(d', req, isWeekend, now).0.Ok?
  {
  }

  /** `reset` empties both daily lists, keeps stats and history, and keeps
      the xp of a well-formed document (it only normalises a missing or
      negative xp to 0). */
  lemma ResetAction(d: Doc, req: Request, isWeekend: bool, now: string)
    requires req.action == "reset"
    ensures var (out, d') := Process(d, req, isWeekend, now);
      && out.Ok?
      && d'.completedToday == [] && d'.penaltiesToday == []
      && d'.stats == d.stats
      && d'.history == d.history
      && d'.xp == Some(Max(0, XpOrZero(d.xp)))
      && (WellFormed(d) ==> XpOrZero(d'.xp) == XpOrZero(d.xp))
  {
  }

  /** Steps 4 to 8 keep the invariants whenever the new daily lists are
      free of duplicates. */
  lemma SettleKeepsWellFormed(d: Doc, completed: seq<string>, penalties: seq<string>,
                              xpChange: int, stat: string, title: string, now: string)
    requires WellFormed(d)
    requires NoDuplicates(completed) && NoDuplicates(penalties)
    ensures WellFormed(Settle(d, completed, penalties, xpChange, stat, title, now))
  {
  }

  /** The document's invariants hold after every request. */
  lemma ProcessKeepsWellFormed(d: Doc, req: Request, isWeekend: bool, now: string)
    requires WellFormed(d)
    ensures WellFormed(Process(d, req, isWeekend, now).1)
  {
    match Decide(d, req, isWeekend)
    case Rejected =>
    case Repeated =>
    case Proceed(completed, penalties, xpChange, stat, title) =>
      SettleKeepsWellFormed(d, completed, penalties, xpChange, stat, title, now);
  }

  /** The same quest twice in one day applies its xp once: the second
      request reports the xp the first one wrote and changes nothing. */
  lemma QuestTwiceAppliesOnce(d: Doc, req1: Request, req2: Request, isWeekend: bool, now1: string, now2: string)
    requires req1.action == "quest" && Quest(req1.questId, isWeekend).Some?
    requires req1.questId !in d.completedToday
    requires req2.action == "quest" && req2.questId == req1.questId
    ensures var d1 := Process(d, req1, isWeekend, now1).1;
      Process(d1, req2, isWeekend, now2) == (AlreadyApplied(d1.xp), d1)
  {
    QuestFirstTime(d, req1, isWeekend, now1);
    var d1 := Process(d, req1, isWeekend, now1).1;
    QuestRepeated(d1, req2, isWeekend, now2);
  }

  /** First step of the weekday scenario: `steps` on a fresh day adds 15 and
      stays at level 1. */
  lemma WeekdayStepsFirst(d: Doc, req: Request, now: string)
    requires req.action == "quest" && req.questId == "steps"
    requires d.xp.Some? && 0 <= d.xp.value <= 35
    requires d.completedToday == [] && d.penaltiesToday == []
    ensures var (o, d') := Process(d, req, false, now);
      && o == Ok(d.xp.value + 15, 1, "E") && d'.xp == Some(d.xp.value + 15)
      && d'.completedToday == ["steps"] && d'.penaltiesToday == []
  {
    QuestFirstTime(d, req, false, now);
    LevelBelow200(d.xp.value + 15);
  }

  /** Second step: `missedWorkout` (-50) from at most 50 floors the xp at 0. */
  lemma WeekdayMissedSecond(d: Doc, req: Request, now: string)
    requires req.action == "penalty" && req.penaltyId == "missedWorkout"
    requires d.xp.Some? && 0 <= d.xp.value <= 50
    requires d.penaltiesToday == []
    ensures var (o, d') := Process(d, req, false, now);
      && o == Ok(0, 1, "E") && d'.xp == Some(0) && d'.completedToday == d.completedToday
  {
    PenaltyFirstTime(d, req, false, now);
    LevelBelow200(0);
  }

  /** On a weekday, from any xp between 0 and 35: `steps` adds 15 at level 1,
      `missedWorkout` then floors the xp at 0 (still level 1), and `steps`
      again the same day is a no-op that reports 0. */
  lemma WeekdayScenario(x0: int, stats: map<string, int>, now: string)
    requires 0 <= x0 <= 35
    ensures var d0 := Doc(Some(x0), 1, "E", stats, [], [], Some([]), now);
      var (o1, d1) := Process(d0, Request("quest", "steps", "", "", 0), false, now);
      var (o2, d2) := Process(d1, Request("penalty", "", "missedWorkout", "", 0), false, now);
      var (o3, d3) := Process(d2, Request("quest", "steps", "", "", 0), false, now);
      && o1 == Ok(x0 + 15, 1, "E")
      && o2 == Ok(0, 1, "E")
      && o3 == AlreadyApplied(Some(0)) && d3 == d2
  {
    var steps := Request("quest", "steps", "", "", 0);
    var missed := Request("penalty", "", "missedWorkout", "", 0);
    var d0 := Doc(Some(x0), 1, "E", stats, [], [], Some([]), now);
    var (o1, d1) := Process(d0, steps, false, now);
    WeekdayStepsFirst(d0, steps, now);
    var (o2, d2) := Process(d1, missed, false, now);
    WeekdayMissedSecond(d1, missed, now);
    QuestRepeated(d2, steps, false, now);
  }

  /** The stored tracker document, updated in place by the handler. */
  class TrackerDocument {
    var xp: Option<int>
    var level: int
    var rank: string
    var stats: map<string, int>
    var completedToday: seq<string>
    var penaltiesToday: seq<string>
    var history: Option<seq<HistoryEntry>>
    var lastUpdated: string

    function Snapshot(): Doc
      reads this
    {
      Doc(xp, level, rank, stats, completedToday, penaltiesToday, history, lastUpdated)
    }

    /** The document as parsed from the store. */
    constructor (d: Doc)
      ensures Snapshot() == d
    {
      xp, level, rank, stats := d.xp, d.level, d.rank, d.stats;
      completedToday, penaltiesToday := d.completedToday, d.penaltiesToday;
      history, lastUpdated := d.history, d.lastUpdated;
    }

    /** Step 4 of the handler: the new xp and the stat nudge. */
    method UpdateXpAndStats(xpChange: int, statToUpdate: string)
      modifies this`xp, this`stats
      ensures xp == Some(Max(0, XpOrZero(old(xp)) + xpChange))
      ensures stats == NudgeStat(old(stats), statToUpdate, xpChange)
    {
      xp := Some(Max(0, XpOrZero(xp) + xpChange));
      if statToUpdate != "" && statToUpdate in stats {
        var statChange := if xpChange > 0 then 1 else if xpChange < 0 then -1 else 0;
        stats := stats[statToUpdate := Max(1, stats[statToUpdate] + statChange)];
      }
    }

    /** Steps 5 and 6 of the handler: level and rank derived from xp. */
    method UpdateLevelAndRank()
      requires xp.Some?
      modifies this`level, this`rank
      ensures level == Level(xp.value)
      ensures rank == RankName(RankOf(level))
    {
      level := Level(xp.value);
      rank := RankName(RankOf(level));
    }

    /** Step 7 of the handler: log a titled action with a non-zero xp change
        and keep the newest `HistoryCap` entries. */
    method AppendHistory(actionTitle: string, xpChange: int, now: string)
      modifies this`history
      ensures history == if actionTitle != "" && xpChange != 0
                         then Some(AppendCapped(old(history).GetOr([]), HistoryEntry(actionTitle, xpChange, now)))
                         else old(history)
    {
      if actionTitle != "" && xpChange != 0 {
        var h := if history.Some? then history.value else [];
        h := h + [HistoryEntry(actionTitle, xpChange, now)];
        if |h| > HistoryCap {
          h := h[|h| - HistoryCap..];
        }
        history := Some(h);
      }
    }

    /** Steps 4 to 8 of the handler, after the daily lists are updated. */
    method Commit(xpChange: int, statToUpdate: string, actionTitle: string, now: string)
      modifies this
      ensures Snapshot() == Settle(old(Snapshot()), old(completedToday), old(penaltiesToday),
                                   xpChange, statToUpdate, actionTitle, now)
    {
      UpdateXpAndStats(xpChange, statToUpdate);
      UpdateLevelAndRank();
      AppendHistory(actionTitle, xpChange, now);
      lastUpdated := now;
    }

    /** Steps 2 and 3 of the handler: the catalogs for the day, then the
        dispatch on the action, pushing the id onto its daily list (or
        emptying both lists for `reset`) and choosing the values of
        `xpChange`, `statToUpdate` and `actionTitle`. */
    method Dispatch(req: Request, isWeekend: bool) returns (decision: Decision)
      modifies this`completedToday, this`penaltiesToday
      ensures decision == Decide(old(Snapshot()), req, isWeekend)
      ensures decision.Proceed? ==> completedToday == decision.completedToday
                                    && penaltiesToday == decision.penaltiesToday
      ensures !decision.Proceed? ==> completedToday == old(completedToday)
                                     && penaltiesToday == old(penaltiesToday)
    {
      var quest := Quest(req.questId, isWeekend);
      var penalty := Penalty(req.penaltyId, isWeekend);

      var xpChange := 0;
      var statToUpdate := "";
      var actionTitle := "";

      if req.action == "quest" && req.questId != "" && quest.Some? {
        if req.questId !in completedToday {
          completedToday := completedToday + [req.questId];
          xpChange := quest.value.xp;
          statToUpdate := quest.value.stat;
          actionTitle := quest.value.title;
        } else {
          return Repeated;
        }
      } else if req.action == "penalty" && req.penaltyId != "" && penalty.Some? {
        if req.penaltyId !in penaltiesToday {
          penaltiesToday := penaltiesToday + [req.penaltyId];
          xpChange := penalty.value.xp;
          statToUpdate := penalty.value.stat;
          actionTitle := penalty.value.title;
        } else {
          return Repeated;
        }
      } else if req.action == "custom" && req.customAction != "" {
        xpChange := req.customXp;
        actionTitle := req.customAction;
      } else if req.action == "reset" {
        completedToday := [];
        penaltiesToday := [];
        actionTitle := ResetTitle;
      } else {
        return Rejected;
      }
      decision := Proceed(completedToday, penaltiesToday, xpChange, statToUpdate, actionTitle);
    }

    /** Steps 2 to 8 of the handler: dispatch on the action, then update xp,
        stat, level, rank, history and timestamp in place. Nothing changes
        unless the reply is `Ok`; by `ProcessKeepsWellFormed` a well-formed
        document stays well-formed. */
    method ApplyAction(req: Request, isWeekend: bool, now: string) returns (out: Outcome)
      modifies this
      ensures (out, Snapshot()) == Process(old(Snapshot()), req, isWeekend, now)
    {
      ghost var d0 := Snapshot();
      var decision := Dispatch(req, isWeekend);
      match decision
      case Rejected =>
        out := Invalid;
      case Repeated =>
        out := AlreadyApplied(xp);
      case Proceed(completed, penalties, xpChange, statToUpdate, actionTitle) =>
        Commit(xpChange, statToUpdate, actionTitle, now);
        assert Snapshot() == Settle(d0, completed, penalties, xpChange, statToUpdate, actionTitle, now);
        out := Ok(xp.value, level, rank);
    }
  }
}
