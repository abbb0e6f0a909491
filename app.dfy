/** The client's progression and daily-state logic (`src/App.jsx`).

    The client keeps the player (xp and stats), today's quests, the custom
    quests and today's penalties as React state and replaces them through
    setters. Here that state is the class `ClientState`; each handler that
    replaces it is a method, specified by the functions of this module. The
    level is `Progression.Level`, the same formula as the server's. The day of
    the week is a parameter; ids built from the clock are supplied by the
    caller. */
module App {
  import opened Wrappers
  import opened Progression

  /** A card of one of the client's lists: a quest (default or custom) with
      its `completed` flag, or a penalty with its `applied` flag. */
  datatype Item =
    | Quest(id: string, title: string, description: string, xp: int, stat: string,
            category: string, icon: string, completed: bool)
    | Penalty(id: string, title: string, xp: int, stat: string, applied: bool)
  {
    /** `completed` for a quest, `applied` for a penalty. */
    predicate Done()
    {
      if Quest? then completed else applied
    }

    /** `{ ...q, completed: true }` or `{ ...p, applied: true }`. */
    function AsDone(): (r: Item)
      ensures r.Done() && r.Quest? == Quest?
      ensures r.id == id && r.title == title && r.xp == xp && r.stat == stat
      ensures Quest? ==> r.description == description && r.category == category && r.icon == icon
    {
      if Quest? then this.(completed := true) else this.(applied := true)
    }
  }

  predicate DistinctIds(items: seq<Item>)
  {
    forall i, j :: 0 <= i < j < |items| ==> items[i].id != items[j].id
  }

  /** Every card of the list is a quest. */
  predicate AllQuests(items: seq<Item>)
  {
    forall i :: 0 <= i < |items| ==> items[i].Quest?
  }

  /** Every card of the list is a penalty. */
  predicate AllPenalties(items: seq<Item>)
  {
    forall i :: 0 <= i < |items| ==> items[i].Penalty?
  }

  /** `getDefaultQuests`, as today's list starts: every quest not completed.
      Only `work` depends on the day. */
  function DefaultQuests(weekend: bool): (qs: seq<Item>)
    ensures |qs| == 9
    ensures forall i :: 0 <= i < |qs| ==> qs[i].Quest? && !qs[i].Done() && qs[i].xp > 0
    ensures qs[4].id == "work" && qs[4].xp == (if weekend then 15 else 25)
  {
    [ Quest("steps", "7000 Pas", "Faire 7000 pas dans la journée", 15, "endurance", "sport", "👟", false),
      Quest("water", "Hydratation", "Boire 2L d'eau", 10, "vitality", "sport", "💧", false),
      Quest("workout", "Sport", "Une séance de sport", 20, "strength", "sport", "💪", false),
      Quest("eatHealthy", "Manger Sain", "Alimentation saine aujourd'hui", 15, "vitality", "sport", "🥗", false),
      Quest("work", if weekend then "Travail 3-4h" else "Travail 8h",
            if weekend then "Travailler 3-4 heures (weekend)" else "Travailler 8 heures",
            if weekend then 15 else 25, "intelligence", "productivity", "💼", false),
      Quest("reading", "Lecture", "Lire 30 minutes", 15, "intelligence", "productivity", "📖", false),
      Quest("post", "1 Post", "Publier au moins 1 post", 20, "discipline", "productivity", "📱", false),
      Quest("noPhoneWake", "Réveil Sans Tel", "Pas de téléphone au réveil", 10, "discipline", "productivity", "🌅", false),
      Quest("noPhoneSleep", "Coucher Sans Tel", "Pas de téléphone au coucher", 10, "discipline", "productivity", "🌙", false) ]
  }

  /** `getPenalties`, as today's list starts: no penalty applied. Only
      `noWork` depends on the day. */
  function DefaultPenalties(weekend: bool): (ps: seq<Item>)
    ensures |ps| == 11
    ensures forall i :: 0 <= i < |ps| ==> ps[i].Penalty? && !ps[i].Done() && ps[i].xp < 0
    ensures ps[4].id == "noWork" && ps[4].xp == (if weekend then -35 else -60)
  {
    [ Penalty("missedSteps", "Pas de 7000 pas", -40, "endurance", false),
      Penalty("noWater", "Pas assez d'eau", -30, "vitality", false),
      Penalty("missedWorkout", "Pas de sport", -50, "strength", false),
      Penalty("junkFood", "Junk food / Mal mangé", -45, "vitality", false),
      Penalty("noWork", if weekend then "Pas travaillé 3-4h" else "Pas travaillé 8h",
              if weekend then -35 else -60, "intelligence", false),
      Penalty("noReading", "Pas de lecture", -35, "intelligence", false),
      Penalty("noPost", "Pas de post", -40, "discipline", false),
      Penalty("phoneWake", "Tel au réveil", -40, "discipline", false),
      Penalty("phoneSleep", "Tel au coucher", -40, "discipline", false),
      Penalty("procrastination", "Procrastination", -50, "discipline", false),
      Penalty("stayedUpLate", "Couché après minuit", -35, "vitality", false) ]
  }

  /** The default quest list never repeats an id. */
  lemma DefaultQuestIdsDistinct(weekend: bool)
    ensures DistinctIds(DefaultQuests(weekend))
  {
  }

  /** The default penalty list never repeats an id. */
  lemma DefaultPenaltyIdsDistinct(weekend: bool)
    ensures DistinctIds(DefaultPenalties(weekend))
  {
  }

  /** `getRank(level).name`: the client's own copy of the rank ladder, which
      picks the same band as the server's. */
  function GetRank(level: int): (name: string)
    ensures name == RankName(RankOf(level))
  {
    if level >= 100 then "NATIONAL"
    else if level >= 80 then "S"
    else if level >= 60 then "A"
    else if level >= 40 then "B"
    else if level >= 25 then "C"
    else if level >= 10 then "D"
    else "E"
  }

  /** The part of the player record the handlers change. */
  datatype Player = Player(xp: int, stats: map<string, int>)

  predicate PlayerValid(p: Player)
  {
    p.xp >= 0 && forall k :: k in p.stats ==> p.stats[k] >= 1
  }

  /** The client's stat nudge: +1 for a positive change and -1 otherwise,
      a change of 0 included. */
  function ClientStatChange(xpChange: int): (c: int)
    ensures xpChange > 0 ==> c == 1
    ensures xpChange <= 0 ==> c == -1
  {
    if xpChange > 0 then 1 else -1
  }

  /** The player after `updatePlayerXpAndStats(xpChange, stat)`. */
  function UpdatedPlayer(p: Player, xpChange: int, stat: string): (r: Player)
    ensures r.xp == Max(0, p.xp + xpChange)
    ensures r.stats.Keys == p.stats.Keys
    ensures forall k :: k in p.stats && k != stat ==> r.stats[k] == p.stats[k]
    ensures stat != "" && stat in p.stats ==> r.stats[stat] == Max(1, p.stats[stat] + ClientStatChange(xpChange))
    ensures stat == "" ==> r.stats == p.stats
    ensures PlayerValid(p) ==> PlayerValid(r)
  {
    var stats := if stat != "" && stat in p.stats
                 then p.stats[stat := Max(1, p.stats[stat] + ClientStatChange(xpChange))]
                 else p.stats;
    Player(Max(0, p.xp + xpChange), stats)
  }

  /** One element of the `map` in `completeQuest` / `applyPenalty`: a
      pending item with the id becomes done. */
  function MarkIfPending(item: Item, id: string): (r: Item)
    ensures r.Done() <==> item.Done() || item.id == id
    ensures item.id != id || item.Done() ==> r == item
    ensures item.id == id ==> r == item.AsDone()
  {
    if item.id == id && !item.Done() then item.AsDone() else item
  }

  /** The list after that `map`: every item with the id is done afterwards,
      every other item is untouched. */
  function MarkDone(items: seq<Item>, id: string): (r: seq<Item>)
    ensures |r| == |items|
    ensures forall i :: 0 <= i < |items| ==>
              r[i] == (if items[i].id == id then items[i].AsDone() else items[i])
    ensures forall i :: 0 <= i < |items| ==> r[i].id == items[i].id && r[i].xp == items[i].xp
    ensures forall i :: 0 <= i < |items| ==> (r[i].Done() <==> items[i].Done() || items[i].id == id)
  {
    if items == [] then []
    else
      var last := items[|items| - 1];
      var r := MarkDone(items[..|items| - 1], id) + [MarkIfPending(last, id)];
      assert last.Done() ==> last.AsDone() == last;
      r
  }

  /** The player after the updater calls made by that `map`: one call per
      pending item with the id, in list order. */
  function Credit(p: Player, items: seq<Item>, id: string): (r: Player)
    ensures PlayerValid(p) ==> PlayerValid(r)
  {
    if items == [] then p
    else
      var before := Credit(p, items[..|items| - 1], id);
      var last := items[|items| - 1];
      if last.id == id && !last.Done() then UpdatedPlayer(before, last.xp, last.stat) else before
  }

  /** Marking keeps each card's kind. */
  lemma MarkDoneKeepsKinds(items: seq<Item>, id: string)
    ensures AllQuests(items) ==> AllQuests(MarkDone(items, id))
    ensures AllPenalties(items) ==> AllPenalties(MarkDone(items, id))
  {
    var r := MarkDone(items, id);
    forall i | 0 <= i < |items| ensures r[i].Quest? == items[i].Quest? {
      assert r[i] == (if items[i].id == id then items[i].AsDone() else items[i]);
    }
  }

  /** With no pending item with the id, the player is unchanged. */
  lemma {:induction false} CreditNothingPending(p: Player, items: seq<Item>, id: string)
    requires forall i :: 0 <= i < |items| && items[i].id == id ==> items[i].Done()
    ensures Credit(p, items, id) == p
  {
    if items != [] {
      CreditNothingPending(p, items[..|items| - 1], id);
    }
  }

  /** With exactly one pending item with the id, its xp and stat are applied
      exactly once. */
  lemma {:induction false} CreditSinglePending(p: Player, items: seq<Item>, id: string, j: nat)
    requires j < |items| && items[j].id == id && !items[j].Done()
    requires forall i :: 0 <= i < |items| && i != j && items[i].id == id ==> items[i].Done()
    ensures Credit(p, items, id) == UpdatedPlayer(p, items[j].xp, items[j].stat)
  {
    var n := |items| - 1;
    if j == n {
      CreditNothingPending(p, items[..n], id);
    } else {
      CreditSinglePending(p, items[..n], id, j);
    }
  }

  /** Repeating `completeQuest` / `applyPenalty` with the same id changes
      neither the list nor the player. */
  lemma RepeatChangesNothing(p: Player, items: seq<Item>, id: string)
    ensures MarkDone(MarkDone(items, id), id) == MarkDone(items, id)
    ensures Credit(p, MarkDone(items, id), id) == p
  {
    CreditNothingPending(p, MarkDone(items, id), id);
  }

  /** On a list with distinct ids, completing the i-th pending item credits
      its xp and stat exactly once. */
  lemma CompleteOnce(p: Player, items: seq<Item>, i: nat)
    requires DistinctIds(items) && i < |items| && !items[i].Done()
    ensures Credit(p, items, items[i].id) == UpdatedPlayer(p, items[i].xp, items[i].stat)
  {
    CreditSinglePending(p, items, items[i].id, i);
  }

  /** No card is done. */
  predicate NoneDone(items: seq<Item>)
  {
    forall i :: 0 <= i < |items| ==> !items[i].Done()
  }

  /** Every card is worth at least 0 xp. */
  predicate AllGains(items: seq<Item>)
  {
    forall i :: 0 <= i < |items| ==> items[i].xp >= 0
  }

  /** Every card is worth at most 0 xp. */
  predicate AllLosses(items: seq<Item>)
  {
    forall i :: 0 <= i < |items| ==> items[i].xp <= 0
  }

  /** `filter(q => q.completed).reduce((sum, q) => sum + q.xp, 0)`. */
  function DoneXp(items: seq<Item>): (total: int)
    ensures NoneDone(items) ==> total == 0
    ensures AllGains(items) ==> total >= 0
    ensures AllLosses(items) ==> total <= 0
  {
    if items == [] then 0
    else DoneXp(items[..|items| - 1]) + (if items[|items| - 1].Done() then items[|items| - 1].xp else 0)
  }

  /** `filter(q => q.completed).length`. */
  function DoneCount(items: seq<Item>): (n: nat)
    ensures n <= |items|
  {
    if items == [] then 0
    else DoneCount(items[..|items| - 1]) + (if items[|items| - 1].Done() then 1 else 0)
  }

  /** The xp of the pending items with the id. */
  function PendingXp(items: seq<Item>, id: string): int
  {
    if items == [] then 0
    else
      var last := items[|items| - 1];
      PendingXp(items[..|items| - 1], id) + (if last.id == id && !last.Done() then last.xp else 0)
  }

  /** Marking an id done adds exactly the xp of its pending items to the
      day's total. */
  lemma {:induction false} DoneXpAfterMark(items: seq<Item>, id: string)
    ensures DoneXp(MarkDone(items, id)) == DoneXp(items) + PendingXp(items, id)
  {
    if items != [] {
      var n := |items| - 1;
      DoneXpAfterMark(items[..n], id);
      assert MarkDone(items, id)[..n] == MarkDone(items[..n], id);
    }
  }

  /** `filter(q => q.id !== questId)`. */
  function WithoutId(items: seq<Item>, id: string): (r: seq<Item>)
    ensures |r| <= |items|
    ensures forall i :: 0 <= i < |r| ==> r[i].id != id
  {
    if items == [] then []
    else
      var rest := WithoutId(items[..|items| - 1], id);
      var last := items[|items| - 1];
      if last.id != id then rest + [last] else rest
  }

  /** The filtered list holds exactly the items without the id. */
  lemma {:induction false} WithoutIdMembers(items: seq<Item>, id: string)
    ensures forall x :: x in WithoutId(items, id) <==> x in items && x.id != id
  {
    if items != [] {
      var n := |items| - 1;
      WithoutIdMembers(items[..n], id);
      assert items == items[..n] + [items[n]];
    }
  }

  /** Filtering keeps the original order: it distributes over concatenation. */
  lemma {:induction false} WithoutIdKeepsOrder(a: seq<Item>, b: seq<Item>, id: string)
    ensures WithoutId(a + b, id) == WithoutId(a, id) + WithoutId(b, id)
  {
    if b != [] {
      var n := |b| - 1;
      assert (a + b)[..|a + b| - 1] == a + b[..n];
      WithoutIdKeepsOrder(a, b[..n], id);
    } else {
      assert a + b == a;
    }
  }

  /** A list holding no item with the id is left as it is. */
  lemma {:induction false} WithoutAbsentId(items: seq<Item>, id: string)
    requires forall i :: 0 <= i < |items| ==> items[i].id != id
    ensures WithoutId(items, id) == items
  {
    if items != [] {
      var n := |items| - 1;
      WithoutAbsentId(items[..n], id);
      assert items == items[..n] + [items[n]];
    }
  }

  /** The characters `String.prototype.trim` removes: white space and line
      terminators. */
  predicate IsTrimmed(c: char)
  {
    c == '\t' || c == '\n' || c == '\U{000B}' || c == '\U{000C}' || c == '\r' || c == ' '
    || c == '\U{00A0}' || c == '\U{1680}' || ('\U{2000}' <= c <= '\U{200A}')
    || c == '\U{2028}' || c == '\U{2029}' || c == '\U{202F}' || c == '\U{205F}'
    || c == '\U{3000}' || c == '\U{FEFF}'
  }

  predicate IsBlank(s: string)
  {
    forall i :: 0 <= i < |s| ==> IsTrimmed(s[i])
  }

  /** A non-empty string is blank when its first character is trimmed and
      the rest is blank. */
  lemma BlankHead(s: string)
    requires s != []
    ensures IsBlank(s) <==> IsTrimmed(s[0]) && IsBlank(s[1..])
  {
    if IsTrimmed(s[0]) && IsBlank(s[1..]) {
      forall i | 0 <= i < |s| ensures IsTrimmed(s[i]) {
        if i > 0 { assert s[i] == s[1..][i - 1]; }
      }
    }
  }

  /** A non-empty string is blank when its last character is trimmed and
      the rest is blank. */
  lemma BlankLast(s: string)
    requires s != []
    ensures IsBlank(s) <==> IsTrimmed(s[|s| - 1]) && IsBlank(s[..|s| - 1])
  {
    if IsTrimmed(s[|s| - 1]) && IsBlank(s[..|s| - 1]) {
      forall i | 0 <= i < |s| ensures IsTrimmed(s[i]) {
        if i < |s| - 1 { assert s[i] == s[..|s| - 1][i]; }
      }
    }
  }

  /** `s` without its leading trimmed characters. */
  function TrimStart(s: string): (r: string)
    ensures |r| <= |s| && r == s[|s| - |r|..]
    ensures IsBlank(s[..|s| - |r|])
    ensures r != [] ==> !IsTrimmed(r[0])
    ensures r == [] <==> IsBlank(s)
  {
    if s != [] && IsTrimmed(s[0]) then
      BlankHead(s);
      var r := TrimStart(s[1..]);
      assert s[1..][|s| - 1 - |r|..] == s[|s| - |r|..];
      var cut := s[..|s| - |r|];
      assert cut[0] == s[0] && cut[1..] == s[1..][..|s| - 1 - |r|];
      BlankHead(cut);
      r
    else
      if s != [] then BlankHead(s); s else s
  }

  /** `s` without its trailing trimmed characters. */
  function TrimEnd(s: string): (r: string)
    ensures |r| <= |s| && r == s[..|r|]
    ensures IsBlank(s[|r|..])
    ensures r != [] ==> !IsTrimmed(r[|r| - 1])
    ensures r == [] <==> IsBlank(s)
  {
    if s != [] && IsTrimmed(s[|s| - 1]) then
      BlankLast(s);
      var r := TrimEnd(s[..|s| - 1]);
      assert s[..|s| - 1][..|r|] == s[..|r|];
      var cut := s[|r|..];
      assert cut[|cut| - 1] == s[|s| - 1] && cut[..|cut| - 1] == s[..|s| - 1][|r|..];
      BlankLast(cut);
      r
    else
      if s != [] then BlankLast(s); s else s
  }

  /** `s.trim()`: the result is empty exactly for the strings made only of
      trimmed characters, the empty string included. */
  function Trim(s: string): (r: string)
    ensures r == [] <==> IsBlank(s)
  {
    TrimEnd(TrimStart(s))
  }

  /** The new-quest form's fields. */
  datatype Draft = Draft(title: string, description: string, xp: int, stat: string, icon: string)

  /** `{ ...newQuest, id, completed: false, category: 'custom' }`. */
  function CustomQuest(draft: Draft, id: string): (q: Item)
    ensures q.Quest? && q.id == id && !q.Done() && q.category == "custom"
    ensures q.title == draft.title && q.description == draft.description && q.xp == draft.xp
    ensures q.stat == draft.stat && q.icon == draft.icon
  {
    Quest(id, draft.title, draft.description, draft.xp, draft.stat, "custom", draft.icon, false)
  }

  const InitialStats: map<string, int> :=
    map["strength" := 10, "intelligence" := 10, "endurance" := 10, "vitality" := 10, "discipline" := 10]

  /** The sum of the stat values (`Object.values(stats).reduce(+)`). Stats
      that are all at least 1 sum to at least their number. */
  ghost function StatsSum(stats: map<string, int>): (sum: int)
    ensures (forall k :: k in stats ==> stats[k] >= 1) ==> sum >= |stats|
    decreases |stats|
  {
    if stats == map[] then 0
    else
      var k :| k in stats;
      assert |stats - {k}| == |stats| - 1;
      stats[k] + StatsSum(stats - {k})
  }

  /** The sum does not depend on the order of the keys: any key can be
      taken out first. */
  lemma {:induction false} StatsSumRemove(stats: map<string, int>, k: string)
    requires k in stats
    ensures StatsSum(stats) == stats[k] + StatsSum(stats - {k})
    decreases |stats|
  {
    var j :| j in stats && StatsSum(stats) == stats[j] + StatsSum(stats - {j});
    if j != k {
      var a := stats - {j};
      var b := stats - {k};
      assert |a| == |stats| - 1 && |b| == |stats| - 1;
      assert k in a && a[k] == stats[k];
      assert j in b && b[j] == stats[j];
      StatsSumRemove(a, k);
      StatsSumRemove(b, j);
      assert a - {k} == b - {j};
    }
  }

  /** Setting one existing stat changes the sum by the difference. */
  lemma StatsSumUpdate(stats: map<string, int>, k: string, v: int)
    requires k in stats
    ensures StatsSum(stats[k := v]) == StatsSum(stats) - stats[k] + v
  {
    StatsSumRemove(stats, k);
    StatsSumRemove(stats[k := v], k);
    assert stats[k := v] - {k} == stats - {k};
  }

  /** `totalPower` of a player: `floor(level * 100 + statsSum * 2 + xp / 10)`;
      the first two terms are integers, so the floor applies to `xp / 10`
      alone, which is Dafny's `/` on a positive divisor. */
  ghost function Power(p: Player): (power: int)
    ensures PlayerValid(p) ==> power >= 100 + 2 * |p.stats|
  {
    Level(p.xp) * 100 + StatsSum(p.stats) * 2 + p.xp / 10
  }

  /** A gain never lowers the power, and raises it by at least 2 when it
      moves an existing stat. */
  lemma PowerAfterGain(p: Player, xpChange: int, stat: string)
    requires PlayerValid(p) && xpChange > 0
    ensures Power(UpdatedPlayer(p, xpChange, stat))
            >= Power(p) + (if stat != "" && stat in p.stats then 2 else 0)
  {
    var r := UpdatedPlayer(p, xpChange, stat);
    LevelMonotone(p.xp, r.xp);
    if stat != "" && stat in p.stats {
      StatsSumUpdate(p.stats, stat, p.stats[stat] + 1);
    } else {
      assert r.stats == p.stats;
    }
  }

  /** A loss or a change of 0 never raises the power. */
  lemma PowerAfterLoss(p: Player, xpChange: int, stat: string)
    requires PlayerValid(p) && xpChange <= 0
    ensures Power(UpdatedPlayer(p, xpChange, stat)) <= Power(p)
  {
    var r := UpdatedPlayer(p, xpChange, stat);
    LevelMonotone(r.xp, p.xp);
    if stat != "" && stat in p.stats {
      StatsSumUpdate(p.stats, stat, r.stats[stat]);
    } else {
      assert r.stats == p.stats;
    }
  }

  /** The client's state: the player's xp and stats and the three lists. */
  class ClientState {
    var xp: int
    var stats: map<string, int>
    var todayQuests: seq<Item>
    var customQuests: seq<Item>
    var todayPenalties: seq<Item>

    function PlayerOf(): Player
      reads this
    {
      Player(xp, stats)
    }

    /** The player is valid, and each list holds only its own kind of
        card. */
    ghost predicate Valid()
      reads this
    {
      PlayerValid(PlayerOf())
      && AllQuests(todayQuests) && AllQuests(customQuests) && AllPenalties(todayPenalties)
    }

    /** The initial state: a fresh player, the default lists for the day
        and no custom quest. */
    constructor (isWeekend: bool)
      ensures Valid()
      ensures xp == 0 && stats == InitialStats
      ensures todayQuests == DefaultQuests(isWeekend) && todayPenalties == DefaultPenalties(isWeekend)
      ensures customQuests == []
      ensures TodayXpGained() == 0
    {
      xp := 0;
      stats := InitialStats;
      todayQuests := DefaultQuests(isWeekend);
      customQuests := [];
      todayPenalties := DefaultPenalties(isWeekend);
    }

    /** `updatePlayerXpAndStats`: copy the stats, nudge the named one. */
    method UpdatePlayerXpAndStats(xpChange: int, stat: string)
      modifies this`xp, this`stats
      ensures PlayerOf() == UpdatedPlayer(old(PlayerOf()), xpChange, stat)
      ensures old(Valid()) ==> Valid()
    {
      var newXp := Max(0, xp + xpChange);
      var statChange := if xpChange > 0 then 1 else -1;
      var newStats := stats;
      if stat != "" && stat in newStats {
        newStats := newStats[stat := Max(1, newStats[stat] + statChange)];
      }
      xp, stats := newXp, newStats;
    }

    /** The `map` shared by `completeQuest` and `applyPenalty`: each pending
        item with the id is credited to the player and marked done. */
    method MarkAndCredit(items: seq<Item>, id: string) returns (marked: seq<Item>)
      modifies this`xp, this`stats
      ensures marked == MarkDone(items, id)
      ensures PlayerOf() == Credit(old(PlayerOf()), items, id)
    {
      marked := [];
      var i := 0;
      while i < |items|
        invariant 0 <= i <= |items|
        invariant marked == MarkDone(items[..i], id)
        invariant PlayerOf() == Credit(old(PlayerOf()), items[..i], id)
      {
        var item := items[i];
        assert items[..i + 1][..i] == items[..i];
        if item.id == id && !item.Done() {
          UpdatePlayerXpAndStats(item.xp, item.stat);
          marked := marked + [item.AsDone()];
        } else {
          marked := marked + [item];
        }
        i := i + 1;
      }
      assert items[..i] == items;
    }

    /** `completeQuest(questId, isCustom)`. */
    method CompleteQuest(questId: string, isCustom: bool)
      modifies this`xp, this`stats, this`todayQuests, this`customQuests
      ensures isCustom ==> customQuests == MarkDone(old(customQuests), questId)
                           && todayQuests == old(todayQuests)
                           && PlayerOf() == Credit(old(PlayerOf()), old(customQuests), questId)
      ensures !isCustom ==> todayQuests == MarkDone(old(todayQuests), questId)
                            && customQuests == old(customQuests)
                            && PlayerOf() == Credit(old(PlayerOf()), old(todayQuests), questId)
      ensures old(Valid()) ==> Valid()
      ensures TodayXpGained() == old(TodayXpGained())
                + PendingXp(if isCustom then old(customQuests) else old(todayQuests), questId)
    {
      ghost var quests, custom, penalties := todayQuests, customQuests, todayPenalties;
      if isCustom {
        DoneXpAfterMark(customQuests, questId);
        MarkDoneKeepsKinds(customQuests, questId);
        customQuests := MarkAndCredit(customQuests, questId);
        assert todayQuests == quests && todayPenalties == penalties;
      } else {
        DoneXpAfterMark(todayQuests, questId);
        MarkDoneKeepsKinds(todayQuests, questId);
        todayQuests := MarkAndCredit(todayQuests, questId);
        assert customQuests == custom && todayPenalties == penalties;
      }
    }

    /** `applyPenalty(penaltyId)`. */
    method ApplyPenalty(penaltyId: string)
      modifies this`xp, this`stats, this`todayPenalties
      ensures todayPenalties == MarkDone(old(todayPenalties), penaltyId)
      ensures PlayerOf() == Credit(old(PlayerOf()), old(todayPenalties), penaltyId)
      ensures old(Valid()) ==> Valid()
      ensures TodayXpGained() == old(TodayXpGained()) + PendingXp(old(todayPenalties), penaltyId)
    {
      ghost var quests, custom := todayQuests, customQuests;
      DoneXpAfterMark(todayPenalties, penaltyId);
      MarkDoneKeepsKinds(todayPenalties, penaltyId);
      todayPenalties := MarkAndCredit(todayPenalties, penaltyId);
      assert todayQuests == quests && customQuests == custom;
    }

    /** `addCustomQuest`: a title that is blank once trimmed adds nothing;
        otherwise exactly one new, not completed, custom quest is appended. */
    method AddCustomQuest(draft: Draft, freshId: string)
      modifies this`customQuests
      ensures customQuests == if IsBlank(draft.title) then old(customQuests)
                              else old(customQuests) + [CustomQuest(draft, freshId)]
      ensures old(Valid()) ==> Valid()
    {
      if Trim(draft.title) == "" {
        return;
      }
      customQuests := customQuests + [CustomQuest(draft, freshId)];
    }

    /** `deleteCustomQuest(questId)`. */
    method DeleteCustomQuest(questId: string)
      modifies this`customQuests
      ensures customQuests == WithoutId(old(customQuests), questId)
      ensures old(Valid()) ==> Valid()
    {
      WithoutIdMembers(customQuests, questId);
      var kept := WithoutId(customQuests, questId);
      assert AllQuests(customQuests) ==> AllQuests(kept) by {
        if AllQuests(customQuests) {
          forall i | 0 <= i < |kept| ensures kept[i].Quest? {
            assert kept[i] in kept;
          }
        }
      }
      customQuests := kept;
    }

    /** `todayXpGained`: the xp of completed quests, completed custom quests
        and applied penalties. */
    function TodayXpGained(): (total: int)
      reads this
      ensures AllLosses(todayPenalties) ==> total <= DoneXp(todayQuests) + DoneXp(customQuests)
    {
      DoneXp(todayQuests) + DoneXp(customQuests) + DoneXp(todayPenalties)
    }

    /** `totalQuests`: no fewer than the quests completed. */
    function TotalQuests(): (n: nat)
      reads this
      ensures n >= DoneCount(todayQuests) + DoneCount(customQuests)
    {
      |todayQuests| + |customQuests|
    }

    /** `completedCount`: never more than `totalQuests`. */
    function CompletedCount(): (n: nat)
      reads this
      ensures n <= TotalQuests()
    {
      DoneCount(todayQuests) + DoneCount(customQuests)
    }

    /** `totalPower`: the player's `Power`. */
    ghost function TotalPower(): (power: int)
      reads this
      ensures Valid() ==> power >= 100 + 2 * |stats|
    {
      Power(PlayerOf())
    }
  }
}
