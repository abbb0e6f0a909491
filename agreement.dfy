/** How the client's copy of the rules (`src/App.jsx`) relates to the
    server's (`api/update.js`): the catalogs agree on ids, xp and stats, the
    rank ladders agree, and the stat rules agree except on a change of 0. */
module Agreement {
  import Update
  import App

  /** Every client default quest is a server quest with the same xp and
      stat, on either day. */
  lemma QuestCatalogsAgree(weekend: bool, i: nat)
    requires i < |App.DefaultQuests(weekend)|
    ensures Update.Quest(App.DefaultQuests(weekend)[i].id, weekend).Some?
    ensures Update.Quest(App.DefaultQuests(weekend)[i].id, weekend).value.xp == App.DefaultQuests(weekend)[i].xp
    ensures Update.Quest(App.DefaultQuests(weekend)[i].id, weekend).value.stat == App.DefaultQuests(weekend)[i].stat
  {
  }

  /** Every client penalty is a server penalty with the same xp and stat. */
  lemma PenaltyCatalogsAgree(weekend: bool, i: nat)
    requires i < |App.DefaultPenalties(weekend)|
    ensures Update.Penalty(App.DefaultPenalties(weekend)[i].id, weekend).Some?
    ensures Update.Penalty(App.DefaultPenalties(weekend)[i].id, weekend).value.xp == App.DefaultPenalties(weekend)[i].xp
    ensures Update.Penalty(App.DefaultPenalties(weekend)[i].id, weekend).value.stat == App.DefaultPenalties(weekend)[i].stat
  {
  }

  /** For a non-zero change both sides nudge a stat the same way. */
  lemma StatRulesAgreeOffZero(stats: map<string, int>, stat: string, xpChange: int)
    requires xpChange != 0
    ensures App.UpdatedPlayer(App.Player(0, stats), xpChange, stat).stats == Update.NudgeStat(stats, stat, xpChange)
  {
  }

  /** For a change of 0 they differ: the client lowers the stat, the server
      leaves it. */
  lemma StatRulesDifferAtZero(stats: map<string, int>, stat: string)
    requires stat != "" && stat in stats && stats[stat] >= 2
    ensures App.UpdatedPlayer(App.Player(0, stats), 0, stat).stats[stat] == stats[stat] - 1
    ensures Update.NudgeStat(stats, stat, 0)[stat] == stats[stat]
  {
  }
}
