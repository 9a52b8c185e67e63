/** The fixed table of the defaulting pass: the seventeen key paths the plugin
    fills in when they are absent, in the order it visits them. */
module Defaults {
  import opened ConfigTree

  /** Language tags of the two locales that ship with default texts. */
  const English: string := "en"
  const Russian: string := "ru"

  /** Identifiers of the two default sounds in the host's sound registry. */
  const LevelUpSound: string := "entity.player.levelup"
  const AnvilLandSound: string := "block.anvil.land"

  const RespawnEn: string := "&7[&6SimpleScavenger&7]&f Respawned!"
  const RespawnRu: string := "&7[&6SimpleScavenger&7]&f Вы возрождены!"
  const InventoryEn: string := "&7[&6SimpleScavenger&7]&f Your inventory was saved!"
  const InventoryRu: string := "&7[&6SimpleScavenger&7]&f Ваш инвентарь был сохранён!"
  const ExperienceEn: string := "&7[&6SimpleScavenger&7]&f Your experience was saved!"
  const ExperienceRu: string := "&7[&6SimpleScavenger&7]&f Ваш опыт был сохранён!"
  const BothEn: string := "&7[&6SimpleScavenger&7]&f Your inventory and experience were saved!"
  const BothRu: string := "&7[&6SimpleScavenger&7]&f Ваш инвентарь и опыт были сохранёны!"

  const RespawnSoundEnabled: Path := ["sounds", "respawn", "enabled"]
  const RespawnSoundId: Path := ["sounds", "respawn", "sound"]
  const RespawnSoundVolume: Path := ["sounds", "respawn", "volume"]
  const DeathSoundEnabled: Path := ["sounds", "death", "enabled"]
  const DeathSoundId: Path := ["sounds", "death", "sound"]
  const DeathSoundVolume: Path := ["sounds", "death", "volume"]
  const DefaultLang: Path := ["messages", "defaultLang"]
  const RespawnMessageEnabled: Path := ["messages", "respawn", "enabled"]
  const DeathMessageEnabled: Path := ["messages", "death", "enabled"]

  /** Prefixes under which the per-language message texts live. */
  const RespawnMessages: Path := ["messages", "respawn"]
  const InventoryMessages: Path := ["messages", "death", "inventory"]
  const ExperienceMessages: Path := ["messages", "death", "experience"]
  const BothMessages: Path := ["messages", "death", "both"]

  const DefaultTable: seq<Entry> := [
    Entry(RespawnSoundEnabled, B(true)),
    Entry(RespawnSoundId, S(LevelUpSound)),
    Entry(RespawnSoundVolume, Num(1.0)),
    Entry(DeathSoundEnabled, B(true)),
    Entry(DeathSoundId, S(AnvilLandSound)),
    Entry(DeathSoundVolume, Num(1.0)),
    Entry(DefaultLang, S(English)),
    Entry(RespawnMessageEnabled, B(true)),
    Entry(RespawnMessages + [English], S(RespawnEn)),
    Entry(RespawnMessages + [Russian], S(RespawnRu)),
    Entry(DeathMessageEnabled, B(true)),
    Entry(InventoryMessages + [English], S(InventoryEn)),
    Entry(InventoryMessages + [Russian], S(InventoryRu)),
    Entry(ExperienceMessages + [English], S(ExperienceEn)),
    Entry(ExperienceMessages + [Russian], S(ExperienceRu)),
    Entry(BothMessages + [English], S(BothEn)),
    Entry(BothMessages + [Russian], S(BothRu))
  ]

  /** Position of a table path in the table, read off its components; paths
      outside the table get some position too, which means nothing. */
  ghost function TableIndex(p: Path): int
  {
    if |p| < 3 then 6
    else if |p| == 3 && p[0] == "sounds" then
      (if p[1] == "respawn" then 0 else 3) +
      (if p[2] == "enabled" then 0 else if p[2] == "sound" then 1 else 2)
    else if |p| == 3 then
      if p[1] == "death" then 10
      else if p[2] == "enabled" then 7
      else if p[2] == English then 8
      else 9
    else
      (if p[2] == "inventory" then 11 else if p[2] == "experience" then 13 else 15) +
      (if p[3] == English then 0 else 1)
  }

  lemma TableIndexAt(i: nat)
    requires i < |DefaultTable|
    ensures TableIndex(DefaultTable[i].path) == i
  {
  }

  /** The table has seventeen entries and no path twice, so each path's
      default is the one value listed for it. */
  lemma DefaultTableShape()
    ensures |DefaultTable| == 17
    ensures DistinctPaths(DefaultTable)
  {
    forall i, j | 0 <= i < j < |DefaultTable|
      ensures DefaultTable[i].path != DefaultTable[j].path
    {
      TableIndexAt(i);
      TableIndexAt(j);
    }
  }

  /** A table path that is absent receives the one default the table lists
      for it. */
  lemma AbsentGetsTableDefault(t: Tree, i: nat)
    requires i < |DefaultTable| && DefaultTable[i].path !in t
    ensures DefaultTable[i].path in Fill(t, DefaultTable)
    ensures Fill(t, DefaultTable)[DefaultTable[i].path] == DefaultTable[i].value
  {
    DefaultTableShape();
    FillGivesDefault(t, DefaultTable, i);
  }

  /** The defaulting pass over this table: afterwards all seventeen paths are
      present; a path that was absent holds its default; a value that was
      present, user edits included, is unchanged; a path outside the table
      (another language, say) is neither added nor changed; and a second pass
      leaves the tree identical. */
  lemma DefaultingPass(t: Tree)
    ensures forall i :: 0 <= i < |DefaultTable| ==> DefaultTable[i].path in Fill(t, DefaultTable)
    ensures forall i :: 0 <= i < |DefaultTable| && DefaultTable[i].path !in t ==>
      Fill(t, DefaultTable)[DefaultTable[i].path] == DefaultTable[i].value
    ensures forall p :: p in t ==> p in Fill(t, DefaultTable) && Fill(t, DefaultTable)[p] == t[p]
    ensures forall p :: p !in Paths(DefaultTable) ==> (p in Fill(t, DefaultTable) <==> p in t)
    ensures Fill(Fill(t, DefaultTable), DefaultTable) == Fill(t, DefaultTable)
  {
    FillKeys(t, DefaultTable);
    DefaultTableShape();
    forall i | 0 <= i < |DefaultTable| && DefaultTable[i].path !in t
      ensures Fill(t, DefaultTable)[DefaultTable[i].path] == DefaultTable[i].value
    {
      FillGivesDefault(t, DefaultTable, i);
    }
    forall p | p in t ensures p in Fill(t, DefaultTable) && Fill(t, DefaultTable)[p] == t[p] {
      FillKeepsPresent(t, DefaultTable, p);
    }
    FillIdempotent(t, DefaultTable);
  }

  /** On a fresh, empty file the pass writes the table's defaults, e.g.
      sounds.respawn.enabled = true and messages.defaultLang = "en". */
  lemma FreshTree(empty: Tree)
    requires empty == map[]
    ensures var t := Fill(empty, DefaultTable);
      && RespawnSoundEnabled in t && t[RespawnSoundEnabled] == B(true)
      && RespawnSoundId in t && t[RespawnSoundId] == S(LevelUpSound)
      && DeathSoundId in t && t[DeathSoundId] == S(AnvilLandSound)
      && DefaultLang in t && t[DefaultLang] == S(English)
  {
    AbsentGetsTableDefault(empty, 0);
    AbsentGetsTableDefault(empty, 1);
    AbsentGetsTableDefault(empty, 4);
    AbsentGetsTableDefault(empty, 6);
  }

  /** A respawn text for a language other than the two shipped ones is not a
      table path (the language tag "enabled" would name the toggle). */
  lemma RespawnLanguageNotListed(lang: string)
    requires lang != English && lang != Russian && lang != "enabled"
    ensures RespawnMessages + [lang] !in Paths(DefaultTable)
  {
    if RespawnMessages + [lang] in Paths(DefaultTable) {
      var i :| 0 <= i < |DefaultTable| && DefaultTable[i].path == RespawnMessages + [lang];
      TableIndexAt(i);
      assert false;
    }
  }

  /** A death text for a language other than the two shipped ones is not a
      table path. */
  lemma DeathLanguageNotListed(prefix: Path, lang: string)
    requires prefix in {InventoryMessages, ExperienceMessages, BothMessages}
    requires lang != English && lang != Russian
    ensures prefix + [lang] !in Paths(DefaultTable)
  {
    if prefix + [lang] in Paths(DefaultTable) {
      var i :| 0 <= i < |DefaultTable| && DefaultTable[i].path == prefix + [lang];
      TableIndexAt(i);
      assert false;
    }
  }
}
