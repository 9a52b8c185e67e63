/** The plugin object: the configuration it loads and caches, and its two event
    handlers. Host services (permission queries, the player's locale, sound
    playback, sending chat text) are parameters and emitted effects. */
module Scavenger {
  import opened Wrappers
  import opened ConfigTree
  import opened Defaults
  import opened DeathDecision

  /** The values the plugin caches from the tree when it loads it. Sound
      identifiers stay identifiers: resolving them to host sound types is the
      host's business. */
  datatype Settings = Settings(
    respawnSoundEnabled: bool, respawnSound: Option<string>, respawnSoundVolume: real,
    deathSoundEnabled: bool, deathSound: Option<string>, deathSoundVolume: real,
    respawnMessageEnabled: bool, respawnDefaultMessage: Option<string>,
    deathMessageEnabled: bool, deathInventoryMessage: Option<string>,
    deathExperienceMessage: Option<string>, deathBothMessage: Option<string>)

  /** The text stored under `prefix` for the configured default language, read
      with getString() and no default. */
  function DefaultLangText(t: Tree, prefix: Path): (r: Option<string>)
    ensures GetString(t, DefaultLang).None? ==> r == None
    ensures GetString(t, DefaultLang).Some? ==> r == GetString(t, prefix + [GetString(t, DefaultLang).value])
  {
    match GetString(t, DefaultLang)
    case None => None
    case Some(lang) => GetString(t, prefix + [lang])
  }

  /** What loading caches from a tree, field by field. */
  function Extract(t: Tree): (r: Settings)
    ensures r.respawnSoundEnabled <==> RespawnSoundEnabled in t && t[RespawnSoundEnabled] == B(true)
    ensures r.deathSoundEnabled <==> DeathSoundEnabled in t && t[DeathSoundEnabled] == B(true)
    ensures r.respawnMessageEnabled <==> RespawnMessageEnabled in t && t[RespawnMessageEnabled] == B(true)
    ensures r.deathMessageEnabled <==> DeathMessageEnabled in t && t[DeathMessageEnabled] == B(true)
    ensures DeathSoundId in t && t[DeathSoundId].S? ==> r.deathSound == Some(t[DeathSoundId].s)
    ensures RespawnSoundId in t && t[RespawnSoundId].S? ==> r.respawnSound == Some(t[RespawnSoundId].s)
    ensures GetString(t, DefaultLang).None? ==>
      r.respawnDefaultMessage == r.deathInventoryMessage == r.deathExperienceMessage == r.deathBothMessage == None
    ensures GetString(t, DefaultLang).Some? ==> var lang := GetString(t, DefaultLang).value;
      && r.respawnDefaultMessage == GetString(t, RespawnMessages + [lang])
      && r.deathInventoryMessage == GetString(t, InventoryMessages + [lang])
      && r.deathExperienceMessage == GetString(t, ExperienceMessages + [lang])
      && r.deathBothMessage == GetString(t, BothMessages + [lang])
  {
    Settings(
      GetBoolean(t, RespawnSoundEnabled), GetString(t, RespawnSoundId), GetDouble(t, RespawnSoundVolume),
      GetBoolean(t, DeathSoundEnabled), GetString(t, DeathSoundId), GetDouble(t, DeathSoundVolume),
      GetBoolean(t, RespawnMessageEnabled), DefaultLangText(t, RespawnMessages),
      GetBoolean(t, DeathMessageEnabled), DefaultLangText(t, InventoryMessages),
      DefaultLangText(t, ExperienceMessages), DefaultLangText(t, BothMessages))
  }

  /** A message for a player: the entry for the player's language when that
      node holds a value, otherwise the default-language text cached at load
      time. */
  function Localized(t: Tree, prefix: Path, lang: string, cached: Option<string>): (r: Option<string>)
    ensures prefix + [lang] !in t ==> r == cached
    ensures prefix + [lang] in t && t[prefix + [lang]].S? ==> r == Some(t[prefix + [lang]].s)
    ensures prefix + [lang] in t ==> r == GetString(t, prefix + [lang])
  {
    GetStringOr(t, prefix + [lang], cached)
  }

  /** What the handlers ask the host to do: send formatting-code text to the
      player (None: the text looked up was Java's null), or play a sound at the
      player's position. */
  datatype Effect = SendMessage(text: Option<string>) | PlaySound(sound: Option<string>, volume: real)

  /** The death message text for a variant. */
  function DeathText(s: Settings, t: Tree, v: Variant, lang: string): Option<string>
  {
    match v
    case Both => Localized(t, BothMessages, lang, s.deathBothMessage)
    case Inventory => Localized(t, InventoryMessages, lang, s.deathInventoryMessage)
    case Experience => Localized(t, ExperienceMessages, lang, s.deathExperienceMessage)
  }

  /** Everything the death handler asks of the host, in order. */
  function DeathEffects(s: Settings, t: Tree, g: Grants, lang: string): seq<Effect>
  {
    var o := Decide(g, s.deathMessageEnabled, s.deathSoundEnabled);
    (if o.message.Some? then [SendMessage(DeathText(s, t, o.message.value, lang))] else []) +
    (if o.playSound then [PlaySound(s.deathSound, s.deathSoundVolume)] else [])
  }

  /** Everything the respawn handler asks of the host, in order. */
  function RespawnEffects(s: Settings, t: Tree, lang: string): seq<Effect>
  {
    (if s.respawnMessageEnabled
     then [SendMessage(Localized(t, RespawnMessages, lang, s.respawnDefaultMessage))] else []) +
    (if s.respawnSoundEnabled then [PlaySound(s.respawnSound, s.respawnSoundVolume)] else [])
  }

  /** Without any grant the death handler asks nothing of the host. */
  lemma NoGrantNoDeathEffects(s: Settings, t: Tree, g: Grants, lang: string)
    requires !g.Any()
    ensures DeathEffects(s, t, g, lang) == []
  {
  }

  /** With some grant: the message comes first when messages are enabled, and
      it is the variant's text for the player's language with the cached
      default as fallback; the death sound plays exactly when it is enabled,
      whatever the message toggle and the variant. */
  lemma DeathEffectsWithGrant(s: Settings, t: Tree, g: Grants, lang: string)
    requires g.Any()
    ensures var e := DeathEffects(s, t, g, lang);
      |e| == (if s.deathMessageEnabled then 1 else 0) + (if s.deathSoundEnabled then 1 else 0)
    ensures s.deathMessageEnabled ==>
      DeathEffects(s, t, g, lang)[0] == SendMessage(DeathText(s, t, SelectVariant(g).value, lang))
    ensures s.deathSoundEnabled ==>
      DeathEffects(s, t, g, lang)[|DeathEffects(s, t, g, lang)| - 1] == PlaySound(s.deathSound, s.deathSoundVolume)
  {
  }

  /** The respawn handler has no permission gate: its effects depend only on
      the two respawn toggles. */
  lemma RespawnEffectsByToggle(s: Settings, t: Tree, lang: string)
    ensures var e := RespawnEffects(s, t, lang);
      |e| == (if s.respawnMessageEnabled then 1 else 0) + (if s.respawnSoundEnabled then 1 else 0)
    ensures s.respawnMessageEnabled ==>
      RespawnEffects(s, t, lang)[0] == SendMessage(Localized(t, RespawnMessages, lang, s.respawnDefaultMessage))
    ensures s.respawnSoundEnabled ==>
      RespawnEffects(s, t, lang)[|RespawnEffects(s, t, lang)| - 1] == PlaySound(s.respawnSound, s.respawnSoundVolume)
  {
  }

  /** The settings cached from a fresh, empty file. */
  const FreshSettings: Settings :=
    Settings(true, Some(LevelUpSound), 1.0, true, Some(AnvilLandSound), 1.0,
             true, Some(RespawnEn), true, Some(InventoryEn), Some(ExperienceEn), Some(BothEn))

  lemma FreshSoundSettings(t: Tree)
    requires t == Fill(map[], DefaultTable)
    ensures var s := Extract(t);
      s.respawnSoundEnabled && s.respawnSound == Some(LevelUpSound) && s.respawnSoundVolume == 1.0 &&
      s.deathSoundEnabled && s.deathSound == Some(AnvilLandSound) && s.deathSoundVolume == 1.0
  {
    AbsentGetsTableDefault(map[], 0);
    AbsentGetsTableDefault(map[], 1);
    AbsentGetsTableDefault(map[], 2);
    AbsentGetsTableDefault(map[], 3);
    AbsentGetsTableDefault(map[], 4);
    AbsentGetsTableDefault(map[], 5);
  }

  lemma FreshMessageSettings(t: Tree)
    requires t == Fill(map[], DefaultTable)
    ensures var s := Extract(t);
      s.respawnMessageEnabled && s.respawnDefaultMessage == Some(RespawnEn) &&
      s.deathMessageEnabled && s.deathInventoryMessage == Some(InventoryEn) &&
      s.deathExperienceMessage == Some(ExperienceEn) && s.deathBothMessage == Some(BothEn)
  {
    AbsentGetsTableDefault(map[], 6);
    AbsentGetsTableDefault(map[], 7);
    AbsentGetsTableDefault(map[], 8);
    AbsentGetsTableDefault(map[], 10);
    AbsentGetsTableDefault(map[], 11);
    AbsentGetsTableDefault(map[], 13);
    AbsentGetsTableDefault(map[], 15);
  }

  /** Loading a fresh, empty file caches every default: both sounds and both
      message toggles on, volume 1.0, the two default sounds, and the English
      texts, English being the default language. */
  lemma FreshInstallSettings(t: Tree)
    requires t == Fill(map[], DefaultTable)
    ensures Extract(t) == FreshSettings
  {
    FreshSoundSettings(t);
    FreshMessageSettings(t);
  }

  /** Locale fallback end to end: after loading a fresh file, a player whose
      language has no respawn text gets the English text cached at load time,
      then the level-up sound. */
  lemma RespawnFallsBackToDefaultLanguage(t: Tree, lang: string)
    requires t == Fill(map[], DefaultTable)
    requires lang != English && lang != Russian && lang != "enabled"
    ensures RespawnEffects(Extract(t), t, lang) ==
      [SendMessage(Some(RespawnEn)), PlaySound(Some(LevelUpSound), 1.0)]
  {
    FreshInstallSettings(t);
    FillKeys(map[], DefaultTable);
    RespawnLanguageNotListed(lang);
  }

  /** A player holding only the keep-experience grant, with a fresh file:
      inventory is not kept, the level is, the experience text in the player's
      language is sent, and the death sound plays. */
  lemma OnlyKeepExperienceDeath(t: Tree)
    requires t == Fill(map[], DefaultTable)
    ensures var o := Decide(Grants(false, false, true), true, true);
      !o.setKeepsInventory && o.setKeepsLevel && o.message == Some(Experience)
    ensures DeathEffects(Extract(t), t, Grants(false, false, true), English) ==
      [SendMessage(Some(ExperienceEn)), PlaySound(Some(AnvilLandSound), 1.0)]
  {
    FreshInstallSettings(t);
    AbsentGetsTableDefault(map[], 13);
  }

  /** When the configured default language has no texts (and is not one of the
      two shipped languages), the cached fallbacks are absent: the loader reads
      them with getString() and no default. */
  lemma UnknownDefaultLanguage(stored: Tree, lang: string)
    requires DefaultLang in stored && stored[DefaultLang] == S(lang)
    requires lang != English && lang != Russian && lang != "enabled"
    requires RespawnMessages + [lang] !in stored && InventoryMessages + [lang] !in stored
    requires ExperienceMessages + [lang] !in stored && BothMessages + [lang] !in stored
    ensures var s := Extract(Fill(stored, DefaultTable));
      s.respawnDefaultMessage == None && s.deathInventoryMessage == None &&
      s.deathExperienceMessage == None && s.deathBothMessage == None
  {
    FillKeepsPresent(stored, DefaultTable, DefaultLang);
    RespawnLanguageNotListed(lang);
    FillLeavesOthers(stored, DefaultTable, RespawnMessages + [lang]);
    DeathLanguageNotListed(InventoryMessages, lang);
    FillLeavesOthers(stored, DefaultTable, InventoryMessages + [lang]);
    DeathLanguageNotListed(ExperienceMessages, lang);
    FillLeavesOthers(stored, DefaultTable, ExperienceMessages + [lang]);
    DeathLanguageNotListed(BothMessages, lang);
    FillLeavesOthers(stored, DefaultTable, BothMessages + [lang]);
  }

  /** The death event of the host, with its two settable keep flags. */
  class DeathEvent {
    var keepsInventory: bool
    var keepsLevel: bool

    constructor (keepsInventory0: bool, keepsLevel0: bool)
      ensures keepsInventory == keepsInventory0 && keepsLevel == keepsLevel0
    {
      keepsInventory, keepsLevel := keepsInventory0, keepsLevel0;
    }

    /** Sets to true the flags the outcome names and touches nothing else; a
        flag is never cleared. */
    method Apply(o: Outcome)
      modifies this
      ensures keepsInventory == (old(keepsInventory) || o.setKeepsInventory)
      ensures keepsLevel == (old(keepsLevel) || o.setKeepsLevel)
    {
      if o.setKeepsInventory {
        keepsInventory := true;
      }
      if o.setKeepsLevel {
        keepsLevel := true;
      }
    }
  }

  /** Result the reload command reports to the host. */
  datatype CommandResult = Success | Empty

  class Plugin {
    var rootNode: ConfigNode

    var respawnSoundEnabled: bool
    var respawnSoundVolume: real
    var respawnSound: Option<string>

    var deathSoundEnabled: bool
    var deathSoundVolume: real
    var deathSound: Option<string>

    var respawnMessageEnabled: bool
    var respawnDefaultMessage: Option<string>

    var deathMessageEnabled: bool
    var deathInventoryMessage: Option<string>
    var deathExperienceMessage: Option<string>
    var deathBothMessage: Option<string>

    /** The cached fields, as one value. */
    function Cached(): Settings
      reads this
    {
      Settings(respawnSoundEnabled, respawnSound, respawnSoundVolume,
               deathSoundEnabled, deathSound, deathSoundVolume,
               respawnMessageEnabled, respawnDefaultMessage,
               deathMessageEnabled, deathInventoryMessage, deathExperienceMessage, deathBothMessage)
    }

    /** A plugin before its first load: Java's field defaults and an empty tree. */
    constructor ()
      ensures Cached() == Settings(false, None, 0.0, false, None, 0.0, false, None, false, None, None, None)
      ensures rootNode.entries == map[]
    {
      rootNode := new ConfigNode(map[]);
      respawnSoundEnabled, respawnSoundVolume, respawnSound := false, 0.0, None;
      deathSoundEnabled, deathSoundVolume, deathSound := false, 0.0, None;
      respawnMessageEnabled, respawnDefaultMessage := false, None;
      deathMessageEnabled := false;
      deathInventoryMessage, deathExperienceMessage, deathBothMessage := None, None, None;
    }

    /** Loads the file (`stored`, None when it cannot be read or created), fills
        in the defaults, saves the tree (`saveOk` false when writing it or
        reading it back fails) and caches the settings from it. The tree handed
        to the save is returned as `written`; it is written whether or not a
        default was missing. */
    method LoadConfig(stored: Option<Tree>, saveOk: bool) returns (ok: bool, written: Option<Tree>)
      modifies this
      ensures ok <==> stored.Some? && saveOk
      ensures stored.None? ==> written == None && rootNode == old(rootNode) && Cached() == old(Cached())
      ensures stored.Some? ==> written == Some(Fill(stored.value, DefaultTable))
      ensures stored.Some? ==> fresh(rootNode) && rootNode.entries == Fill(stored.value, DefaultTable)
      ensures ok ==> Cached() == Extract(rootNode.entries)
      ensures !ok ==> Cached() == old(Cached())
    {
      if stored.None? {
        return false, None;
      }
      var node := new ConfigNode(stored.value);
      rootNode := node;
      node.SaveDefaults(DefaultTable);
      written := Some(node.entries);
      if !saveOk {
        return false, written;
      }
      rootNode := new ConfigNode(node.entries);
      CacheSounds(rootNode.entries);
      CacheMessages(rootNode.entries);
      ok := true;
    }

    /** Overwrites the cached sound fields one by one from the tree. */
    method CacheSounds(t: Tree)
      modifies this
      ensures var c := Cached();
        c == old(Cached()).(respawnSoundEnabled := c.respawnSoundEnabled, respawnSound := c.respawnSound,
                            respawnSoundVolume := c.respawnSoundVolume, deathSoundEnabled := c.deathSoundEnabled,
                            deathSound := c.deathSound, deathSoundVolume := c.deathSoundVolume)
      ensures var c, e := Cached(), Extract(t);
        c.respawnSoundEnabled == e.respawnSoundEnabled && c.respawnSound == e.respawnSound &&
        c.respawnSoundVolume == e.respawnSoundVolume && c.deathSoundEnabled == e.deathSoundEnabled &&
        c.deathSound == e.deathSound && c.deathSoundVolume == e.deathSoundVolume
      ensures rootNode == old(rootNode)
    {
      respawnSoundEnabled := GetBoolean(t, RespawnSoundEnabled);
      respawnSound := GetString(t, RespawnSoundId);
      respawnSoundVolume := GetDouble(t, RespawnSoundVolume);

      deathSoundEnabled := GetBoolean(t, DeathSoundEnabled);
      deathSound := GetString(t, DeathSoundId);
      deathSoundVolume := GetDouble(t, DeathSoundVolume);
    }

    /** Overwrites the cached message fields one by one from the tree; the texts
        are those of the configured default language. */
    method CacheMessages(t: Tree)
      modifies this
      ensures var c := Cached();
        c == old(Cached()).(respawnMessageEnabled := c.respawnMessageEnabled,
                            respawnDefaultMessage := c.respawnDefaultMessage,
                            deathMessageEnabled := c.deathMessageEnabled,
                            deathInventoryMessage := c.deathInventoryMessage,
                            deathExperienceMessage := c.deathExperienceMessage,
                            deathBothMessage := c.deathBothMessage)
      ensures var c, e := Cached(), Extract(t);
        c.respawnMessageEnabled == e.respawnMessageEnabled && c.respawnDefaultMessage == e.respawnDefaultMessage &&
        c.deathMessageEnabled == e.deathMessageEnabled && c.deathInventoryMessage == e.deathInventoryMessage &&
        c.deathExperienceMessage == e.deathExperienceMessage && c.deathBothMessage == e.deathBothMessage
      ensures rootNode == old(rootNode)
    {
      respawnMessageEnabled := GetBoolean(t, RespawnMessageEnabled);
      respawnDefaultMessage := DefaultLangText(t, RespawnMessages);

      deathMessageEnabled := GetBoolean(t, DeathMessageEnabled);
      deathInventoryMessage := DefaultLangText(t, InventoryMessages);
      deathExperienceMessage := DefaultLangText(t, ExperienceMessages);
      deathBothMessage := DefaultLangText(t, BothMessages);
    }

    /** The reload command: loads again and reports whether it worked. */
    method Reload(stored: Option<Tree>, saveOk: bool) returns (result: CommandResult)
      modifies this
      ensures result == Success <==> stored.Some? && saveOk
      ensures stored.None? ==> rootNode == old(rootNode)
      ensures stored.Some? ==> rootNode.entries == Fill(stored.value, DefaultTable)
      ensures result == Success ==> Cached() == Extract(rootNode.entries)
      ensures result == Empty ==> Cached() == old(Cached())
    {
      var ok, _ := LoadConfig(stored, saveOk);
      result := if ok then Success else Empty;
    }

    /** The death handler for a player with grants `g` whose locale language is
        `lang`. */
    method OnPlayerDeath(event: DeathEvent, g: Grants, lang: string) returns (effects: seq<Effect>)
      modifies event
      ensures var o := Decide(g, deathMessageEnabled, deathSoundEnabled);
        event.keepsInventory == (old(event.keepsInventory) || o.setKeepsInventory) &&
        event.keepsLevel == (old(event.keepsLevel) || o.setKeepsLevel)
      ensures effects == DeathEffects(Cached(), rootNode.entries, g, lang)
    {
      event.Apply(Decide(g, deathMessageEnabled, deathSoundEnabled));
      effects := [];
      if g.use || g.keepInventory || g.keepExperience {
        if deathMessageEnabled {
          var t := rootNode.entries;
          var msg := Some("");
          if g.use || (g.keepInventory && g.keepExperience) {
            msg := Localized(t, BothMessages, lang, deathBothMessage);
          } else if g.keepInventory {
            msg := Localized(t, InventoryMessages, lang, deathInventoryMessage);
          } else if g.keepExperience {
            msg := Localized(t, ExperienceMessages, lang, deathExperienceMessage);
          }
          effects := effects + [SendMessage(msg)];
        }
        if deathSoundEnabled {
          effects := effects + [PlaySound(deathSound, deathSoundVolume)];
        }
      }
    }

    /** The respawn handler for a player whose locale language is `lang`. */
    method OnPlayerRespawn(lang: string) returns (effects: seq<Effect>)
      ensures effects == RespawnEffects(Cached(), rootNode.entries, lang)
    {
      effects := [];
      if respawnMessageEnabled {
        var msg := Localized(rootNode.entries, RespawnMessages, lang, respawnDefaultMessage);
        effects := effects + [SendMessage(msg)];
      }
      if respawnSoundEnabled {
        effects := effects + [PlaySound(respawnSound, respawnSoundVolume)];
      }
    }
  }
}
