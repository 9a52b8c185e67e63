/** What a player's death leads to: a pure decision over the three permission
    grants and the two death toggles of the configuration. */
module DeathDecision {
  import opened Wrappers

  /** The three permission grants, each looked up once per death. */
  datatype Grants = Grants(use: bool, keepInventory: bool, keepExperience: bool)
  {
    /** At least one of the grants holds; otherwise the handler does nothing. */
    predicate Any() { use || keepInventory || keepExperience }
  }

  /** Which death message is sent. */
  datatype Variant = Both | Inventory | Experience

  /** The decision for one death: which keep flags to set (true means "set it
      to true", false means "leave it alone"), which message to send (None:
      no message) and whether the death sound plays. */
  datatype Outcome = Outcome(setKeepsInventory: bool, setKeepsLevel: bool,
                             message: Option<Variant>, playSound: bool)

  /** The if/else-if chain that picks the message variant. None is the case
      in which no branch fires and the handler would send its initial empty
      text; it happens only when no grant holds. */
  function SelectVariant(g: Grants): (r: Option<Variant>)
    ensures r == Some(Both) <==> g.use || (g.keepInventory && g.keepExperience)
    ensures r == Some(Inventory) <==> !g.use && g.keepInventory && !g.keepExperience
    ensures r == Some(Experience) <==> !g.use && !g.keepInventory && g.keepExperience
    ensures r == None <==> !g.Any()
  {
    if g.use || (g.keepInventory && g.keepExperience) then Some(Both)
    else if g.keepInventory then Some(Inventory)
    else if g.keepExperience then Some(Experience)
    else None
  }

  /** The decision of the death handler. */
  function Decide(g: Grants, messageEnabled: bool, soundEnabled: bool): (r: Outcome)
    ensures r.setKeepsInventory <==> g.use || g.keepInventory
    ensures r.setKeepsLevel <==> g.use || g.keepExperience
    ensures r.message.Some? <==> g.Any() && messageEnabled
    ensures r.message.Some? ==> r.message == SelectVariant(g)
    ensures r.playSound <==> g.Any() && soundEnabled
  {
    if g.Any() then
      Outcome(g.use || g.keepInventory, g.use || g.keepExperience,
              if messageEnabled then SelectVariant(g) else None,
              soundEnabled)
    else
      Outcome(false, false, None, false)
  }

  /** The five-row outcome table, written out row by row as an independent
      reference: kept inventory, kept experience, message variant. */
  function TableRow(g: Grants): (bool, bool, Option<Variant>)
  {
    match g
    case Grants(true, _, _) => (true, true, Some(Both))
    case Grants(false, true, true) => (true, true, Some(Both))
    case Grants(false, true, false) => (true, false, Some(Inventory))
    case Grants(false, false, true) => (false, true, Some(Experience))
    case Grants(false, false, false) => (false, false, None)
  }

  /** With messages enabled, the decision agrees with the table on all eight
      grant combinations; with messages disabled only the message is dropped. */
  lemma DecisionMatchesTable(g: Grants, soundEnabled: bool)
    ensures var r := Decide(g, true, soundEnabled);
      (r.setKeepsInventory, r.setKeepsLevel, r.message) == TableRow(g)
    ensures var r := Decide(g, false, soundEnabled);
      (r.setKeepsInventory, r.setKeepsLevel, r.message) == (TableRow(g).0, TableRow(g).1, None)
  {
  }

  /** Without any grant nothing happens, whatever the toggles say. */
  lemma NoGrantNoEffect(g: Grants, messageEnabled: bool, soundEnabled: bool)
    requires !g.Any()
    ensures Decide(g, messageEnabled, soundEnabled) == Outcome(false, false, None, false)
  {
  }

  /** The sound decision does not depend on the message toggle or on which
      variant is chosen. */
  lemma SoundIndependentOfMessage(g: Grants, m1: bool, m2: bool, soundEnabled: bool)
    ensures Decide(g, m1, soundEnabled).playSound == Decide(g, m2, soundEnabled).playSound
  {
  }

  /** When a message is due, some branch of the chain fires, so the initial
      empty text is never what is sent. */
  lemma MessageIsNeverBlank(g: Grants, soundEnabled: bool)
    requires g.Any()
    ensures Decide(g, true, soundEnabled).message.Some?
    ensures SelectVariant(g).Some?
  {
  }
}
