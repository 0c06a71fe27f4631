/** The safety classifier: which block names are kept off the worker pool. */
module Blacklist {
  import opened JavaStrings

  /** Liquids and flowing blocks. */
  const Fluids: seq<string> := [
    "water", "lava", "bubble", "flowing"
  ]

  /** Blocks that fall. */
  const GravityBlocks: seq<string> := [
    "sand", "gravel", "concrete_powder", "anvil", "scaffolding", "dragon_egg"
  ]

  /** Redstone components. */
  const RedstoneComponents: seq<string> := [
    "redstone", "comparator", "repeater", "observer", "piston", "dispenser", "dropper",
    "hopper", "lever", "button", "pressure_plate", "tripwire", "target", "daylight_detector",
    "tnt", "note_block"
  ]

  /** Fire and light sources. */
  const FireAndLight: seq<string> := [
    "fire", "torch", "lantern", "campfire"
  ]

  /** Plants and natural growth. */
  const PlantsAndNature: seq<string> := [
    "leaves", "sapling", "grass", "big_dripleaf", "dripleaf", "fern", "flower", "mushroom",
    "vine", "lily", "cactus", "sugar_cane", "bamboo", "kelp", "seagrass", "sea_pickle",
    "coral", "azalea", "mangrove", "cherry", "spore_blossom", "moss", "chorus", "eyeblossom"
  ]

  /** Functional blocks and containers. */
  const FunctionalBlocks: seq<string> := [
    "command", "structure", "spawner", "bed", "door", "trapdoor", "fence_gate", "chest",
    "barrel", "furnace", "enchanting_table", "beacon", "conduit", "bell"
  ]

  /** Cross-dimension blocks. */
  const CrossDimension: seq<string> := [
    "portal", "end_gateway"
  ]

  /** Blocks with special mechanics. */
  const SpecialMechanics: seq<string> := [
    "dragon_egg", "sponge", "cake", "sculk", "magma", "soul", "crying_obsidian", "copper",
    "farmland", "composter", "bee_nest", "candle", "rail", "pointed_dripstone",
    "lightning_rod", "powder_snow", "amethyst_cluster", "budding_amethyst",
    "calibrated_sculk_sensor", "reinforced_deepslate", "decorated_pot", "suspicious_sand",
    "suspicious_gravel", "trial_spawner", "vault"
  ]

  /** Every name the class initializer adds, in order (`dragon_egg` is added twice). */
  const StaticEntries: seq<string> :=
    Fluids + GravityBlocks + RedstoneComponents + FireAndLight + PlantsAndNature +
    FunctionalBlocks + CrossDimension + SpecialMechanics

  /** STATIC_BLACKLIST: the set built from those additions, never changed afterwards. */
  const StaticBlacklist: set<string> := set e | e in StaticEntries

  /** The class initializer: starting from an empty set, add every entry in turn. */
  method InitStaticBlacklist() returns (blacklist: set<string>)
    ensures blacklist == StaticBlacklist
  {
    blacklist := {};
    var i := 0;
    while i < |StaticEntries|
      invariant 0 <= i <= |StaticEntries|
      invariant forall e :: e in blacklist <==> e in StaticEntries[..i]
    {
      assert StaticEntries[..i + 1] == StaticEntries[..i] + [StaticEntries[i]];
      blacklist := blacklist + {StaticEntries[i]};
      i := i + 1;
    }
    assert StaticEntries[..i] == StaticEntries;
  }

  /** A block name is denied asynchronous ticking when some entry of the static or of
      the learned (dynamic) blacklist occurs in it as a substring. */
  ghost predicate Blacklisted(blockName: string, staticSet: set<string>, dynamic: set<string>)
  {
    (exists e :: e in staticSet && IsSubstring(e, blockName)) ||
    (exists e :: e in dynamic && IsSubstring(e, blockName))
  }

  /** A name that matches a static entry is blacklisted whatever has been learned. */
  lemma StaticMatchAlwaysBlacklisted(blockName: string, entry: string, staticSet: set<string>, dynamic: set<string>)
    requires entry in staticSet && IsSubstring(entry, blockName)
    ensures Blacklisted(blockName, staticSet, dynamic)
  {
  }

  /** Learning more never un-blacklists a name. */
  lemma BlacklistedMonotone(blockName: string, staticSet: set<string>, before: set<string>, after: set<string>)
    requires before <= after
    requires Blacklisted(blockName, staticSet, before)
    ensures Blacklisted(blockName, staticSet, after)
  {
  }

  /** Once a name has been learned it is blacklisted, and so is every name containing it. */
  lemma LearnedNameBlacklisted(learned: string, blockName: string, staticSet: set<string>, dynamic: set<string>)
    requires IsSubstring(learned, blockName)
    ensures Blacklisted(blockName, staticSet, dynamic + {learned})
  {
  }

  lemma RedstoneIsListed()
    ensures "redstone" in StaticBlacklist
  {
    assert "redstone" in RedstoneComponents;
    assert "redstone" in StaticEntries;
  }

  lemma SandIsListed()
    ensures "sand" in StaticBlacklist
  {
    assert "sand" in GravityBlocks;
    assert "sand" in StaticEntries;
  }

  /** A vanilla description id names its block right after the 16-character prefix
      `block.minecraft.`, so an entry that begins the block's own name occurs in it. */
  lemma EntryAfterPrefix(entry: string, suffix: string)
    ensures IsSubstring(entry, "block.minecraft." + entry + suffix)
  {
    var id := "block.minecraft." + entry + suffix;
    assert id[16..16 + |entry|] == entry;
    assert OccursAt(entry, id, 16);
  }

  lemma RedstoneInWireName()
    ensures IsSubstring("redstone", "block.minecraft.redstone_wire")
  {
    EntryAfterPrefix("redstone", "_wire");
    assert "block.minecraft." + "redstone" + "_wire" == "block.minecraft.redstone_wire";
  }

  /** Redstone dust ticks synchronously: its name contains the entry "redstone". */
  lemma RedstoneWireBlacklisted(dynamic: set<string>)
    ensures Blacklisted("block.minecraft.redstone_wire", StaticBlacklist, dynamic)
  {
    RedstoneIsListed();
    RedstoneInWireName();
    StaticMatchAlwaysBlacklisted("block.minecraft.redstone_wire", "redstone", StaticBlacklist, dynamic);
  }

  /** Matching by substring also catches sandstone, through the entry "sand". */
  lemma SandstoneBlacklisted(dynamic: set<string>)
    ensures Blacklisted("block.minecraft.sandstone", StaticBlacklist, dynamic)
  {
    SandIsListed();
    EntryAfterPrefix("sand", "stone");
    assert "block.minecraft." + "sand" + "stone" == "block.minecraft.sandstone";
    StaticMatchAlwaysBlacklisted("block.minecraft.sandstone", "sand", StaticBlacklist, dynamic);
  }
}
