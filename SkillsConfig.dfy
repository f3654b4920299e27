/** The skill tree table (src/config/skills.ts, SkillConfig in src/types/game.ts). */
module SkillsConfig {
  import opened GameTypes

  datatype SkillEffectKind = PassiveGeneration | ManaMultiplier | FillSpeedMultiplier | UnlockCombat

  datatype SkillEffect = SkillEffect(kind: SkillEffectKind, value: Option<real>)

  /** An absent `prerequisiteSkills` behaves as the empty list. */
  datatype SkillConfig = SkillConfig(
    id: string,
    cost: real,
    costCurrency: Currency,
    prerequisiteSkills: seq<string>,
    effect: SkillEffect)

  const SKILLS: seq<SkillConfig> := [
    SkillConfig("passive_generation", 1.0, Pink, [], SkillEffect(PassiveGeneration, Some(0.10))),
    SkillConfig("mana_boost_1", 2.0, Pink, [], SkillEffect(ManaMultiplier, Some(5.0))),
    SkillConfig("mana_boost_2", 20.0, Pink, ["mana_boost_1"], SkillEffect(ManaMultiplier, Some(10.0))),
    SkillConfig("mana_boost_3", 100.0, Pink, ["mana_boost_2"], SkillEffect(ManaMultiplier, Some(20.0))),
    SkillConfig("fill_rate_1", 2.0, Pink, [], SkillEffect(FillSpeedMultiplier, Some(3.0))),
    SkillConfig("fill_rate_2", 100.0, Pink, ["fill_rate_1"], SkillEffect(FillSpeedMultiplier, Some(10.0))),
    SkillConfig("fill_rate_3", 5000.0, Pink, ["fill_rate_2"], SkillEffect(FillSpeedMultiplier, Some(100.0)))
  ]

  /**
   * `SKILLS.find(s => s.id === id)`. What it finds is stated by `FindSkillMeaning`
   * rather than by an ensures, so that the many folds over the store's skill list
   * do not carry the table's contents with every lookup.
   */
  function FindSkill(table: seq<SkillConfig>, id: string): Option<SkillConfig>
  {
    if table == [] then None
    else if table[0].id == id then Some(table[0])
    else FindSkill(table[1..], id)
  }

  /** The lookup finds the first entry with the id, and nothing exactly when no entry has it. */
  lemma {:induction false} FindSkillMeaning(table: seq<SkillConfig>, id: string)
    ensures var r := FindSkill(table, id);
            (r.Some? ==> exists i :: 0 <= i < |table| && table[i] == r.value && r.value.id == id
                                     && forall j :: 0 <= j < i ==> table[j].id != id)
            && (r.None? <==> forall i :: 0 <= i < |table| ==> table[i].id != id)
  {
    if table != [] && table[0].id != id {
      FindSkillMeaning(table[1..], id);
      var r := FindSkill(table, id);
      if r.Some? {
        var i :| 0 <= i < |table[1..]| && table[1..][i] == r.value && r.value.id == id
                 && forall j :: 0 <= j < i ==> table[1..][j].id != id;
        assert table[i + 1] == r.value;
        assert forall j :: 0 <= j < i + 1 ==> table[j].id != id by {
          forall j | 0 <= j < i + 1 ensures table[j].id != id {
            if j > 0 { assert table[j] == table[1..][j - 1]; }
          }
        }
      }
    }
  }

  function SkillIds(): set<string>
  {
    set i | 0 <= i < |SKILLS| :: SKILLS[i].id
  }

  lemma SkillIdsDistinct()
    ensures forall i, j :: 0 <= i < j < |SKILLS| ==> SKILLS[i].id != SKILLS[j].id
  {
  }

  /** The seven ids of the table. */
  lemma SkillIdValues()
    ensures SkillIds() == {"passive_generation", "mana_boost_1", "mana_boost_2", "mana_boost_3",
                           "fill_rate_1", "fill_rate_2", "fill_rate_3"}
  {
    var ids := {"passive_generation", "mana_boost_1", "mana_boost_2", "mana_boost_3",
                "fill_rate_1", "fill_rate_2", "fill_rate_3"};
    forall x | x in SkillIds() ensures x in ids {
      var i :| 0 <= i < |SKILLS| && SKILLS[i].id == x;
      assert i in {0, 1, 2, 3, 4, 5, 6};
    }
    forall i | 0 <= i < |SKILLS| ensures SKILLS[i].id in SkillIds() { }
    assert SKILLS[0].id == "passive_generation" && SKILLS[1].id == "mana_boost_1" && SKILLS[2].id == "mana_boost_2";
    assert SKILLS[3].id == "mana_boost_3" && SKILLS[4].id == "fill_rate_1" && SKILLS[5].id == "fill_rate_2";
    assert SKILLS[6].id == "fill_rate_3";
  }

  /** Each prerequisite names a skill listed earlier, so the prerequisite graph is acyclic. */
  lemma PrerequisitesComeEarlier()
    ensures forall i, p :: 0 <= i < |SKILLS| && p in SKILLS[i].prerequisiteSkills ==>
              exists j :: 0 <= j < i && SKILLS[j].id == p
    ensures forall i, p :: 0 <= i < |SKILLS| && p in SKILLS[i].prerequisiteSkills ==> p in SkillIds()
  {
    forall i, p | 0 <= i < |SKILLS| && p in SKILLS[i].prerequisiteSkills
      ensures exists j :: 0 <= j < i && SKILLS[j].id == p
    {
      if i == 2 { assert SKILLS[1].id == p; }
      else if i == 3 { assert SKILLS[2].id == p; }
      else if i == 5 { assert SKILLS[4].id == p; }
      else if i == 6 { assert SKILLS[5].id == p; }
    }
  }

  lemma SkillTableFacts()
    ensures SKILLS[0].prerequisiteSkills == [] && SKILLS[1].prerequisiteSkills == [] && SKILLS[4].prerequisiteSkills == []
    ensures forall s :: s in SKILLS ==> s.cost > 0.0 && s.costCurrency == Pink
    ensures forall s :: s in SKILLS && s.effect.kind == PassiveGeneration ==> s == SKILLS[0]
    ensures SKILLS[0].id == "passive_generation" && SKILLS[0].effect == SkillEffect(PassiveGeneration, Some(0.10))
  {
  }
}
