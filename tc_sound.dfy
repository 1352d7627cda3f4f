/**
 * The concrete `SoundTargetComponents` prompt schema of
 * `omakase/backend/mnemonics/tc_sound.py`.
 */
module TcSound {
  import opened Wrappers
  import opened PromptSchema

  const COMPONENT_CONCEPT := FieldClass(
    "component_concept", "component concept",
    "Concept related to the component (bath robe')", "concept ('bath robe'...)")
  const COMPONENT_CONCEPT_DETAILS := FieldClass(
    "component_concept_details", "component concept details",
    "Description of the component concept ('A fancy bath robe, blue as the sea')",
    "details ('A fancy bath robe [..]')")
  const SOUND := FieldClass(
    "sound", "sound", "The sound associated to the component concept ('りょ')", "Sound ('りょ')")
  const TARGET_CONCEPT := FieldClass(
    "target_concept", "target concept",
    "Target concept (e.g., 'voyage', if learning the word 旅行)", "Target concept ('voyage')")
  const TARGET_MEANING_MNEMONIC := FieldClass(
    "target_meaning_mnemonic", "target meaning mnemonic",
    "Mnemonic for the target concept (e.g. for 旅行, 'When your family goes, it is on a voyage.')",
    "Target leaning mnemonic ('When your family goes, it is on a voyage')")

  const COMPONENT := RowClass("Component", [SOUND, COMPONENT_CONCEPT, COMPONENT_CONCEPT_DETAILS])
  const TARGET_CONCEPT_ROW := RowClass("TargetConceptRow", [TARGET_CONCEPT])
  const TARGET_MEANING_MNEMONIC_ROW := RowClass("TargetMeaningMnemonicRow", [TARGET_MEANING_MNEMONIC])

  const COMPONENT_SOUNDS := SectionClass(
    "ComponentSounds", COMPONENT, 4, "component", "component",
    "The overall reading of the concept is composed into components ('voyage' → []りょ,こ])."
    + " Each of them becomes an association of a concept, details about that concept, and a sound.")
  const TARGET_SECTION := SectionClass(
    "TargetSection", TARGET_CONCEPT_ROW, 1, "target concept", "target_concept",
    "The concept behind the word under study. For instance, 'voyage' for 旅行.")
  const TARGET_MEANING_MNEMONIC_SECTION := SectionClass(
    "TargetMeaningMnemonicSection", TARGET_MEANING_MNEMONIC_ROW, 1,
    "target meaning mnemonic", "target_meaning_mnemonic", "")

  const SOUND_TARGET_COMPONENTS := FieldsDataClass(
    "SoundTargetComponents", [TARGET_SECTION, TARGET_MEANING_MNEMONIC_SECTION, COMPONENT_SOUNDS],
    "Sound Target Components", "TO ADD (overall explanation header)")

  /** A section whose value is one row holding one field. */
  predicate OneDimensional(cls: SectionClass)
  {
    cls.nRepeat == 1 && |cls.rowClass.fieldClasses| == 1
  }

  function SectionPromptNames(secs: seq<SectionClass>): (r: seq<string>)
    ensures |r| == |secs| && forall i :: 0 <= i < |secs| ==> r[i] == secs[i].promptName
  {
    seq(|secs|, i requires 0 <= i < |secs| => secs[i].promptName)
  }

  /** The sections, their order, repeats, rows and prompt names. */
  lemma SoundTargetComponentsLayout()
    ensures SOUND_TARGET_COMPONENTS.sectionClasses == [TARGET_SECTION, TARGET_MEANING_MNEMONIC_SECTION, COMPONENT_SOUNDS]
    ensures SectionPromptNames(SOUND_TARGET_COMPONENTS.sectionClasses) == ["target_concept", "target_meaning_mnemonic", "component"]
    ensures TARGET_SECTION.nRepeat == 1 && TARGET_SECTION.rowClass.fieldClasses == [TARGET_CONCEPT]
    ensures TARGET_MEANING_MNEMONIC_SECTION.nRepeat == 1 && TARGET_MEANING_MNEMONIC_SECTION.rowClass.fieldClasses == [TARGET_MEANING_MNEMONIC]
    ensures COMPONENT_SOUNDS.nRepeat == 4 && COMPONENT_SOUNDS.rowClass.fieldClasses == [SOUND, COMPONENT_CONCEPT, COMPONENT_CONCEPT_DETAILS]
    ensures forall s :: 0 <= s < 3 ==> (OneDimensional(SOUND_TARGET_COMPONENTS.sectionClasses[s]) <==> s < 2)
  {
  }

  /** A built `SoundTargetComponents` has 1, 1 and 4 rows of 1, 1 and 3 empty fields. */
  lemma {:induction false} BuiltSoundTargetComponents(data: FieldsData)
    requires BuiltFieldsData(data, SOUND_TARGET_COMPONENTS)
    ensures |data.value| == 3
    ensures |data.value[0].value| == 1 && |data.value[1].value| == 1 && |data.value[2].value| == 4
    ensures data.value[0].value[0].value == [Field(TARGET_CONCEPT, "", [0, 0])]
    ensures data.value[1].value[0].value == [Field(TARGET_MEANING_MNEMONIC, "", [1, 0])]
    ensures forall r :: 0 <= r < 4 ==>
      (data.value[2].value[r].value ==
       [Field(SOUND, "", [2, r]), Field(COMPONENT_CONCEPT, "", [2, r]), Field(COMPONENT_CONCEPT_DETAILS, "", [2, r])])
  {
    var secs := SOUND_TARGET_COMPONENTS.sectionClasses;
    assert BuiltSection(data.value[0], secs[0], [0], []);
    assert BuiltSection(data.value[1], secs[1], [1], []);
    assert BuiltSection(data.value[2], secs[2], [2], []);
    assert BuiltRow(data.value[0].value[0], TARGET_CONCEPT_ROW, [0, 0], [0]);
    assert BuiltRow(data.value[1].value[0], TARGET_MEANING_MNEMONIC_ROW, [1, 0], [1]);
    forall r | 0 <= r < 4
      ensures data.value[2].value[r].value ==
        [Field(SOUND, "", [2, r]), Field(COMPONENT_CONCEPT, "", [2, r]), Field(COMPONENT_CONCEPT_DETAILS, "", [2, r])]
    {
      assert BuiltRow(data.value[2].value[r], COMPONENT, [2] + [r], [2]);
      assert [2] + [r] == [2, r];
    }
  }

  /** The explanation of a built `SoundTargetComponents` opens with its name and header. */
  lemma {:induction false} SoundTargetComponentsExplanation(data: FieldsData)
    requires BuiltFieldsData(data, SOUND_TARGET_COMPONENTS)
    ensures MnemExplanation(data).Ok?
    ensures MnemHead(SOUND_TARGET_COMPONENTS) <= MnemExplanation(data).value
    ensures MnemHead(SOUND_TARGET_COMPONENTS) == "### " + "Sound Target Components" + "\n" + "TO ADD (overall explanation header)"
  {
    BuiltSoundTargetComponents(data);
    MnemExplanationShape(data);
    assert forall s :: 0 <= s < |data.value| ==> |data.value[s].value| > 0;
  }

  /** The component section explains its three fields in row order. */
  lemma {:induction false} ComponentSoundsExplanation(sec: Section, at: Owner, notifies: Owner)
    requires BuiltSection(sec, COMPONENT_SOUNDS, at, notifies)
    ensures SectionExplanation(sec) == Ok(SectionHead(COMPONENT_SOUNDS) + (Bullet(SOUND) + Bullet(COMPONENT_CONCEPT) + Bullet(COMPONENT_CONCEPT_DETAILS)))
  {
    BuiltSectionExplanation(sec, COMPONENT_SOUNDS, at, notifies);
    var fs := COMPONENT.fieldClasses;
    assert [SOUND][..0] == [];
    assert Bullets([SOUND]) == Bullet(SOUND);
    assert fs[..2] == [SOUND, COMPONENT_CONCEPT] && [SOUND, COMPONENT_CONCEPT][..1] == [SOUND];
    assert Bullets(fs[..2]) == Bullet(SOUND) + Bullet(COMPONENT_CONCEPT);
    assert Bullets(fs) == Bullet(SOUND) + Bullet(COMPONENT_CONCEPT) + Bullet(COMPONENT_CONCEPT_DETAILS);
  }
}
