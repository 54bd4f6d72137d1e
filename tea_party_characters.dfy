/**
 * The five tea party characters and the manager that keeps one steering profile per character.
 * Each character comes with default dials for the four dimensions; the manager starts every
 * profile at those defaults, changes one dial of one character at a time, and restores defaults
 * for one character or for all.
 */
module TeaParty {
  import opened Wrappers
  import opened Dicts
  import opened Utils
  import opened MultiScale

  /** One entry of `CHARACTERS`. */
  datatype CharacterData = CharacterData(
    id: string,
    name: string,
    position: string,
    appearance: string,
    basePersonality: string,
    defaultDials: Dict<real>)

  /** The `default_dials` of each character. */
  const PurpleDefaults: Dict<real> := [("theory_of_mind", 0.6), ("harmfulness", 0.2), ("irony", 0.5), ("self_other", 0.6)]
  const BlueDefaults: Dict<real> := [("theory_of_mind", 0.8), ("harmfulness", 0.1), ("irony", 0.3), ("self_other", 0.7)]
  const BlondeDefaults: Dict<real> := [("theory_of_mind", 0.7), ("harmfulness", 0.0), ("irony", 0.2), ("self_other", 0.8)]
  const GrayDefaults: Dict<real> := [("theory_of_mind", 0.7), ("harmfulness", 0.3), ("irony", 0.6), ("self_other", 0.5)]
  const PhoneDefaults: Dict<real> := [("theory_of_mind", 0.4), ("harmfulness", 0.2), ("irony", 0.7), ("self_other", 0.3)]

  // Long texts in this module are written as concatenations of short literals. The verifier
  // turns each literal into one term per character. Short pieces keep the terms that the proofs
  // of this model carry small; joined into one long literal, the same text makes them far costlier.
  const PurplePerson := CharacterData("purple_person", "Ptothe", "left",
    "Short reddish-brown hair, purple" + " patterned outfit, gold earrings",
    "Quick-witted and energetic." + " Often the first to speak up" + " with enthusiasm. Has a warm," + " engaging presence and loves to" + " make others laugh.",
    PurpleDefaults)

  const BlueHair := CharacterData("blue_hair", "Sevvy", "center-left",
    "Long blue hair, dark blue polka" + " dot dress, elegant and composed",
    "Thoughtful and observant. Tends" + " to listen more than speak, but" + " when they do share, it's" + " insightful. Has a calming" + " presence.",
    BlueDefaults)

  const BlondeCenter := CharacterData("blonde_center", "RackSavant", "center",
    "Blonde wavy hair, light blue" + " outfit with white collar," + " gentle expression",
    "Sweet and diplomatic. Often" + " plays peacekeeper and tries to" + " find common ground. Genuinely" + " interested in others'" + " perspectives.",
    BlondeDefaults)

  const GrayBeard := CharacterData("gray_beard", "Sterling", "center-right",
    "Distinguished gentleman with" + " gray beard and hair, brown suit",
    "Wise and measured. Speaks with" + " gravitas and often shares" + " stories from past experiences." + " Can be quietly sardonic.",
    GrayDefaults)

  const PhonePerson := CharacterData("phone_person", "Jordan", "right",
    "Dark hair with side-swept bangs," + " burgundy/maroon outfit, phone" + " in hand",
    "Modern and slightly distracted." + " Switches between engagement and" + " checking phone. Can be witty" + " but sometimes misses social" + " cues.",
    PhoneDefaults)

  /** `CHARACTERS`, in their seating order from left to right. */
  const Characters: seq<CharacterData> := [PurplePerson, BlueHair, BlondeCenter, GrayBeard, PhonePerson]

  /** The ids of a table of characters, position by position. */
  function Ids(cs: seq<CharacterData>): (ids: seq<string>)
    ensures |ids| == |cs| && forall i :: 0 <= i < |cs| ==> ids[i] == cs[i].id
  {
    seq(|cs|, i requires 0 <= i < |cs| => cs[i].id)
  }

  /** The default dials of a table of characters, position by position. */
  function Defaults(cs: seq<CharacterData>): (ds: seq<Dict<real>>)
    ensures |ds| == |cs| && forall i :: 0 <= i < |cs| ==> ds[i] == cs[i].defaultDials
  {
    seq(|cs|, i requires 0 <= i < |cs| => cs[i].defaultDials)
  }

  /** The ids and the defaults of `CHARACTERS`. */
  const CharacterIds: seq<string> := ["purple_person", "blue_hair", "blonde_center", "gray_beard", "phone_person"]
  const CharacterDefaults: seq<Dict<real>> := [PurpleDefaults, BlueDefaults, BlondeDefaults, GrayDefaults, PhoneDefaults]

  lemma CharacterColumns()
    ensures Ids(Characters) == CharacterIds && Defaults(Characters) == CharacterDefaults
  {
  }

  /**
   * A table of characters as the manager needs it: distinct ids, and defaults that name the four
   * dimensions in canonical order, each once, with values in [0, 1], so that setting them on a
   * profile can never be refused.
   */
  predicate WellFormedTable(cs: seq<CharacterData>) {
    (forall i, j :: 0 <= i < j < |cs| ==> cs[i].id != cs[j].id) &&
    forall i :: 0 <= i < |cs| ==> Keys(cs[i].defaultDials) == Dimensions && AllInRange(cs[i].defaultDials)
  }

  /** `CHARACTERS` is such a table. */
  lemma CharactersWellFormed()
    ensures WellFormedTable(Characters)
  {
    CharacterColumns();
    forall i | 0 <= i < |Characters|
      ensures Keys(Characters[i].defaultDials) == Dimensions && AllInRange(Characters[i].defaultDials)
    {
      assert Characters[i].defaultDials == CharacterDefaults[i];
      assert Keys(CharacterDefaults[i]) == Dimensions;
    }
  }

  /** Position of the first character satisfying `p`, or `|cs|` when none does. */
  function FirstIndex(cs: seq<CharacterData>, p: CharacterData -> bool): (i: nat)
    ensures i <= |cs|
    ensures i < |cs| ==> p(cs[i])
    ensures forall j :: 0 <= j < i ==> !p(cs[j])
  {
    if cs == [] then 0
    else if p(cs[0]) then 0
    else
      var i := FirstIndex(cs[1..], p);
      assert forall j :: 1 <= j < |cs| ==> cs[j] == cs[1..][j - 1];
      i + 1
  }

  function HasId(id: string): CharacterData -> bool {
    (c: CharacterData) => c.id == id
  }

  function HasName(name: string): CharacterData -> bool {
    (c: CharacterData) => c.name == name
  }

  /** In a table with distinct ids, the search by id finds each character at its own position. */
  lemma FirstIndexOfId(cs: seq<CharacterData>, ci: nat)
    requires forall i, j :: 0 <= i < j < |cs| ==> cs[i].id != cs[j].id
    requires ci < |cs|
    ensures FirstIndex(cs, HasId(cs[ci].id)) == ci
  {
  }

  /** `next((c for c in CHARACTERS if c["id"] == character_id), None)`. */
  function CharacterById(id: string): (r: Option<CharacterData>)
    ensures r.Some? ==> r.value in Characters && r.value.id == id
  {
    var i := FirstIndex(Characters, HasId(id));
    if i < |Characters| then Some(Characters[i]) else None
  }

  /** `get_character_by_name`: the first character with that name, or None. */
  function GetCharacterByName(name: string): (r: Option<CharacterData>)
    ensures r.Some? ==> r.value in Characters && r.value.name == name
  {
    var i := FirstIndex(Characters, HasName(name));
    if i < |Characters| then Some(Characters[i]) else None
  }

  /** The lookup by name finds a character exactly when one has that name, and then the first one. */
  lemma CharacterByNameFirst(name: string)
    ensures GetCharacterByName(name).None? <==> forall i :: 0 <= i < |Characters| ==> Characters[i].name != name
    ensures GetCharacterByName(name).Some? ==> exists i :: (0 <= i < |Characters| &&
      GetCharacterByName(name).value == Characters[i] && Characters[i].name == name &&
      forall j :: 0 <= j < i ==> Characters[j].name != name)
  {
    var i := FirstIndex(Characters, HasName(name));
    assert forall j :: 0 <= j < i ==> !HasName(name)(Characters[j]);
  }

  /** The lookup by id finds a character exactly for the five ids, each at its own seat. */
  lemma CharacterByIdAt(id: string)
    ensures CharacterById(id).None? <==> id !in CharacterIds
    ensures forall ci :: 0 <= ci < |CharacterIds| ==> CharacterById(CharacterIds[ci]) == Some(Characters[ci])
  {
    CharacterColumns();
    CharactersWellFormed();
    var i := FirstIndex(Characters, HasId(id));
    if id in CharacterIds {
      var k :| 0 <= k < |CharacterIds| && CharacterIds[k] == id;
      assert HasId(id)(Characters[k]);
    }
    forall ci | 0 <= ci < |CharacterIds| ensures CharacterById(CharacterIds[ci]) == Some(Characters[ci]) {
      FirstIndexOfId(Characters, ci);
    }
  }

  /** One entry of `get_all_character_states`: the profile's state with appearance and position. */
  datatype CharacterState = CharacterState(state: ProfileState, appearance: string, position: string)

  /** `get_character_info`: the character's data with its current state. */
  datatype CharacterInfo = CharacterInfo(data: CharacterData, currentState: ProfileState)

  /** `TeaPartyCharacterManager`. */
  class TeaPartyCharacterManager {
    /** The character table the manager reads, `CHARACTERS`. */
    const table: seq<CharacterData>
    /** The dimension table every profile is steered by, that of `MultiDimensionalScale()`. */
    const scale: Scale
    const characters: Dict<CharacterSteeringProfile>

    /** The profile objects the manager owns. */
    function Profiles(): set<CharacterSteeringProfile>
      reads this
    {
      set i | 0 <= i < |characters| :: characters[i].1
    }

    /** The dials of every profile, in table order. */
    function Dials(): (ds: seq<Dict<real>>)
      reads this, Profiles()
      ensures |ds| == |characters|
    {
      seq(|characters|, i reads this, Profiles() requires 0 <= i < |characters| => characters[i].1.dialValues)
    }

    /**
     * One profile per character of a well-formed table, keyed by id in table order, each a
     * distinct object that belongs to its character and is steered by the four-dimension scale.
     */
    predicate Valid()
      reads this, Profiles()
    {
      WellFormedTable(table) && Keys(scale) == Dimensions &&
      |characters| == |table| &&
      (forall i, j :: 0 <= i < j < |characters| ==> characters[i].1 != characters[j].1) &&
      forall i :: 0 <= i < |characters| ==>
        characters[i].0 == table[i].id && ProfileOf(characters[i].1, table[i]) && characters[i].1.scale == scale
    }

    /** `_initialize_characters`: every character of `CHARACTERS` starts at exactly its defaults. */
    constructor()
      ensures Valid() && fresh(Profiles())
      ensures table == Characters && scale == DimensionTable
      ensures Dials() == Defaults(table)
    {
      CharactersWellFormed();
      DimensionTableShape();
      var profiles := BuildProfiles(Characters, DimensionTable);
      table := Characters;
      scale := DimensionTable;
      characters := profiles;
    }

    /** `get_character`: the profile stored under the id, or the error for an unknown id. */
    function GetCharacter(id: string): (r: Result<CharacterSteeringProfile>)
      reads this
      ensures r.Err? <==> !HasKey(characters, id)
      ensures r.Err? ==> r.message == "Unknown character: " + id
      ensures r.Ok? ==> r.value == characters[KeyIndex(characters, id)].1
    {
      if !HasKey(characters, id) then Err("Unknown character: " + id)
      else Ok(Lookup(characters, id).value)
    }

    /** The profiles are keyed by the table's ids: the first profile under an id is that of the first character with it. */
    lemma KeyIndexOfId(id: string)
      requires Valid()
      ensures KeyIndex(characters, id) == FirstIndex(table, HasId(id))
      ensures HasKey(characters, id) <==> id in Ids(table)
    {
      var ci := FirstIndex(table, HasId(id));
      if ci < |table| {
        LookupAtId(ci);
      } else {
        assert forall j :: 0 <= j < |characters| ==> characters[j].0 != id by {
          forall j | 0 <= j < |characters| ensures characters[j].0 != id {
            assert !HasId(id)(table[j]);
          }
        }
      }
    }

    /** The profile stored under the id of the character at position `ci` is the one at that position. */
    lemma LookupAtId(ci: nat)
      requires Valid() && ci < |table|
      ensures FirstIndex(table, HasId(table[ci].id)) == ci
      ensures KeyIndex(characters, table[ci].id) == ci
      ensures Lookup(characters, table[ci].id) == Some(characters[ci].1)
    {
      FirstIndexOfId(table, ci);
      forall j | 0 <= j < ci ensures characters[j].0 != table[ci].id {
        assert characters[j].0 == table[j].id;
      }
      KeyIndexAt(characters, table[ci].id, ci);
    }

    /**
     * `update_character_dial`: an unknown character is refused with nothing changed; otherwise that
     * character's profile takes the update and every other profile keeps its dials.
     */
    method UpdateCharacterDial(id: string, dimension: string, value: real) returns (r: Outcome)
      requires Valid()
      modifies Profiles()
      ensures Valid()
      ensures !HasKey(characters, id) ==> r == Fail("Unknown character: " + id) && Dials() == old(Dials())
      ensures HasKey(characters, id) ==>
        var i := KeyIndex(characters, id);
        r == UpdateResult(old(Dials())[i], dimension, value) &&
        Dials() == old(Dials())[i := UpdatedDials(old(Dials())[i], dimension, value)]
    {
      var character := GetCharacter(id);
      if character.Err? {
        return Fail(character.message);
      }
      var i := KeyIndex(characters, id);
      var profile := character.value;
      ghost var before := Dials();
      UpdateKeepsValid(profile.dialValues, dimension, value);
      r := profile.UpdateDial(dimension, value);
      assert forall j :: 0 <= j < |characters| && j != i ==> characters[j].1 != profile;
      assert Dials() == before[i := UpdatedDials(before[i], dimension, value)];
    }

    /** `get_all_character_states`: one state per character, in table order. */
    method GetAllCharacterStates() returns (states: seq<CharacterState>)
      requires Valid()
      ensures |states| == |table|
      ensures forall i :: 0 <= i < |states| ==>
        Ok(states[i].state) == characters[i].1.CurrentState() &&
        states[i].appearance == table[i].appearance && states[i].position == table[i].position
    {
      states := CollectStates(table, characters);
    }

    /**
     * `get_character_info`: for the first character with the id, its data and the current state of
     * its profile; the error when no character has the id.
     */
    function GetCharacterInfo(id: string): (r: Result<CharacterInfo>)
      requires Valid()
      reads this, Profiles()
      ensures r.Err? <==> forall i :: 0 <= i < |table| ==> table[i].id != id
      ensures r.Err? ==> r.message == "Unknown character: " + id
      ensures r.Ok? ==> var ci := KeyIndex(characters, id);
        ci < |table| && ci == FirstIndex(table, HasId(id)) && r.value.data == table[ci] && r.value.data.id == id &&
        Ok(r.value.currentState) == characters[ci].1.CurrentState()
    {
      var ci := FirstIndex(table, HasId(id));
      if ci == |table| then
        Err("Unknown character: " + id)
      else
        LookupAtId(ci);
        var profile := Lookup(characters, id).value;
        CurrentStateOfValid(profile);
        Ok(CharacterInfo(table[ci], profile.CurrentState().value))
    }

    /**
     * `reset_character_dials`: an unknown character is refused with nothing changed; otherwise the
     * dials of the first character with the id become exactly its defaults and every other profile
     * keeps its dials.
     */
    method ResetCharacterDials(id: string) returns (r: Outcome)
      requires Valid()
      modifies Profiles()
      ensures Valid()
      ensures var ci := FirstIndex(table, HasId(id));
        (ci == |table| ==> r == Fail("Unknown character: " + id) && Dials() == old(Dials())) &&
        (ci < |table| ==>
          r == Pass && KeyIndex(characters, id) == ci && Dials() == old(Dials())[ci := table[ci].defaultDials])
    {
      var ci := FirstIndex(table, HasId(id));
      if ci == |table| {
        return Fail("Unknown character: " + id);
      }
      LookupAtId(ci);
      ResetAt(ci);
      r := Pass;
    }

    /** Resets the profile at position `ci` to that character's defaults; the others keep their dials. */
    method ResetAt(ci: nat)
      requires Valid() && ci < |table|
      modifies Profiles()
      ensures Valid()
      ensures Dials() == old(Dials())[ci := table[ci].defaultDials]
    {
      var profile := characters[ci].1;
      ghost var before := Dials();
      ResetProfile(profile, table[ci].defaultDials);
      assert forall k :: 0 <= k < |characters| && k != ci ==> characters[k].1 != profile;
      assert Dials() == before[ci := table[ci].defaultDials];
    }

    /** `reset_all_dials`: afterwards every character holds exactly its defaults, whatever it held before. */
    method ResetAllDials()
      requires Valid()
      modifies Profiles()
      ensures Valid()
      ensures Dials() == Defaults(table)
    {
      for ci := 0 to |table|
        invariant Valid()
        invariant forall i :: 0 <= i < ci ==> Dials()[i] == table[i].defaultDials
      {
        LookupAtId(ci);
        var r := ResetCharacterDials(table[ci].id);
      }
    }
  }

  /**
   * The loop of `_initialize_characters` over a well-formed table: one fresh profile per character,
   * in table order, keyed by its id, steered by the scale and set to its defaults.
   */
  method BuildProfiles(cs: seq<CharacterData>, scale: Scale) returns (profiles: Dict<CharacterSteeringProfile>)
    requires WellFormedTable(cs)
    ensures |profiles| == |cs|
    ensures forall i :: 0 <= i < |cs| ==> profiles[i].0 == cs[i].id
    ensures forall i, j :: 0 <= i < j < |cs| ==> profiles[i].1 != profiles[j].1
    ensures forall i :: 0 <= i < |cs| ==> fresh(profiles[i].1)
    ensures forall i :: 0 <= i < |cs| ==>
      ProfileOf(profiles[i].1, cs[i]) && profiles[i].1.scale == scale && profiles[i].1.dialValues == cs[i].defaultDials
  {
    profiles := [];
    for ci := 0 to |cs|
      invariant |profiles| == ci
      invariant forall i :: 0 <= i < ci ==> profiles[i].0 == cs[i].id
      invariant forall i, j :: 0 <= i < j < ci ==> profiles[i].1 != profiles[j].1
      invariant forall i :: 0 <= i < ci ==> fresh(profiles[i].1)
      invariant forall i :: 0 <= i < ci ==>
        ProfileOf(profiles[i].1, cs[i]) && profiles[i].1.scale == scale && profiles[i].1.dialValues == cs[i].defaultDials
    {
      var data := cs[ci];
      var profile := NewProfile(data, scale);
      assert !HasKey(profiles, data.id) by {
        forall i | 0 <= i < ci ensures profiles[i].0 != data.id {
          assert profiles[i].0 == cs[i].id;
        }
      }
      ghost var earlier := profiles;
      profiles := Put(profiles, data.id, profile);
      assert profiles == earlier + [(data.id, profile)];
    }
  }

  /** One step of `_initialize_characters`: a fresh profile for the character, set to its defaults. */
  method NewProfile(data: CharacterData, scale: Scale) returns (profile: CharacterSteeringProfile)
    requires Keys(data.defaultDials) == Dimensions && AllInRange(data.defaultDials)
    ensures fresh(profile) && ProfileOf(profile, data) && profile.scale == scale && profile.dialValues == data.defaultDials
  {
    profile := new CharacterSteeringProfile(data.id, data.name, data.basePersonality, scale);
    ValidDistinct(profile.dialValues);
    ApplyDials(profile, data.defaultDials);
  }

  /**
   * The loop of `get_all_character_states` over a table of characters with distinct ids, each id
   * keying the profile at its own position: one state per character, in table order.
   */
  method CollectStates(cs: seq<CharacterData>, profiles: Dict<CharacterSteeringProfile>) returns (states: seq<CharacterState>)
    requires |profiles| == |cs|
    requires forall i, j :: 0 <= i < j < |cs| ==> cs[i].id != cs[j].id
    requires forall i :: 0 <= i < |cs| ==>
      profiles[i].0 == cs[i].id && profiles[i].1.Valid() && Keys(profiles[i].1.scale) == Dimensions
    ensures |states| == |cs|
    ensures forall i :: 0 <= i < |cs| ==>
      Ok(states[i].state) == profiles[i].1.CurrentState() &&
      states[i].appearance == cs[i].appearance && states[i].position == cs[i].position
  {
    states := [];
    for ci := 0 to |cs|
      invariant |states| == ci
      invariant forall i :: 0 <= i < ci ==>
        Ok(states[i].state) == profiles[i].1.CurrentState() &&
        states[i].appearance == cs[i].appearance && states[i].position == cs[i].position
    {
      var data := cs[ci];
      forall j | 0 <= j < ci ensures profiles[j].0 != data.id {
        assert profiles[j].0 == cs[j].id;
      }
      KeyIndexAt(profiles, data.id, ci);
      var profile := Lookup(profiles, data.id).value;
      var state := StateOf(profile, data);
      states := states + [state];
    }
  }

  /** One entry of `get_all_character_states`: the profile's state extended with appearance and position. */
  method StateOf(profile: CharacterSteeringProfile, data: CharacterData) returns (s: CharacterState)
    requires profile.Valid() && Keys(profile.scale) == Dimensions
    ensures Ok(s.state) == profile.CurrentState() && s.appearance == data.appearance && s.position == data.position
  {
    CurrentStateOfValid(profile);
    s := CharacterState(profile.CurrentState().value, data.appearance, data.position);
  }

  /** The body of `reset_character_dials` once the profile is found: it ends at the character's defaults. */
  method ResetProfile(profile: CharacterSteeringProfile, defaults: Dict<real>)
    requires profile.Valid() && Keys(defaults) == Dimensions && AllInRange(defaults)
    modifies profile
    ensures profile.Valid() && profile.dialValues == defaults
  {
    ValidDistinct(profile.dialValues);
    ApplyDials(profile, defaults);
  }

  /**
   * The loop `for dim, value in default_dials.items(): profile.update_dial(dim, value)`: dials
   * naming the four dimensions in order, with values in [0, 1], are all accepted and replace the
   * profile's dials exactly.
   */
  method ApplyDials(profile: CharacterSteeringProfile, dials: Dict<real>)
    requires profile.Valid() && DistinctKeys(profile.dialValues) && Keys(dials) == Keys(profile.dialValues) && AllInRange(dials)
    modifies profile
    ensures profile.Valid() && profile.dialValues == dials
  {
    ghost var start := profile.dialValues;
    for j := 0 to |dials|
      invariant profile.Valid() && Keys(profile.dialValues) == Keys(start)
      invariant profile.dialValues == PutAll(start, dials[..j])
    {
      var k, v := dials[j].0, dials[j].1;
      ghost var before := profile.dialValues;
      assert Keys(before)[j] == k;
      assert InUnitRange(v);
      UpdateChangesOneDial(before, k, v, k);
      var r := profile.UpdateDial(k, v);
      assert r == Pass && profile.dialValues == Put(before, k, v);
      PutAllStep(start, dials, j);
    }
    assert dials[..|dials|] == dials;
    PutAllSameKeys(start, dials);
  }

  /** A profile belongs to a character: same id, name and personality, and valid dials. */
  predicate ProfileOf(p: CharacterSteeringProfile, c: CharacterData)
    reads p
  {
    p.characterId == c.id && p.characterName == c.name && p.basePersonality == c.basePersonality && p.Valid()
  }
}
