// The place-type colour table and its lookup (src/constants.ts).

module PlaceColors {
  import opened Common
  import opened Records
  import opened Text

  /** The keys of the `ColorByPlaceType` object literal, in the order they are written. */
  const PlaceTypeNames: seq<string> := [
    "Home",
    "Groupe de soutien",
    "Crèche",
    "Sanatorium",
    "Atelier protégé",
    "Maison d'accueil",
    "Hôpital général (département)",
    "Hôpital psychiatrique",
    "Institut médico-pédagogique",
    "Centre psychiatrique extra-hospitalier",
    "Service social",
    "Centre de revalidation",
    "Ecole spécialisé",
    "Hôpital général",
    "Annexe psychiatrique de Prison",
    "Prison",
    "Colonie",
    "Orphelinat",
    "Hospice pour enfants",
    "Dépôt de mendicité",
    "Etablissement de défense sociale",
    "établissements d’observation",
    "Couvent",
    "Centre médico-chirurgical",
    "Centre gériatrique",
    "Maisons de soins psychiatriques",
    "Maison de refuge",
    "Polyclinique",
    "Organisme de tutelle",
    "Maison de retraite",
    "Camp de concentration",
    "Médecin",
    "Médecin traitant",
    "Hôpital psychiatrique (département)",
    "psychiatre",
    "Medecin-directeur de l'EDS de Tournai",
    "Assistante sociale",
    "Médecin généraliste"
  ]

  /** The colour of each key of `PlaceTypeNames`, at the same index. */
  const PlaceTypeColors: seq<string> := [
    "#009673", "#067BC2", "#84DD63", "#684756", "#FB4D3D", "#5ABCB9",
    "#9D9171", "#FF3366", "#26532B", "#D56062", "#3D314A", "#5998C5",
    "#A8E55C", "#BFAE8E", "#B03A48", "#2F2F2F", "#AD7B5C", "#A3D977",
    "#95D16F", "#7C6F5A", "#5E3A39", "#B7DD8C", "#6A5A99", "#4FA1C2",
    "#D3B88C", "#E2727E", "#4C6773", "#5CBCD4", "#4D4069", "#D8C3A5",
    "#1C1C1C", "#3C9DC6", "#3C9DC6", "#E04C6A", "#D7435F", "#3798A6",
    "#4A3A5E", "#56A3B5"
  ]

  /**
   * Reading property `key` of an object literal whose entries are
   * `(names[i], colors[i])`: a later entry with the same key overrides an
   * earlier one.
   */
  function LookupIn(names: seq<string>, colors: seq<string>, key: string): (r: Option<string>)
    requires |names| == |colors|
    ensures r.Some? <==> key in names
    ensures r.Some? ==> exists i :: 0 <= i < |names| && names[i] == key && colors[i] == r.value
  {
    if names == [] then None
    else if names[|names| - 1] == key then Some(colors[|colors| - 1])
    else
      var n := |names| - 1;
      var r := LookupIn(names[..n], colors[..n], key);
      assert forall i :: 0 <= i < n ==> names[..n][i] == names[i] && colors[..n][i] == colors[i];
      assert names == names[..n] + [names[n]];
      r
  }

  /** `ColorByPlaceType[key]` for the table's own entries. */
  function ColorByPlaceType(key: string): Option<string> {
    LookupIn(PlaceTypeNames, PlaceTypeColors, key)
  }

  /** The fallback colour, black. */
  const DefaultColor: string := "#000000"

  predicate IsHexDigit(c: char) {
    ('0' <= c <= '9') || ('A' <= c <= 'F') || ('a' <= c <= 'f')
  }

  /** `#` followed by six hexadecimal digits. */
  predicate IsHexColor(s: string) {
    && |s| == 7 && s[0] == '#'
    && IsHexDigit(s[1]) && IsHexDigit(s[2]) && IsHexDigit(s[3])
    && IsHexDigit(s[4]) && IsHexDigit(s[5]) && IsHexDigit(s[6])
  }

  /** `getColorByPlace` with the table read as a table: the colour of the trimmed type, else black. */
  function GetColorByPlace(place: Place): (color: string)
    ensures ColorByPlaceType(Trim(place.placeType)).Some? ==> color == ColorByPlaceType(Trim(place.placeType)).value
    ensures ColorByPlaceType(Trim(place.placeType)).None? ==> color == DefaultColor
    ensures IsHexColor(color)
  {
    var key := Trim(place.placeType);
    TableColorIsHex(key);
    DefaultColorIsHex();
    match ColorByPlaceType(key)
    case Some(c) => if c != "" then c else DefaultColor
    case None => DefaultColor
  }

  lemma DefaultColorIsHex()
    ensures IsHexColor(DefaultColor)
  {
  }

  // The literal is checked in slices: each lemma covers a few entries.

  lemma ColorsHexFrom0()
    ensures forall i :: 0 <= i < 4 ==> IsHexColor(PlaceTypeColors[i])
  {
    assert IsHexColor(PlaceTypeColors[0]);
    assert IsHexColor(PlaceTypeColors[1]);
    assert IsHexColor(PlaceTypeColors[2]);
    assert IsHexColor(PlaceTypeColors[3]);
  }

  lemma ColorsHexFrom4()
    ensures forall i :: 4 <= i < 8 ==> IsHexColor(PlaceTypeColors[i])
  {
    assert IsHexColor(PlaceTypeColors[4]);
    assert IsHexColor(PlaceTypeColors[5]);
    assert IsHexColor(PlaceTypeColors[6]);
    assert IsHexColor(PlaceTypeColors[7]);
  }

  lemma ColorsHexFrom8()
    ensures forall i :: 8 <= i < 13 ==> IsHexColor(PlaceTypeColors[i])
  {
    assert IsHexColor(PlaceTypeColors[8]);
    assert IsHexColor(PlaceTypeColors[9]);
    assert IsHexColor(PlaceTypeColors[10]);
    assert IsHexColor(PlaceTypeColors[11]);
    assert IsHexColor(PlaceTypeColors[12]);
  }

  lemma ColorsHexFrom13()
    ensures forall i :: 13 <= i < 19 ==> IsHexColor(PlaceTypeColors[i])
  {
    assert IsHexColor(PlaceTypeColors[13]);
    assert IsHexColor(PlaceTypeColors[14]);
    assert IsHexColor(PlaceTypeColors[15]);
    assert IsHexColor(PlaceTypeColors[16]);
    assert IsHexColor(PlaceTypeColors[17]);
    assert IsHexColor(PlaceTypeColors[18]);
  }

  lemma ColorsHexFrom19()
    ensures forall i :: 19 <= i < 26 ==> IsHexColor(PlaceTypeColors[i])
  {
    assert IsHexColor(PlaceTypeColors[19]);
    assert IsHexColor(PlaceTypeColors[20]);
    assert IsHexColor(PlaceTypeColors[21]);
    assert IsHexColor(PlaceTypeColors[22]);
    assert IsHexColor(PlaceTypeColors[23]);
    assert IsHexColor(PlaceTypeColors[24]);
    assert IsHexColor(PlaceTypeColors[25]);
  }

  lemma ColorsHexFrom26()
    ensures forall i :: 26 <= i < 38 ==> IsHexColor(PlaceTypeColors[i])
  {
    assert IsHexColor(PlaceTypeColors[26]);
    assert IsHexColor(PlaceTypeColors[27]);
    assert IsHexColor(PlaceTypeColors[28]);
    assert IsHexColor(PlaceTypeColors[29]);
    assert IsHexColor(PlaceTypeColors[30]);
    assert IsHexColor(PlaceTypeColors[31]);
    assert IsHexColor(PlaceTypeColors[32]);
    assert IsHexColor(PlaceTypeColors[33]);
    assert IsHexColor(PlaceTypeColors[34]);
    assert IsHexColor(PlaceTypeColors[35]);
    assert IsHexColor(PlaceTypeColors[36]);
    assert IsHexColor(PlaceTypeColors[37]);
  }

  /** Every colour the table lists is a hex colour. */
  lemma AllTableColorsHex()
    ensures forall i :: 0 <= i < |PlaceTypeColors| ==> IsHexColor(PlaceTypeColors[i])
  {
    ColorsHexFrom0();
    ColorsHexFrom4();
    ColorsHexFrom8();
    ColorsHexFrom13();
    ColorsHexFrom19();
    ColorsHexFrom26();
  }

  /** Whatever the table finds for a type is a hex colour. */
  lemma TableColorIsHex(key: string)
    ensures ColorByPlaceType(key).Some? ==> IsHexColor(ColorByPlaceType(key).value)
  {
    AllTableColorsHex();
  }

  /** The lookup reads the trimmed type, so surrounding whitespace never changes the colour. */
  lemma PaddingDoesNotChangeColor(place: Place)
    ensures GetColorByPlace(place) == GetColorByPlace(place.(placeType := Trim(place.placeType)))
  {
    var trimmed := place.(placeType := Trim(place.placeType));
    TrimIdempotent(place.placeType);
    assert Trim(trimmed.placeType) == Trim(place.placeType);
  }

  /** A key the literal writes at `j` and never again reads as the colour written at `j`. */
  lemma {:induction false} LookupLastWins(names: seq<string>, colors: seq<string>, key: string, j: nat)
    requires |names| == |colors| && j < |names| && names[j] == key
    requires forall k :: j < k < |names| ==> names[k] != key
    ensures LookupIn(names, colors, key) == Some(colors[j])
    decreases |names|
  {
    var n := |names| - 1;
    if j < n {
      LookupLastWins(names[..n], colors[..n], key, j);
    }
  }

  /** `Home` reads as its own green. */
  lemma HomeColor()
    ensures ColorByPlaceType("Home") == Some("#009673")
  {
    assert forall k :: 1 <= k < 10 ==> PlaceTypeNames[k] != "Home";
    assert forall k :: 10 <= k < 20 ==> PlaceTypeNames[k] != "Home";
    assert forall k :: 20 <= k < 30 ==> PlaceTypeNames[k] != "Home";
    assert forall k :: 30 <= k < 38 ==> PlaceTypeNames[k] != "Home";
    LookupLastWins(PlaceTypeNames, PlaceTypeColors, "Home", 0);
  }

  /** The table is not one-to-one: `Médecin` and `Médecin traitant` share a colour. */
  lemma SharedColor()
    ensures ColorByPlaceType("Médecin") == ColorByPlaceType("Médecin traitant") == Some("#3C9DC6")
  {
    LookupLastWins(PlaceTypeNames, PlaceTypeColors, "Médecin", 31);
    LookupLastWins(PlaceTypeNames, PlaceTypeColors, "Médecin traitant", 32);
  }

  // ---------------------------------------------------------------------------
  // The lookup as written. `ColorByPlaceType[key]` reads a property of an
  // object literal, so besides the table's own entries it also finds the
  // members every object inherits from `Object.prototype`. Those are functions
  // or objects: truthy, and not colours.

  /** The property names an object literal inherits from `Object.prototype`. */
  const ObjectPrototypeMembers: set<string> := {
    "constructor", "hasOwnProperty", "isPrototypeOf", "propertyIsEnumerable",
    "toLocaleString", "toString", "valueOf", "__proto__",
    "__defineGetter__", "__defineSetter__", "__lookupGetter__", "__lookupSetter__"
  }

  lemma NamesNotInheritedFrom0()
    ensures forall i :: 0 <= i < 5 ==> PlaceTypeNames[i] !in ObjectPrototypeMembers
  {
    assert PlaceTypeNames[0] !in ObjectPrototypeMembers;
    assert PlaceTypeNames[1] !in ObjectPrototypeMembers;
    assert PlaceTypeNames[2] !in ObjectPrototypeMembers;
    assert PlaceTypeNames[3] !in ObjectPrototypeMembers;
    assert PlaceTypeNames[4] !in ObjectPrototypeMembers;
  }

  lemma NamesNotInheritedFrom5()
    ensures forall i :: 5 <= i < 10 ==> PlaceTypeNames[i] !in ObjectPrototypeMembers
  {
    assert PlaceTypeNames[5] !in ObjectPrototypeMembers;
    assert PlaceTypeNames[6] !in ObjectPrototypeMembers;
    assert PlaceTypeNames[7] !in ObjectPrototypeMembers;
    assert PlaceTypeNames[8] !in ObjectPrototypeMembers;
    assert PlaceTypeNames[9] !in ObjectPrototypeMembers;
  }

  lemma NamesNotInheritedFrom10()
    ensures forall i :: 10 <= i < 16 ==> PlaceTypeNames[i] !in ObjectPrototypeMembers
  {
    assert PlaceTypeNames[10] !in ObjectPrototypeMembers;
    assert PlaceTypeNames[11] !in ObjectPrototypeMembers;
    assert PlaceTypeNames[12] !in ObjectPrototypeMembers;
    assert PlaceTypeNames[13] !in ObjectPrototypeMembers;
    assert PlaceTypeNames[14] !in ObjectPrototypeMembers;
    assert PlaceTypeNames[15] !in ObjectPrototypeMembers;
  }

  lemma NamesNotInheritedFrom16()
    ensures forall i :: 16 <= i < 24 ==> PlaceTypeNames[i] !in ObjectPrototypeMembers
  {
    assert PlaceTypeNames[16] !in ObjectPrototypeMembers;
    assert PlaceTypeNames[17] !in ObjectPrototypeMembers;
    assert PlaceTypeNames[18] !in ObjectPrototypeMembers;
    assert PlaceTypeNames[19] !in ObjectPrototypeMembers;
    assert PlaceTypeNames[20] !in ObjectPrototypeMembers;
    assert PlaceTypeNames[21] !in ObjectPrototypeMembers;
    assert PlaceTypeNames[22] !in ObjectPrototypeMembers;
    assert PlaceTypeNames[23] !in ObjectPrototypeMembers;
  }

  lemma NamesNotInheritedFrom24()
    ensures forall i :: 24 <= i < 38 ==> PlaceTypeNames[i] !in ObjectPrototypeMembers
  {
    assert PlaceTypeNames[24] !in ObjectPrototypeMembers;
    assert PlaceTypeNames[25] !in ObjectPrototypeMembers;
    assert PlaceTypeNames[26] !in ObjectPrototypeMembers;
    assert PlaceTypeNames[27] !in ObjectPrototypeMembers;
    assert PlaceTypeNames[28] !in ObjectPrototypeMembers;
    assert PlaceTypeNames[29] !in ObjectPrototypeMembers;
    assert PlaceTypeNames[30] !in ObjectPrototypeMembers;
    assert PlaceTypeNames[31] !in ObjectPrototypeMembers;
    assert PlaceTypeNames[32] !in ObjectPrototypeMembers;
    assert PlaceTypeNames[33] !in ObjectPrototypeMembers;
    assert PlaceTypeNames[34] !in ObjectPrototypeMembers;
    assert PlaceTypeNames[35] !in ObjectPrototypeMembers;
    assert PlaceTypeNames[36] !in ObjectPrototypeMembers;
    assert PlaceTypeNames[37] !in ObjectPrototypeMembers;
  }

  /** No type the table lists is the name of an inherited member, so the table always answers first. */
  lemma NoTableKeyIsInherited()
    ensures forall i :: 0 <= i < |PlaceTypeNames| ==> PlaceTypeNames[i] !in ObjectPrototypeMembers
  {
    NamesNotInheritedFrom0();
    NamesNotInheritedFrom5();
    NamesNotInheritedFrom10();
    NamesNotInheritedFrom16();
    NamesNotInheritedFrom24();
  }

  /** A JavaScript value the lookup can produce: a string, or an inherited member. */
  datatype JsValue = Str(s: string) | InheritedMember(name: string)

  /** `ColorByPlaceType[key]` as the runtime evaluates it; `None` is `undefined`. */
  function PropertyLookup(key: string): Option<JsValue> {
    if ColorByPlaceType(key).Some? then Some(Str(ColorByPlaceType(key).value))
    else if key in ObjectPrototypeMembers then Some(InheritedMember(key))
    else None
  }

  /** JavaScript truthiness of a lookup result. */
  predicate Truthy(v: Option<JsValue>) {
    match v
    case None => false
    case Some(Str(s)) => s != ""
    case Some(InheritedMember(_)) => true
  }

  /** `getColorByPlace` exactly as written. */
  function GetColorByPlaceAsWritten(place: Place): JsValue {
    var color := PropertyLookup(Trim(place.placeType));
    if Truthy(color) then color.value else Str(DefaultColor)
  }

  /** For every type that is not an inherited member name, the lookup as written is the table lookup. */
  lemma AsWrittenAgreesOffPrototype(place: Place)
    requires Trim(place.placeType) !in ObjectPrototypeMembers
    ensures GetColorByPlaceAsWritten(place) == Str(GetColorByPlace(place))
  {
  }

  /** A place whose type is `constructor` gets the inherited `Object` function, not a colour. */
  lemma ConstructorTypeIsNotAColor(place: Place)
    requires place.placeType == "constructor"
    ensures GetColorByPlaceAsWritten(place) == InheritedMember("constructor")
    ensures GetColorByPlace(place) == DefaultColor
  {
    TrimUnpadded("constructor");
    NoTableKeyIsInherited();
    assert "constructor" in ObjectPrototypeMembers;
  }
}
