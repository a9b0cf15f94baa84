/**
 * The asset catalog: for each category, an ordered table of scene name to
 * image path (a Python dict, so names are distinct and keep declaration
 * order), the scene-name listing, and the resolution of a requested scene.
 */
module Catalog {
  import opened Wrappers

  datatype Scene = Scene(name: string, path: string)

  predicate DistinctNames(scenes: seq<Scene>)
  {
    forall i, j :: 0 <= i < j < |scenes| ==> scenes[i].name != scenes[j].name
  }

  /** One category's scenes: insertion-ordered, with the uniqueness of dict keys. */
  type SceneTable = s: seq<Scene> | DistinctNames(s) witness []

  type Assets = map<string, SceneTable>

  const WomanScenes: SceneTable := [Scene("Living Room", "woman_living_room.png"), Scene("Bedroom", "woman_bedroom.png")]
  const ManScenes: SceneTable := [Scene("Living Room", "man_living_room.png"), Scene("Bedroom", "man_bedroom.png")]
  const PregnantScenes: SceneTable := [Scene("Living Room", "pregnant_living_room.png"), Scene("Bedroom", "pregnant_bedroom.png")]
  const ChildScenes: SceneTable := [Scene("Living Room", "child_living_room.png"), Scene("Bedroom", "child_bedroom.png")]
  const BabyScenes: SceneTable := [Scene("Carpet", "baby_carpet.png"), Scene("Bed Cover", "baby_bedcover.png")]

  /** The table built by `VirtualTryOnApp.__init__`. */
  const DefaultAssets: Assets := map[
    "femme" := WomanScenes,
    "homme" := ManScenes,
    "enceinte" := PregnantScenes,
    "enfant" := ChildScenes,
    "bebe" := BabyScenes
  ]

  /** The label-to-key table of the page's category selector. */
  const CategoryLabels: map<string, string> := map[
    "Femme" := "femme",
    "Enceinte (Pregnant)" := "enceinte",
    "Homme" := "homme",
    "Enfant" := "enfant",
    "Bébé" := "bebe"
  ]

  function Names(scenes: seq<Scene>): (r: seq<string>)
    ensures |r| == |scenes| && forall i :: 0 <= i < |scenes| ==> r[i] == scenes[i].name
  {
    seq(|scenes|, i requires 0 <= i < |scenes| => scenes[i].name)
  }

  function Paths(scenes: seq<Scene>): (r: seq<string>)
    ensures |r| == |scenes| && forall i :: 0 <= i < |scenes| ==> r[i] == scenes[i].path
  {
    seq(|scenes|, i requires 0 <= i < |scenes| => scenes[i].path)
  }

  /** `assets.get(category, {})`. */
  function Options(assets: Assets, category: string): (t: SceneTable)
    ensures category in assets ==> t == assets[category]
    ensures category !in assets ==> t == []
  {
    if category in assets then assets[category] else []
  }

  /** `get_background_options`: the category's scene names in declaration order, or none. */
  function BackgroundOptions(assets: Assets, category: string): (r: seq<string>)
    ensures category !in assets ==> r == []
    ensures category in assets ==> |r| == |assets[category]|
    ensures category in assets ==> forall i :: 0 <= i < |r| ==> r[i] == assets[category][i].name
  {
    if category in assets then Names(assets[category]) else []
  }

  /** `options[name]` when `name in options`. */
  function Lookup(scenes: SceneTable, name: string): (r: Option<string>)
    ensures r.Some? <==> name in Names(scenes)
    ensures forall i :: 0 <= i < |scenes| && scenes[i].name == name ==> r == Some(scenes[i].path)
    decreases |scenes|
  {
    if scenes == [] then None
    else if scenes[0].name == name then Some(scenes[0].path)
    else Lookup(scenes[1..], name)
  }

  /** Python truthiness of `background_name`: None and "" both mean "not given". */
  predicate Requested(backgroundName: Option<string>)
    ensures !Requested(backgroundName) <==> backgroundName == None || backgroundName == Some("")
  {
    backgroundName.Some? && backgroundName.value != ""
  }

  /**
   * Scene selection of `generate_tryon`: the named scene if it is one of the
   * category's, otherwise any scene of the category (`random.choice`, modelled
   * as an unconstrained choice), and None when the category has no scenes.
   */
  method ResolveScene(assets: Assets, category: string, backgroundName: Option<string>)
    returns (scene: Option<string>)
    ensures scene.None? <==> Options(assets, category) == []
    ensures Requested(backgroundName) ==>
      forall i :: 0 <= i < |Options(assets, category)| && Options(assets, category)[i].name == backgroundName.value
        ==> scene == Some(Options(assets, category)[i].path)
    ensures scene.Some? ==> scene.value in Paths(Options(assets, category))
  {
    var options := Options(assets, category);
    var named := if Requested(backgroundName) then Lookup(options, backgroundName.value) else None;
    if named.Some? {
      scene := named;
      var i :| 0 <= i < |options| && options[i].name == backgroundName.value;
      assert Paths(options)[i] == named.value;
    } else if options != [] {
      var i :| 0 <= i < |options|;
      scene := Some(options[i].path);
      assert Paths(options)[i] == scene.value;
    } else {
      scene := None;
    }
  }

  /** Every listed scene name resolves, in the listed order, to its own path. */
  lemma ListedNamesResolve(scenes: SceneTable, k: nat)
    requires k < |scenes|
    ensures Lookup(scenes, Names(scenes)[k]) == Some(Paths(scenes)[k])
  {
  }

  /** The shipped catalog: five categories, each with two named scenes. */
  lemma DefaultAssetsShape()
    ensures DefaultAssets.Keys == {"femme", "homme", "enceinte", "enfant", "bebe"}
    ensures forall c :: c in DefaultAssets ==> |DefaultAssets[c]| == 2
    ensures BackgroundOptions(DefaultAssets, "femme") == ["Living Room", "Bedroom"]
    ensures BackgroundOptions(DefaultAssets, "homme") == ["Living Room", "Bedroom"]
    ensures BackgroundOptions(DefaultAssets, "enceinte") == ["Living Room", "Bedroom"]
    ensures BackgroundOptions(DefaultAssets, "enfant") == ["Living Room", "Bedroom"]
    ensures BackgroundOptions(DefaultAssets, "bebe") == ["Carpet", "Bed Cover"]
  {
  }

  /** The selector offers exactly the catalog's categories. */
  lemma CategoryLabelsMatchAssets()
    ensures CategoryLabels.Values == DefaultAssets.Keys
  {
    assert CategoryLabels["Femme"] in CategoryLabels.Values;
    assert CategoryLabels["Enceinte (Pregnant)"] in CategoryLabels.Values;
    assert CategoryLabels["Homme"] in CategoryLabels.Values;
    assert CategoryLabels["Enfant"] in CategoryLabels.Values;
    assert CategoryLabels["Bébé"] in CategoryLabels.Values;
  }
}
