/** The data types shared by the gallery and the generation service: the
    four asset categories, one gallery slot per category, the result of a
    style analysis and the whole application state. */
module Types {
  import opened Wrappers

  /** The closed set of asset categories. */
  datatype AssetType = AvatarFrame | EntranceShow | Medal | Wallpaper

  /** The string value each category carries in the enum; it is the
      variant's own name. */
  function AssetTypeValue(t: AssetType): string {
    match t
    case AvatarFrame => "AVATAR_FRAME"
    case EntranceShow => "ENTRANCE_SHOW"
    case Medal => "MEDAL"
    case Wallpaper => "WALLPAPER"
  }

  /** The categories in declaration order, which is the order in which the
      enum's values are enumerated. */
  const AllAssetTypes: seq<AssetType> := [AvatarFrame, EntranceShow, Medal, Wallpaper]

  /** Every category is enumerated, exactly once. */
  lemma AllAssetTypesEnumerated()
    ensures |AllAssetTypes| == 4
    ensures forall t: AssetType :: t in AllAssetTypes
    ensures forall i, j :: 0 <= i < j < |AllAssetTypes| ==> AllAssetTypes[i] != AllAssetTypes[j]
  {
    forall t: AssetType
      ensures t in AllAssetTypes
    {
      match t {
        case AvatarFrame => assert AllAssetTypes[0] == t;
        case EntranceShow => assert AllAssetTypes[1] == t;
        case Medal => assert AllAssetTypes[2] == t;
        case Wallpaper => assert AllAssetTypes[3] == t;
      }
    }
  }

  /** Distinct categories have distinct string values, so the value
      identifies the category. */
  lemma AssetTypeValueInjective(a: AssetType, b: AssetType)
    ensures AssetTypeValue(a) == AssetTypeValue(b) ==> a == b
  {
  }

  /** The status of one gallery slot. */
  datatype Status = Idle | Loading | Success | Error

  /** One gallery slot: the last image obtained for a category, where its
      generation stands, and the message of the last failure. */
  datatype GeneratedAsset = GeneratedAsset(
    id: string,
    assetType: AssetType,
    imageUrl: string,
    status: Status,
    error: Option<string>)

  /** The outcome of a style analysis: the style text and its first words. */
  datatype StyleAnalysis = StyleAnalysis(prompt: string, keywords: seq<string>)

  /** The gallery: a record with one slot per category. */
  type Assets = map<AssetType, GeneratedAsset>

  /** The gallery record has a slot for every category. */
  predicate IsTotal(assets: Assets) {
    forall t: AssetType :: t in assets
  }

  /** A record with a slot for each of the four categories is total. */
  lemma FourKeysAreTotal(assets: Assets)
    requires AvatarFrame in assets && EntranceShow in assets
    requires Medal in assets && Wallpaper in assets
    ensures IsTotal(assets)
  {
    forall t: AssetType
      ensures t in assets
    {
      match t {
        case AvatarFrame =>
        case EntranceShow =>
        case Medal =>
        case Wallpaper =>
      }
    }
  }

  /** The application state held by the page. */
  datatype AppState = AppState(
    referenceImage: Option<string>,
    userPrompt: string,
    analysis: Option<StyleAnalysis>,
    assets: Assets,
    isAnalyzing: bool)
}
