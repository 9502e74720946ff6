/**
 * The data model of one onboarding scene, as the catalog builders of
 * `infoPagesData.js` write it: the visual (a static image or a Lottie
 * animation), the text keys, the bullets, the call to action and the two
 * optional gates on it, and the key of the info modal the scene can open.
 *
 * Rendered elements (`Trans`, `LText`, icon components) are kept as opaque
 * text keys and icon names; the model holds no markup.
 */
module Scenes {

  import opened Optional
  import opened LottieAssets

  /** A localisation key, resolved to display text outside this model. */
  type TextKey = string

  datatype Icon = Clock | Edit | Check | Warning | WarningOutline | EyeCrossed | Close | Flower | ArrowRight

  datatype Color = Success | Alert | Orange

  /** The static PNG images the scenes and modals import. */
  datatype Image =
    | GetStarted | PinCodeImage | RecoveryPhraseImage | RecoverySheet
    | HideRecoveryPhraseImage | ImportRecoveryPhraseImage | SyncCryptos | OnboardingQuiz

  /** The label of a bullet: absent, one text key, a literal string (the
      source writes `""` once), or a list of text keys (`labels`). */
  datatype Label = NoLabel | LabelKey(key: TextKey) | LabelText(text: string) | LabelKeys(keys: seq<TextKey>)

  /** A bullet item; `caption` is the source's `label`. `index` is the literal
      display-order hint some bullets carry; it is kept as written and need
      not match the bullet's position. */
  datatype Bullet = Bullet(
    index: Option<int> := None,
    icon: Option<Icon> := None,
    color: Option<Color> := None,
    title: Option<TextKey> := None,
    caption: Label := NoLabel)

  datatype SceneKind = Primary | Secondary

  /** A static image, or a Lottie animation (None for `undefined`) with its style. */
  datatype Visual = Still(image: Image) | Lottie(animation: Option<Animation>, style: LottieStyle)

  /** The artwork of a warning modal: an icon or an image. */
  datatype Artwork = ArtIcon(icon: Icon) | ArtImage(image: Image)

  /** `ctaWarningModal`: a modal the user confirms before the scene advances. */
  datatype WarningModal = WarningModal(art: Artwork, title: TextKey, desc: TextKey, cta: TextKey)

  /** The analytics label, and where the scene object carries it: inside
      `sceneProps` as usual, or as a property of the scene itself. */
  datatype TrackPage = InSceneProps(page: string) | AtTopLevel(page: string)

  /** One scene of a catalog. `checkbox` is the text of `ctaWarningCheckbox`;
      `warning` is `ctaWarningModal`; `infoKey` is `sceneInfoKey`. */
  datatype Scene = Scene(
    id: string,
    kind: SceneKind,
    track: TrackPage,
    visual: Visual,
    title: Option<TextKey> := None,
    descs: seq<TextKey> := [],
    bullets: seq<Bullet> := [],
    cta: TextKey,
    checkbox: Option<TextKey> := None,
    warning: Option<WarningModal> := None,
    infoKey: Option<string> := None)

  /** The ids of a catalog, in order. */
  function Ids(c: seq<Scene>): (r: seq<string>)
    ensures |r| == |c|
    ensures forall i :: 0 <= i < |c| ==> r[i] == c[i].id
  {
    if c == [] then [] else [c[0].id] + Ids(c[1..])
  }

  /** The kinds of a catalog, in order. */
  function Kinds(c: seq<Scene>): (r: seq<SceneKind>)
    ensures |r| == |c|
    ensures forall i :: 0 <= i < |c| ==> r[i] == c[i].kind
  {
    if c == [] then [] else [c[0].kind] + Kinds(c[1..])
  }

  /** The info-modal keys of a catalog, in order. */
  function InfoKeys(c: seq<Scene>): (r: seq<Option<string>>)
    ensures |r| == |c|
    ensures forall i :: 0 <= i < |c| ==> r[i] == c[i].infoKey
  {
    if c == [] then [] else [c[0].infoKey] + InfoKeys(c[1..])
  }

  /** The display-order hints of a list of bullets, in order. */
  function Indices(bs: seq<Bullet>): (r: seq<Option<int>>)
    ensures |r| == |bs|
    ensures forall i :: 0 <= i < |bs| ==> r[i] == bs[i].index
  {
    if bs == [] then [] else [bs[0].index] + Indices(bs[1..])
  }

  /** No two positions of `s` hold the same element. */
  predicate Distinct<T(==)>(s: seq<T>)
  {
    forall i, j :: 0 <= i < j < |s| ==> s[i] != s[j]
  }

  /** A scene's call to action carries at most one of the two gates. */
  predicate AtMostOneGate(s: Scene)
  {
    !(s.checkbox.Some? && s.warning.Some?)
  }
}
