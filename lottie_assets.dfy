/**
 * The variant asset table `lottieAnimations` of the onboarding screens: for
 * each device model, each animation kind and each colour theme, the Lottie
 * animation to play, plus one render style per device model.
 *
 * The source indexes a nested object literal with the device id string; an id
 * outside its four keys makes the property access throw. Here the device is a
 * closed enumeration, so the lookup is total, and the string form of the id
 * is kept by `DeviceModelId` / `DeviceModelFromId`.
 */
module LottieAssets {

  import opened Optional

  datatype DeviceModel = NanoS | NanoSP | NanoX | Blue

  datatype Theme = Light | Dark

  datatype AnimationKind = PinCode | Recover | ConfirmWords | NumberOfWords | PowerOn | PowerOnRecovery

  /** Which JSON file of an animation folder is imported: the themeless
      `data.json`, or one of the per-theme `light.json` / `dark.json`. */
  datatype AnimationFile = DataJson | LightJson | DarkJson

  /** An imported Lottie animation, named by its path
      `assets/<folder>/<kind>/<file>`; its content is opaque. */
  datatype Animation = Animation(folder: DeviceModel, kind: AnimationKind, file: AnimationFile)

  /** A style object of string-valued properties, such as `{ width: "110%" }`;
      the percentages are kept as opaque strings. */
  type LottieStyle = map<string, string>

  /** The key under which the device model appears in the table and in text keys. */
  function DeviceModelId(d: DeviceModel): (id: string)
    ensures DeviceModelFromId(id) == Some(d)
  {
    match d
    case NanoS => "nanoS"
    case NanoSP => "nanoSP"
    case NanoX => "nanoX"
    case Blue => "blue"
  }

  /** The device model whose key is `id`, or None when the table has no such key
      (where the source's property access would throw). */
  function DeviceModelFromId(id: string): (r: Option<DeviceModel>)
    ensures r.None? <==> id !in {"nanoS", "nanoSP", "nanoX", "blue"}
  {
    if id == "nanoS" then Some(NanoS)
    else if id == "nanoSP" then Some(NanoSP)
    else if id == "nanoX" then Some(NanoX)
    else if id == "blue" then Some(Blue)
    else None
  }

  /** The folder file that holds the animation for a theme: nanoSP has one
      file per theme, nanoS and nanoX share one `data.json` between themes. */
  function FileFor(d: DeviceModel, t: Theme): (f: AnimationFile)
    ensures f == DataJson <==> d != NanoSP
    ensures f == LightJson <==> (d == NanoSP && t == Light)
    ensures f == DarkJson <==> (d == NanoSP && t == Dark)
  {
    if d != NanoSP then DataJson
    else match t
      case Light => LightJson
      case Dark => DarkJson
  }

  /** `lottieAnimations[d][k][t]`: the animation, or None for the legacy
      `blue` device, whose every entry is `undefined`. */
  function LottieAnimation(d: DeviceModel, k: AnimationKind, t: Theme): (r: Option<Animation>)
    ensures r.None? <==> d == Blue
    ensures r.Some? ==> r.value.folder == d && r.value.kind == k
    ensures r.Some? ==> r.value.file == FileFor(d, t)
  {
    if d == Blue then None else Some(Animation(d, k, FileFor(d, t)))
  }

  /** `lottieAnimations[d].style`: one style per device model, the same for
      every animation kind; only nanoX widens and shifts its render box. */
  function LottieStyleOf(d: DeviceModel): (s: LottieStyle)
    ensures s.Keys == if d == NanoX then {"width", "left"} else {}
  {
    if d == NanoX then map["width" := "110%", "left" := "5%"] else map[]
  }

  /** The id strings and the device models are in one-to-one correspondence. */
  lemma DeviceModelIdRoundTrip(id: string, d: DeviceModel)
    ensures DeviceModelFromId(id) == Some(d) <==> id == DeviceModelId(d)
  {
  }

  /** The legacy `blue` device has no animation of any kind under either theme. */
  lemma BlueHasNoAnimations()
    ensures forall k, t :: LottieAnimation(Blue, k, t) == None
  {
  }

  /** An animation looked up under the light theme is the one looked up under
      the dark theme exactly when the device is not the nanoSP, the only model
      with per-theme files. */
  lemma ThemeMattersOnlyForNanoSP(d: DeviceModel, k: AnimationKind)
    ensures LottieAnimation(d, k, Light) == LottieAnimation(d, k, Dark) <==> d != NanoSP
  {
  }

  /** No file serves two entries of the table, except one `data.json` serving
      both themes of a device and kind. */
  lemma AnimationsDistinct(d1: DeviceModel, k1: AnimationKind, t1: Theme, d2: DeviceModel, k2: AnimationKind, t2: Theme)
    requires LottieAnimation(d1, k1, t1).Some?
    requires LottieAnimation(d1, k1, t1) == LottieAnimation(d2, k2, t2)
    ensures d1 == d2 && k1 == k2
    ensures d1 == NanoSP ==> t1 == t2
  {
  }

  /** Only the nanoX has a non-empty style: a box 110% wide, shifted 5% left. */
  lemma OnlyNanoXIsStyled(d: DeviceModel)
    ensures LottieStyleOf(d) != map[] <==> d == NanoX
    ensures d == NanoX ==> LottieStyleOf(d)["width"] == "110%" && LottieStyleOf(d)["left"] == "5%"
  {
    if d == NanoX {
      assert "width" in LottieStyleOf(d);
    }
  }

  /** The table read by its string keys, as the catalog builders read it:
      `"nanoX"` selects the one widened style, `"nanoSP"` the per-theme files,
      `"blue"` the entries that are all `undefined`, and `"nanoS"` a themeless,
      unstyled model. */
  lemma TableByStringKey(k: AnimationKind)
    ensures LottieStyleOf(DeviceModelFromId("nanoX").value) == map["width" := "110%", "left" := "5%"]
    ensures LottieAnimation(DeviceModelFromId("nanoSP").value, k, Light) != LottieAnimation(DeviceModelFromId("nanoSP").value, k, Dark)
    ensures forall t :: LottieAnimation(DeviceModelFromId("blue").value, k, t) == None
    ensures LottieStyleOf(DeviceModelFromId("nanoS").value) == map[]
    ensures DeviceModelFromId("nanoS").value != NanoSP && DeviceModelFromId("nanoS").value != Blue
  {
  }
}
