/**
 * The scene catalogs of the onboarding flows: the shared PIN-code pair, the
 * eight-scene device setup, the seven-scene recovery-phrase restore and the
 * one-scene accounts import. Each builder is a pure function of the device
 * model and the theme; the device and theme only choose Lottie animations,
 * their style, and one device-specific bullet text key per flow.
 */
module Catalogs {

  import opened Optional
  import opened LottieAssets
  import opened Scenes

  // The PIN-code pair

  /** `pinCode`: what the PIN code is for; advancing needs the checkbox. */
  const PinCodeScene: Scene :=
    Scene(
      id := "pinCode",
      kind := Primary,
      track := InSceneProps("Pin code step 1"),
      visual := Still(PinCodeImage),
      title := Some("onboarding.stepSetupDevice.pinCode.title"),
      descs := ["onboarding.stepSetupDevice.pinCode.desc"],
      cta := "onboarding.stepSetupDevice.pinCode.cta",
      checkbox := Some("onboarding.stepSetupDevice.pinCode.checkboxDesc"),
      infoKey := Some("pinCodeInfoModalProps"))

  /** `pinCodeSetup`: the animation of choosing a PIN on the device. */
  function PinCodeSetupScene(d: DeviceModel, t: Theme): Scene
  {
    Scene(
      id := "pinCodeSetup",
      kind := Secondary,
      track := InSceneProps("Pin code step 2"),
      visual := Lottie(LottieAnimation(d, PinCode, t), LottieStyleOf(d)),
      bullets := [
        Bullet(
          title := Some("onboarding.stepSetupDevice.pinCodeSetup.bullets.0.title"),
          caption := LabelKey("onboarding.stepSetupDevice.pinCodeSetup.bullets.0.label")),
        Bullet(
          title := Some("onboarding.stepSetupDevice.pinCodeSetup.bullets.1.title"),
          caption := LabelKey("onboarding.stepSetupDevice.pinCodeSetup.bullets.1.label"))
      ],
      cta := "onboarding.stepSetupDevice.pinCodeSetup.cta",
      infoKey := Some("pinCodeInfoModalProps"))
  }

  /** The PIN-code pair that both the setup and the restore flows splice in. */
  function PinCodeScenes(d: DeviceModel, t: Theme): (r: seq<Scene>)
    ensures Ids(r) == ["pinCode", "pinCodeSetup"]
    ensures r[0].kind == Primary && r[0].visual.Still? && r[0].checkbox.Some? && r[0].warning.None?
    ensures r[1].kind == Secondary && r[1].checkbox.None? && r[1].warning.None?
    ensures r[1].visual == Lottie(LottieAnimation(d, PinCode, t), LottieStyleOf(d))
    ensures |r[1].bullets| == 2
    ensures forall i :: 0 <= i < |r| ==> r[i].infoKey == Some("pinCodeInfoModalProps")
  {
    [PinCodeScene, PinCodeSetupScene(d, t)]
  }

  /** `k` is `prefix`, a device id and `.label`, and that id decodes back to `d`. */
  predicate WrapsDeviceId(k: string, prefix: string, d: DeviceModel)
  {
    |prefix| + 6 <= |k| && k[..|prefix|] == prefix && k[|k| - 6..] == ".label"
    && DeviceModelFromId(k[|prefix|..|k| - 6]) == Some(d)
  }

  const SetupPowerOnPrefix: string := "onboarding.stepSetupDevice.setup.bullets.0."
  const RecoveryPowerOnPrefix: string := "onboarding.stepRecoveryPhrase.importRecoveryPhrase.bullets.0."

  // The device setup flow

  /** The text key of the first power-on bullet of the setup flow, which names the device. */
  function SetupPowerOnKey(d: DeviceModel): (k: TextKey)
    ensures WrapsDeviceId(k, SetupPowerOnPrefix, d)
  {
    SetupPowerOnPrefix + DeviceModelId(d) + ".label"
  }

  /** `start`: what setting up takes; advancing goes through a warning modal. */
  const StartScene: Scene :=
    Scene(
      id := "start",
      kind := Primary,
      track := InSceneProps("Get started step 1"),
      visual := Still(GetStarted),
      title := Some("onboarding.stepSetupDevice.start.title"),
      bullets := [
        Bullet(icon := Some(Clock), caption := LabelKey("onboarding.stepSetupDevice.start.bullets.0.label")),
        Bullet(icon := Some(Edit), caption := LabelKey("onboarding.stepSetupDevice.start.bullets.1.label")),
        Bullet(icon := Some(Flower), caption := LabelKey("onboarding.stepSetupDevice.start.bullets.2.label"))
      ],
      cta := "onboarding.stepSetupDevice.start.cta",
      warning := Some(WarningModal(
        ArtIcon(Warning),
        "onboarding.stepSetupDevice.start.warning.title",
        "onboarding.stepSetupDevice.start.warning.desc",
        "onboarding.stepSetupDevice.start.warning.ctaText")))

  /** `setup`: powering the device on; the first bullet names the device model. */
  function SetupScene(d: DeviceModel, t: Theme): Scene
  {
    Scene(
      id := "setup",
      kind := Secondary,
      track := InSceneProps("Get started step 2"),
      visual := Lottie(LottieAnimation(d, PowerOn, t), LottieStyleOf(d)),
      bullets := [
        Bullet(
          title := Some("onboarding.stepSetupDevice.setup.bullets.0.title"),
          caption := LabelKey(SetupPowerOnKey(d))),
        Bullet(
          title := Some("onboarding.stepSetupDevice.setup.bullets.1.title"),
          caption := LabelKey("onboarding.stepSetupDevice.setup.bullets.1.label")),
        Bullet(
          title := Some("onboarding.stepSetupDevice.setup.bullets.2.title"),
          caption := LabelKey("onboarding.stepSetupDevice.setup.bullets.2.label")),
        Bullet(
          title := Some("onboarding.stepSetupDevice.setup.bullets.3.title"),
          caption := LabelKey("onboarding.stepSetupDevice.setup.bullets.3.label"))
      ],
      cta := "onboarding.stepSetupDevice.setup.cta")
  }

  /** `recoveryPhrase`: what the recovery phrase is; advancing needs the checkbox. */
  const RecoveryPhraseScene: Scene :=
    Scene(
      id := "recoveryPhrase",
      kind := Primary,
      track := InSceneProps("Recovery step 1"),
      visual := Still(RecoveryPhraseImage),
      title := Some("onboarding.stepSetupDevice.recoveryPhrase.title"),
      descs := [
        "onboarding.stepSetupDevice.recoveryPhrase.desc",
        "onboarding.stepSetupDevice.recoveryPhrase.desc_1"
      ],
      cta := "onboarding.stepSetupDevice.recoveryPhrase.cta",
      checkbox := Some("onboarding.stepSetupDevice.recoveryPhrase.checkboxDesc"),
      infoKey := Some("recoveryPhraseInfoModalProps"))

  /** `recoveryPhraseSetup`: a secondary scene that shows a static image, not an animation. */
  const RecoveryPhraseSetupScene: Scene :=
    Scene(
      id := "recoveryPhraseSetup",
      kind := Secondary,
      track := InSceneProps("Recovery step 2"),
      visual := Still(RecoverySheet),
      bullets := [
        Bullet(
          title := Some("onboarding.stepSetupDevice.recoveryPhraseSetup.bullets.0.title"),
          caption := LabelKey("onboarding.stepSetupDevice.recoveryPhraseSetup.bullets.0.label")),
        Bullet(
          title := Some("onboarding.stepSetupDevice.recoveryPhraseSetup.bullets.1.title"),
          caption := LabelKeys([
            "onboarding.stepSetupDevice.recoveryPhraseSetup.bullets.1.label",
            "onboarding.stepSetupDevice.recoveryPhraseSetup.bullets.1.label_1"
          ]))
      ],
      cta := "onboarding.stepSetupDevice.recoveryPhraseSetup.cta",
      infoKey := Some("recoveryPhraseInfoModalProps"))

  /** `recoveryPhraseSetup_1`: the animation of writing the words down. */
  function RecoveryPhraseSetup1Scene(d: DeviceModel, t: Theme): Scene
  {
    Scene(
      id := "recoveryPhraseSetup_1",
      kind := Secondary,
      track := InSceneProps("Recovery step 3"),
      visual := Lottie(LottieAnimation(d, Recover, t), LottieStyleOf(d)),
      bullets := [
        Bullet(
          index := Some(3),
          title := Some("onboarding.stepSetupDevice.recoveryPhraseSetup.bullets.2.title"),
          caption := LabelKey("onboarding.stepSetupDevice.recoveryPhraseSetup.bullets.2.label")),
        Bullet(
          index := Some(4),
          title := Some("onboarding.stepSetupDevice.recoveryPhraseSetup.bullets.3.title"),
          caption := LabelText(""))
      ],
      cta := "onboarding.stepSetupDevice.recoveryPhraseSetup.nextStep",
      infoKey := Some("recoveryPhraseInfoModalProps"))
  }

  /** `hideRecoveryPhrase`: keeping the phrase safe; advancing goes through a warning modal. */
  const HideRecoveryPhraseScene: Scene :=
    Scene(
      id := "hideRecoveryPhrase",
      kind := Primary,
      track := InSceneProps("Recovery step 4"),
      visual := Still(HideRecoveryPhraseImage),
      title := Some("onboarding.stepSetupDevice.hideRecoveryPhrase.title"),
      descs := ["onboarding.stepSetupDevice.hideRecoveryPhrase.desc"],
      bullets := [
        Bullet(
          icon := Some(Warning), color := Some(Alert),
          caption := LabelKey("onboarding.stepSetupDevice.hideRecoveryPhrase.bullets.0.label")),
        Bullet(
          icon := Some(EyeCrossed), color := Some(Alert),
          caption := LabelKey("onboarding.stepSetupDevice.hideRecoveryPhrase.bullets.1.label"))
      ],
      cta := "onboarding.stepSetupDevice.hideRecoveryPhrase.cta",
      warning := Some(WarningModal(
        ArtImage(OnboardingQuiz),
        "onboarding.stepSetupDevice.hideRecoveryPhrase.warning.title",
        "onboarding.stepSetupDevice.hideRecoveryPhrase.warning.desc",
        "onboarding.stepSetupDevice.hideRecoveryPhrase.warning.cta")),
      infoKey := Some("hideRecoveryPhraseInfoModalProps"))

  /** `getSetupDeviceScenes`: the new-device setup flow. */
  function SetupDeviceScenes(d: DeviceModel, t: Theme): (r: seq<Scene>)
    ensures Ids(r) == [
      "start", "setup", "pinCode", "pinCodeSetup",
      "recoveryPhrase", "recoveryPhraseSetup", "recoveryPhraseSetup_1", "hideRecoveryPhrase"]
    ensures r[2..4] == PinCodeScenes(d, t)
  {
    assert PinCodeScenes(d, t) == [PinCodeScene, PinCodeSetupScene(d, t)];
    [StartScene, SetupScene(d, t)]
    + PinCodeScenes(d, t)
    + [RecoveryPhraseScene, RecoveryPhraseSetupScene, RecoveryPhraseSetup1Scene(d, t), HideRecoveryPhraseScene]
  }

  // The recovery-phrase restore flow

  /** The text key of the first power-on bullet of the restore flow, which names the device. */
  function RecoveryPowerOnKey(d: DeviceModel): (k: TextKey)
    ensures WrapsDeviceId(k, RecoveryPowerOnPrefix, d)
  {
    RecoveryPowerOnPrefix + DeviceModelId(d) + ".label"
  }

  /** `importRecoveryPhrase`: restoring from a phrase; advancing goes through a warning modal. */
  const ImportRecoveryPhraseScene: Scene :=
    Scene(
      id := "importRecoveryPhrase",
      kind := Primary,
      track := InSceneProps("RecoveryPhrase step 1"),
      visual := Still(ImportRecoveryPhraseImage),
      title := Some("onboarding.stepRecoveryPhrase.importRecoveryPhrase.title"),
      descs := [
        "onboarding.stepRecoveryPhrase.importRecoveryPhrase.desc",
        "onboarding.stepRecoveryPhrase.importRecoveryPhrase.desc_1"
      ],
      cta := "onboarding.stepRecoveryPhrase.importRecoveryPhrase.cta",
      warning := Some(WarningModal(
        ArtIcon(Warning),
        "onboarding.stepRecoveryPhrase.importRecoveryPhrase.warning.title",
        "onboarding.stepRecoveryPhrase.importRecoveryPhrase.warning.desc",
        "onboarding.stepRecoveryPhrase.importRecoveryPhrase.warning.cta")))

  /** `importRecoveryPhrase_1`: powering the device on for recovery; the first bullet names the device model. */
  function ImportRecoveryPhrase1Scene(d: DeviceModel, t: Theme): Scene
  {
    Scene(
      id := "importRecoveryPhrase_1",
      kind := Secondary,
      track := InSceneProps("RecoveryPhrase step 2"),
      visual := Lottie(LottieAnimation(d, PowerOnRecovery, t), LottieStyleOf(d)),
      bullets := [
        Bullet(
          title := Some("onboarding.stepRecoveryPhrase.importRecoveryPhrase.bullets.0.title"),
          caption := LabelKey(RecoveryPowerOnKey(d))),
        Bullet(
          title := Some("onboarding.stepRecoveryPhrase.importRecoveryPhrase.bullets.1.title"),
          caption := LabelKey("onboarding.stepRecoveryPhrase.importRecoveryPhrase.bullets.1.label")),
        Bullet(
          title := Some("onboarding.stepRecoveryPhrase.importRecoveryPhrase.bullets.2.title"),
          caption := LabelKey("onboarding.stepRecoveryPhrase.importRecoveryPhrase.bullets.2.label")),
        Bullet(
          title := Some("onboarding.stepRecoveryPhrase.importRecoveryPhrase.bullets.3.title"),
          caption := LabelKey("onboarding.stepRecoveryPhrase.importRecoveryPhrase.bullets.3.label"))
      ],
      cta := "onboarding.stepRecoveryPhrase.importRecoveryPhrase.nextStep")
  }

  /** `existingRecoveryPhrase`: entering an existing phrase; advancing needs the checkbox. */
  const ExistingRecoveryPhraseScene: Scene :=
    Scene(
      id := "existingRecoveryPhrase",
      kind := Primary,
      track := InSceneProps("RecoveryPhrase step 3"),
      visual := Still(ImportRecoveryPhraseImage),
      title := Some("onboarding.stepRecoveryPhrase.existingRecoveryPhrase.title"),
      descs := [
        "onboarding.stepRecoveryPhrase.existingRecoveryPhrase.paragraph1",
        "onboarding.stepRecoveryPhrase.existingRecoveryPhrase.paragraph2"
      ],
      cta := "onboarding.stepRecoveryPhrase.existingRecoveryPhrase.nextStep",
      checkbox := Some("onboarding.stepRecoveryPhrase.existingRecoveryPhrase.checkboxDesc"),
      infoKey := Some("recoveryPhraseInfoModalProps"))

  /** `existingRecoveryPhrase_1`: the animation of choosing the number of words. */
  function ExistingRecoveryPhrase1Scene(d: DeviceModel, t: Theme): Scene
  {
    Scene(
      id := "existingRecoveryPhrase_1",
      kind := Secondary,
      track := InSceneProps("RecoveryPhrase step 4"),
      visual := Lottie(LottieAnimation(d, NumberOfWords, t), LottieStyleOf(d)),
      bullets := [
        Bullet(title := Some("onboarding.stepRecoveryPhrase.existingRecoveryPhrase.bullets.0.title")),
        Bullet(
          title := Some("onboarding.stepRecoveryPhrase.existingRecoveryPhrase.bullets.1.title"),
          caption := LabelKey("onboarding.stepRecoveryPhrase.existingRecoveryPhrase.bullets.1.label"))
      ],
      cta := "onboarding.stepRecoveryPhrase.existingRecoveryPhrase.nextStep",
      infoKey := Some("recoveryPhraseInfoModalProps"))
  }

  /** `existingRecoveryPhrase_2`: the animation of confirming the words; its analytics label sits outside `sceneProps`. */
  function ExistingRecoveryPhrase2Scene(d: DeviceModel, t: Theme): Scene
  {
    Scene(
      id := "existingRecoveryPhrase_2",
      kind := Secondary,
      track := AtTopLevel("RecoveryPhrase step 5"),
      visual := Lottie(LottieAnimation(d, ConfirmWords, t), LottieStyleOf(d)),
      bullets := [
        Bullet(
          index := Some(3),
          title := Some("onboarding.stepRecoveryPhrase.existingRecoveryPhrase.bullets.2.title"),
          caption := LabelKey("onboarding.stepRecoveryPhrase.existingRecoveryPhrase.bullets.2.label")),
        Bullet(
          index := Some(4),
          title := Some("onboarding.stepRecoveryPhrase.existingRecoveryPhrase.bullets.3.title"),
          caption := LabelKey("onboarding.stepRecoveryPhrase.existingRecoveryPhrase.bullets.3.label")),
        Bullet(
          index := Some(5),
          title := Some("onboarding.stepRecoveryPhrase.existingRecoveryPhrase.bullets.4.title"))
      ],
      cta := "onboarding.stepRecoveryPhrase.existingRecoveryPhrase.nextStep",
      infoKey := Some("recoveryPhraseInfoModalProps"))
  }

  /** `getRecoveryPhraseScenes`: the restore-from-recovery-phrase flow. */
  function RecoveryPhraseScenes(d: DeviceModel, t: Theme): (r: seq<Scene>)
    ensures Ids(r) == [
      "importRecoveryPhrase", "importRecoveryPhrase_1", "pinCode", "pinCodeSetup",
      "existingRecoveryPhrase", "existingRecoveryPhrase_1", "existingRecoveryPhrase_2"]
    ensures r[2..4] == PinCodeScenes(d, t)
  {
    assert PinCodeScenes(d, t) == [PinCodeScene, PinCodeSetupScene(d, t)];
    [ImportRecoveryPhraseScene, ImportRecoveryPhrase1Scene(d, t)]
    + PinCodeScenes(d, t)
    + [ExistingRecoveryPhraseScene, ExistingRecoveryPhrase1Scene(d, t), ExistingRecoveryPhrase2Scene(d, t)]
  }

  // The accounts-import flow

  /** The one scene of the accounts-import flow (its id repeats the restore flow's first id). */
  const ImportAccountsScene: Scene :=
    Scene(
      id := "importRecoveryPhrase",
      kind := Primary,
      track := InSceneProps("Import accounts step 1"),
      visual := Still(SyncCryptos),
      title := Some("onboarding.stepImportAccounts.title"),
      descs := ["onboarding.stepImportAccounts.desc"],
      bullets := [
        Bullet(icon := Some(Clock), caption := LabelKey("onboarding.stepImportAccounts.bullets.0.label")),
        Bullet(icon := Some(Clock), caption := LabelKey("onboarding.stepImportAccounts.bullets.1.label")),
        Bullet(icon := Some(Check), caption := LabelKey("onboarding.stepImportAccounts.bullets.2.label"))
      ],
      cta := "onboarding.stepImportAccounts.cta",
      warning := Some(WarningModal(
        ArtIcon(Warning),
        "onboarding.stepImportAccounts.warning.title",
        "onboarding.stepImportAccounts.warning.desc",
        "onboarding.stepImportAccounts.warning.cta")))

  /** `importAccountsScenes`: the accounts-import flow, the same for every device and theme. */
  function ImportAccountsScenes(): (r: seq<Scene>)
    ensures |r| == 1 && r[0].id == "importRecoveryPhrase"
    ensures r[0].kind == Primary && r[0].visual.Still? && |r[0].bullets| == 3
    ensures r[0].warning.Some? && r[0].checkbox.None? && r[0].infoKey.None?
  {
    [ImportAccountsScene]
  }

  /** `getSetupDeviceScenes` called with a raw device id string: None where the
      source's lookup `lottieAnimations[id].powerOn` would throw. */
  function SetupDeviceScenesById(deviceModelId: string, t: Theme): (r: Option<seq<Scene>>)
    ensures r.None? <==> deviceModelId !in {"nanoS", "nanoSP", "nanoX", "blue"}
    ensures r.Some? ==> r.value == SetupDeviceScenes(DeviceModelFromId(deviceModelId).value, t)
  {
    match DeviceModelFromId(deviceModelId)
    case None => None
    case Some(d) => Some(SetupDeviceScenes(d, t))
  }

  /** `getRecoveryPhraseScenes` called with a raw device id string: None where
      the source's lookup `lottieAnimations[id].powerOnRecovery` would throw. */
  function RecoveryPhraseScenesById(deviceModelId: string, t: Theme): (r: Option<seq<Scene>>)
    ensures r.None? <==> deviceModelId !in {"nanoS", "nanoSP", "nanoX", "blue"}
    ensures r.Some? ==> r.value == RecoveryPhraseScenes(DeviceModelFromId(deviceModelId).value, t)
  {
    match DeviceModelFromId(deviceModelId)
    case None => None
    case Some(d) => Some(RecoveryPhraseScenes(d, t))
  }
}
