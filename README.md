# Onboarding scene catalogs, modelled in Dafny

This project models the scene catalogs of the Ledger Live mobile onboarding
wizard, defined in `src/screens/Onboarding/shared/infoPagesData.js`. An
onboarding flow is an ordered list of *scenes*. Each scene has an id, a kind
(primary or secondary), a static image or a Lottie animation, text keys,
bullets, a call to action that may be gated by a checkbox or a warning modal,
and an optional key into the table of info modals. The file builds:

- the variant asset table `lottieAnimations`: the animation for each device
  model, animation kind and theme, and one render style per device model;
- the PIN-code pair `pinCodeScenes`, which both the setup flow and the
  restore flow splice in;
- the eight-scene new-device setup flow `getSetupDeviceScenes`;
- the seven-scene recovery-phrase restore flow `getRecoveryPhraseScenes`;
- the constant one-scene accounts-import flow `importAccountsScenes`;
- the info-modal table `infoModalScenes`. Its pairing-error entry grows from
  three panels to seven on Android.

Every builder is a pure function of its arguments, so the model is made of
datatypes, functions and lemmas. There are no classes and no loops.

Files:

- `optional.dfy` (`Optional`): the `Option` type.
- `lottie_assets.dfy` (`LottieAssets`): device models, themes, animation
  kinds, the asset table and the per-device style, with their lemmas.
- `scenes.dfy` (`Scenes`): the scene and bullet records, and projections of a
  catalog (ids, kinds, info keys, bullet index hints).
- `info_modals.dfy` (`InfoModals`): info-modal panels, the platform, the five
  modals and `infoModalScenes`, with their lemmas.
- `catalogs.dfy` (`Catalogs`): the scenes and the four builders. Each scene is
  named after its id. It also has the builders called with a raw device-id
  string.
- `catalog_properties.dfy` (`CatalogProperties`): lemmas about the catalogs
  as a whole.

Modelling choices:

- **Device model.** It is a closed enumeration of the table's four keys, so
  the lookup is total. The source takes a string, and a string outside the
  four keys throws on the property access (for example at line 459).
  `SetupDeviceScenesById` and `RecoveryPhraseScenesById` model that call and
  return `None` where the source throws.
- **Platform.** `Platform(os)` is an explicit parameter. The source reads the
  global `Platform.OS` instead.
- **Gates.** `ctaWarningCheckbox` and `ctaWarningModal` are two independent
  optional fields, as in the source's object literals. That lets "at most one
  gate per scene" be a proved fact rather than a fact of the type.
- **`sceneInfoKey`.** It stays a string. That a scene's key always exists in
  `infoModalScenes` is proved, not built in.
- **Analytics label.** Where `trackPage` sits is recorded: `existingRecoveryPhrase_2`
  carries it on the scene object rather than inside `sceneProps`.
- **Bullet `index` hints** (3, 4, 5) are kept as the literal values.
- **Empty label.** The literal empty label `""` at line 660 is kept as literal
  text, distinct from a text key.
- **Named scenes.** Each scene is a named constant (or a function of device
  and theme when it shows an animation). The catalog builders concatenate
  them, splicing `PinCodeScenes(d, t)` where the source spreads
  `...pinCodeScenes(deviceModelId, theme)`.

One might expect secondary scenes to be animated and primary scenes to show
an image. The code does not always do so, and the model follows the code.
`recoveryPhraseSetup` (lines 609-639) is a secondary scene that shows the static recovery-sheet image, and
`SecondarySceneWithImage` states this. The rule for primary scenes does hold,
and `PrimaryScenesShowImages` proves it. The accounts-import scene reuses the
id `importRecoveryPhrase` of the restore flow's first scene (lines 751 and
935). Ids are therefore unique within each catalog but not across catalogs.

## Model

| member | source | states |
|---|---|---|
| LottieAssets.DeviceModelId | src/screens/Onboarding/shared/infoPagesData.js:64-173 | the table key of each device model maps back to that model |
| LottieAssets.DeviceModelFromId | src/screens/Onboarding/shared/infoPagesData.js:64-173 | a device id string is found in the table exactly when it is one of "nanoS", "nanoSP", "nanoX", "blue" |
| LottieAssets.DeviceModelIdRoundTrip | src/screens/Onboarding/shared/infoPagesData.js:64-173 | looking an id up yields d exactly when the id is d's key (both directions) |
| LottieAssets.FileFor | src/screens/Onboarding/shared/infoPagesData.js:14-42 | a device's animation comes from the themeless data.json exactly when the device is not the nanoSP; the nanoSP takes light.json exactly under the light theme and dark.json exactly under the dark theme |
| LottieAssets.LottieAnimation | src/screens/Onboarding/shared/infoPagesData.js:64-173 | the lookup is absent exactly for blue; a present animation's file is in the device's own folder, under the requested kind, and is the file `FileFor` picks for that device and theme |
| LottieAssets.BlueHasNoAnimations | src/screens/Onboarding/shared/infoPagesData.js:146-172 | every kind under every theme is absent for blue |
| LottieAssets.ThemeMattersOnlyForNanoSP | src/screens/Onboarding/shared/infoPagesData.js:64-145 | light and dark give the same animation exactly when the device is not the nanoSP |
| LottieAssets.AnimationsDistinct | src/screens/Onboarding/shared/infoPagesData.js:14-42 | two table entries share an animation file only if they have the same device and kind, and on the nanoSP also the same theme |
| LottieAssets.LottieStyleOf | src/screens/Onboarding/shared/infoPagesData.js:90-171 | the style has keys width and left for the nanoX and none for the other devices |
| LottieAssets.OnlyNanoXIsStyled | src/screens/Onboarding/shared/infoPagesData.js:144 | the style is non-empty exactly for the nanoX, where it is width 110% and left 5% |
| LottieAssets.TableByStringKey | src/screens/Onboarding/shared/infoPagesData.js:64-172 | read by its string keys, `"nanoX"` selects the 110%/5% style, `"nanoSP"` differs between light and dark, every `"blue"` entry is absent, and `"nanoS"` is unstyled and neither the nanoSP nor blue |
| InfoModals.PairNewErrorInfoModalProps | src/screens/Onboarding/shared/infoPagesData.js:361-428 | the pairing-error modal has 7 panels on Android and 3 on any other platform |
| InfoModals.PairNewErrorCommonPanels | src/screens/Onboarding/shared/infoPagesData.js:362-371 | the first three panels are identical on every pair of platforms |
| InfoModals.PairNewErrorAndroidExtends | src/screens/Onboarding/shared/infoPagesData.js:372-427 | off Android the modal equals the first three panels of the Android modal |
| InfoModals.PairNewErrorBullets | src/screens/Onboarding/shared/infoPagesData.js:382-412 | on Android the fifth panel has exactly 4 bullets, and no other panel on any platform has bullets |
| InfoModals.InfoModalScenes | src/screens/Onboarding/shared/infoPagesData.js:430-436 | the table's keys are exactly the five modal names, and each key holds the modal of the same name: the four fixed modals, and the platform's pairing-error modal |
| InfoModals.InfoModalScenesPlatformIndependent | src/screens/Onboarding/shared/infoPagesData.js:430-436 | every entry other than the pairing-error one is the same on every platform |
| InfoModals.InfoModalShapes | src/screens/Onboarding/shared/infoPagesData.js:175-359 | panel counts 1, 1, 3, 1 of the four fixed modals, 8 bullets in the PIN-code modal and 5 in the hide-phrase modal |
| InfoModals.RecoveryWarningInfoModalProps | src/screens/Onboarding/shared/infoPagesData.js:175-186 | one panel with the orange warning icon, no bullets, linking to the support page |
| InfoModals.PinCodeInfoModalProps | src/screens/Onboarding/shared/infoPagesData.js:188-252 | one panel of eight bullets without a link: the first five success/check, the last three alert/close |
| InfoModals.RecoveryPhraseInfoModalProps | src/screens/Onboarding/shared/infoPagesData.js:254-299 | three panels: the second links to the recovery-phrase article, only the third has bullets, three arrow bullets |
| InfoModals.HideRecoveryPhraseInfoModalProps | src/screens/Onboarding/shared/infoPagesData.js:301-359 | one panel of five arrow bullets without a link |
| Catalogs.PinCodeScenes | src/screens/Onboarding/shared/infoPagesData.js:438-492 | two scenes, pinCode then pinCodeSetup: a primary still scene with a checkbox and no warning, then a secondary scene with neither gate that shows lottieAnimations[d].pinCode[t] in d's style and has two bullets; both open the PIN-code info modal |
| Catalogs.SetupDeviceScenes | src/screens/Onboarding/shared/infoPagesData.js:494-717 | the ids are start, setup, pinCode, pinCodeSetup, recoveryPhrase, recoveryPhraseSetup, recoveryPhraseSetup_1, hideRecoveryPhrase, and positions 2..3 are exactly PinCodeScenes(d, t) |
| Catalogs.SetupPowerOnKey | src/screens/Onboarding/shared/infoPagesData.js:549-551 | the setup flow's power-on key is the `onboarding.stepSetupDevice.setup.bullets.0.` prefix, a device id and `.label`, and that id decodes back to the device |
| Catalogs.RecoveryPhraseScenes | src/screens/Onboarding/shared/infoPagesData.js:719-893 | the ids are importRecoveryPhrase, importRecoveryPhrase_1, pinCode, pinCodeSetup, existingRecoveryPhrase, existingRecoveryPhrase_1, existingRecoveryPhrase_2, and positions 2..3 are exactly PinCodeScenes(d, t) |
| Catalogs.RecoveryPowerOnKey | src/screens/Onboarding/shared/infoPagesData.js:764-766 | the restore flow's power-on key is the `onboarding.stepRecoveryPhrase.importRecoveryPhrase.bullets.0.` prefix, a device id and `.label`, and that id decodes back to the device |
| Catalogs.SetupDeviceScenesById | src/screens/Onboarding/shared/infoPagesData.js:538-542 | the call by id string fails exactly for ids outside the four table keys, and otherwise builds that device's setup catalog |
| Catalogs.RecoveryPhraseScenesById | src/screens/Onboarding/shared/infoPagesData.js:753-757 | the call by id string fails exactly for ids outside the four table keys, and otherwise builds that device's restore catalog |
| CatalogProperties.PinPairSharedByFlows | src/screens/Onboarding/shared/infoPagesData.js:584-801 | the PIN pair in the setup flow equals the one in the restore flow and the one pinCodeScenes builds |
| CatalogProperties.CatalogKinds | src/screens/Onboarding/shared/infoPagesData.js:494-937 | the kind sequence of each flow is P,S,P,S,P,S,S,P for setup, P,S,P,S,P,S,S for restore, and P for accounts import |
| CatalogProperties.IdsDistinct | src/screens/Onboarding/shared/infoPagesData.js:494-937 | scene ids are pairwise distinct within each of the three catalogs |
| CatalogProperties.ImportAccountsReusesRestoreId | src/screens/Onboarding/shared/infoPagesData.js:935 | the accounts-import scene has the id importRecoveryPhrase of the restore flow's first scene, yet is a different scene |
| CatalogProperties.PrimaryScenesShowImages | src/screens/Onboarding/shared/infoPagesData.js:494-937 | every primary scene of every catalog shows a static image |
| CatalogProperties.SecondarySceneWithImage | src/screens/Onboarding/shared/infoPagesData.js:609-639 | recoveryPhraseSetup is secondary yet shows the static recovery-sheet image |
| CatalogProperties.SetupAnimations | src/screens/Onboarding/shared/infoPagesData.js:494-717 | setup scenes 1, 3, 6 show the powerOn, pinCode and recover animations for (d, t) in d's style; all other setup scenes are still |
| CatalogProperties.RecoveryAnimations | src/screens/Onboarding/shared/infoPagesData.js:719-893 | restore scenes 1, 3, 5, 6 show the powerOnRecovery, pinCode, numberOfWords and confirmWords animations for (d, t); all other restore scenes are still |
| CatalogProperties.AnimatedScenesFollowDevice | src/screens/Onboarding/shared/infoPagesData.js:438-893 | every animated scene uses d's style, and its animation is absent exactly when d is blue |
| CatalogProperties.ThemeChangesCatalogOnlyForNanoSP | src/screens/Onboarding/shared/infoPagesData.js:92-118 | each of the two device-dependent catalogs is the same under both themes exactly when the device is not the nanoSP |
| CatalogProperties.SetupStillScenesAreConstant | src/screens/Onboarding/shared/infoPagesData.js:494-717 | every still scene of the setup flow is the same for all devices and themes |
| CatalogProperties.RecoveryStillScenesAreConstant | src/screens/Onboarding/shared/infoPagesData.js:719-893 | every still scene of the restore flow is the same for all devices and themes |
| CatalogProperties.SetupGates | src/screens/Onboarding/shared/infoPagesData.js:494-717 | no setup scene has two gates; a warning modal sits exactly on start and hideRecoveryPhrase, a checkbox exactly on pinCode and recoveryPhrase |
| CatalogProperties.RecoveryGates | src/screens/Onboarding/shared/infoPagesData.js:719-893 | no restore scene has two gates; a warning modal sits exactly on importRecoveryPhrase, a checkbox exactly on pinCode and existingRecoveryPhrase |
| Catalogs.ImportAccountsScenes | src/screens/Onboarding/shared/infoPagesData.js:895-937 | the accounts-import flow is one primary still scene with id importRecoveryPhrase and three bullets, behind a warning modal, with no checkbox and no info modal |
| CatalogProperties.CatalogInfoKeys | src/screens/Onboarding/shared/infoPagesData.js:452-889 | the sceneInfoKey of every scene, in order, for all three catalogs |
| CatalogProperties.SceneInfoKeysResolve | src/screens/Onboarding/shared/infoPagesData.js:430-436 | every sceneInfoKey used in any catalog is a key of infoModalScenes on every platform |
| CatalogProperties.TrackPagePlacement | src/screens/Onboarding/shared/infoPagesData.js:438-937 | every scene carries trackPage inside sceneProps except existingRecoveryPhrase_2, which carries it at the top level |
| CatalogProperties.SetupBulletIndexHints | src/screens/Onboarding/shared/infoPagesData.js:645-661 | only recoveryPhraseSetup_1's bullets have index hints in the setup flow, and they are 3 and 4 |
| CatalogProperties.RecoveryBulletIndexHints | src/screens/Onboarding/shared/infoPagesData.js:859-884 | only existingRecoveryPhrase_2's bullets have index hints in the restore flow, and they are 3, 4 and 5 |
| CatalogProperties.DeviceBulletKeys | src/screens/Onboarding/shared/infoPagesData.js:549-766 | the first power-on bullet of each flow is labelled by the text key that embeds the device id |
| CatalogProperties.DeviceBulletKeysDistinguishDevices | src/screens/Onboarding/shared/infoPagesData.js:549-766 | two devices get the same device-naming text key exactly when they are the same device (both flows) |
| CatalogProperties.ByIdAgreesWithModel | src/screens/Onboarding/shared/infoPagesData.js:494-893 | calling a builder with a device model's own id string builds that model's catalog |

## Left out

- The stepper engine that walks a catalog is not part of this model. That
  means advancing, retreating, enforcing gates, toggling modals and signalling
  completion. It lives in `OnboardingStepperView`, whose source is not part of
  this model. The model records only which scenes carry which gates.
- The flow selector that picks a catalog lives outside `infoPagesData.js` and
  is not modelled.
- Rendered elements are kept as their text key alone. This covers `Trans`
  elements, their `LText` and icon children, and the styling passed to them.
  There is no formatting logic in the builders.
- Images, PNG files and Lottie JSON files are opaque names. The `urls`
  configuration entries are opaque names too. Style percentages are opaque
  strings, not layout arithmetic.
- The theme is a closed enumeration of `light` and `dark`, as the source's
  type annotation declares. For another theme string the source would yield
  `undefined` animations rather than throw. That case is not modelled.
- Other files in the repository are not part of this model: the device
  selection screen, the portfolio screen, the crypto selection screen for
  adding accounts, the settings screen and the end-to-end test helpers. They
  are UI composition, depend on the currency lists and market-cap sorting of
  an external library, or are asynchronous test plumbing.
