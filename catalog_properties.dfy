/**
 * What the onboarding catalogs promise as a whole: the shared PIN pair, the
 * order and kinds of the scenes, which scenes carry gates and info modals,
 * how the device model and theme reach the content, and the scene graph's
 * closedness under the info-modal table.
 */
module CatalogProperties {

  import opened Optional
  import opened LottieAssets
  import opened Scenes
  import opened InfoModals
  import opened Catalogs

  /** The setup catalog scene by scene. */
  lemma SetupDeviceScenesUnfold(d: DeviceModel, t: Theme)
    ensures var c := SetupDeviceScenes(d, t);
      |c| == 8 && c[0] == StartScene && c[1] == SetupScene(d, t) && c[2] == PinCodeScene &&
      c[3] == PinCodeSetupScene(d, t) && c[4] == RecoveryPhraseScene && c[5] == RecoveryPhraseSetupScene &&
      c[6] == RecoveryPhraseSetup1Scene(d, t) && c[7] == HideRecoveryPhraseScene
  {
  }

  /** The restore catalog scene by scene. */
  lemma RecoveryPhraseScenesUnfold(d: DeviceModel, t: Theme)
    ensures var c := RecoveryPhraseScenes(d, t);
      |c| == 7 && c[0] == ImportRecoveryPhraseScene && c[1] == ImportRecoveryPhrase1Scene(d, t) &&
      c[2] == PinCodeScene && c[3] == PinCodeSetupScene(d, t) && c[4] == ExistingRecoveryPhraseScene &&
      c[5] == ExistingRecoveryPhrase1Scene(d, t) && c[6] == ExistingRecoveryPhrase2Scene(d, t)
  {
  }

  /** The PIN pair is the same whichever flow includes it. */
  lemma PinPairSharedByFlows(d: DeviceModel, t: Theme)
    ensures SetupDeviceScenes(d, t)[2..4] == RecoveryPhraseScenes(d, t)[2..4] == PinCodeScenes(d, t)
  {
  }

  /** Per-flow part of `CatalogKinds`, split off to keep each proof small. */
  lemma SetupKinds(d: DeviceModel, t: Theme)
    ensures Kinds(SetupDeviceScenes(d, t)) ==
      [Primary, Secondary, Primary, Secondary, Primary, Secondary, Secondary, Primary]
  {
    SetupDeviceScenesUnfold(d, t);
  }

  /** Per-flow part of `CatalogKinds`, split off to keep each proof small. */
  lemma RecoveryKinds(d: DeviceModel, t: Theme)
    ensures Kinds(RecoveryPhraseScenes(d, t)) ==
      [Primary, Secondary, Primary, Secondary, Primary, Secondary, Secondary]
  {
    RecoveryPhraseScenesUnfold(d, t);
  }

  /** The kinds of the scenes of each flow, in order. */
  lemma CatalogKinds(d: DeviceModel, t: Theme)
    ensures Kinds(SetupDeviceScenes(d, t)) ==
      [Primary, Secondary, Primary, Secondary, Primary, Secondary, Secondary, Primary]
    ensures Kinds(RecoveryPhraseScenes(d, t)) ==
      [Primary, Secondary, Primary, Secondary, Primary, Secondary, Secondary]
    ensures Kinds(ImportAccountsScenes()) == [Primary]
  {
    var imports := ImportAccountsScenes();
    assert Kinds(imports) == [imports[0].kind] + Kinds(imports[1..]);
    SetupKinds(d, t);
    RecoveryKinds(d, t);
  }

  /** The setup ids as literals are pairwise distinct; this keeps `IdsDistinct` small. */
  lemma SetupIdsLiteralDistinct()
    ensures Distinct([
      "start", "setup", "pinCode", "pinCodeSetup",
      "recoveryPhrase", "recoveryPhraseSetup", "recoveryPhraseSetup_1", "hideRecoveryPhrase"])
  {
  }

  /** The restore ids as literals are pairwise distinct; this keeps `IdsDistinct` small. */
  lemma RecoveryIdsLiteralDistinct()
    ensures Distinct([
      "importRecoveryPhrase", "importRecoveryPhrase_1", "pinCode", "pinCodeSetup",
      "existingRecoveryPhrase", "existingRecoveryPhrase_1", "existingRecoveryPhrase_2"])
  {
  }

  /** Scene ids are pairwise distinct within each catalog. */
  lemma IdsDistinct(d: DeviceModel, t: Theme)
    ensures Distinct(Ids(SetupDeviceScenes(d, t)))
    ensures Distinct(Ids(RecoveryPhraseScenes(d, t)))
    ensures Distinct(Ids(ImportAccountsScenes()))
  {
    SetupIdsLiteralDistinct();
    RecoveryIdsLiteralDistinct();
  }

  /** The accounts-import scene reuses the id of the restore flow's first scene,
      so ids are unique per catalog, not across catalogs. */
  lemma ImportAccountsReusesRestoreId(d: DeviceModel, t: Theme)
    ensures ImportAccountsScenes()[0].id == RecoveryPhraseScenes(d, t)[0].id == "importRecoveryPhrase"
    ensures ImportAccountsScenes()[0] != RecoveryPhraseScenes(d, t)[0]
  {
  }

  // Visuals: primary scenes show images, animations come from the asset table

  /** Every primary scene of every catalog shows a static image. */
  lemma PrimaryScenesShowImages(d: DeviceModel, t: Theme)
    ensures forall i :: 0 <= i < |SetupDeviceScenes(d, t)| && SetupDeviceScenes(d, t)[i].kind == Primary ==>
      SetupDeviceScenes(d, t)[i].visual.Still?
    ensures forall i :: 0 <= i < |RecoveryPhraseScenes(d, t)| && RecoveryPhraseScenes(d, t)[i].kind == Primary ==>
      RecoveryPhraseScenes(d, t)[i].visual.Still?
    ensures ImportAccountsScenes()[0].kind == Primary && ImportAccountsScenes()[0].visual.Still?
  {
    var c := SetupDeviceScenes(d, t);
    SetupDeviceScenesUnfold(d, t);
    forall i | 0 <= i < |c| && c[i].kind == Primary
      ensures c[i].visual.Still?
    {
      assert i == 0 || i == 1 || i == 2 || i == 3 || i == 4 || i == 5 || i == 6 || i == 7;
    }
    var r := RecoveryPhraseScenes(d, t);
    RecoveryPhraseScenesUnfold(d, t);
    forall i | 0 <= i < |r| && r[i].kind == Primary
      ensures r[i].visual.Still?
    {
      assert i == 0 || i == 1 || i == 2 || i == 3 || i == 4 || i == 5 || i == 6;
    }
  }

  /** "Secondary scenes are animated" does not hold: `recoveryPhraseSetup` is a
      secondary scene with the static recovery-sheet image. */
  lemma SecondarySceneWithImage(d: DeviceModel, t: Theme)
    ensures SetupDeviceScenes(d, t)[5].id == "recoveryPhraseSetup"
    ensures SetupDeviceScenes(d, t)[5].kind == Secondary
    ensures SetupDeviceScenes(d, t)[5].visual == Still(RecoverySheet)
  {
    SetupDeviceScenesUnfold(d, t);
  }

  /** The animated scenes of the setup flow and the table entries they show;
      every other scene is still. */
  lemma SetupAnimations(d: DeviceModel, t: Theme)
    ensures SetupDeviceScenes(d, t)[1].visual == Lottie(LottieAnimation(d, PowerOn, t), LottieStyleOf(d))
    ensures SetupDeviceScenes(d, t)[3].visual == Lottie(LottieAnimation(d, PinCode, t), LottieStyleOf(d))
    ensures SetupDeviceScenes(d, t)[6].visual == Lottie(LottieAnimation(d, Recover, t), LottieStyleOf(d))
    ensures forall i :: 0 <= i < 8 && i !in {1, 3, 6} ==> SetupDeviceScenes(d, t)[i].visual.Still?
  {
    SetupDeviceScenesUnfold(d, t);
    var c := SetupDeviceScenes(d, t);
    forall i | 0 <= i < 8 && i !in {1, 3, 6}
      ensures c[i].visual.Still?
    {
      assert i == 0 || i == 2 || i == 4 || i == 5 || i == 7;
    }
  }

  /** The animated scenes of the restore flow and the table entries they show;
      every other scene is still. */
  lemma RecoveryAnimations(d: DeviceModel, t: Theme)
    ensures RecoveryPhraseScenes(d, t)[1].visual == Lottie(LottieAnimation(d, PowerOnRecovery, t), LottieStyleOf(d))
    ensures RecoveryPhraseScenes(d, t)[3].visual == Lottie(LottieAnimation(d, PinCode, t), LottieStyleOf(d))
    ensures RecoveryPhraseScenes(d, t)[5].visual == Lottie(LottieAnimation(d, NumberOfWords, t), LottieStyleOf(d))
    ensures RecoveryPhraseScenes(d, t)[6].visual == Lottie(LottieAnimation(d, ConfirmWords, t), LottieStyleOf(d))
    ensures forall i :: 0 <= i < 7 && i !in {1, 3, 5, 6} ==> RecoveryPhraseScenes(d, t)[i].visual.Still?
  {
    RecoveryPhraseScenesUnfold(d, t);
    var c := RecoveryPhraseScenes(d, t);
    forall i | 0 <= i < 7 && i !in {1, 3, 5, 6}
      ensures c[i].visual.Still?
    {
      assert i == 0 || i == 2 || i == 4;
    }
  }

  /** Every animated scene shows the device's style, and its animation is
      absent exactly when the device is the legacy `blue`. */
  lemma AnimatedScenesFollowDevice(d: DeviceModel, t: Theme)
    ensures forall i :: 0 <= i < |SetupDeviceScenes(d, t)| && SetupDeviceScenes(d, t)[i].visual.Lottie? ==>
      SetupDeviceScenes(d, t)[i].visual.style == LottieStyleOf(d) &&
      (SetupDeviceScenes(d, t)[i].visual.animation.None? <==> d == Blue)
    ensures forall i :: 0 <= i < |RecoveryPhraseScenes(d, t)| && RecoveryPhraseScenes(d, t)[i].visual.Lottie? ==>
      RecoveryPhraseScenes(d, t)[i].visual.style == LottieStyleOf(d) &&
      (RecoveryPhraseScenes(d, t)[i].visual.animation.None? <==> d == Blue)
  {
    SetupAnimatedScenesFollowDevice(d, t);
    RecoveryAnimatedScenesFollowDevice(d, t);
  }

  /** Per-flow part of `AnimatedScenesFollowDevice`, split off to keep each proof small. */
  lemma SetupAnimatedScenesFollowDevice(d: DeviceModel, t: Theme)
    ensures forall i :: 0 <= i < |SetupDeviceScenes(d, t)| && SetupDeviceScenes(d, t)[i].visual.Lottie? ==>
      SetupDeviceScenes(d, t)[i].visual.style == LottieStyleOf(d) &&
      (SetupDeviceScenes(d, t)[i].visual.animation.None? <==> d == Blue)
  {
    var c := SetupDeviceScenes(d, t);
    SetupAnimations(d, t);
    forall i | 0 <= i < |c| && c[i].visual.Lottie?
      ensures c[i].visual.style == LottieStyleOf(d) && (c[i].visual.animation.None? <==> d == Blue)
    {
      assert i == 1 || i == 3 || i == 6;
    }
  }

  /** Per-flow part of `AnimatedScenesFollowDevice`, split off to keep each proof small. */
  lemma RecoveryAnimatedScenesFollowDevice(d: DeviceModel, t: Theme)
    ensures forall i :: 0 <= i < |RecoveryPhraseScenes(d, t)| && RecoveryPhraseScenes(d, t)[i].visual.Lottie? ==>
      RecoveryPhraseScenes(d, t)[i].visual.style == LottieStyleOf(d) &&
      (RecoveryPhraseScenes(d, t)[i].visual.animation.None? <==> d == Blue)
  {
    var r := RecoveryPhraseScenes(d, t);
    RecoveryAnimations(d, t);
    forall i | 0 <= i < |r| && r[i].visual.Lottie?
      ensures r[i].visual.style == LottieStyleOf(d) && (r[i].visual.animation.None? <==> d == Blue)
    {
      assert i == 1 || i == 3 || i == 5 || i == 6;
    }
  }

  // How the device model and the theme reach the content

  /** The theme changes a catalog exactly when the device is the nanoSP. */
  lemma ThemeChangesCatalogOnlyForNanoSP(d: DeviceModel)
    ensures SetupDeviceScenes(d, Light) == SetupDeviceScenes(d, Dark) <==> d != NanoSP
    ensures RecoveryPhraseScenes(d, Light) == RecoveryPhraseScenes(d, Dark) <==> d != NanoSP
  {
    if d == NanoSP {
      SetupAnimations(d, Light);
      SetupAnimations(d, Dark);
      assert SetupDeviceScenes(d, Light)[1] != SetupDeviceScenes(d, Dark)[1];
      RecoveryAnimations(d, Light);
      RecoveryAnimations(d, Dark);
      assert RecoveryPhraseScenes(d, Light)[1] != RecoveryPhraseScenes(d, Dark)[1];
    } else {
      ThemeMattersOnlyForNanoSP(d, PinCode);
    }
  }

  /** The still scenes of the setup flow are the same for every device model and theme. */
  lemma SetupStillScenesAreConstant(d1: DeviceModel, t1: Theme, d2: DeviceModel, t2: Theme)
    ensures forall i :: 0 <= i < 8 && SetupDeviceScenes(d1, t1)[i].visual.Still? ==>
      SetupDeviceScenes(d1, t1)[i] == SetupDeviceScenes(d2, t2)[i]
  {
    SetupStillIndices(d1, t1);
    SetupStillAt(d1, t1);
    SetupStillAt(d2, t2);
  }

  /** Which setup positions are still; split off to keep the proof of `SetupStillScenesAreConstant` small. */
  lemma SetupStillIndices(d: DeviceModel, t: Theme)
    ensures forall i :: 0 <= i < 8 && SetupDeviceScenes(d, t)[i].visual.Still? ==> i == 0 || i == 2 || i == 4 || i == 5 || i == 7
  {
    SetupAnimations(d, t);
  }

  /** The still scenes of the setup flow, position by position: the part of
      `SetupDeviceScenesUnfold` that `SetupStillScenesAreConstant` needs. */
  lemma SetupStillAt(d: DeviceModel, t: Theme)
    ensures var c := SetupDeviceScenes(d, t);
      |c| == 8 && c[0] == StartScene && c[2] == PinCodeScene && c[4] == RecoveryPhraseScene &&
      c[5] == RecoveryPhraseSetupScene && c[7] == HideRecoveryPhraseScene
  {
    SetupDeviceScenesUnfold(d, t);
  }

  /** The still scenes of the restore flow are the same for every device model and theme. */
  lemma RecoveryStillScenesAreConstant(d1: DeviceModel, t1: Theme, d2: DeviceModel, t2: Theme)
    ensures forall i :: 0 <= i < 7 && RecoveryPhraseScenes(d1, t1)[i].visual.Still? ==>
      RecoveryPhraseScenes(d1, t1)[i] == RecoveryPhraseScenes(d2, t2)[i]
  {
    RecoveryStillIndices(d1, t1);
    RecoveryStillAt(d1, t1);
    RecoveryStillAt(d2, t2);
  }

  /** Which restore positions are still; split off to keep the proof of `RecoveryStillScenesAreConstant` small. */
  lemma RecoveryStillIndices(d: DeviceModel, t: Theme)
    ensures forall i :: 0 <= i < 7 && RecoveryPhraseScenes(d, t)[i].visual.Still? ==> i == 0 || i == 2 || i == 4
  {
    RecoveryAnimations(d, t);
  }

  /** The still scenes of the restore flow, position by position: the part of
      `RecoveryPhraseScenesUnfold` that `RecoveryStillScenesAreConstant` needs. */
  lemma RecoveryStillAt(d: DeviceModel, t: Theme)
    ensures var c := RecoveryPhraseScenes(d, t);
      |c| == 7 && c[0] == ImportRecoveryPhraseScene && c[2] == PinCodeScene && c[4] == ExistingRecoveryPhraseScene
  {
    RecoveryPhraseScenesUnfold(d, t);
  }

  // Gates, info modals and analytics labels

  /** In the setup flow no scene carries both gates; the warning modals sit on
      `start` and `hideRecoveryPhrase`, the checkboxes on `pinCode` and
      `recoveryPhrase`. */
  lemma SetupGates(d: DeviceModel, t: Theme)
    ensures var c := SetupDeviceScenes(d, t);
      forall i :: 0 <= i < |c| ==>
        && AtMostOneGate(c[i])
        && (c[i].warning.Some? <==> c[i].id in {"start", "hideRecoveryPhrase"})
        && (c[i].checkbox.Some? <==> c[i].id in {"pinCode", "recoveryPhrase"})
  {
    var c := SetupDeviceScenes(d, t);
    SetupDeviceScenesUnfold(d, t);
    forall i | 0 <= i < |c|
      ensures AtMostOneGate(c[i])
      ensures c[i].warning.Some? <==> c[i].id in {"start", "hideRecoveryPhrase"}
      ensures c[i].checkbox.Some? <==> c[i].id in {"pinCode", "recoveryPhrase"}
    {
      assert i == 0 || i == 1 || i == 2 || i == 3 || i == 4 || i == 5 || i == 6 || i == 7;
    }
  }

  /** In the restore flow no scene carries both gates; the one warning modal
      sits on `importRecoveryPhrase`, the checkboxes on `pinCode` and
      `existingRecoveryPhrase`. */
  lemma RecoveryGates(d: DeviceModel, t: Theme)
    ensures var c := RecoveryPhraseScenes(d, t);
      forall i :: 0 <= i < |c| ==>
        && AtMostOneGate(c[i])
        && (c[i].warning.Some? <==> c[i].id == "importRecoveryPhrase")
        && (c[i].checkbox.Some? <==> c[i].id in {"pinCode", "existingRecoveryPhrase"})
  {
    var c := RecoveryPhraseScenes(d, t);
    RecoveryPhraseScenesUnfold(d, t);
    forall i | 0 <= i < |c|
      ensures AtMostOneGate(c[i])
      ensures c[i].warning.Some? <==> c[i].id == "importRecoveryPhrase"
      ensures c[i].checkbox.Some? <==> c[i].id in {"pinCode", "existingRecoveryPhrase"}
    {
      assert i == 0 || i == 1 || i == 2 || i == 3 || i == 4 || i == 5 || i == 6;
    }
  }

  /** Per-flow part of `CatalogInfoKeys`, split off to keep each proof small. */
  lemma SetupInfoKeys(d: DeviceModel, t: Theme)
    ensures InfoKeys(SetupDeviceScenes(d, t)) == [
      None, None, Some("pinCodeInfoModalProps"), Some("pinCodeInfoModalProps"),
      Some("recoveryPhraseInfoModalProps"), Some("recoveryPhraseInfoModalProps"),
      Some("recoveryPhraseInfoModalProps"), Some("hideRecoveryPhraseInfoModalProps")]
  {
    SetupDeviceScenesUnfold(d, t);
  }

  /** Per-flow part of `CatalogInfoKeys`, split off to keep each proof small. */
  lemma RecoveryInfoKeys(d: DeviceModel, t: Theme)
    ensures InfoKeys(RecoveryPhraseScenes(d, t)) == [
      None, None, Some("pinCodeInfoModalProps"), Some("pinCodeInfoModalProps"),
      Some("recoveryPhraseInfoModalProps"), Some("recoveryPhraseInfoModalProps"),
      Some("recoveryPhraseInfoModalProps")]
  {
    RecoveryPhraseScenesUnfold(d, t);
  }

  /** The info-modal key of each scene, in order. */
  lemma CatalogInfoKeys(d: DeviceModel, t: Theme)
    ensures InfoKeys(SetupDeviceScenes(d, t)) == [
      None, None, Some("pinCodeInfoModalProps"), Some("pinCodeInfoModalProps"),
      Some("recoveryPhraseInfoModalProps"), Some("recoveryPhraseInfoModalProps"),
      Some("recoveryPhraseInfoModalProps"), Some("hideRecoveryPhraseInfoModalProps")]
    ensures InfoKeys(RecoveryPhraseScenes(d, t)) == [
      None, None, Some("pinCodeInfoModalProps"), Some("pinCodeInfoModalProps"),
      Some("recoveryPhraseInfoModalProps"), Some("recoveryPhraseInfoModalProps"),
      Some("recoveryPhraseInfoModalProps")]
    ensures InfoKeys(ImportAccountsScenes()) == [None]
  {
    var imports := ImportAccountsScenes();
    assert InfoKeys(imports) == [imports[0].infoKey] + InfoKeys(imports[1..]);
    SetupInfoKeys(d, t);
    RecoveryInfoKeys(d, t);
  }

  /** Indexing helper: a fact about every entry of `InfoKeys(c)` carried over
      to every scene of `c`. */
  lemma UsedKeysAreModalKeys(c: seq<Scene>)
    requires forall j :: 0 <= j < |InfoKeys(c)| && InfoKeys(c)[j].Some? ==> InfoKeys(c)[j].value in InfoModalKeys
    ensures forall i :: 0 <= i < |c| && c[i].infoKey.Some? ==> c[i].infoKey.value in InfoModalKeys
  {
    forall i | 0 <= i < |c| && c[i].infoKey.Some?
      ensures c[i].infoKey.value in InfoModalKeys
    {
      assert InfoKeys(c)[i] == c[i].infoKey;
    }
  }

  /** Per-flow part of `SceneInfoKeysResolve`, split off to keep each proof small. */
  lemma SetupKeysAreModalKeys(d: DeviceModel, t: Theme)
    ensures var c := SetupDeviceScenes(d, t);
      forall i :: 0 <= i < |c| && c[i].infoKey.Some? ==> c[i].infoKey.value in InfoModalKeys
  {
    SetupInfoKeys(d, t);
    UsedKeysAreModalKeys(SetupDeviceScenes(d, t));
  }

  /** Per-flow part of `SceneInfoKeysResolve`, split off to keep each proof small. */
  lemma RecoveryKeysAreModalKeys(d: DeviceModel, t: Theme)
    ensures var c := RecoveryPhraseScenes(d, t);
      forall i :: 0 <= i < |c| && c[i].infoKey.Some? ==> c[i].infoKey.value in InfoModalKeys
  {
    RecoveryInfoKeys(d, t);
    UsedKeysAreModalKeys(RecoveryPhraseScenes(d, t));
  }

  /** Every info-modal key a scene refers to is a key of `infoModalScenes`,
      on every platform. */
  lemma SceneInfoKeysResolve(d: DeviceModel, t: Theme, p: Platform)
    ensures var c := SetupDeviceScenes(d, t);
      forall i :: 0 <= i < |c| && c[i].infoKey.Some? ==> c[i].infoKey.value in InfoModalScenes(p)
    ensures var c := RecoveryPhraseScenes(d, t);
      forall i :: 0 <= i < |c| && c[i].infoKey.Some? ==> c[i].infoKey.value in InfoModalScenes(p)
    ensures forall i :: 0 <= i < |ImportAccountsScenes()| ==> ImportAccountsScenes()[i].infoKey.None?
  {
    SetupKeysAreModalKeys(d, t);
    RecoveryKeysAreModalKeys(d, t);
    assert InfoModalScenes(p).Keys == InfoModalKeys;
    ImportKeysAbsent();
  }

  /** The accounts-import clause of `SceneInfoKeysResolve`, read off
      `ImportAccountsScenes`' contract; split off to keep that proof small. */
  lemma ImportKeysAbsent()
    ensures forall i :: 0 <= i < |ImportAccountsScenes()| ==> ImportAccountsScenes()[i].infoKey.None?
  {
    var imports := ImportAccountsScenes();
    assert |imports| == 1 && imports[0].infoKey.None?;
  }

  /** Every scene carries its analytics label inside `sceneProps`, except
      `existingRecoveryPhrase_2`, which carries it on the scene itself. */
  lemma TrackPagePlacement(d: DeviceModel, t: Theme)
    ensures var c := SetupDeviceScenes(d, t);
      forall i :: 0 <= i < |c| ==> c[i].track.InSceneProps?
    ensures var c := RecoveryPhraseScenes(d, t);
      forall i :: 0 <= i < |c| ==> (c[i].track.AtTopLevel? <==> c[i].id == "existingRecoveryPhrase_2")
    ensures ImportAccountsScenes()[0].track.InSceneProps?
  {
    SetupTracks(d, t);
    RecoveryTracks(d, t);
  }

  /** Per-flow part of `TrackPagePlacement`, split off to keep each proof small. */
  lemma SetupTracks(d: DeviceModel, t: Theme)
    ensures var c := SetupDeviceScenes(d, t);
      forall i :: 0 <= i < |c| ==> c[i].track.InSceneProps?
  {
    var c := SetupDeviceScenes(d, t);
    SetupDeviceScenesUnfold(d, t);
    forall i | 0 <= i < |c|
      ensures c[i].track.InSceneProps?
    {
      assert i == 0 || i == 1 || i == 2 || i == 3 || i == 4 || i == 5 || i == 6 || i == 7;
    }
  }

  /** Per-flow part of `TrackPagePlacement`, split off to keep each proof small. */
  lemma RecoveryTracks(d: DeviceModel, t: Theme)
    ensures var c := RecoveryPhraseScenes(d, t);
      forall i :: 0 <= i < |c| ==> (c[i].track.AtTopLevel? <==> c[i].id == "existingRecoveryPhrase_2")
  {
    var r := RecoveryPhraseScenes(d, t);
    RecoveryPhraseScenesUnfold(d, t);
    forall i | 0 <= i < |r|
      ensures r[i].track.AtTopLevel? <==> r[i].id == "existingRecoveryPhrase_2"
    {
      assert i == 0 || i == 1 || i == 2 || i == 3 || i == 4 || i == 5 || i == 6;
    }
  }

  // Bullets

  /** In the setup flow only `recoveryPhraseSetup_1` gives its bullets
      display-order hints, the literals 3 and 4 for positions 0 and 1. */
  lemma SetupBulletIndexHints(d: DeviceModel, t: Theme)
    ensures Indices(SetupDeviceScenes(d, t)[6].bullets) == [Some(3), Some(4)]
    ensures var c := SetupDeviceScenes(d, t);
      forall i, j :: 0 <= i < |c| && i != 6 && 0 <= j < |c[i].bullets| ==> c[i].bullets[j].index.None?
  {
    var c := SetupDeviceScenes(d, t);
    SetupDeviceScenesUnfold(d, t);
    forall i, j | 0 <= i < |c| && i != 6 && 0 <= j < |c[i].bullets|
      ensures c[i].bullets[j].index.None?
    {
      assert i == 0 || i == 1 || i == 2 || i == 3 || i == 4 || i == 5 || i == 7;
    }
  }

  /** In the restore flow only `existingRecoveryPhrase_2` gives its bullets
      display-order hints, the literals 3, 4 and 5 for positions 0, 1 and 2. */
  lemma RecoveryBulletIndexHints(d: DeviceModel, t: Theme)
    ensures Indices(RecoveryPhraseScenes(d, t)[6].bullets) == [Some(3), Some(4), Some(5)]
    ensures var c := RecoveryPhraseScenes(d, t);
      forall i, j :: 0 <= i < |c| && i != 6 && 0 <= j < |c[i].bullets| ==> c[i].bullets[j].index.None?
  {
    var c := RecoveryPhraseScenes(d, t);
    RecoveryPhraseScenesUnfold(d, t);
    forall i, j | 0 <= i < |c| && i != 6 && 0 <= j < |c[i].bullets|
      ensures c[i].bullets[j].index.None?
    {
      assert i == 0 || i == 1 || i == 2 || i == 3 || i == 4 || i == 5;
    }
  }

  /** The first power-on bullet of each flow is the one text key that names
      the device model. */
  lemma DeviceBulletKeys(d: DeviceModel, t: Theme)
    ensures SetupDeviceScenes(d, t)[1].bullets[0].caption == LabelKey(SetupPowerOnKey(d))
    ensures RecoveryPhraseScenes(d, t)[1].bullets[0].caption == LabelKey(RecoveryPowerOnKey(d))
  {
    SetupDeviceScenesUnfold(d, t);
    RecoveryPhraseScenesUnfold(d, t);
  }

  /** A middle part of a concatenation is determined by the whole and its ends. */
  lemma InfixCancels(a: string, x: string, y: string, b: string)
    requires a + x + b == a + y + b
    ensures x == y
  {
    var w := a + x + b;
    assert |x| == |y|;
    assert w[|a|..|a| + |x|] == x;
    assert w[|a|..|a| + |y|] == y;
  }

  /** The device-naming text keys tell the device models apart. */
  lemma DeviceBulletKeysDistinguishDevices(d1: DeviceModel, d2: DeviceModel)
    ensures SetupPowerOnKey(d1) == SetupPowerOnKey(d2) <==> d1 == d2
    ensures RecoveryPowerOnKey(d1) == RecoveryPowerOnKey(d2) <==> d1 == d2
  {
    if SetupPowerOnKey(d1) == SetupPowerOnKey(d2) {
      InfixCancels(SetupPowerOnPrefix, DeviceModelId(d1), DeviceModelId(d2), ".label");
      DeviceModelIdRoundTrip(DeviceModelId(d1), d2);
    }
    if RecoveryPowerOnKey(d1) == RecoveryPowerOnKey(d2) {
      InfixCancels(RecoveryPowerOnPrefix, DeviceModelId(d1), DeviceModelId(d2), ".label");
      DeviceModelIdRoundTrip(DeviceModelId(d1), d2);
    }
  }

  // The catalogs by raw device id

  /** Looking a catalog up by a device model's own id builds that model's catalog. */
  lemma ByIdAgreesWithModel(d: DeviceModel, t: Theme)
    ensures SetupDeviceScenesById(DeviceModelId(d), t) == Some(SetupDeviceScenes(d, t))
    ensures RecoveryPhraseScenesById(DeviceModelId(d), t) == Some(RecoveryPhraseScenes(d, t))
  {
    DeviceModelIdRoundTrip(DeviceModelId(d), d);
  }
}
