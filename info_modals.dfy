/**
 * The supplementary info modals of the onboarding screens (`infoModalScenes`):
 * multi-panel content a scene opens through its `sceneInfoKey`.
 *
 * The pairing-error modal is the one piece of content that depends on the
 * runtime platform; the platform is a parameter here instead of the global
 * `Platform.OS` the source reads.
 */
module InfoModals {

  import opened Optional
  import opened Scenes

  /** The entries of the application's `urls` configuration that modals link to. */
  datatype Url = SupportPage | RecoveryPhraseInfo

  /** An external link; `caption` is the source's `label`. */
  datatype Link = Link(caption: TextKey, url: Url)

  /** One panel of an info modal. */
  datatype Panel = Panel(
    icon: Option<Icon> := None,
    iconColor: Option<Color> := None,
    title: Option<TextKey> := None,
    desc: Option<TextKey> := None,
    bullets: seq<Bullet> := [],
    link: Option<Link> := None)

  /** The runtime platform, by the name React Native reports (`"ios"`, `"android"`, ...). */
  datatype Platform = Platform(os: string)

  predicate IsAndroid(p: Platform)
  {
    p.os == "android"
  }

  /** The five keys of `infoModalScenes`. */
  const InfoModalKeys: set<string> := {
    "recoveryWarningInfoModalProps",
    "pinCodeInfoModalProps",
    "recoveryPhraseInfoModalProps",
    "hideRecoveryPhraseInfoModalProps",
    "pairNewErrorInfoModalProps"
  }

  /** The recovery-phrase warning: one orange warning panel linking to the support page. */
  function RecoveryWarningInfoModalProps(): (r: seq<Panel>)
    ensures |r| == 1 && r[0].bullets == []
    ensures r[0].icon == Some(WarningOutline) && r[0].iconColor == Some(Orange)
    ensures r[0].link.Some? && r[0].link.value.url == SupportPage
  {
    [
      Panel(
        icon := Some(WarningOutline),
        iconColor := Some(Orange),
        title := Some("onboarding.warning.recoveryPhrase.title"),
        desc := Some("onboarding.warning.recoveryPhrase.desc"),
        link := Some(Link("onboarding.warning.recoveryPhrase.supportLink", SupportPage)))
    ]
  }

  /** The PIN-code advice: one panel of five things to do (check icon, success
      colour) followed by three not to do (close icon, alert colour). */
  function PinCodeInfoModalProps(): (r: seq<Panel>)
    ensures |r| == 1 && |r[0].bullets| == 8 && r[0].link.None?
    ensures forall i :: 0 <= i < 5 ==> r[0].bullets[i].icon == Some(Check) && r[0].bullets[i].color == Some(Success)
    ensures forall i :: 5 <= i < 8 ==> r[0].bullets[i].icon == Some(Close) && r[0].bullets[i].color == Some(Alert)
  {
    [
      Panel(
        title := Some("onboarding.stepSetupDevice.pinCodeSetup.infoModal.title"),
        bullets := [
          Bullet(icon := Some(Check), color := Some(Success),
                 caption := LabelKey("onboarding.stepSetupDevice.pinCodeSetup.infoModal.bullets.0.label")),
          Bullet(icon := Some(Check), color := Some(Success),
                 caption := LabelKey("onboarding.stepSetupDevice.pinCodeSetup.infoModal.bullets.1.label")),
          Bullet(icon := Some(Check), color := Some(Success),
                 caption := LabelKey("onboarding.stepSetupDevice.pinCodeSetup.infoModal.bullets.2.label")),
          Bullet(icon := Some(Check), color := Some(Success),
                 caption := LabelKey("onboarding.stepSetupDevice.pinCodeSetup.infoModal.bullets.3.label")),
          Bullet(icon := Some(Check), color := Some(Success),
                 caption := LabelKey("onboarding.stepSetupDevice.pinCodeSetup.infoModal.bullets.4.label")),
          Bullet(icon := Some(Close), color := Some(Alert),
                 caption := LabelKey("onboarding.stepSetupDevice.pinCodeSetup.infoModal.bullets.5.label")),
          Bullet(icon := Some(Close), color := Some(Alert),
                 caption := LabelKey("onboarding.stepSetupDevice.pinCodeSetup.infoModal.bullets.6.label")),
          Bullet(icon := Some(Close), color := Some(Alert),
                 caption := LabelKey("onboarding.stepSetupDevice.pinCodeSetup.infoModal.bullets.7.label"))
        ])
    ]
  }

  /** The recovery-phrase explanation: an introduction, a panel linking to the
      recovery-phrase article, and a panel of three arrow bullets. */
  function RecoveryPhraseInfoModalProps(): (r: seq<Panel>)
    ensures |r| == 3
    ensures r[0].bullets == [] && r[1].bullets == [] && |r[2].bullets| == 3
    ensures r[1].link.Some? && r[1].link.value.url == RecoveryPhraseInfo
    ensures forall i :: 0 <= i < 3 ==> r[2].bullets[i].icon == Some(ArrowRight)
  {
    [
      Panel(
        title := Some("onboarding.stepSetupDevice.recoveryPhraseSetup.infoModal.title"),
        desc := Some("onboarding.stepSetupDevice.recoveryPhraseSetup.infoModal.desc")),
      Panel(
        desc := Some("onboarding.stepSetupDevice.recoveryPhraseSetup.infoModal.desc_1"),
        link := Some(Link("onboarding.stepSetupDevice.recoveryPhraseSetup.infoModal.link", RecoveryPhraseInfo))),
      Panel(
        title := Some("onboarding.stepSetupDevice.recoveryPhraseSetup.infoModal.title_1"),
        bullets := [
          Bullet(icon := Some(ArrowRight),
                 caption := LabelKey("onboarding.stepSetupDevice.recoveryPhraseSetup.infoModal.bullets.0.label")),
          Bullet(icon := Some(ArrowRight),
                 caption := LabelKey("onboarding.stepSetupDevice.recoveryPhraseSetup.infoModal.bullets.1.label")),
          Bullet(icon := Some(ArrowRight),
                 caption := LabelKey("onboarding.stepSetupDevice.recoveryPhraseSetup.infoModal.bullets.2.label"))
        ])
    ]
  }

  /** The advice on hiding the recovery sheet: one panel of five arrow bullets. */
  function HideRecoveryPhraseInfoModalProps(): (r: seq<Panel>)
    ensures |r| == 1 && |r[0].bullets| == 5 && r[0].link.None?
    ensures forall i :: 0 <= i < 5 ==> r[0].bullets[i].icon == Some(ArrowRight)
  {
    [
      Panel(
        title := Some("onboarding.stepSetupDevice.hideRecoveryPhrase.infoModal.title"),
        bullets := [
          Bullet(icon := Some(ArrowRight),
                 caption := LabelKey("onboarding.stepSetupDevice.hideRecoveryPhrase.infoModal.bullets.0.label")),
          Bullet(icon := Some(ArrowRight),
                 caption := LabelKey("onboarding.stepSetupDevice.hideRecoveryPhrase.infoModal.bullets.1.label")),
          Bullet(icon := Some(ArrowRight),
                 caption := LabelKey("onboarding.stepSetupDevice.hideRecoveryPhrase.infoModal.bullets.2.label")),
          Bullet(icon := Some(ArrowRight),
                 caption := LabelKey("onboarding.stepSetupDevice.hideRecoveryPhrase.infoModal.bullets.3.label")),
          Bullet(icon := Some(ArrowRight),
                 caption := LabelKey("onboarding.stepSetupDevice.hideRecoveryPhrase.infoModal.bullets.4.label"))
        ])
    ]
  }

  /** The pairing-error modal: three panels everywhere, and four more
      (one of them a four-step settings walk-through) on Android. */
  function PairNewErrorInfoModalProps(p: Platform): (r: seq<Panel>)
    ensures |r| == if IsAndroid(p) then 7 else 3
  {
    [
      Panel(
        title := Some("onboarding.stepPairNew.errorInfoModal.title"),
        desc := Some("onboarding.stepPairNew.errorInfoModal.desc")),
      Panel(desc := Some("onboarding.stepPairNew.errorInfoModal.desc_1")),
      Panel(desc := Some("onboarding.stepPairNew.errorInfoModal.desc_2"))
    ]
    + if IsAndroid(p) then
      [
        Panel(
          title := Some("onboarding.stepPairNew.errorInfoModal.title_1"),
          desc := Some("onboarding.stepPairNew.errorInfoModal.desc_3")),
        Panel(
          desc := Some("onboarding.stepPairNew.errorInfoModal.desc_4"),
          bullets := [
            Bullet(icon := Some(ArrowRight), caption := LabelKey("onboarding.stepPairNew.errorInfoModal.bullets.0.label")),
            Bullet(icon := Some(ArrowRight), caption := LabelKey("onboarding.stepPairNew.errorInfoModal.bullets.1.label")),
            Bullet(icon := Some(ArrowRight), caption := LabelKey("onboarding.stepPairNew.errorInfoModal.bullets.2.label")),
            Bullet(icon := Some(ArrowRight), caption := LabelKey("onboarding.stepPairNew.errorInfoModal.bullets.3.label"))
          ]),
        Panel(desc := Some("onboarding.stepPairNew.errorInfoModal.desc_5")),
        Panel(
          title := Some("onboarding.stepPairNew.errorInfoModal.title_2"),
          desc := Some("onboarding.stepPairNew.errorInfoModal.desc_6"))
      ]
    else []
  }

  /** `infoModalScenes`: the modal content under each of its five keys. */
  function InfoModalScenes(p: Platform): (m: map<string, seq<Panel>>)
    ensures m.Keys == InfoModalKeys
    ensures m["recoveryWarningInfoModalProps"] == RecoveryWarningInfoModalProps()
    ensures m["pinCodeInfoModalProps"] == PinCodeInfoModalProps()
    ensures m["recoveryPhraseInfoModalProps"] == RecoveryPhraseInfoModalProps()
    ensures m["hideRecoveryPhraseInfoModalProps"] == HideRecoveryPhraseInfoModalProps()
    ensures m["pairNewErrorInfoModalProps"] == PairNewErrorInfoModalProps(p)
  {
    map[
      "recoveryWarningInfoModalProps" := RecoveryWarningInfoModalProps(),
      "pinCodeInfoModalProps" := PinCodeInfoModalProps(),
      "recoveryPhraseInfoModalProps" := RecoveryPhraseInfoModalProps(),
      "hideRecoveryPhraseInfoModalProps" := HideRecoveryPhraseInfoModalProps(),
      "pairNewErrorInfoModalProps" := PairNewErrorInfoModalProps(p)
    ]
  }

  /** The three panels every platform shows are the same on every platform. */
  lemma PairNewErrorCommonPanels(p1: Platform, p2: Platform)
    ensures PairNewErrorInfoModalProps(p1)[..3] == PairNewErrorInfoModalProps(p2)[..3]
  {
  }

  /** Off Android the modal is exactly the first three panels of the Android modal. */
  lemma PairNewErrorAndroidExtends(p: Platform, android: Platform)
    requires !IsAndroid(p) && IsAndroid(android)
    ensures PairNewErrorInfoModalProps(p) == PairNewErrorInfoModalProps(android)[..3]
  {
  }

  /** On Android the fifth panel walks through four settings steps, and it is
      the only panel of the modal with bullets; elsewhere no panel has any. */
  lemma PairNewErrorBullets(p: Platform)
    ensures IsAndroid(p) ==> |PairNewErrorInfoModalProps(p)[4].bullets| == 4
    ensures forall i :: 0 <= i < |PairNewErrorInfoModalProps(p)| && i != 4 ==>
      PairNewErrorInfoModalProps(p)[i].bullets == []
  {
  }

  /** Only the pairing-error entry of `infoModalScenes` depends on the platform. */
  lemma InfoModalScenesPlatformIndependent(p1: Platform, p2: Platform, key: string)
    requires key in InfoModalKeys && key != "pairNewErrorInfoModalProps"
    ensures InfoModalScenes(p1)[key] == InfoModalScenes(p2)[key]
  {
  }

  /** The panel and bullet counts of the platform-independent modals. */
  lemma InfoModalShapes(p: Platform)
    ensures |InfoModalScenes(p)["recoveryWarningInfoModalProps"]| == 1
    ensures |InfoModalScenes(p)["pinCodeInfoModalProps"]| == 1
    ensures |InfoModalScenes(p)["pinCodeInfoModalProps"][0].bullets| == 8
    ensures |InfoModalScenes(p)["recoveryPhraseInfoModalProps"]| == 3
    ensures |InfoModalScenes(p)["hideRecoveryPhraseInfoModalProps"]| == 1
    ensures |InfoModalScenes(p)["hideRecoveryPhraseInfoModalProps"][0].bullets| == 5
  {
  }
}
