/**
 * components/ProjectCard.tsx: one project as a card.  The card holds no
 * state: what it shows is a function of the project and of `t`.
 */
module ProjectCard {
  import opened Wrappers
  import opened Projects
  import TranslationTree

  /** getPlatformLabel(platform): the display name of a platform code; any other string is shown as is. */
  function GetPlatformLabel(platform: string): (name: string)
    ensures platform !in {"web", "android", "ios"} ==> name == platform
  {
    if platform == "web" then "Web"
    else if platform == "android" then "Android"
    else if platform == "ios" then "iOS"
    else platform
  }

  /** The card names each platform as its filter tab does. */
  lemma PlatformLabelMatchesTab(p: Platform)
    ensures GetPlatformLabel(PlatformCode(p)) == PlatformOptions[OptionIndex(Only(p))].1
  {
  }

  /** The first four features, or all of them when there are at most four. */
  function VisibleFeatures(features: seq<string>): (shown: seq<string>)
    ensures |shown| == if |features| > 4 then 4 else |features|
    ensures shown == features[..|shown|]
  {
    if |features| > 4 then features[..4] else features
  }

  /** The features behind "show more": present only when there are more than four. */
  function MoreFeatures(features: seq<string>): (more: Option<seq<string>>)
    ensures more.Some? <==> |features| > 4
  {
    if |features| > 4 then Some(features[4..]) else None
  }

  /** The two lists together are the feature list, in order, each feature once. */
  lemma FeatureListsPartition(features: seq<string>)
    ensures VisibleFeatures(features) + MoreFeatures(features).GetOr([]) == features
  {
    if |features| > 4 {
      assert features[..4] + features[4..] == features;
    }
  }

  /** The features section, rendered only for a present, non-empty list. */
  datatype FeaturesSection = FeaturesSection(visible: seq<string>, more: Option<seq<string>>, showMore: string)

  /**
   * handleKeyDown(event, () => openLink(href)) on a rendered link: the URL
   * opened in a new tab, if the key opens one.
   */
  function LinkKeyDown(key: string, link: Link): (url: Option<string>)
    ensures url.Some? <==> key == "Enter" || key == " "
    ensures url.Some? ==> url.value == link.href
  {
    if key == "Enter" || key == " " then Some(link.href) else None
  }

  /** `${value}` in a template literal: an absent value prints as "undefined". */
  function TemplateText(value: Option<string>): string {
    value.GetOr("undefined")
  }

  /** JavaScript truthiness of an optional string field. */
  predicate Present(value: Option<string>) {
    value.Some? && value.value != ""
  }

  datatype Link = Link(href: string, ariaLabel: string, text: string)

  datatype Card = Card(
    labelledBy: string,
    describedBy: string,
    badgeLabel: string,
    platformName: string,
    titleId: string,
    descriptionId: string,
    features: Option<FeaturesSection>,
    link: Option<Link>,
    githubLink: Option<Link>,
    completion: Option<(string, string)>)

  /** What the card renders for a project. */
  function Render(p: Project, t: string -> string): (c: Card)
    ensures c.labelledBy == c.titleId == "project-title-" + p.id
    ensures c.describedBy == c.descriptionId == "project-description-" + p.id
    ensures c.features.Some? <==> p.features.Some? && p.features.value != []
    ensures c.features.Some? ==>
      c.features.value.visible + c.features.value.more.GetOr([]) == p.features.value
    ensures c.link.Some? <==> Present(p.link)
    ensures c.link.Some? ==> c.link.value.href == p.link.value
    ensures c.githubLink.Some? <==> Present(p.githubLink)
    ensures c.githubLink.Some? ==> c.githubLink.value.href == p.githubLink.value
    ensures c.completion.Some? <==> Present(p.completionDate)
    ensures c.completion.Some? ==> c.completion.value.0 == p.completionDate.value
  {
    var code := PlatformCode(p.platform);
    var features :=
      if p.features.Some? && |p.features.value| > 0 then
        FeatureListsPartition(p.features.value);
        Some(FeaturesSection(VisibleFeatures(p.features.value), MoreFeatures(p.features.value), t("projects.showMore")))
      else None;
    var link :=
      if Present(p.link) then
        Some(Link(p.link.value, t("projects.viewProject") + " " + TemplateText(p.title) + " " + t("projects.viewProjectInNewTab"),
                  t("projects.viewProject")))
      else None;
    var githubLink :=
      if Present(p.githubLink) then
        Some(Link(p.githubLink.value, TemplateText(p.title) + " " + t("projects.viewGithubInNewTab"), t("projects.github")))
      else None;
    var completion :=
      if Present(p.completionDate) then
        Some((p.completionDate.value, t("projects.completed") + ": " + p.completionDate.value))
      else None;
    Card(
      "project-title-" + p.id,
      "project-description-" + p.id,
      GetPlatformLabel(code) + " " + t("projects.platformLabels." + code),
      GetPlatformLabel(code),
      "project-title-" + p.id,
      "project-description-" + p.id,
      features, link, githubLink, completion)
  }

  /** Enter or Space on a rendered link opens the project's own URL, and only a present URL is rendered as a link. */
  lemma LinkKeysOpenProjectUrls(p: Project, t: string -> string, key: string)
    requires key == "Enter" || key == " "
    ensures Render(p, t).link.Some? ==> LinkKeyDown(key, Render(p, t).link.value) == Some(p.link.value) && p.link.value != ""
    ensures Render(p, t).githubLink.Some? ==>
      LinkKeyDown(key, Render(p, t).githubLink.value) == Some(p.githubLink.value) && p.githubLink.value != ""
  {
  }

  /** Distinct projects get distinct element ids, so each card's references point into that card. */
  lemma CardIdsAreDistinct(p: Project, q: Project, t: string -> string)
    requires p.id != q.id
    ensures Render(p, t).titleId != Render(q, t).titleId
    ensures Render(p, t).descriptionId != Render(q, t).descriptionId
  {
    var a, b := "project-title-", "project-description-";
    assert (a + p.id)[|a|..] == p.id && (a + q.id)[|a|..] == q.id;
    assert (b + p.id)[|b|..] == p.id && (b + q.id)[|b|..] == q.id;
  }

  /** Localising a project never changes which links or dates its card shows, nor its ids. */
  lemma LocalizedCardKeepsLinks(store: TranslationTree.Bundle, p: Project, language: string, t: string -> string)
    ensures var q := GetLocalizedProjects(store, [p], language)[0];
      Render(q, t).link.Some? == Render(p, t).link.Some?
      && Render(q, t).githubLink.Some? == Render(p, t).githubLink.Some?
      && Render(q, t).completion == Render(p, t).completion
      && Render(q, t).titleId == Render(p, t).titleId
  {
  }
}
