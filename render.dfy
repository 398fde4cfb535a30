/** The portfolio renderer's markup: the defaulting that the render route
    applies to an incoming `portfolioData` record, and `generatePortfolioHTML`,
    which turns the defaulted record into one self-contained HTML page (header
    with avatar, name, headline and bio; an optional skills section; one card
    per project). The page is what the route hands to the headless browser. */
module PortfolioRender {
  import opened Optional
  import opened Text

  // ---------------------------------------------------------------------------
  // Data

  /** The optional theme fields the generator may supply. */
  datatype VisualStyle = VisualStyle(
    themeColor: Option<string>,
    gradientStart: Option<string>,
    gradientEnd: Option<string>,
    fontStyle: Option<string>)

  /** One project as the renderer receives it; every field may be missing. */
  datatype ProjectInput = ProjectInput(
    name: Option<string>,
    description: Option<string>,
    images: Option<seq<string>>,
    skills: Option<seq<string>>,
    toolsUsed: Option<seq<string>>)

  /** The `portfolioData` record of a render request, before defaulting. A
      `profileImage` of `null` and a missing one are both `None`. */
  datatype PortfolioData = PortfolioData(
    name: Option<string>,
    headline: Option<string>,
    bio: Option<string>,
    skills: Option<seq<string>>,
    projects: Option<seq<ProjectInput>>,
    profileImage: Option<string>,
    visualStyle: Option<VisualStyle>)

  /** A render request: `portfolioData` is `None` when it is missing or falsy. */
  datatype RenderRequest = RenderRequest(portfolioData: Option<PortfolioData>, template: Option<string>)

  /** The arguments of `generatePortfolioHTML`. */
  datatype PortfolioParams = PortfolioParams(
    name: string,
    headline: string,
    bio: string,
    skills: seq<string>,
    projects: seq<ProjectInput>,
    profileImage: Option<string>,
    template: string,
    visualStyle: Option<VisualStyle>)

  /** What the route does with a request: refuse it with a status, or hand
      the page of the defaulted arguments (`PortfolioHtml(params)`) to the
      browser. */
  datatype RenderOutcome = Refused(status: nat, message: string) | Rasterize(params: PortfolioParams)

  // ---------------------------------------------------------------------------
  // Request handling

  const DefaultName := "Your Name"
  const DefaultHeadline := "Professional Headline"
  const DefaultBio := "Your professional bio goes here."

  /** The record with every missing field replaced by its default. A
      destructuring default applies only to a missing field: a present empty
      string is kept. */
  function WithDefaults(d: PortfolioData, template: string): PortfolioParams {
    PortfolioParams(
      d.name.GetOr(DefaultName),
      d.headline.GetOr(DefaultHeadline),
      d.bio.GetOr(DefaultBio),
      d.skills.GetOr([]),
      d.projects.GetOr([]),
      d.profileImage,
      template,
      Some(d.visualStyle.GetOr(VisualStyle(None, None, None, None))))
  }

  /** The render route up to the browser: a request without `portfolioData`
      is refused with status 400 before anything is rendered; otherwise the
      page of the defaulted record goes to the browser, with the template
      defaulting to 'modern'. */
  function HandleRender(req: RenderRequest): (r: RenderOutcome)
    ensures r.Refused? <==> req.portfolioData.None?
    ensures r.Refused? ==> r.status == 400 && r.message == "Missing portfolioData"
    ensures r.Rasterize? ==> r.params.template == req.template.GetOr("modern")
  {
    match req.portfolioData
    case None => Refused(400, "Missing portfolioData")
    case Some(d) => Rasterize(WithDefaults(d, req.template.GetOr("modern")))
  }

  /** A record that gives no field is rendered with the documented defaults. */
  lemma EmptyRecordDefaults(template: string)
    ensures WithDefaults(PortfolioData(None, None, None, None, None, None, None), template)
         == PortfolioParams("Your Name", "Professional Headline", "Your professional bio goes here.",
                            [], [], None, template, Some(VisualStyle(None, None, None, None)))
  {
  }

  /** A record that gives every field is passed through unchanged. */
  lemma GivenFieldsKept(p: PortfolioParams)
    requires p.visualStyle.Some?
    ensures WithDefaults(PortfolioData(Some(p.name), Some(p.headline), Some(p.bio), Some(p.skills),
                                       Some(p.projects), p.profileImage, p.visualStyle), p.template) == p
  {
  }

  // ---------------------------------------------------------------------------
  // Theme

  /** The theme after defaulting. */
  datatype Theme = Theme(themeColor: string, gradientStart: string, gradientEnd: string, fontStyle: string)

  const DefaultThemeColor := "#667eea"
  const DefaultGradientStart := "#1e3a5f"
  const DefaultGradientEnd := "#0f1c2e"
  const DefaultFontStyle := "modern"

  /** The theme of `visualStyle`: each missing or empty field takes its default. */
  function ResolveTheme(vs: Option<VisualStyle>): (t: Theme)
    ensures t.themeColor != "" && t.gradientStart != "" && t.gradientEnd != "" && t.fontStyle != ""
    ensures vs.None? ==> t == Theme(DefaultThemeColor, DefaultGradientStart, DefaultGradientEnd, DefaultFontStyle)
    ensures vs.Some? && Truthy(vs.value.themeColor) ==> t.themeColor == vs.value.themeColor.value
    ensures vs.Some? && !Truthy(vs.value.themeColor) ==> t.themeColor == DefaultThemeColor
    ensures vs.Some? && Truthy(vs.value.gradientStart) ==> t.gradientStart == vs.value.gradientStart.value
    ensures vs.Some? && !Truthy(vs.value.gradientStart) ==> t.gradientStart == DefaultGradientStart
    ensures vs.Some? && Truthy(vs.value.gradientEnd) ==> t.gradientEnd == vs.value.gradientEnd.value
    ensures vs.Some? && !Truthy(vs.value.gradientEnd) ==> t.gradientEnd == DefaultGradientEnd
    ensures vs.Some? && Truthy(vs.value.fontStyle) ==> t.fontStyle == vs.value.fontStyle.value
    ensures vs.Some? && !Truthy(vs.value.fontStyle) ==> t.fontStyle == DefaultFontStyle
  {
    var s := vs.GetOr(VisualStyle(None, None, None, None));
    Theme(
      OrElse(s.themeColor, DefaultThemeColor),
      OrElse(s.gradientStart, DefaultGradientStart),
      OrElse(s.gradientEnd, DefaultGradientEnd),
      OrElse(s.fontStyle, DefaultFontStyle))
  }

  /** A resolved theme, given back as a style, resolves to itself. */
  lemma ResolveThemeIdempotent(vs: Option<VisualStyle>)
    ensures var t := ResolveTheme(vs);
      ResolveTheme(Some(VisualStyle(Some(t.themeColor), Some(t.gradientStart), Some(t.gradientEnd), Some(t.fontStyle)))) == t
  {
  }

  const SansStack := "-apple-system, BlinkMacSystemFont, 'Segoe UI', Roboto, Oxygen, Ubuntu, sans-serif"
  const SerifStack := "'Georgia', serif"
  const MonoStack := "'Courier New', monospace"
  const PlayfulStack := "'Comic Sans MS', 'Chalkboard SE', sans-serif"

  /** The CSS font stack of a font style. The lookup is total: any style other
      than 'classic', 'tech' and 'playful' gets the system sans-serif stack. */
  function FontFamily(fontStyle: string): (f: string)
    ensures f in {SansStack, SerifStack, MonoStack, PlayfulStack}
    ensures f == SansStack <==> fontStyle !in {"classic", "tech", "playful"}
    ensures f == SerifStack <==> fontStyle == "classic"
    ensures f == MonoStack <==> fontStyle == "tech"
    ensures f == PlayfulStack <==> fontStyle == "playful"
  {
    if fontStyle == "playful" then PlayfulStack
    else if fontStyle == "tech" then MonoStack
    else if fontStyle == "classic" then SerifStack
    else SansStack
  }

  // ---------------------------------------------------------------------------
  // Project cards

  /** The label of card `index` (0-based): `String(index + 1).padStart(2, '0')`. */
  function CardNumber(index: nat): (numeral: string)
    ensures AllDigits(numeral) && DigitsValue(numeral) == index + 1
    ensures |numeral| >= 2
    ensures index + 1 < 10 ==> numeral == ['0'] + NatToString(index + 1)
    ensures index + 1 >= 10 ==> numeral == NatToString(index + 1)
  {
    var digits := NatToString(index + 1);
    DigitsValueOfNatToString(index + 1);
    DigitsValueLeadingZeros(if |digits| >= 2 then 0 else 2 - |digits|, digits);
    assert |digits| == 1 <==> index + 1 < 10 by {
      if index + 1 >= 10 {
        assert digits == NatToString((index + 1) / 10) + [DigitChar((index + 1) % 10)];
      }
    }
    PadStart(digits, 2, '0')
  }

  /** `images.slice(0, 3)`: the first three images, or all of them when fewer. */
  function ShownImages(images: seq<string>): (r: seq<string>)
    ensures |r| <= 3 && |r| <= |images| && r == images[..|r|]
    ensures |images| <= 3 ==> r == images
  {
    if |images| <= 3 then images else images[..3]
  }

  /** An attribute value interpolated from an optional field: a missing
      field prints as "undefined". */
  function Interpolated(field: Option<string>): string {
    field.GetOr("undefined")
  }

  function ImageTag(src: string, alt: string): string {
    "<img src=\"" + src + "\" alt=\"" + alt + "\" class=\"project-img\" />"
  }

  function SkillTag(skill: string): string {
    "<span class=\"skill-tag\">" + skill + "</span>"
  }

  /** The image column of a card, or nothing when the project has no images. */
  function ImagesHtml(p: ProjectInput): (html: string)
    ensures html == "" <==> p.images.GetOr([]) == []
  {
    var shown := ShownImages(p.images.GetOr([]));
    if |shown| > 0 then
      "<div class=\"project-images\">\n"
        + Join("", seq(|shown|, i requires 0 <= i < |shown| => ImageTag(shown[i], Interpolated(p.name))))
        + "\n</div>"
    else ""
  }

  /** The tools line of a card, or nothing when no tools are listed. */
  function ToolsHtml(p: ProjectInput): (html: string)
    ensures html == "" <==> p.toolsUsed.GetOr([]) == []
  {
    var tools := p.toolsUsed.GetOr([]);
    if |tools| > 0 then
      "<div class=\"tools\"><span class=\"tools-label\">Tools:</span> " + Join(", ", tools) + "</div>"
    else ""
  }

  /** The skill tags of a card, or nothing when the project lists no skills. */
  function SkillTagsHtml(p: ProjectInput): (html: string)
    ensures html == "" <==> p.skills.GetOr([]) == []
  {
    var skills := p.skills.GetOr([]);
    if |skills| > 0 then
      "<div class=\"project-skills\">"
        + Join("", seq(|skills|, i requires 0 <= i < |skills| => SkillTag(skills[i])))
        + "</div>"
    else ""
  }

  /** The title of a card: the project's name, or 'Untitled Project' when it
      is missing or empty; never empty. */
  function CardTitle(p: ProjectInput): (title: string)
    ensures title != ""
    ensures p.name.Some? && p.name.value != "" ==> title == p.name.value
    ensures !(p.name.Some? && p.name.value != "") ==> title == "Untitled Project"
  {
    OrElse(p.name, "Untitled Project")
  }

  /** Card number `index` of the project list. */
  function CardHtml(p: ProjectInput, index: nat): string {
    "\n<div class=\"project-card\">\n<div class=\"project-number\">" + CardNumber(index) + "</div>\n"
      + "<div class=\"project-content\">\n<h3 class=\"project-title\">" + CardTitle(p) + "</h3>\n"
      + "<p class=\"project-desc\">" + OrElse(p.description, "") + "</p>\n"
      + ToolsHtml(p) + "\n" + SkillTagsHtml(p) + "\n</div>\n" + ImagesHtml(p) + "\n</div>\n"
  }

  /** The cards, one per project and in order. */
  function Cards(projects: seq<ProjectInput>): (cards: seq<string>)
    ensures |cards| == |projects|
  {
    if projects == [] then []
    else Cards(projects[..|projects| - 1]) + [CardHtml(projects[|projects| - 1], |projects| - 1)]
  }

  /** The project cards joined. */
  function ProjectsHtml(projects: seq<ProjectInput>): string {
    Join("", Cards(projects))
  }

  /** Appending a project appends its card and keeps the others. */
  lemma CardsAppend(projects: seq<ProjectInput>, p: ProjectInput)
    ensures Cards(projects + [p]) == Cards(projects) + [CardHtml(p, |projects|)]
  {
    assert (projects + [p])[..|projects|] == projects;
  }

  /** Card `i` is the card of project `i`, numbered `i`. */
  lemma {:induction false} CardAt(projects: seq<ProjectInput>, i: nat)
    requires i < |projects|
    ensures Cards(projects)[i] == CardHtml(projects[i], i)
  {
    var n := |projects| - 1;
    var init := projects[..n];
    var c := CardHtml(projects[n], n);
    assert Cards(projects) == Cards(init) + [c];
    if i < n {
      CardAt(init, i);
      assert init[i] == projects[i];
      IndexLeft(Cards(init), [c], i);
    } else {
      assert i == n;
      IndexRight(Cards(init), [c], i);
    }
  }

  lemma IndexLeft(a: seq<string>, b: seq<string>, i: nat)
    requires i < |a|
    ensures (a + b)[i] == a[i]
  {
  }

  lemma IndexRight(a: seq<string>, b: seq<string>, i: nat)
    requires |a| <= i < |a| + |b|
    ensures (a + b)[i] == b[i - |a|]
  {
  }

  /** Adding a project adds exactly one card, numbered after the others, and
      leaves the earlier cards as they were. */
  lemma ProjectsHtmlAppend(projects: seq<ProjectInput>, p: ProjectInput)
    ensures ProjectsHtml(projects + [p]) == ProjectsHtml(projects) + CardHtml(p, |projects|)
  {
    CardsAppend(projects, p);
    ConcatAppend(Cards(projects), [CardHtml(p, |projects|)]);
  }

  /** The card of project `i` appears in the project list's markup. */
  lemma CardInProjectsHtml(projects: seq<ProjectInput>, i: nat)
    requires i < |projects|
    ensures Contains(ProjectsHtml(projects), CardHtml(projects[i], i))
  {
    var cards := Cards(projects);
    CardAt(projects, i);
    ConcatAt(cards, i);
    ContainsInner(Join("", cards[..i]), cards[i], Join("", cards[i + 1..]));
  }

  // ---------------------------------------------------------------------------
  // Header and skills

  /** The skills section, or nothing when there are no skills. */
  function SkillsSectionHtml(skills: seq<string>): (html: string)
    ensures html == "" <==> skills == []
  {
    if |skills| > 0 then
      "<div class=\"skills-section\">\n<h2>Skills</h2>\n<div class=\"skills-list\">\n"
        + Join("", seq(|skills|, i requires 0 <= i < |skills| => "<span class=\"skill-badge\">" + skills[i] + "</span>"))
        + "\n</div>\n</div>"
    else ""
  }

  /** `name.charAt(0).toUpperCase()`: the upper-cased first character, or
      nothing for an empty name. */
  function Initial(name: string): (r: string)
    ensures name == "" ==> r == ""
    ensures name != "" ==> |r| == 1 && r[0] == ToUpperAscii(name[0])
  {
    if name == "" then "" else [ToUpperAscii(name[0])]
  }

  function PlaceholderHtml(name: string): string {
    "<div class=\"profile-placeholder\">" + Initial(name) + "</div>"
  }

  /** The avatar: the profile image when it is present and non-empty,
      otherwise the initial-letter placeholder. */
  function AvatarHtml(profileImage: Option<string>, name: string): (html: string)
    ensures !Truthy(profileImage) ==> html == PlaceholderHtml(name)
    ensures Truthy(profileImage) ==> Contains(html, profileImage.value)
  {
    if Truthy(profileImage) then
      ContainsMiddle("<img src=\"", profileImage.value, "\" alt=\"" + name + "\" class=\"profile-image\" />");
      "<img src=\"" + profileImage.value + ("\" alt=\"" + name + "\" class=\"profile-image\" />")
    else PlaceholderHtml(name)
  }

  // ---------------------------------------------------------------------------
  // The page

  const StyleRuleCount := 27

  /** Rule `k` of the inline style sheet, parameterized by the theme. */
  function StyleRule(t: Theme, k: nat): string
    requires k < StyleRuleCount
  {
    var font := FontFamily(t.fontStyle);
    var c := t.themeColor;
    match k
    case 0 => "* { margin: 0; padding: 0; box-sizing: border-box; }\n"
    case 1 => "body { font-family: " + font + "; background: linear-gradient(135deg, " + t.gradientStart + " 0%, " + t.gradientEnd + " 100%); min-height: 100vh; color: #ffffff; padding: 60px; }\n"
    case 2 => ".container { max-width: 1080px; margin: 0 auto; }\n"
    case 3 => ".header { display: flex; align-items: center; gap: 40px; margin-bottom: 60px; padding: 40px; background: rgba(255, 255, 255, 0.05); border-radius: 24px; backdrop-filter: blur(10px); border-left: 5px solid " + c + "; }\n"
    case 4 => ".profile-image { width: 150px; height: 150px; border-radius: 50%; object-fit: cover; border: 4px solid rgba(255, 255, 255, 0.2); }\n"
    case 5 => ".profile-placeholder { width: 150px; height: 150px; border-radius: 50%; background: linear-gradient(135deg, " + c + " 0%, " + t.gradientEnd + " 100%); display: flex; align-items: center; justify-content: center; font-size: 60px; font-weight: bold; color: white; }\n"
    case 6 => ".header-info { flex: 1; }\n"
    case 7 => ".name { font-size: 42px; font-weight: 700; margin-bottom: 8px; background: linear-gradient(90deg, #fff 0%, " + c + " 100%); -webkit-background-clip: text; -webkit-text-fill-color: transparent; }\n"
    case 8 => ".headline { font-size: 22px; color: " + c + "; margin-bottom: 16px; filter: brightness(1.3); }\n"
    case 9 => ".bio { font-size: 16px; line-height: 1.7; color: rgba(255, 255, 255, 0.8); }\n"
    case 10 => ".skills-section { margin-bottom: 60px; }\n"
    case 11 => ".skills-section h2 { font-size: 28px; margin-bottom: 20px; color: #fff; border-bottom: 2px solid " + c + "; display: inline-block; padding-bottom: 5px; }\n"
    case 12 => ".skills-list { display: flex; flex-wrap: wrap; gap: 12px; }\n"
    case 13 => ".skill-badge { background: linear-gradient(135deg, " + c + " 0%, " + t.gradientEnd + " 100%); padding: 10px 20px; border-radius: 30px; font-size: 14px; font-weight: 500; border: 1px solid rgba(255,255,255,0.1); }\n"
    case 14 => ".projects-section h2 { font-size: 28px; margin-bottom: 30px; color: #fff; border-bottom: 2px solid " + c + "; display: inline-block; padding-bottom: 5px; }\n"
    case 15 => ".project-card { background: rgba(255, 255, 255, 0.05); border-radius: 20px; padding: 30px; margin-bottom: 30px; display: flex; gap: 30px; backdrop-filter: blur(10px); border: 1px solid rgba(255, 255, 255, 0.1); transition: transform 0.3s ease; }\n"
    case 16 => ".project-number { font-size: 48px; font-weight: 800; color: rgba(255, 255, 255, 0.05); line-height: 1; -webkit-text-stroke: 1px " + c + "; }\n"
    case 17 => ".project-content { flex: 1; }\n"
    case 18 => ".project-title { font-size: 24px; font-weight: 600; margin-bottom: 12px; color: #fff; }\n"
    case 19 => ".project-desc { font-size: 15px; line-height: 1.6; color: rgba(255, 255, 255, 0.7); margin-bottom: 16px; }\n"
    case 20 => ".tools { font-size: 13px; color: rgba(255, 255, 255, 0.6); margin-bottom: 12px; }\n"
    case 21 => ".tools-label { color: " + c + "; font-weight: 500; filter: brightness(1.3); }\n"
    case 22 => ".project-skills { display: flex; flex-wrap: wrap; gap: 8px; }\n"
    case 23 => ".skill-tag { background: rgba(255, 255, 255, 0.1); color: " + c + "; padding: 4px 12px; border-radius: 15px; font-size: 12px; filter: brightness(1.3); }\n"
    case 24 => ".project-images { display: flex; flex-direction: column; gap: 10px; max-width: 280px; }\n"
    case 25 => ".project-img { width: 100%; height: 120px; object-fit: cover; border-radius: 12px; border: 2px solid rgba(255, 255, 255, 0.1); }\n"
    case _ => ".footer { text-align: center; margin-top: 60px; padding-top: 40px; border-top: 1px solid rgba(255, 255, 255, 0.1); color: rgba(255, 255, 255, 0.4); font-size: 14px; }\n"
  }

  /** The rules from `k` on, in order. */
  function StyleRules(t: Theme, k: nat): string
    requires k <= StyleRuleCount
    decreases StyleRuleCount - k
  {
    if k == StyleRuleCount then "" else StyleRule(t, k) + StyleRules(t, k + 1)
  }

  /** The inline style sheet, parameterized by the theme. */
  function StyleSheet(t: Theme): string {
    StyleRules(t, 0)
  }

  /** Everything of the page before the avatar. */
  function PageStart(t: Theme): string {
    "\n<!DOCTYPE html>\n<html>\n<head>\n<meta charset=\"UTF-8\">\n<style>\n" + StyleSheet(t)
      + "</style>\n</head>\n<body>\n<div class=\"container\">\n<div class=\"header\">\n"
  }

  /** The name, headline and bio beside the avatar. */
  function HeaderInfo(name: string, headline: string, bio: string): string {
    "\n<div class=\"header-info\">\n<h1 class=\"name\">" + name + "</h1>\n<p class=\"headline\">" + headline
      + "</p>\n<p class=\"bio\">" + bio + "</p>\n</div>\n</div>\n"
  }

  /** The opening of the projects section. */
  function ProjectsOpen(): string {
    "\n<div class=\"projects-section\">\n<h2>Projects</h2>\n"
  }

  /** The end of the page after the project cards, with the footer. */
  function PageEnd(): string {
    "\n</div>\n<div class=\"footer\">\nGenerated by The Project Hub\n</div>\n</div>\n</body>\n</html>\n"
  }

  /** The page between the avatar and the project cards. */
  function PageIntro(p: PortfolioParams): string {
    HeaderInfo(p.name, p.headline, p.bio) + SkillsSectionHtml(p.skills) + ProjectsOpen()
  }

  /** Everything of the page before the project cards. */
  function PageHead(p: PortfolioParams): string {
    PageStart(ResolveTheme(p.visualStyle)) + AvatarHtml(p.profileImage, p.name) + PageIntro(p)
  }

  /** `generatePortfolioHTML`. The `template` argument is not used. */
  function PortfolioHtml(p: PortfolioParams): string {
    PageHead(p) + ProjectsHtml(p.projects) + PageEnd()
  }

  /** The template name never changes the page. */
  lemma TemplateIgnored(p: PortfolioParams, template: string)
    ensures PortfolioHtml(p.(template := template)) == PortfolioHtml(p)
  {
  }

  /** The avatar is part of the page. */
  lemma AvatarOnPage(p: PortfolioParams)
    ensures Contains(PortfolioHtml(p), AvatarHtml(p.profileImage, p.name))
  {
    HeadOnPage(p);
    AvatarInHead(p);
    ContainsTransitive(PortfolioHtml(p), PageHead(p), AvatarHtml(p.profileImage, p.name));
  }

  lemma HeadOnPage(p: PortfolioParams)
    ensures Contains(PortfolioHtml(p), PageHead(p))
  {
    ContainsFirst(PageHead(p), ProjectsHtml(p.projects), PageEnd());
  }

  lemma AvatarInHead(p: PortfolioParams)
    ensures Contains(PageHead(p), AvatarHtml(p.profileImage, p.name))
  {
    ContainsMiddle(PageStart(ResolveTheme(p.visualStyle)), AvatarHtml(p.profileImage, p.name), PageIntro(p));
  }

  /** Without a profile image (absent or empty) the page shows the
      placeholder holding the name's upper-cased initial. */
  lemma PlaceholderOnPage(p: PortfolioParams)
    requires !Truthy(p.profileImage)
    ensures Contains(PortfolioHtml(p), PlaceholderHtml(p.name))
  {
    AvatarOnPage(p);
  }

  /** With a profile image, its URL is on the page. */
  lemma ImageOnPage(p: PortfolioParams)
    requires Truthy(p.profileImage)
    ensures Contains(PortfolioHtml(p), p.profileImage.value)
  {
    AvatarOnPage(p);
    ContainsTransitive(PortfolioHtml(p), AvatarHtml(p.profileImage, p.name), p.profileImage.value);
  }

  /** The project cards are part of the page. */
  lemma ProjectsOnPage(p: PortfolioParams)
    ensures Contains(PortfolioHtml(p), ProjectsHtml(p.projects))
  {
    ContainsMiddle(PageHead(p), ProjectsHtml(p.projects), PageEnd());
  }

  /** Every project's card, with its number, is on the page. */
  lemma CardOnPage(p: PortfolioParams, i: nat)
    requires i < |p.projects|
    ensures Contains(PortfolioHtml(p), CardHtml(p.projects[i], i))
  {
    ProjectsOnPage(p);
    CardInProjectsHtml(p.projects, i);
    ContainsTransitive(PortfolioHtml(p), ProjectsHtml(p.projects), CardHtml(p.projects[i], i));
  }

  /** The worked example: the name "Ava" gives the placeholder letter "A". */
  lemma AvaPlaceholder()
    ensures PlaceholderHtml("Ava") == "<div class=\"profile-placeholder\">A</div>"
  {
  }
}
