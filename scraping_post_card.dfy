/** The card that lists one web-scraping snippet. Like the general card it holds no state; it
    has no plugin-type badge and links to the detail page with the scraping flag. */
module ScrapingPostCard {
  import opened Js
  import PostCard

  datatype ScrapingPostCardProps = ScrapingPostCardProps(
    id: string,
    title: string,
    description: string,
    language: string,
    category: string,
    date: string,
    author: string,
    watermark: Option<string>,
    githubLink: Option<string>,
    whatsappLink: Option<string>)

  /** This card's own copy of `censorEmail`. */
  function CensorEmail(email: string): string
  {
    var parts := Split(email, '@');
    var username := parts[0];
    var domain := if |parts| >= 2 then Some(parts[1]) else None;
    Slice(username, 0, 3) + "...@" + Interpolate(domain)
  }

  /** Both cards censor every address the same way. */
  lemma CensorEmailAgrees(email: string)
    ensures CensorEmail(email) == PostCard.CensorEmail(email)
  {
  }

  /** The censored author always holds "...@", with at most three characters before it, and
      those are the first characters of the text before the first `@`. */
  lemma CensorEmailMarker(email: string)
    ensures var r := CensorEmail(email);
            var k := Min(3, |PostCard.LocalPart(email)|);
            k <= 3 && |r| >= k + 4 && r[..k] == PostCard.LocalPart(email)[..k] && r[k..k + 4] == "...@"
  {
    PostCard.CensorEmailMarker(email);
  }

  /** The link to the detail page, with the flag that selects the scraping collection. */
  function DetailHref(id: string): (href: string)
    ensures href == PostCard.DetailHref(id) + "?type=scraping"
    ensures href[..|PostCard.DetailHref(id)|] == PostCard.DetailHref(id)
  {
    "/posts/" + id + "?type=scraping"
  }

  /** A general card whose id ends in the scraping flag links where a scraping card does. */
  lemma DetailHrefCollision(id: string)
    ensures PostCard.DetailHref(id + "?type=scraping") == DetailHref(id)
  {
  }

  /** For an id without `?` no scraping card links to that general card's page. */
  lemma DetailHrefsDistinct(generalId: string, scrapingId: string)
    requires '?' !in generalId
    ensures PostCard.DetailHref(generalId) != DetailHref(scrapingId)
  {
    var general, scraping := PostCard.DetailHref(generalId), DetailHref(scrapingId);
    if |generalId| == |scrapingId| + |"?type=scraping"| {
      var flagAt := |"/posts/"| + |scrapingId|;
      assert general[flagAt] == generalId[|scrapingId|];
      assert scraping[flagAt] == '?';
    }
  }

  function Render(p: ScrapingPostCardProps): (v: PostCard.CardView)
    ensures v.heading == p.title && v.description == p.description
    ensures v.badges == [p.language, p.category]
    ensures v.byline == "By: " + CensorEmail(p.author)
    ensures v.watermarkLine.Some? <==> Truthy(p.watermark)
    ensures v.watermarkLine.Some? ==> v.watermarkLine.value == "Watermark: " + p.watermark.value
    ensures v.detailHref == DetailHref(p.id)
    ensures v.linkGroup.Some? <==> Truthy(p.githubLink) || Truthy(p.whatsappLink)
    ensures v.linkGroup.Some? ==> PostCard.ShowsGitHubButton(v) || PostCard.ShowsWhatsAppButton(v)
    ensures PostCard.ShowsGitHubButton(v) <==> Truthy(p.githubLink)
    ensures PostCard.ShowsWhatsAppButton(v) <==> Truthy(p.whatsappLink)
    ensures PostCard.ShowsGitHubButton(v) ==> v.linkGroup.value.github.value == p.githubLink.value
    ensures PostCard.ShowsWhatsAppButton(v) ==> v.linkGroup.value.whatsapp.value == p.whatsappLink.value
  {
    PostCard.CardView(
      p.title,
      p.description,
      [p.language, p.category],
      "By: " + CensorEmail(p.author),
      if Truthy(p.watermark) then Some("Watermark: " + p.watermark.value) else None,
      DetailHref(p.id),
      PostCard.Links(p.githubLink, p.whatsappLink))
  }
}
