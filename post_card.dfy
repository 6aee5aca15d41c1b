/** The card that lists one general snippet. It holds no state: what it shows is a function
    of its properties. */
module PostCard {
  import opened Js

  datatype PostCardProps = PostCardProps(
    id: string,
    title: string,
    description: string,
    language: string,
    category: string,
    pluginType: Option<string>,
    date: string,
    author: string,
    watermark: Option<string>,
    githubLink: Option<string>,
    whatsappLink: Option<string>)

  /** The group of external-link buttons: the href of each button that is shown. */
  datatype LinkGroup = LinkGroup(github: Option<string>, whatsapp: Option<string>)

  /** What a card shows, top to bottom (the localised date is not modelled). */
  datatype CardView = CardView(
    heading: string,
    description: string,
    badges: seq<string>,
    byline: string,
    watermarkLine: Option<string>,
    detailHref: string,
    linkGroup: Option<LinkGroup>)

  predicate ShowsGitHubButton(v: CardView)
  {
    v.linkGroup.Some? && v.linkGroup.value.github.Some?
  }

  predicate ShowsWhatsAppButton(v: CardView)
  {
    v.linkGroup.Some? && v.linkGroup.value.whatsapp.Some?
  }

  /** The text of an address before its first `@` (all of it when there is none). */
  function LocalPart(email: string): string
  {
    email[..IndexOf(email, '@')]
  }

  /** The text between the first and the second `@`, or `undefined` when there is no `@`. */
  function DomainPart(email: string): Option<string>
  {
    var i := IndexOf(email, '@');
    if i == |email| then None
    else
      var rest := email[i + 1..];
      Some(rest[..IndexOf(rest, '@')])
  }

  /** `censorEmail`: split the address on `@`, keep the first two pieces, and show at most
      three characters of the first, then "...@", then the second. */
  function CensorEmail(email: string): string
  {
    var parts := Split(email, '@');
    var username := parts[0];
    var domain := if |parts| >= 2 then Some(parts[1]) else None;
    Slice(username, 0, 3) + "...@" + Interpolate(domain)
  }

  /** The censored address is built from the text before the first `@` and the text between
      the first and the second `@`. */
  lemma CensorEmailByFirstAt(email: string)
    ensures CensorEmail(email) == Slice(LocalPart(email), 0, 3) + "...@" + Interpolate(DomainPart(email))
  {
    SplitAtFirst(email, '@');
    var i := IndexOf(email, '@');
    if i < |email| {
      SplitAtFirst(email[i + 1..], '@');
      var parts := Split(email, '@');
      assert parts[1] == parts[1..][0];
    }
  }

  /** The marker "...@" always appears, preceded by the first (at most three) characters of
      the local part and nothing else. */
  lemma CensorEmailMarker(email: string)
    ensures var r := CensorEmail(email);
            var k := Min(3, |LocalPart(email)|);
            k <= 3 && |r| >= k + 4 && r[..k] == LocalPart(email)[..k] && r[k..k + 4] == "...@"
  {
    CensorEmailByFirstAt(email);
  }

  /** A local part shorter than three characters is shown whole. */
  lemma CensorEmailShortLocal(email: string)
    requires |LocalPart(email)| < 3
    ensures CensorEmail(email) == LocalPart(email) + "...@" + Interpolate(DomainPart(email))
  {
    CensorEmailByFirstAt(email);
  }

  /** An ordinary address: the first three characters of the local part, "...@", the domain. */
  lemma CensorEmailWellFormed(local: string, domain: string)
    requires '@' !in local && '@' !in domain
    ensures CensorEmail(local + "@" + domain) == Slice(local, 0, 3) + "...@" + domain
  {
    var email := local + "@" + domain;
    CensorEmailByFirstAt(email);
    IndexOfAfterFree(local, '@', domain);
    assert email[|local| + 1..] == domain;
    assert email[..|local|] == local;
  }

  /** Everything from a second `@` on is dropped. */
  lemma CensorEmailDropsAfterSecondAt(local: string, domain: string, tail: string)
    requires '@' !in local && '@' !in domain
    ensures CensorEmail(local + "@" + domain + "@" + tail) == CensorEmail(local + "@" + domain)
  {
    var email := local + "@" + domain + "@" + tail;
    assert email == local + ['@'] + (domain + "@" + tail);
    CensorEmailByFirstAt(email);
    IndexOfAfterFree(local, '@', domain + "@" + tail);
    assert email[..|local|] == local;
    var rest := email[|local| + 1..];
    assert rest == domain + ['@'] + tail;
    IndexOfAfterFree(domain, '@', tail);
    assert rest[..|domain|] == domain;
    CensorEmailWellFormed(local, domain);
  }

  /** Without any `@` the domain slot holds `undefined`, which the template prints as text. */
  lemma CensorEmailNoAt(email: string)
    requires '@' !in email
    ensures CensorEmail(email) == Slice(email, 0, 3) + "...@" + "undefined"
  {
    CensorEmailByFirstAt(email);
  }

  /** The link to the snippet's detail page. */
  function DetailHref(id: string): (href: string)
    ensures |href| == |"/posts/"| + |id|
    ensures href[..|"/posts/"|] == "/posts/" && href[|"/posts/"|..] == id
  {
    "/posts/" + id
  }

  /** Distinct snippets link to distinct detail pages. */
  lemma DetailHrefInjective(a: string, b: string)
    requires DetailHref(a) == DetailHref(b)
    ensures a == b
  {
    assert a == DetailHref(a)[|"/posts/"|..];
  }

  /** The buttons group of a card: shown when either link is set, each button only when its
      own link is. */
  function Links(github: Option<string>, whatsapp: Option<string>): (g: Option<LinkGroup>)
    ensures g.Some? <==> Truthy(github) || Truthy(whatsapp)
    ensures g.Some? ==> (g.value.github.Some? <==> Truthy(github)) && (g.value.whatsapp.Some? <==> Truthy(whatsapp))
    ensures g.Some? && g.value.github.Some? ==> g.value.github == github
    ensures g.Some? && g.value.whatsapp.Some? ==> g.value.whatsapp == whatsapp
  {
    if Truthy(github) || Truthy(whatsapp) then
      Some(LinkGroup(
        if Truthy(github) then Some(github.value) else None,
        if Truthy(whatsapp) then Some(whatsapp.value) else None))
    else None
  }

  function Render(p: PostCardProps): (v: CardView)
    ensures v.heading == p.title && v.description == p.description
    ensures |v.badges| >= 2 && v.badges[..2] == [p.language, p.category]
    ensures |v.badges| == 3 <==> Truthy(p.pluginType)
    ensures |v.badges| == 3 ==> v.badges[2] == p.pluginType.value
    ensures |v.badges| <= 3
    ensures v.byline == "By: " + CensorEmail(p.author)
    ensures v.watermarkLine.Some? <==> Truthy(p.watermark)
    ensures v.watermarkLine.Some? ==> v.watermarkLine.value == "Watermark: " + p.watermark.value
    ensures v.detailHref == DetailHref(p.id)
    ensures v.linkGroup.Some? <==> Truthy(p.githubLink) || Truthy(p.whatsappLink)
    ensures v.linkGroup.Some? ==> ShowsGitHubButton(v) || ShowsWhatsAppButton(v)
    ensures ShowsGitHubButton(v) <==> Truthy(p.githubLink)
    ensures ShowsWhatsAppButton(v) <==> Truthy(p.whatsappLink)
    ensures ShowsGitHubButton(v) ==> v.linkGroup.value.github.value == p.githubLink.value
    ensures ShowsWhatsAppButton(v) ==> v.linkGroup.value.whatsapp.value == p.whatsappLink.value
  {
    CardView(
      p.title,
      p.description,
      [p.language, p.category] + (if Truthy(p.pluginType) then [p.pluginType.value] else []),
      "By: " + CensorEmail(p.author),
      if Truthy(p.watermark) then Some("Watermark: " + p.watermark.value) else None,
      DetailHref(p.id),
      Links(p.githubLink, p.whatsappLink))
  }
}
