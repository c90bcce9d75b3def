/**
 * The list pages (`main.js`): the field normalisers, the work and writing cards, the
 * choice between failure notice, placeholder and cards for the two containers, and
 * the two DOM writes whose decision is worth stating (`setLink` and the tab title of
 * `applySettings`).
 */
module Site {
  import opened Wrappers
  import opened JsString
  import opened Content

  const CoverDefault := "assets/images/defaults/cover-default.jpg"

  /** `Utils.getCover(url)` of the list pages. */
  function GetCover(url: Option<string>): (r: string)
    ensures !IsBlank(url) ==> r == url.value
    ensures IsBlank(url) ==> r == CoverDefault
  {
    CoverOr(url, CoverDefault)
  }

  /** `Utils.truncate(text, max)`: the trimmed text when it fits in `max` characters,
      otherwise its first `max` characters followed by `"..."`; blank text gives `""`. */
  function Truncate(text: Option<string>, max: nat): (r: string)
    ensures r == "" <==> IsBlank(text)
    ensures var t := Trim(text.GetOr(""));
      && (|t| <= max ==> r == t)
      && (|t| > max ==> |r| == max + 3 && r[..max] == t[..max] && r[max..] == "...")
  {
    var t := Trim(text.GetOr(""));
    if t == "" then "" else if |t| <= max then t else t[..max] + "..."
  }

  /** Truncation never lengthens the text by more than the ellipsis. */
  lemma TruncateBounds(text: Option<string>, max: nat)
    ensures |Truncate(text, max)| <= max + 3
    ensures |Truncate(text, max)| <= |Trim(text.GetOr(""))| + 3
  {
  }

  /** Truncating a text that already fits changes nothing: `truncate` is idempotent on
      its short results. */
  lemma TruncateShortIdempotent(text: Option<string>, max: nat)
    requires |Trim(text.GetOr(""))| <= max
    ensures Truncate(Some(Truncate(text, max)), max) == Truncate(text, max)
  {
    TrimIdempotent(text.GetOr(""));
  }

  /** `safeText(slug, "").toLowerCase()`: the slug a card links to. */
  function CardSlug(slug: Option<string>): string {
    Lower(SafeText(slug, ""))
  }

  /** The detail link of a card: present exactly when the trimmed slug is non-empty,
      and then `pages/<folder>/<lower(trim(slug))>.html`. */
  function DetailLink(folder: string, slug: Option<string>): (r: Option<string>)
    ensures r.Some? <==> !IsBlank(slug)
    ensures r.Some? ==> r.value == "pages/" + folder + "/" + Lower(Trim(slug.value)) + ".html"
  {
    var s := CardSlug(slug);
    if s != "" then Some("pages/" + folder + "/" + s + ".html") else None
  }

  /** The values a work card is built from (`buildWorkCard`). */
  datatype WorkCard = WorkCard(
    cover: string, title: string, genre: string, status: string, synopsis: string,
    detailUrl: Option<string>)

  /** A text that trim leaves alone and that is not empty. */
  predicate Filled(s: string) {
    s != "" && IsTrimmed(s)
  }

  /** `safeText` with a filled fallback always gives a filled text. */
  lemma SafeTextFilled(value: Option<string>, fallback: string)
    requires Filled(fallback)
    ensures Filled(SafeText(value, fallback))
  {
  }

  /** `buildWorkCard(work)`: every text falls back to its fixed wording, the synopsis is
      truncated to 160 characters, and the detail button appears only for a non-blank
      slug. */
  function BuildWorkCard(w: Work): (r: WorkCard)
    ensures r.title == SafeText(w.title, "Judul belum diisi")
    ensures r.genre == SafeText(w.genre, "Genre belum diisi")
    ensures r.status == SafeText(w.status, "Ongoing")
    ensures r.title != "" && r.genre != "" && r.status != "" && r.synopsis != ""
    ensures r.synopsis == Truncate(Some(SafeText(w.synopsis, "Sinopsis belum ditulis.")), 160)
    ensures |r.synopsis| <= 163
    ensures r.cover == GetCover(w.cover)
    ensures r.detailUrl == DetailLink("works", w.slug)
  {
    var synopsis := SafeText(w.synopsis, "Sinopsis belum ditulis.");
    SafeTextFilled(w.synopsis, "Sinopsis belum ditulis.");
    TrimFixedPoint(synopsis);
    WorkCard(
      GetCover(w.cover),
      SafeText(w.title, "Judul belum diisi"),
      SafeText(w.genre, "Genre belum diisi"),
      SafeText(w.status, "Ongoing"),
      Truncate(Some(synopsis), 160),
      DetailLink("works", w.slug))
  }

  /** The detail button of a card, or nothing. */
  function Button(detailUrl: Option<string>, caption: string): string {
    match detailUrl
    case None => ""
    case Some(url) => "<a class=\"btn btn-primary\" href=\"" + url + "\">" + caption + "</a>"
  }

  /** The markup of a work card. */
  function RenderWorkCard(c: WorkCard): string {
    "\n      <article class=\"glass-card work-card\">\n        <div class=\"work-cover\">\n"
    + "          <img src=\"" + c.cover + "\" alt=\"" + c.title + "\" loading=\"lazy\" />\n"
    + "        </div>\n\n        <div class=\"work-meta\">\n"
    + "          <span class=\"badge\">\U{1F4CC} " + c.genre + "</span>\n"
    + "          <span class=\"badge\">\U{2705} " + c.status + "</span>\n"
    + "        </div>\n\n        <h3 class=\"work-title\">" + c.title + "</h3>\n"
    + "        <p class=\"work-desc\">" + c.synopsis + "</p>\n\n"
    + "        <div class=\"work-actions\">\n          "
    + Button(c.detailUrl, "\U{1F4D6} Detail")
    + "\n        </div>\n      </article>\n    "
  }

  /** The values a writing card is built from (`buildWritingCard`). `fmt` is the locale
      date formatter. */
  datatype WritingCard = WritingCard(
    title: string, category: string, date: string, body: string, detailUrl: Option<string>)

  const EmptyWriting := "Belum ada isi tulisan."

  /** `buildWritingCard(w)`: the category falls back to `"Umum"`, the body is the
      content truncated to 180 characters or the empty-writing notice, and the detail
      button appears only for a non-blank slug. */
  function BuildWritingCard(w: Writing, fmt: string -> string): (r: WritingCard)
    ensures r.title == SafeText(w.title, "Judul belum diisi")
    ensures r.category == SafeText(w.category, "Umum") && r.category != ""
    ensures r.date == FormatDate(w.date, fmt)
    ensures IsBlank(w.content) ==> r.body == EmptyWriting
    ensures !IsBlank(w.content) ==> r.body == Truncate(w.content, 180)
    ensures r.body != "" && |r.body| <= 183
    ensures r.detailUrl == DetailLink("writings", w.slug)
  {
    var content := SafeText(w.content, "");
    TrimIdempotent(w.content.GetOr(""));
    var body := Truncate(Some(content), 180);
    WritingCard(
      SafeText(w.title, "Judul belum diisi"),
      SafeText(w.category, "Umum"),
      FormatDate(w.date, fmt),
      if body != "" then body else EmptyWriting,
      DetailLink("writings", w.slug))
  }

  /** The meta line of a writing card: the date segment only for a non-empty date. */
  function WritingMeta(category: string, date: string): (r: string)
    ensures date == "" ==> r == "\U{1F5C2}\U{FE0F} " + category
    ensures date != "" ==> r == "\U{1F5C2}\U{FE0F} " + category + " \U{2022} \U{1F4C5} " + date
  {
    "\U{1F5C2}\U{FE0F} " + category + (if date != "" then " \U{2022} \U{1F4C5} " + date else "")
  }

  /** The markup of a writing card. */
  function RenderWritingCard(c: WritingCard): string {
    "\n      <article class=\"glass-card writing-card\">\n"
    + "        <h3 class=\"writing-title\">" + c.title + "</h3>\n"
    + "        <div class=\"writing-meta\">" + WritingMeta(c.category, c.date) + "</div>\n"
    + "        <div class=\"writing-body\">" + c.body + "</div>\n"
    + "        <div class=\"work-actions\" style=\"margin-top:12px;\">\n          "
    + Button(c.detailUrl, "\U{1F4C4} Baca")
    + "\n        </div>\n      </article>\n    "
  }

  /** `xs.map(render)`. */
  function Map<T>(xs: seq<T>, render: T -> string): (r: seq<string>)
    ensures |r| == |xs| && forall i :: 0 <= i < |xs| ==> r[i] == render(xs[i])
  {
    seq(|xs|, i requires 0 <= i < |xs| => render(xs[i]))
  }

  /** Mapping distributes over concatenation of the lists. */
  lemma MapAppend<T>(a: seq<T>, b: seq<T>, render: T -> string)
    ensures Map(a + b, render) == Map(a, render) + Map(b, render)
  {
    assert forall i :: 0 <= i < |a + b| ==> Map(a + b, render)[i] == (Map(a, render) + Map(b, render))[i];
  }

  function WorkCardHtml(w: Work): string {
    RenderWorkCard(BuildWorkCard(w))
  }

  function WritingCardHtml(w: Writing, fmt: string -> string): string {
    RenderWritingCard(BuildWritingCard(w, fmt))
  }

  /** The boxed message a container shows instead of cards. */
  function Notice(text: string): string {
    "<div class=\"glass-card\" style=\"padding:16px;\">" + text + "</div>"
  }

  /** What `initWorksPage` puts in `#works-container`: the failure notice when the
      file could not be loaded, the placeholder for a missing or empty list, otherwise
      one card per work in list order. */
  function WorksContainer(data: Option<WorksDoc>): string {
    if data.None? then Notice("Gagal memuat karya.")
    else if |WorkList(data.value)| == 0 then Notice("Belum ada karya.")
    else Join(Map(WorkList(data.value), WorkCardHtml), "")
  }

  /** What `initWritingsPage` puts in `#writings-container`. */
  function WritingsContainer(data: Option<WritingsDoc>, fmt: string -> string): string {
    if data.None? then Notice("Gagal memuat tulisan.")
    else if |WritingList(data.value)| == 0 then Notice("Belum ada tulisan.")
    else Join(Map(WritingList(data.value), w => WritingCardHtml(w, fmt)), "")
  }

  /** The cards keep the list order: the works container for `a + b` is the cards of
      `a` followed by the cards of `b`. */
  lemma WorksContainerAppend(a: seq<Work>, b: seq<Work>)
    requires a != [] && b != []
    ensures WorksContainer(Some(WorksDoc(Some(a + b))))
         == WorksContainer(Some(WorksDoc(Some(a)))) + WorksContainer(Some(WorksDoc(Some(b))))
  {
    MapAppend(a, b, WorkCardHtml);
    JoinEmptyAppend(Map(a, WorkCardHtml), Map(b, WorkCardHtml));
  }

  /** The same for the writings container. */
  lemma WritingsContainerAppend(a: seq<Writing>, b: seq<Writing>, fmt: string -> string)
    requires a != [] && b != []
    ensures WritingsContainer(Some(WritingsDoc(Some(a + b))), fmt)
         == WritingsContainer(Some(WritingsDoc(Some(a))), fmt) + WritingsContainer(Some(WritingsDoc(Some(b))), fmt)
  {
    var render := w => WritingCardHtml(w, fmt);
    MapAppend(a, b, render);
    JoinEmptyAppend(Map(a, render), Map(b, render));
  }

  /** One work gives exactly its own card. */
  lemma WorksContainerSingle(w: Work)
    ensures WorksContainer(Some(WorksDoc(Some([w])))) == WorkCardHtml(w)
  {
  }

  /** A DOM element, with the properties the list pages write. */
  class Element {
    var href: string
    var display: string
    var innerHTML: string
    var content: string

    constructor ()
      ensures href == "" && display == "" && innerHTML == "" && content == ""
    {
      href, display, innerHTML, content := "", "", "", "";
    }
  }

  /** `Utils.setLink(selector, url)` on the element the selector found (`null` when it
      found none): a non-blank url is shown as the link target, anything else hides the
      element and leaves its target alone. */
  method SetLink(el: Element?, url: Option<string>)
    modifies el
    ensures el != null && !IsBlank(url) ==> el.href == url.value && el.display == "inline-flex"
    ensures el != null && IsBlank(url) ==> el.href == old(el.href) && el.display == "none"
    ensures el != null ==> el.innerHTML == old(el.innerHTML) && el.content == old(el.content)
  {
    if el == null {
      return;
    }
    if !IsBlank(url) {
      el.href := url.value;
      el.display := "inline-flex";
    } else {
      el.display := "none";
    }
  }

  /** `initWorksPage()` on `#works-container` (`null` when the page has none). */
  method InitWorksPage(container: Element?, data: Option<WorksDoc>)
    modifies container
    ensures container != null ==> container.innerHTML == WorksContainer(data)
    ensures container != null ==>
      container.href == old(container.href) && container.display == old(container.display)
      && container.content == old(container.content)
  {
    if container == null {
      return;
    }
    if data.None? {
      container.innerHTML := Notice("Gagal memuat karya.");
      return;
    }
    var works := WorkList(data.value);
    if |works| == 0 {
      container.innerHTML := Notice("Belum ada karya.");
      return;
    }
    container.innerHTML := Join(Map(works, WorkCardHtml), "");
  }

  /** `initWritingsPage()` on `#writings-container`. */
  method InitWritingsPage(container: Element?, data: Option<WritingsDoc>, fmt: string -> string)
    modifies container
    ensures container != null ==> container.innerHTML == WritingsContainer(data, fmt)
    ensures container != null ==>
      container.href == old(container.href) && container.display == old(container.display)
      && container.content == old(container.content)
  {
    if container == null {
      return;
    }
    if data.None? {
      container.innerHTML := Notice("Gagal memuat tulisan.");
      return;
    }
    var writings := WritingList(data.value);
    if |writings| == 0 {
      container.innerHTML := Notice("Belum ada tulisan.");
      return;
    }
    container.innerHTML := Join(Map(writings, w => WritingCardHtml(w, fmt)), "");
  }

  /** The tab title after `applySettings`: a title that already holds `|` is kept,
      otherwise a truthy `site_title` replaces it. */
  function SettingsTitle(current: string, siteTitle: Option<string>): (r: string)
    ensures '|' in current ==> r == current
    ensures '|' !in current && Truthy(siteTitle) ==> r == siteTitle.value
    ensures !Truthy(siteTitle) ==> r == current
  {
    if Truthy(siteTitle) then (if '|' in current then current else siteTitle.value) else current
  }

  /** Applying the settings twice gives the same title as applying them once. */
  lemma SettingsTitleIdempotent(current: string, siteTitle: Option<string>)
    ensures SettingsTitle(SettingsTitle(current, siteTitle), siteTitle) == SettingsTitle(current, siteTitle)
  {
  }

  /** The document `applySettings` writes to: its title and the
      `meta[name="description"]` element, if the page has one. */
  class Document {
    var title: string
    var meta: Element?

    constructor (title: string, meta: Element?)
      ensures this.title == title && this.meta == meta
    {
      this.title := title;
      this.meta := meta;
    }
  }

  /** `applySettings()` with the loaded settings (`None` when they could not be read,
      in which case nothing changes). */
  method ApplySettings(doc: Document, settings: Option<Settings>)
    modifies doc, doc.meta
    ensures doc.meta == old(doc.meta)
    ensures settings.None? ==> doc.title == old(doc.title)
    ensures settings.Some? ==> doc.title == SettingsTitle(old(doc.title), settings.value.siteTitle)
    ensures doc.meta != null && settings.Some? && Truthy(settings.value.metaDescription)
      ==> doc.meta.content == settings.value.metaDescription.value
    ensures doc.meta != null && (settings.None? || !Truthy(settings.value.metaDescription)) ==>
      doc.meta.content == old(doc.meta.content)
    ensures doc.meta != null ==>
      doc.meta.href == old(doc.meta.href) && doc.meta.display == old(doc.meta.display)
      && doc.meta.innerHTML == old(doc.meta.innerHTML)
  {
    if settings.None? {
      return;
    }
    var s := settings.value;
    if Truthy(s.siteTitle) {
      doc.title := if '|' in doc.title then doc.title else s.siteTitle.value;
    }
    var metaDesc := doc.meta;
    if metaDesc != null && Truthy(s.metaDescription) {
      metaDesc.content := s.metaDescription.value;
    }
  }
}
