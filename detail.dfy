/**
 * The detail pages (`detail.js`): the slug taken from the page's own file name, the
 * first-match lookup of the record, the fields shown for a found work or writing, the
 * not-found notice, and the dispatch on the page type.
 */
module Detail {
  import opened Wrappers
  import opened JsString
  import opened Content

  const CoverDefault := "../../assets/images/defaults/cover-default.jpg"

  /** `Utils.getCover(url)` of the detail pages, two folders further down. */
  function GetCover(url: Option<string>): (r: string)
    ensures !IsBlank(url) ==> r == url.value
    ensures IsBlank(url) ==> r == CoverDefault
  {
    CoverOr(url, CoverDefault)
  }

  /** `path.split("/").pop() || ""`: the part of the path after its last `/` (all of
      it when there is none). */
  function LastSegment(path: string): (r: string)
    ensures '/' !in r
    ensures |r| <= |path| && r == path[|path| - |r|..]
    ensures |r| < |path| ==> path[|path| - |r| - 1] == '/'
  {
    if path == [] then []
    else if path[|path| - 1] == '/' then []
    else
      var p := path[..|path| - 1];
      assert path == p + [path[|path| - 1]];
      LastSegment(p) + [path[|path| - 1]]
  }

  /** `getSlugFromFilename()`: the last path segment, with the FIRST `".html"` in it
      removed wherever it occurs, lowercased. */
  function GetSlugFromFilename(path: string): string {
    Lower(ReplaceFirst(LastSegment(path), ".html", ""))
  }

  /** The last segment of `prefix + "/" + seg` is `seg` when `seg` holds no `/`. */
  lemma {:induction false} LastSegmentAfterSlash(prefix: string, seg: string)
    requires '/' !in seg
    ensures LastSegment(prefix + "/" + seg) == seg
    decreases |seg|
  {
    if seg == [] {
      assert prefix + "/" + seg == prefix + "/";
    } else {
      var s' := seg[..|seg| - 1];
      assert (prefix + "/" + seg)[..|prefix + "/" + seg| - 1] == prefix + "/" + s';
      LastSegmentAfterSlash(prefix, s');
      assert seg == s' + [seg[|seg| - 1]];
    }
  }

  /** In `a + ".html" + b` with no `.` in `a`, the first `".html"` is the one after `a`. */
  lemma FirstHtmlAfter(a: string, b: string)
    requires '.' !in a
    ensures ReplaceFirst(a + ".html" + b, ".html", "") == a + b
  {
    var s := a + ".html" + b;
    assert s[|a|..|a| + 5] == ".html";
    forall k: nat | k < |a| ensures !OccursAt(s, ".html", k) {
      assert s[k] == a[k];
      if k + 5 <= |s| {
        assert s[k..k + 5][0] == s[k];
      }
    }
    ReplaceFirstAt(s, ".html", "", |a|);
    assert s[..|a|] == a && s[|a| + 5..] == b;
  }

  /** The page `<dir>/<name>.html<rest>` reads its slug as `lower(name + rest)`: the
      first `".html"` is removed even when it is not at the end. */
  lemma SlugOfPath(dir: string, name: string, rest: string)
    requires '/' !in name && '.' !in name && '/' !in rest
    ensures GetSlugFromFilename(dir + "/" + name + ".html" + rest) == Lower(name + rest)
  {
    assert dir + "/" + name + ".html" + rest == dir + "/" + (name + ".html" + rest);
    LastSegmentAfterSlash(dir, name + ".html" + rest);
    FirstHtmlAfter(name, rest);
  }

  /** A page named after a lowercase name without `/` or `.` reads that name back as
      its slug. */
  lemma SlugOfPage(dir: string, name: string)
    requires '/' !in name && '.' !in name && NoUpper(name)
    ensures GetSlugFromFilename(dir + "/" + name + ".html") == name
  {
    SlugOfPath(dir, name, "");
    assert name + "" == name;
    assert dir + "/" + name + ".html" + "" == dir + "/" + name + ".html";
    LowerProperties(name);
  }

  /** `/pages/works/sunset.html` is the page of `"sunset"`. */
  lemma SunsetPage()
    ensures GetSlugFromFilename("/pages/works" + "/" + "sunset" + ".html") == "sunset"
  {
    SlugOfPage("/pages/works", "sunset");
  }

  /** A path that ends in `/` has the empty slug. */
  lemma SlugOfDirectory(dir: string)
    ensures GetSlugFromFilename(dir + "/") == ""
  {
    assert LastSegment(dir + "/") == [];
  }

  /** `(x.slug || "").toLowerCase()`: the key a record is looked up by. The raw slug is
      neither trimmed nor normalised. */
  function Key(slug: Option<string>): string {
    Lower(OrElse(slug, ""))
  }

  /** `list.find(x => key(x) === slug)`, as the index of the found record. */
  function FirstMatch(keys: seq<string>, slug: string): (r: Option<nat>)
    ensures r.Some? ==> r.value < |keys| && keys[r.value] == slug
    ensures forall k :: 0 <= k < |keys| && (r.None? || k < r.value) ==> keys[k] != slug
  {
    if keys == [] then None
    else if keys[0] == slug then Some(0)
    else match FirstMatch(keys[1..], slug)
      case None => None
      case Some(i) => Some(i + 1)
  }

  function WorkKeys(ws: seq<Work>): (r: seq<string>)
    ensures |r| == |ws| && forall i :: 0 <= i < |ws| ==> r[i] == Key(ws[i].slug)
  {
    seq(|ws|, i requires 0 <= i < |ws| => Key(ws[i].slug))
  }

  function WritingKeys(ws: seq<Writing>): (r: seq<string>)
    ensures |r| == |ws| && forall i :: 0 <= i < |ws| ==> r[i] == Key(ws[i].slug)
  {
    seq(|ws|, i requires 0 <= i < |ws| => Key(ws[i].slug))
  }

  /** The cover image of a work page. */
  datatype Image = Image(src: string, alt: string)

  /** What a detail page shows: the not-found notice for `what`, or the fields of the
      record found. */
  datatype DetailView =
    | NotFound(what: string)
    | WorkView(docTitle: string, title: string, genre: string, status: string,
               synopsis: string, cover: Image)
    | WritingView(docTitle: string, title: string, meta: string, content: string)

  const SiteSuffix := " | Titik Fiksi"

  /** The fields `initWorkDetail` writes for the work found. The tab title uses the raw
      title (`title || "Detail Novel"`), the heading the trimmed one. */
  function WorkFields(w: Work): DetailView {
    WorkView(
      OrElse(w.title, "Detail Novel") + SiteSuffix,
      SafeText(w.title, "Judul belum diisi"),
      "\U{1F4CC} " + SafeText(w.genre, "Genre belum diisi"),
      "\U{2705} " + SafeText(w.status, "Ongoing"),
      SafeText(w.synopsis, "Sinopsis belum ditulis."),
      Image(GetCover(w.cover), OrElse(w.title, "Cover")))
  }

  /** The writing's meta line: the category, then `" • " + date` only for a non-empty
      formatted date. */
  function WritingMetaLine(category: string, date: string): (r: string)
    ensures date == "" ==> r == category
    ensures date != "" ==> r == category + " \U{2022} " + date
  {
    category + (if date != "" then " \U{2022} " + date else "")
  }

  /** The fields `initWritingDetail` writes for the writing found. */
  function WritingFields(w: Writing, fmt: string -> string): DetailView {
    WritingView(
      OrElse(w.title, "Detail Tulisan") + SiteSuffix,
      SafeText(w.title, "Judul belum diisi"),
      WritingMetaLine(SafeText(w.category, "Umum"), FormatDate(w.date, fmt)),
      SafeText(w.content, "Belum ada isi tulisan."))
  }

  /** A found work never shows an empty heading, badge text or synopsis, and its tab
      title is the raw title, or `"Detail Novel"`, followed by the site name. */
  lemma WorkFieldsFilled(w: Work)
    ensures var v := WorkFields(w);
      && v.title != "" && v.genre != "" && v.status != "" && v.synopsis != ""
      && v.cover.src != "" && v.cover.alt != ""
      && v.docTitle[|v.docTitle| - |SiteSuffix|..] == SiteSuffix
      && (Truthy(w.title) ==> v.docTitle == w.title.value + SiteSuffix)
      && (!Truthy(w.title) ==> v.docTitle == "Detail Novel" + SiteSuffix)
  {
  }

  /** The same for a found writing, whose tab title falls back to `"Detail Tulisan"`. */
  lemma WritingFieldsFilled(w: Writing, fmt: string -> string)
    ensures var v := WritingFields(w, fmt);
      && v.title != "" && v.meta != "" && v.content != ""
      && v.docTitle[|v.docTitle| - |SiteSuffix|..] == SiteSuffix
      && (Truthy(w.title) ==> v.docTitle == w.title.value + SiteSuffix)
      && (!Truthy(w.title) ==> v.docTitle == "Detail Tulisan" + SiteSuffix)
  {
  }

  /** `initWorkDetail()` as the view it produces: not-found when the works could not be
      loaded or no record's key equals the page slug, otherwise the fields of the FIRST
      record whose key matches. */
  function WorkDetail(slug: string, data: Option<WorksDoc>): (v: DetailView)
    ensures v.NotFound? <==> data.None? || slug !in WorkKeys(WorkList(data.value))
    ensures v.NotFound? ==> v.what == "novel"
    ensures !v.NotFound? ==> v.WorkView?
  {
    if data.None? then NotFound("novel")
    else
      var works := WorkList(data.value);
      match FirstMatch(WorkKeys(works), slug)
      case None => NotFound("novel")
      case Some(i) => WorkFields(works[i])
  }

  /** `initWritingDetail()` as the view it produces. */
  function WritingDetail(slug: string, data: Option<WritingsDoc>, fmt: string -> string): (v: DetailView)
    ensures v.NotFound? <==> data.None? || slug !in WritingKeys(WritingList(data.value))
    ensures v.NotFound? ==> v.what == "tulisan"
    ensures !v.NotFound? ==> v.WritingView?
  {
    if data.None? then NotFound("tulisan")
    else
      var writings := WritingList(data.value);
      match FirstMatch(WritingKeys(writings), slug)
      case None => NotFound("tulisan")
      case Some(i) => WritingFields(writings[i], fmt)
  }

  /** The lookup takes the first matching work, whatever follows it. */
  lemma WorkDetailFirst(slug: string, works: seq<Work>, i: nat)
    requires i < |works| && Key(works[i].slug) == slug
    requires forall k :: 0 <= k < i ==> Key(works[k].slug) != slug
    ensures WorkDetail(slug, Some(WorksDoc(Some(works)))) == WorkFields(works[i])
  {
    var r := FirstMatch(WorkKeys(works), slug);
    assert r.Some? && r.value == i by {
      assert WorkKeys(works)[i] == slug;
    }
  }

  /** The lookup takes the first matching writing. */
  lemma WritingDetailFirst(slug: string, writings: seq<Writing>, i: nat, fmt: string -> string)
    requires i < |writings| && Key(writings[i].slug) == slug
    requires forall k :: 0 <= k < i ==> Key(writings[k].slug) != slug
    ensures WritingDetail(slug, Some(WritingsDoc(Some(writings))), fmt) == WritingFields(writings[i], fmt)
  {
    var r := FirstMatch(WritingKeys(writings), slug);
    assert r.Some? && r.value == i by {
      assert WritingKeys(writings)[i] == slug;
    }
  }

  /** The notice of `showNotFound(type)`. */
  function NotFoundHtml(what: string): string {
    "\n      <div class=\"glass-card\" style=\"padding:18px;\">\n"
    + "        <h2 style=\"margin-top:0;\">Konten tidak ditemukan</h2>\n"
    + "        <p style=\"color: var(--muted); line-height:1.7;\">\n"
    + "          Maaf, " + what + " ini belum tersedia atau slug tidak cocok dengan JSON.\n"
    + "        </p>\n"
    + "        <a href=\"../../index.html\" class=\"btn btn-primary\">\U{2B05}\U{FE0F} Kembali ke Beranda</a>\n"
    + "      </div>\n    "
  }

  /** What `#detail-box` holds: the markup the page was served with, or the not-found
      notice for a kind of content, whose markup is `NotFoundHtml(what)`. */
  datatype BoxContent = Served(html: string) | NotFoundNotice(what: string)

  function BoxHtml(b: BoxContent): string {
    match b
    case Served(html) => html
    case NotFoundNotice(what) => NotFoundHtml(what)
  }

  /** The elements whose text the detail scripts set, by their `id`. */
  datatype FieldId =
    | WorkTitleId | WorkGenreId | WorkStatusId | WorkSynopsisId
    | WritingTitleId | WritingMetaId | WritingContentId

  function ElementId(f: FieldId): string {
    match f
    case WorkTitleId => "work-title"
    case WorkGenreId => "work-genre"
    case WorkStatusId => "work-status"
    case WorkSynopsisId => "work-synopsis"
    case WritingTitleId => "writing-title"
    case WritingMetaId => "writing-meta"
    case WritingContentId => "writing-content"
  }

  /** The parts of a detail page the script writes: the tab title, the `#detail-box`
      content (absent on a page without the box), the text of the elements present on
      the page, and the cover image, if the page has one. */
  datatype PageState = PageState(
    title: string, box: Option<BoxContent>, fields: map<FieldId, string>, cover: Option<Image>)

  /** `setText(id, v)` / `setHTML(id, v)`: a missing element is skipped. */
  function SetField(fields: map<FieldId, string>, id: FieldId, value: string): (r: map<FieldId, string>)
    ensures r.Keys == fields.Keys
    ensures id in fields ==> r[id] == value
    ensures forall k :: k in fields && k != id ==> r[k] == fields[k]
  {
    if id in fields then fields[id := value] else fields
  }

  /** The page after the view is shown. The not-found notice replaces the box's markup
      and writes no field, title or cover (which elements sit inside the box is not part
      of the page state); a found record fills its fields and the tab title. */
  function Shown(s: PageState, v: DetailView): PageState {
    match v
    case NotFound(what) =>
      s.(box := if s.box.Some? then Some(NotFoundNotice(what)) else None)
    case WorkView(docTitle, title, genre, status, synopsis, cover) =>
      var f := SetField(SetField(SetField(SetField(s.fields,
        WorkTitleId, title), WorkGenreId, genre), WorkStatusId, status), WorkSynopsisId, synopsis);
      PageState(docTitle, s.box, f, if s.cover.Some? then Some(cover) else None)
    case WritingView(docTitle, title, meta, content) =>
      var f := SetField(SetField(SetField(s.fields,
        WritingTitleId, title), WritingMetaId, meta), WritingContentId, content);
      PageState(docTitle, s.box, f, s.cover)
  }

  /** When nothing is found, no detail field is populated and the title stays. */
  lemma NotFoundPopulatesNothing(s: PageState, what: string)
    ensures Shown(s, NotFound(what)).fields == s.fields
    ensures Shown(s, NotFound(what)).title == s.title
    ensures Shown(s, NotFound(what)).cover == s.cover
    ensures s.box.Some? <==> Shown(s, NotFound(what)).box == Some(NotFoundNotice(what))
  {
  }

  /** The detail page in the browser. */
  class DetailPage {
    var title: string
    var box: Option<BoxContent>
    var fields: map<FieldId, string>
    var cover: Option<Image>

    constructor (title: string, box: Option<BoxContent>, fields: map<FieldId, string>, cover: Option<Image>)
      ensures State() == PageState(title, box, fields, cover)
    {
      this.title, this.box, this.fields, this.cover := title, box, fields, cover;
    }

    function State(): PageState
      reads this
    {
      PageState(title, box, fields, cover)
    }

    method SetText(id: FieldId, value: string)
      modifies this
      ensures fields == SetField(old(fields), id, value)
      ensures title == old(title) && box == old(box) && cover == old(cover)
    {
      if id in fields {
        fields := fields[id := value];
      }
    }

    /** `showNotFound(type)`. */
    method ShowNotFound(what: string)
      modifies this
      ensures State() == Shown(old(State()), NotFound(what))
    {
      if box.Some? {
        box := Some(NotFoundNotice(what));
      }
    }

    /** `initWorkDetail()`, with the location's path and the loaded `works.json`. */
    method InitWorkDetail(path: string, data: Option<WorksDoc>)
      modifies this
      ensures State() == Shown(old(State()), WorkDetail(GetSlugFromFilename(path), data))
    {
      var slug := GetSlugFromFilename(path);
      if data.None? {
        ShowNotFound("novel");
        return;
      }
      var works := WorkList(data.value);
      var found := FirstMatch(WorkKeys(works), slug);
      if found.None? {
        ShowNotFound("novel");
        return;
      }
      ShowWork(works[found.value]);
    }

    /** The part of `initWorkDetail()` after the work was found. */
    method ShowWork(work: Work)
      modifies this
      ensures State() == Shown(old(State()), WorkFields(work))
    {
      title := OrElse(work.title, "Detail Novel") + SiteSuffix;
      SetText(WorkTitleId, SafeText(work.title, "Judul belum diisi"));
      SetText(WorkGenreId, "\U{1F4CC} " + SafeText(work.genre, "Genre belum diisi"));
      SetText(WorkStatusId, "\U{2705} " + SafeText(work.status, "Ongoing"));
      SetText(WorkSynopsisId, SafeText(work.synopsis, "Sinopsis belum ditulis."));
      if cover.Some? {
        cover := Some(Image(GetCover(work.cover), OrElse(work.title, "Cover")));
      }
    }

    /** `initWritingDetail()`, with the location's path, the loaded `writings.json` and
        the date formatter. */
    method InitWritingDetail(path: string, data: Option<WritingsDoc>, fmt: string -> string)
      modifies this
      ensures State() == Shown(old(State()), WritingDetail(GetSlugFromFilename(path), data, fmt))
    {
      var slug := GetSlugFromFilename(path);
      if data.None? {
        ShowNotFound("tulisan");
        return;
      }
      var writings := WritingList(data.value);
      var found := FirstMatch(WritingKeys(writings), slug);
      if found.None? {
        ShowNotFound("tulisan");
        return;
      }
      ShowWriting(writings[found.value], fmt);
    }

    /** The part of `initWritingDetail()` after the writing was found. */
    method ShowWriting(writing: Writing, fmt: string -> string)
      modifies this
      ensures State() == Shown(old(State()), WritingFields(writing, fmt))
    {
      title := OrElse(writing.title, "Detail Tulisan") + SiteSuffix;
      SetText(WritingTitleId, SafeText(writing.title, "Judul belum diisi"));
      var category := SafeText(writing.category, "Umum");
      var date := FormatDate(writing.date, fmt);
      SetText(WritingMetaId, WritingMetaLine(category, date));
      SetText(WritingContentId, SafeText(writing.content, "Belum ada isi tulisan."));
    }

    /** `init()`: only the page types `"work"` and `"writing"` do anything. */
    method Init(pageType: Option<string>, path: string, works: Option<WorksDoc>,
                writings: Option<WritingsDoc>, fmt: string -> string)
      modifies this
      ensures State() == match InitView(pageType, path, works, writings, fmt)
                         case None => old(State())
                         case Some(v) => Shown(old(State()), v)
    {
      if pageType == Some("work") {
        InitWorkDetail(path, works);
      }
      if pageType == Some("writing") {
        InitWritingDetail(path, writings, fmt);
      }
    }
  }

  /** The view `init()` shows for the page type, or `None` when it does nothing. */
  function InitView(pageType: Option<string>, path: string, works: Option<WorksDoc>,
                    writings: Option<WritingsDoc>, fmt: string -> string): (r: Option<DetailView>)
    ensures r.Some? <==> pageType == Some("work") || pageType == Some("writing")
    ensures pageType == Some("work") ==> r.value.WorkView? || r.value == NotFound("novel")
    ensures pageType == Some("writing") ==> r.value.WritingView? || r.value == NotFound("tulisan")
  {
    if pageType == Some("work") then Some(WorkDetail(GetSlugFromFilename(path), works))
    else if pageType == Some("writing") then Some(WritingDetail(GetSlugFromFilename(path), writings, fmt))
    else None
  }
}
