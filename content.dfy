/**
 * The content records read from `works.json`, `writings.json` and the settings file,
 * and the field normalisers shared by the list pages and the detail pages.
 *
 * A JSON field that is missing or null is `None`; every field is otherwise a string.
 * The scripts coerce missing fields in two ways, both modelled here:
 *   - `value ?? ""` keeps an empty string and replaces only a missing one (`GetOr`);
 *   - `value || fallback` also replaces the empty string (`OrElse`).
 */
module Content {
  import opened Wrappers
  import opened JsString

  datatype Work = Work(
    slug: Option<string>,
    title: Option<string>,
    genre: Option<string>,
    status: Option<string>,
    synopsis: Option<string>,
    cover: Option<string>)

  datatype Writing = Writing(
    slug: Option<string>,
    title: Option<string>,
    category: Option<string>,
    date: Option<string>,
    content: Option<string>)

  /** The top level of `works.json`: `{ works: [...] }`, the list possibly missing. */
  datatype WorksDoc = WorksDoc(works: Option<seq<Work>>)

  /** The top level of `writings.json`: `{ writings: [...] }`. */
  datatype WritingsDoc = WritingsDoc(writings: Option<seq<Writing>>)

  /** The site settings: `{ site_title, meta_description }`. */
  datatype Settings = Settings(siteTitle: Option<string>, metaDescription: Option<string>)

  /** `data.works || []` */
  function WorkList(d: WorksDoc): seq<Work> {
    d.works.GetOr([])
  }

  /** `data.writings || []` */
  function WritingList(d: WritingsDoc): seq<Writing> {
    d.writings.GetOr([])
  }

  /** A string field is truthy when present and non-empty. */
  predicate Truthy(v: Option<string>) {
    v.Some? && v.value != ""
  }

  /** `value || fallback` on a string field. */
  function OrElse(v: Option<string>, fallback: string): (r: string)
    ensures Truthy(v) ==> r == v.value
    ensures !Truthy(v) ==> r == fallback
  {
    if Truthy(v) then v.value else fallback
  }

  /** `!(url && String(url).trim() !== "")`: missing, empty or only whitespace. */
  predicate IsBlank(v: Option<string>) {
    Trim(v.GetOr("")) == ""
  }

  /** `safeText(value, fallback)`: the trimmed field when anything but whitespace is
      left, otherwise the fallback. The result is never blank unless the fallback is,
      and it is always trimmed when the fallback is. */
  function SafeText(value: Option<string>, fallback: string): (r: string)
    ensures !IsBlank(value) ==> r == Trim(value.value) && r != "" && IsTrimmed(r)
    ensures IsBlank(value) ==> r == fallback
  {
    TrimSpec(value.GetOr(""));
    var v := Trim(value.GetOr(""));
    if v != "" then v else fallback
  }

  /** Applying `safeText` to its own result changes nothing when the fallback is
      already trimmed: the field normalisation is idempotent. */
  lemma SafeTextIdempotent(value: Option<string>, fallback: string)
    requires IsTrimmed(fallback)
    ensures SafeText(Some(SafeText(value, fallback)), fallback) == SafeText(value, fallback)
  {
    TrimFixedPoint(SafeText(value, fallback));
  }

  /** `getCover(url)` with the page's own default image: the url itself (untrimmed)
      when it is not blank, otherwise `defaultPath`. */
  function CoverOr(url: Option<string>, defaultPath: string): (r: string)
    ensures !IsBlank(url) ==> r == url.value
    ensures IsBlank(url) ==> r == defaultPath
  {
    if !IsBlank(url) then url.value else defaultPath
  }

  /** An image source chosen by `getCover` is never blank when the default is not. */
  lemma CoverNeverBlank(url: Option<string>, defaultPath: string)
    requires !IsBlank(Some(defaultPath))
    ensures !IsBlank(Some(CoverOr(url, defaultPath)))
  {
  }

  /** `formatDate(dateStr)`. A missing or empty date gives `""`; any other string is
      handed to the locale formatter `fmt`, which stands for `new Date(..)` followed by
      `toLocaleDateString("id-ID", ...)` (and the unreachable `catch`, which would
      return the input). */
  function FormatDate(date: Option<string>, fmt: string -> string): (r: string)
    ensures !Truthy(date) ==> r == ""
    ensures Truthy(date) ==> r == fmt(date.value)
  {
    if Truthy(date) then fmt(date.value) else ""
  }
}
