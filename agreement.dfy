/**
 * How the three scripts agree on slugs. The generator names each page file after the
 * NORMALISED slug (`safeSlug`), while the list pages link to, and the detail page
 * looks records up by, the slug only trimmed and lowercased (cards) or only lowercased
 * (lookup). The lemmas here say exactly when the link, the file and the lookup meet.
 */
module SlugAgreement {
  import opened Wrappers
  import opened JsString
  import opened Content
  import opened Generator
  import opened Site
  import opened Detail

  /** A string whose lowercase form is a slug is turned by the one-pass slugify into
      exactly that lowercase form. */
  lemma {:induction false} SlugifyOfLowerSlug(t: string)
    requires IsSlug(Lower(t))
    ensures Slugify(t) == Lower(t)
    decreases |t|
  {
    if t != [] {
      var c := LowerChar(t[0]);
      assert c == Lower(t)[0];
      assert IsSlugChar(c);
      assert Lower(t[1..]) == Lower(t)[1..];
      SlugifyOfLowerSlug(t[1..]);
      assert Lower(t) == [c] + Lower(t)[1..];
    }
  }

  /** A raw slug whose lowercase form is a slug has no whitespace, so `safeSlug` only
      lowercases it. */
  lemma SafeSlugOfLowerSlug(s: string)
    requires IsSlug(Lower(s))
    ensures SafeSlug(Some(s)) == Lower(s)
  {
    assert OrElse(Some(s), "") == s;
    if s != [] {
      assert IsSlugChar(Lower(s)[0]) && IsSlugChar(Lower(s)[|s| - 1]);
      assert IsTrimmed(s);
      TrimFixedPoint(s);
    } else {
      assert Trim(s) == s;
    }
    SlugifyOfLowerSlug(s);
  }

  /** The detail page's lookup key of a record equals the name the generator gives its
      page exactly when that key is already a slug. */
  lemma KeyIsSafeSlugIff(slug: Option<string>)
    ensures Key(slug) == SafeSlug(slug) <==> IsSlug(Key(slug))
  {
    SafeSlugIsSlug(slug);
    if Truthy(slug) {
      if IsSlug(Key(slug)) {
        SafeSlugOfLowerSlug(slug.value);
      }
    } else {
      assert Key(slug) == "";
      SafeSlugOfNothing();
      assert SafeSlug(slug) == SafeSlug(Some(""));
    }
  }

  /** Two detail links in the same folder are equal only for equal slugs. */
  lemma LinkInjective(folder: string, a: string, b: string)
    ensures "pages/" + folder + "/" + a + ".html" == "pages/" + folder + "/" + b + ".html" ==> a == b
  {
    var p := "pages/" + folder + "/";
    if p + a + ".html" == p + b + ".html" {
      assert |a| == |b|;
      assert a == (p + a + ".html")[|p|..|p| + |a|];
      assert b == (p + b + ".html")[|p|..|p| + |b|];
    }
  }

  /** A card links to `pages/<folder>/<file>` where `<file>` is the page the generator
      writes for the same record exactly when the trimmed, lowercased slug is already a
      slug; a blank slug gives neither a link nor a page. */
  lemma LinkMatchesPageIff(kind: Kind, slug: Option<string>)
    ensures IsBlank(slug) ==> DetailLink(Folder(kind), slug).None? && PageFor(SafeSlug(slug), kind) == []
    ensures !IsBlank(slug) ==>
      (DetailLink(Folder(kind), slug) == Some("pages/" + Folder(kind) + "/" + SafeSlug(slug) + ".html")
       <==> IsSlug(Lower(Trim(slug.value))))
  {
    var v := OrElse(slug, "");
    if IsBlank(slug) {
      assert Trim(v) == "";
      assert SafeSlug(slug) == Slugify("");
    } else {
      var t := Trim(slug.value);
      assert SafeSlug(slug) == Slugify(t);
      SafeSlugIsSlug(slug);
      LinkInjective(Folder(kind), Lower(t), SafeSlug(slug));
      if IsSlug(Lower(t)) {
        SlugifyOfLowerSlug(t);
      }
    }
  }

  /** The work card links to the page the generator writes for the same work exactly
      when the work's trimmed, lowercased slug is already a slug. */
  lemma WorkCardLinksToPageIff(w: Work)
    requires !IsBlank(w.slug)
    ensures BuildWorkCard(w).detailUrl == Some("pages/" + Folder(WorkPage) + "/" + SafeSlug(w.slug) + ".html")
            <==> IsSlug(Lower(Trim(w.slug.value)))
  {
    LinkMatchesPageIff(WorkPage, w.slug);
  }

  /** The same for the writing card. */
  lemma WritingCardLinksToPageIff(r: Writing, fmt: string -> string)
    requires !IsBlank(r.slug)
    ensures BuildWritingCard(r, fmt).detailUrl == Some("pages/" + Folder(WritingPage) + "/" + SafeSlug(r.slug) + ".html")
            <==> IsSlug(Lower(Trim(r.slug.value)))
  {
    LinkMatchesPageIff(WritingPage, r.slug);
  }

  /** On a list the generator accepted (no duplicate normalised slugs), looking up the
      name of the page written for work `i` finds work `i` exactly when that work's
      lookup key is already a slug. */
  lemma WorkLookupIff(ws: seq<Work>, i: nat)
    requires Unique(Normalised(WorkSlugs(ws)))
    requires i < |ws| && SafeSlug(ws[i].slug) != ""
    ensures FirstMatch(WorkKeys(ws), SafeSlug(ws[i].slug)) == Some(i) <==> IsSlug(Key(ws[i].slug))
  {
    var n := SafeSlug(ws[i].slug);
    KeyIsSafeSlugIff(ws[i].slug);
    if IsSlug(Key(ws[i].slug)) {
      NormalisedAt(WorkSlugs(ws), i);
      forall k | 0 <= k < i ensures WorkKeys(ws)[k] != n {
        KeyIsSafeSlugIff(ws[k].slug);
        NormalisedAt(WorkSlugs(ws), k);
      }
      assert WorkKeys(ws)[i] == n;
    }
  }

  /** The same for writings. */
  lemma WritingLookupIff(ws: seq<Writing>, i: nat)
    requires Unique(Normalised(WritingSlugs(ws)))
    requires i < |ws| && SafeSlug(ws[i].slug) != ""
    ensures FirstMatch(WritingKeys(ws), SafeSlug(ws[i].slug)) == Some(i) <==> IsSlug(Key(ws[i].slug))
  {
    var n := SafeSlug(ws[i].slug);
    KeyIsSafeSlugIff(ws[i].slug);
    if IsSlug(Key(ws[i].slug)) {
      NormalisedAt(WritingSlugs(ws), i);
      forall k | 0 <= k < i ensures WritingKeys(ws)[k] != n {
        KeyIsSafeSlugIff(ws[k].slug);
        NormalisedAt(WritingSlugs(ws), k);
      }
      assert WritingKeys(ws)[i] == n;
    }
  }

  /** The generated page of work `i`, wherever it is served from, reads its own name
      back as the slug, and then shows work `i` when that work's key is already a slug. */
  lemma WorkPageShowsWork(ws: seq<Work>, i: nat, dir: string)
    requires Unique(Normalised(WorkSlugs(ws)))
    requires i < |ws| && SafeSlug(ws[i].slug) != "" && IsSlug(Key(ws[i].slug))
    ensures GetSlugFromFilename(dir + "/" + SafeSlug(ws[i].slug) + ".html") == SafeSlug(ws[i].slug)
    ensures WorkDetail(SafeSlug(ws[i].slug), Some(WorksDoc(Some(ws)))) == WorkFields(ws[i])
  {
    SafeSlugIsSlug(ws[i].slug);
    SlugOfPage(dir, SafeSlug(ws[i].slug));
    WorkLookupIff(ws, i);
  }

  /** The generated page of writing `i` shows writing `i` when its key is a slug. */
  lemma WritingPageShowsWriting(ws: seq<Writing>, i: nat, dir: string, fmt: string -> string)
    requires Unique(Normalised(WritingSlugs(ws)))
    requires i < |ws| && SafeSlug(ws[i].slug) != "" && IsSlug(Key(ws[i].slug))
    ensures GetSlugFromFilename(dir + "/" + SafeSlug(ws[i].slug) + ".html") == SafeSlug(ws[i].slug)
    ensures WritingDetail(SafeSlug(ws[i].slug), Some(WritingsDoc(Some(ws))), fmt) == WritingFields(ws[i], fmt)
  {
    SafeSlugIsSlug(ws[i].slug);
    SlugOfPage(dir, SafeSlug(ws[i].slug));
    WritingLookupIff(ws, i);
  }

  /** The generator names the page of the slug `"a b"` `a-b.html`. */
  lemma SpacedSlugFile()
    ensures Trim("a b") == "a b"
    ensures SafeSlug(Some("a b")) == "a-b"
  {
    assert IsTrimmed("a b");
    TrimFixedPoint("a b");
    assert Slugify("b") == "b";
    assert SkipRun("b") == "b";
    assert Slugify(" b") == "-b";
    assert Slugify("a b") == "a-b";
  }

  /** A slug with a space breaks both links: the card of a work whose slug is `"a b"`
      does not point at the page the generator writes for it, and that page, `a-b.html`,
      does not find the work, whose key is `"a b"`. */
  lemma SpacedSlugDiverges(w: Work)
    requires w.slug == Some("a b")
    ensures SafeSlug(w.slug) == "a-b"
    ensures BuildWorkCard(w).detailUrl != Some("pages/" + Folder(WorkPage) + "/" + SafeSlug(w.slug) + ".html")
    ensures WorkDetail(SafeSlug(w.slug), Some(WorksDoc(Some([w])))) == NotFound("novel")
  {
    SpacedSlugFile();
    assert !IsSlugChar(Lower("a b")[1]);
    LinkMatchesPageIff(WorkPage, w.slug);
    assert Key(w.slug) == Lower("a b");
    assert Normalised(WorkSlugs([w])) == [SafeSlug(w.slug)];
    WorkLookupIff([w], 0);
  }
}
