/**
 * The static detail-page generator (`assets/js/generator.js`): slug normalisation,
 * the duplicate-slug check and the batch run that emits one `<slug>.html` per record.
 *
 * A download is modelled as a `Download(filename, kind)` appended to the output; the
 * page's contents are one of two fixed templates chosen by `kind`, so the template text
 * itself is not reproduced. The log box is a sequence of lines; an `Error` line is the
 * one `logError` prints with its red-cross prefix and that turns the box red.
 */
module Generator {
  import opened Wrappers
  import opened JsString
  import opened Content

  // ---------------------------------------------------------------------------
  // safeSlug
  // ---------------------------------------------------------------------------

  /** The character class `[a-z0-9\- ]` that the filter step keeps. */
  predicate Allowed(c: char) {
    'a' <= c <= 'z' || '0' <= c <= '9' || c == '-' || c == ' '
  }

  /** The characters a finished slug is made of. */
  predicate IsSlugChar(c: char) {
    'a' <= c <= 'z' || '0' <= c <= '9' || c == '-'
  }

  predicate IsSlug(s: string) {
    forall i :: 0 <= i < |s| ==> IsSlugChar(s[i])
  }

  predicate AllAllowed(s: string) {
    forall i :: 0 <= i < |s| ==> Allowed(s[i])
  }

  /** `.replace(/[^a-z0-9\- ]/g, "")`: every character outside the class is deleted,
      the others are kept in order. */
  function KeepAllowed(s: string): string {
    if s == [] then [] else (if Allowed(s[0]) then [s[0]] else []) + KeepAllowed(s[1..])
  }

  /** `.replace(/\s+/g, "-")`: every maximal run of whitespace becomes a single `-`. */
  function HyphenateRuns(s: string): string
    decreases |s|
  {
    if s == [] then []
    else if IsWhite(s[0]) then "-" + HyphenateRuns(TrimStart(s))
    else [s[0]] + HyphenateRuns(s[1..])
  }

  /** Drops the characters that the filter deletes or that would join the current run
      of spaces: what lies between one space that survives the filter and the next
      kept character that is not a space. */
  function SkipRun(t: string): (r: string)
    ensures |r| <= |t|
  {
    if t != [] && (LowerChar(t[0]) == ' ' || !Allowed(LowerChar(t[0]))) then SkipRun(t[1..]) else t
  }

  /** `.toLowerCase().replace(/[^a-z0-9\- ]/g, "").replace(/\s+/g, "-")` in one pass
      (lemma `SlugifyIsChain`): lowercase each character, drop it when the class does not
      allow it, and let a space stand for the whole run of spaces that the filter leaves
      behind it. The result consists of slug characters only. */
  function Slugify(t: string): (r: string)
    ensures IsSlug(r)
    decreases |t|
  {
    if t == [] then []
    else
      var c := LowerChar(t[0]);
      if !Allowed(c) then Slugify(t[1..])
      else if c == ' ' then "-" + Slugify(SkipRun(t[1..]))
      else [c] + Slugify(t[1..])
  }

  /** `safeSlug(slug)`: `String(slug || "")`, trimmed, lowercased, filtered to
      `[a-z0-9\- ]`, and each run of whitespace turned into one hyphen. The trim runs
      BEFORE the filter, so `"a !"` becomes `"a-"`: a slug may start or end with `-`. */
  function SafeSlug(slug: Option<string>): string {
    Slugify(Trim(OrElse(slug, "")))
  }

  /** The filter step never keeps whitespace other than the plain space. */
  lemma AllowedWhite(c: char)
    ensures Allowed(c) && IsWhite(c) <==> c == ' '
  {
  }

  /** Lowercasing and filtering, one character at a time. */
  lemma FilteredCons(u: string)
    requires u != []
    ensures KeepAllowed(Lower(u))
         == (if Allowed(LowerChar(u[0])) then [LowerChar(u[0])] else []) + KeepAllowed(Lower(u[1..]))
  {
    assert Lower(u)[1..] == Lower(u[1..]);
  }

  /** Trimming the front of the filtered text is filtering after `SkipRun`. */
  lemma {:induction false} TrimStartOfFiltered(u: string)
    ensures TrimStart(KeepAllowed(Lower(u))) == KeepAllowed(Lower(SkipRun(u)))
  {
    if u != [] {
      var c := LowerChar(u[0]);
      var k := KeepAllowed(Lower(u[1..]));
      FilteredCons(u);
      AllowedWhite(c);
      if c == ' ' {
        assert (" " + k)[1..] == k;
        TrimStartOfFiltered(u[1..]);
      } else if !Allowed(c) {
        assert [] + k == k;
        TrimStartOfFiltered(u[1..]);
      } else {
        assert ([c] + k)[0] == c;
      }
    }
  }

  /** The one-pass definition agrees with the source's chain of three string calls. */
  lemma {:induction false} SlugifyIsChain(t: string)
    ensures Slugify(t) == HyphenateRuns(KeepAllowed(Lower(t)))
    decreases |t|
  {
    if t != [] {
      var c := LowerChar(t[0]);
      var k := KeepAllowed(Lower(t[1..]));
      FilteredCons(t);
      AllowedWhite(c);
      if !Allowed(c) {
        assert [] + k == k;
        SlugifyIsChain(t[1..]);
      } else if c == ' ' {
        assert (" " + k)[0] == ' ';
        TrimStartOfFiltered(t[1..]);
        SlugifyIsChain(SkipRun(t[1..]));
      } else {
        assert ([c] + k)[1..] == k;
        SlugifyIsChain(t[1..]);
      }
    }
  }

  /** `safeSlug` as the source writes it: trim, lowercase, filter, hyphenate. */
  lemma SafeSlugIsChain(slug: Option<string>)
    ensures SafeSlug(slug) == HyphenateRuns(KeepAllowed(Lower(Trim(OrElse(slug, "")))))
  {
    SlugifyIsChain(Trim(OrElse(slug, "")));
  }

  /** Every character of a normalised slug is in `a-z`, `0-9` or `-`; in particular it
      holds no whitespace. */
  lemma SafeSlugIsSlug(slug: Option<string>)
    ensures IsSlug(SafeSlug(slug))
    ensures NoWhite(SafeSlug(slug))
  {
  }

  lemma {:induction false} SlugifyKeepsSlug(s: string)
    requires IsSlug(s)
    ensures Slugify(s) == s
  {
    if s != [] {
      SlugifyKeepsSlug(s[1..]);
    }
  }

  /** A string made of slug characters is a fixed point of `safeSlug`, and only such a
      string is: `safeSlug(r) == r` exactly when `r` is already a slug. */
  lemma SafeSlugFixedPoint(r: string)
    ensures SafeSlug(Some(r)) == r <==> IsSlug(r)
  {
    if IsSlug(r) {
      if r != [] {
        assert IsSlugChar(r[0]) && IsSlugChar(r[|r| - 1]);
      }
      TrimFixedPoint(r);
      assert OrElse(Some(r), "") == r;
      SlugifyKeepsSlug(r);
    }
  }

  /** `safeSlug(safeSlug(s)) == safeSlug(s)`. */
  lemma SafeSlugIdempotent(slug: Option<string>)
    ensures SafeSlug(Some(SafeSlug(slug))) == SafeSlug(slug)
  {
    SafeSlugFixedPoint(SafeSlug(slug));
  }

  /** Skipping a run of whitespace in front of a non-whitespace start. */
  lemma {:induction false} TrimStartSkipsRun(w: string, v: string)
    requires forall i :: 0 <= i < |w| ==> IsWhite(w[i])
    requires v == [] || !IsWhite(v[0])
    ensures TrimStart(w + v) == v
  {
    if w != [] {
      assert (w + v)[1..] == w[1..] + v;
      TrimStartSkipsRun(w[1..], v);
    } else {
      assert w + v == v;
    }
  }

  /** Each run of whitespace, however long, contributes exactly one `-`. */
  lemma HyphenateRunsRun(w: string, v: string)
    requires w != [] && forall i :: 0 <= i < |w| ==> IsWhite(w[i])
    requires v == [] || !IsWhite(v[0])
    ensures HyphenateRuns(w + v) == "-" + HyphenateRuns(v)
  {
    TrimStartSkipsRun(w, v);
  }

  /** A missing or empty slug normalises to the empty slug. */
  lemma SafeSlugOfNothing()
    ensures SafeSlug(None) == ""
    ensures SafeSlug(Some("")) == ""
  {
  }

  /** `safeSlug(" Ab C! ") == "ab-c"`: the ends are trimmed, the letters lowercased,
      the punctuation dropped and the inner space hyphenated. */
  lemma SafeSlugExample()
    ensures SafeSlug(Some(" Ab C! ")) == "ab-c"
  {
    TrimExample();
    assert Slugify("C!") == "c";
    assert Slugify(" C!") == "-c";
    assert Slugify("b C!") == "b-c";
  }

  lemma TrimExample()
    ensures Trim(" Ab C! ") == "Ab C!"
  {
    assert TrimStart(" Ab C! ") == "Ab C! ";
    assert TrimEnd("Ab C! ") == "Ab C!";
  }

  /** The trim happens before the filter: `safeSlug("a !") == "a-"`, so a slug can end
      with a hyphen. */
  lemma SafeSlugTrailingHyphen()
    ensures SafeSlug(Some("a !")) == "a-"
  {
    assert TrimStart("a !") == "a !";
    assert TrimEnd("a !") == "a !";
    assert SkipRun("!") == "";
    assert Slugify(" !") == "-";
  }

  // ---------------------------------------------------------------------------
  // checkDuplicateSlugs
  // ---------------------------------------------------------------------------

  /** The normalised slug of every record, in list order (element by element:
      lemma `NormalisedAt`). It is split into two mutually recursive functions only so
      that the verifier unfolds one step of it at a time and never exposes `SafeSlug`
      to the methods that use it; the pair computes the plain per-record map. */
  function Normalised(slugs: seq<Option<string>>): (ns: seq<string>)
    ensures |ns| == |slugs|
    decreases |slugs|, 1
  {
    if slugs == [] then [] else NormalisedSnoc(slugs)
  }

  /** The normalised slugs of all records but the last, then the last one's. */
  function NormalisedSnoc(slugs: seq<Option<string>>): (ns: seq<string>)
    requires slugs != []
    ensures |ns| == |slugs|
    decreases |slugs|, 0
  {
    Normalised(slugs[..|slugs| - 1]) + [SafeSlug(slugs[|slugs| - 1])]
  }

  lemma {:induction false} NormalisedAt(slugs: seq<Option<string>>, i: nat)
    requires i < |slugs|
    ensures Normalised(slugs)[i] == SafeSlug(slugs[i])
    decreases |slugs|
  {
    if i < |slugs| - 1 {
      NormalisedAt(slugs[..|slugs| - 1], i);
    }
  }

  /** No non-empty slug occurs twice. */
  predicate Unique(ns: seq<string>) {
    forall i, j :: 0 <= i < j < |ns| && ns[i] != "" ==> ns[i] != ns[j]
  }

  /** The `dupes` Set after the `forEach` has seen `ns`, in its insertion order: a
      non-empty slug enters at its second occurrence and is not added again. */
  function DupesOf(ns: seq<string>): seq<string> {
    if ns == [] then []
    else
      var p, s := ns[..|ns| - 1], ns[|ns| - 1];
      DupesOf(p) + (if s != "" && s in p && s !in DupesOf(p) then [s] else [])
  }

  /** The reported slugs are exactly the non-empty ones seen at least twice. */
  lemma {:induction false} DupesOfMembers(ns: seq<string>)
    ensures forall s :: s in DupesOf(ns) <==> s != "" && multiset(ns)[s] >= 2
  {
    if ns != [] {
      var p, x := ns[..|ns| - 1], ns[|ns| - 1];
      assert ns == p + [x];
      DupesOfMembers(p);
      forall s ensures s in DupesOf(ns) <==> s != "" && multiset(ns)[s] >= 2 {
        assert multiset(ns)[s] == multiset(p)[s] + (if s == x then 1 else 0);
        assert s in p <==> multiset(p)[s] >= 1;
      }
    }
  }

  /** Each reported slug is listed once. */
  lemma {:induction false} DupesOfDistinct(ns: seq<string>)
    ensures forall i, j :: 0 <= i < j < |DupesOf(ns)| ==> DupesOf(ns)[i] != DupesOf(ns)[j]
  {
    if ns != [] {
      DupesOfDistinct(ns[..|ns| - 1]);
    }
  }

  /** Something is reported exactly when two records share a non-empty slug. */
  lemma {:induction false} DupesOfEmptyIff(ns: seq<string>)
    ensures DupesOf(ns) == [] <==> Unique(ns)
  {
    if ns != [] {
      var p, x := ns[..|ns| - 1], ns[|ns| - 1];
      DupesOfEmptyIff(p);
      if Unique(ns) {
        assert Unique(p) by {
          forall i, j | 0 <= i < j < |p| && p[i] != "" ensures p[i] != p[j] {
            assert ns[i] == p[i] && ns[j] == p[j];
          }
        }
        forall k | 0 <= k < |p| && x != "" ensures p[k] != x {
          assert ns[k] == p[k];
        }
      } else {
        var i, j :| 0 <= i < j < |ns| && ns[i] != "" && ns[i] == ns[j];
        if j < |ns| - 1 {
          assert !Unique(p) by { assert p[i] == p[j]; }
        } else {
          assert ns[i] == p[i];
          if DupesOf(p) == [] {
            assert x in p;
          }
        }
      }
    }
  }

  /** What `generate` writes to the log box, one line at a time. The wording of each
      message is given by `Text`; the proofs work on the messages themselves. */
  datatype Message =
    | Starting
    | Blank
    | Unreadable(kind: Kind)
    | NothingToDo
    | Duplicates(collection: string, dupes: seq<string>)
    | Heading(kind: Kind)
    | EmptySlug(kind: Kind)
    | Created(kind: Kind, filename: string)
    | Finished
    | Total(kind: Kind, count: nat)
    | LastStep
    | MoveFiles
    | Destination(kind: Kind)

  /** A line written by `log(text)` or by `logError(text)`. */
  datatype LogLine = Info(msg: Message) | Error(msg: Message)

  /** The text of each log message, with the counts printed in decimal. */
  function Text(m: Message): string {
    match m
    case Starting => "Mulai generate halaman detail..."
    case Blank => ""
    case Unreadable(WorkPage) => "works.json tidak bisa dibaca. Pastikan file ada di content/works/works.json"
    case Unreadable(WritingPage) => "writings.json tidak bisa dibaca. Pastikan file ada di content/writings/writings.json"
    case NothingToDo => "Tidak ada data untuk dibuatkan halaman detail."
    case Duplicates(collection, dupes) => collection + ": ada slug duplikat \U{2192} " + Join(dupes, ", ")
    case Heading(WorkPage) => "\U{1F4DA} Generate NOVEL..."
    case Heading(WritingPage) => "\U{270D}\U{FE0F} Generate TULISAN..."
    case EmptySlug(WorkPage) => "Ada novel yang slug-nya kosong. Isi slug dulu di Admin."
    case EmptySlug(WritingPage) => "Ada tulisan yang slug-nya kosong. Isi slug dulu di Admin."
    case Created(kind, filename) => "\U{2705} Dibuat: pages/" + Folder(kind) + "/" + filename
    case Finished => "Selesai \U{2705}"
    case Total(WorkPage, n) => "Total novel dibuat: " + NatToString(n)
    case Total(WritingPage, n) => "Total tulisan dibuat: " + NatToString(n)
    case LastStep => "LANGKAH TERAKHIR:"
    case MoveFiles => "Pindahkan file hasil download ke:"
    case Destination(kind) => "\U{2022} Titik Fiksi/pages/" + Folder(kind) + "/"
  }

  /** The text a line adds to the log box: `logError` prefixes a cross mark. */
  function LineText(line: LogLine): string {
    match line
    case Info(m) => Text(m) + "\n"
    case Error(m) => "\U{274C} " + Text(m) + "\n"
  }

  /** The box carries the `danger` class exactly when an error was logged since it was
      cleared. */
  predicate Danger(lines: seq<LogLine>) {
    exists i :: 0 <= i < |lines| && lines[i].Error?
  }

  /** The duplicate check seeing record `i`: its slug joins the reported ones exactly
      when it is non-empty, was seen before and is not reported yet. */
  lemma DupesStep(ns: seq<string>, i: nat)
    requires i < |ns|
    ensures DupesOf(ns[..i + 1])
         == DupesOf(ns[..i]) + (if ns[i] != "" && ns[i] in ns[..i] && ns[i] !in DupesOf(ns[..i]) then [ns[i]] else [])
    ensures forall t :: t in ns[..i + 1] <==> t in ns[..i] || t == ns[i]
  {
    assert ns[..i + 1] == ns[..i] + [ns[i]];
    assert ns[..i + 1][..i] == ns[..i];
  }

  /** `checkDuplicateSlugs(list, label)` (the label is `collection`): walks the list once keeping a `seen` set and
      an insertion-ordered `dupes` set; it succeeds exactly when no two records share a
      non-empty normalised slug, and otherwise logs one error naming every duplicate. */
  method CheckDuplicateSlugs(slugs: seq<Option<string>>, collection: string)
    returns (ok: bool, report: seq<LogLine>)
    ensures ok <==> DupesOf(Normalised(slugs)) == []
    ensures report == if ok then [] else [Error(Duplicates(collection, DupesOf(Normalised(slugs))))]
  {
    ghost var ns := Normalised(slugs);
    var seen: set<string> := {};
    var dupes: seq<string> := [];
    var i := 0;
    while i < |slugs|
      invariant 0 <= i <= |slugs|
      invariant dupes == DupesOf(ns[..i])
      invariant forall t :: t in seen <==> t != "" && t in ns[..i]
    {
      var s := SafeSlug(slugs[i]);
      NormalisedAt(slugs, i);
      DupesStep(ns, i);
      if s != "" {
        if s in seen && s !in dupes {
          dupes := dupes + [s];
        }
        seen := seen + {s};
      }
      i := i + 1;
    }
    assert ns[..i] == ns;
    ok := |dupes| == 0;
    report := if ok then [] else [Error(Duplicates(collection, dupes))];
  }

  /** `"a"` and `"A"` normalise to the same slug. */
  lemma SafeSlugCaseExample()
    ensures SafeSlug(Some("A")) == "a" && SafeSlug(Some("a")) == "a" && SafeSlug(Some("b")) == "b"
  {
    assert TrimStart("A") == "A" && TrimEnd("A") == "A";
    assert TrimStart("a") == "a" && TrimEnd("a") == "a";
    assert TrimStart("b") == "b" && TrimEnd("b") == "b";
  }

  /** The duplicate check on three records whose slugs are `"a"`, `"A"` and `"b"`
      reports exactly one duplicate, `"a"`. */
  lemma DuplicateExample()
    ensures DupesOf(Normalised([Some("a"), Some("A"), Some("b")])) == ["a"]
  {
    var slugs := [Some("a"), Some("A"), Some("b")];
    var ns := Normalised(slugs);
    SafeSlugCaseExample();
    NormalisedAt(slugs, 0);
    NormalisedAt(slugs, 1);
    NormalisedAt(slugs, 2);
    assert ns == ["a", "a", "b"];
    var aa: seq<string> := ["a", "a"];
    assert ns[..2] == aa && aa[..1] == ["a"] && ["a"][..0] == [];
    assert DupesOf(["a"]) == [];
    assert "a" in aa[..1];
    assert DupesOf(aa) == ["a"];
    assert "b" !in aa;
  }

  // ---------------------------------------------------------------------------
  // generate
  // ---------------------------------------------------------------------------

  datatype Kind = WorkPage | WritingPage

  /** One triggered download: the file name and which of the two templates it holds. */
  datatype Download = Download(filename: string, kind: Kind)

  function Folder(kind: Kind): string {
    match kind
    case WorkPage => "works"
    case WritingPage => "writings"
  }

  function WorkSlugs(ws: seq<Work>): (r: seq<Option<string>>)
    ensures |r| == |ws| && forall i :: 0 <= i < |ws| ==> r[i] == ws[i].slug
  {
    seq(|ws|, i requires 0 <= i < |ws| => ws[i].slug)
  }

  function WritingSlugs(ws: seq<Writing>): (r: seq<Option<string>>)
    ensures |r| == |ws| && forall i :: 0 <= i < |ws| ==> r[i] == ws[i].slug
  {
    seq(|ws|, i requires 0 <= i < |ws| => ws[i].slug)
  }

  /** What the loop body emits for a record whose normalised slug is `s`: one file,
      unless `s` is empty. */
  function PageFor(s: string, kind: Kind): seq<Download> {
    if s == "" then [] else [Download(s + ".html", kind)]
  }

  /** The downloads of one `forEach` over a collection whose normalised slugs are `ns`,
      in list order. */
  function Pages(ns: seq<string>, kind: Kind): seq<Download> {
    if ns == [] then [] else Pages(ns[..|ns| - 1], kind) + PageFor(ns[|ns| - 1], kind)
  }

  /** The log line the loop body writes for a record whose normalised slug is `s`. */
  function RecordLog(s: string, kind: Kind): LogLine {
    if s == "" then Error(EmptySlug(kind)) else Info(Created(kind, s + ".html"))
  }

  /** The log lines of one `forEach` over a collection. */
  function PagesLog(ns: seq<string>, kind: Kind): seq<LogLine> {
    if ns == [] then [] else PagesLog(ns[..|ns| - 1], kind) + [RecordLog(ns[|ns| - 1], kind)]
  }

  /** The loop of `generate` handling record `i` of a collection. */
  lemma PagesStep(ns: seq<string>, i: nat, kind: Kind)
    requires i < |ns|
    ensures Pages(ns[..i + 1], kind) == Pages(ns[..i], kind) + PageFor(ns[i], kind)
    ensures PagesLog(ns[..i + 1], kind) == PagesLog(ns[..i], kind) + [RecordLog(ns[i], kind)]
  {
    assert ns[..i + 1][..i] == ns[..i];
  }

  /** The files of a collection follow the list order: generating for `a + b` is
      generating for `a`, then for `b`. */
  lemma {:induction false} PagesAppend(a: seq<string>, b: seq<string>, kind: Kind)
    ensures Pages(a + b, kind) == Pages(a, kind) + Pages(b, kind)
    decreases |b|
  {
    if b == [] {
      assert a + b == a;
    } else {
      var b' := b[..|b| - 1];
      assert (a + b)[..|a + b| - 1] == a + b';
      PagesAppend(a, b', kind);
    }
  }

  /** One file per record with a non-empty normalised slug: the count is the number of
      records less those whose slug normalises to `""`. */
  lemma {:induction false} PagesCount(ns: seq<string>, kind: Kind)
    ensures |Pages(ns, kind)| == |ns| - multiset(ns)[""]
  {
    if ns != [] {
      var p := ns[..|ns| - 1];
      PagesCount(p, kind);
      assert ns == p + [ns[|ns| - 1]];
    }
  }

  /** Every emitted file is named after the non-empty normalised slug of some record of
      the collection and carries that collection's template. */
  lemma {:induction false} PagesNames(ns: seq<string>, kind: Kind)
    ensures forall d :: d in Pages(ns, kind) ==>
              d.kind == kind && exists i :: 0 <= i < |ns| && ns[i] != "" && d.filename == ns[i] + ".html"
  {
    if ns != [] {
      var p := ns[..|ns| - 1];
      PagesNames(p, kind);
      forall d | d in Pages(ns, kind)
        ensures exists i :: 0 <= i < |ns| && ns[i] != "" && d.filename == ns[i] + ".html"
      {
        if d in Pages(p, kind) {
          var i :| 0 <= i < |p| && p[i] != "" && d.filename == p[i] + ".html";
          assert ns[i] == p[i];
        } else {
          assert d.filename == ns[|ns| - 1] + ".html";
        }
      }
    }
  }

  /** Different slugs give different file names. */
  lemma HtmlNameInjective(a: string, b: string)
    ensures a + ".html" == b + ".html" ==> a == b
  {
    if a + ".html" == b + ".html" {
      assert a == (a + ".html")[..|a|];
      assert b == (b + ".html")[..|b|];
    }
  }

  /** When the duplicate check passed, the file names emitted for one collection are
      pairwise distinct: no download overwrites another. */
  lemma {:induction false} PagesDistinct(ns: seq<string>, kind: Kind)
    requires Unique(ns)
    ensures forall i, j :: 0 <= i < j < |Pages(ns, kind)| ==>
              Pages(ns, kind)[i].filename != Pages(ns, kind)[j].filename
  {
    if ns != [] {
      var p, x := ns[..|ns| - 1], ns[|ns| - 1];
      assert Unique(p) by {
        forall i, j | 0 <= i < j < |p| && p[i] != "" ensures p[i] != p[j] {
          assert p[i] == ns[i] && p[j] == ns[j];
        }
      }
      PagesDistinct(p, kind);
      PagesNames(p, kind);
      var Pp := Pages(p, kind);
      if x != "" {
        forall i | 0 <= i < |Pp| ensures Pp[i].filename != x + ".html" {
          assert Pp[i] in Pp;
          var k :| 0 <= k < |p| && p[k] != "" && Pp[i].filename == p[k] + ".html";
          assert p[k] != x by { assert ns[k] == p[k]; }
          HtmlNameInjective(p[k], x);
        }
      }
    }
  }

  /** Every record contributes exactly one log line, an error exactly when its slug
      normalises to `""`; the loop never stops early. */
  lemma {:induction false} PagesLogPerRecord(ns: seq<string>, kind: Kind)
    ensures |PagesLog(ns, kind)| == |ns|
    ensures forall i :: 0 <= i < |ns| ==> (PagesLog(ns, kind)[i].Error? <==> ns[i] == "")
  {
    if ns != [] {
      var p := ns[..|ns| - 1];
      PagesLogPerRecord(p, kind);
      assert forall i :: 0 <= i < |p| ==> ns[i] == p[i];
    }
  }

  /** Why `generate` stops, or the normalised slugs of the two collections it goes on
      with. */
  datatype Verdict =
    | WorksUnreadable
    | WritingsUnreadable
    | NothingToGenerate
    | WorksDuplicated(worksDupes: seq<string>)
    | WritingsDuplicated(writingsDupes: seq<string>)
    | Proceed(works: seq<string>, writings: seq<string>)

  /** The abort rules, checked in the order of the source, all before any file is
      generated. `None` is a JSON file that failed to load (or parsed to a falsy value). */
  function Decide(worksData: Option<WorksDoc>, writingsData: Option<WritingsDoc>): Verdict {
    if worksData.None? then WorksUnreadable
    else if writingsData.None? then WritingsUnreadable
    else DecideLists(WorkList(worksData.value), WritingList(writingsData.value))
  }

  /** The rules once both files are loaded. */
  function DecideLists(works: seq<Work>, writings: seq<Writing>): Verdict {
    if |works| == 0 && |writings| == 0 then NothingToGenerate
    else DecideSlugs(Normalised(WorkSlugs(works)), Normalised(WritingSlugs(writings)))
  }

  /** The duplicate rules on the normalised slugs: works are checked first. */
  function DecideSlugs(ws: seq<string>, rs: seq<string>): Verdict {
    if DupesOf(ws) != [] then WorksDuplicated(DupesOf(ws))
    else if DupesOf(rs) != [] then WritingsDuplicated(DupesOf(rs))
    else Proceed(ws, rs)
  }

  /** All downloads of one run of `generate`: works first, then writings. */
  function GeneratedFiles(worksData: Option<WorksDoc>, writingsData: Option<WritingsDoc>): seq<Download> {
    match Decide(worksData, writingsData)
    case Proceed(ws, rs) => Pages(ws, WorkPage) + Pages(rs, WritingPage)
    case _ => []
  }

  /** The two lines every run opens with, after the log box is cleared. */
  function Prelude(): seq<LogLine> {
    [Info(Starting), Info(Blank)]
  }

  /** The closing lines: the two counts and where to move the downloaded files. */
  function Summary(countWorks: nat, countWritings: nat): seq<LogLine> {
    [ Info(Blank), Info(Finished), Info(Total(WorkPage, countWorks)), Info(Total(WritingPage, countWritings)),
      Info(Blank), Info(LastStep), Info(MoveFiles), Info(Destination(WorkPage)), Info(Destination(WritingPage)) ]
  }

  /** The log of a run that goes ahead: both headings, the per-record lines of each
      collection and the closing summary with the two file counts. */
  function RunLog(ws: seq<string>, rs: seq<string>): seq<LogLine> {
    [Info(Heading(WorkPage))] + PagesLog(ws, WorkPage) + [Info(Blank), Info(Heading(WritingPage))]
    + PagesLog(rs, WritingPage) + Summary(|Pages(ws, WorkPage)|, |Pages(rs, WritingPage)|)
  }

  /** What follows the prelude in the log, by verdict: one error line for an abort. */
  function OutcomeLog(v: Verdict): seq<LogLine> {
    if v.Proceed? then RunLog(v.works, v.writings) else [AbortLine(v)]
  }

  /** The one error line of a run that stops before generating anything. */
  function AbortLine(v: Verdict): LogLine
    requires !v.Proceed?
  {
    match v
    case WorksUnreadable => Error(Unreadable(WorkPage))
    case WritingsUnreadable => Error(Unreadable(WritingPage))
    case NothingToGenerate => Error(NothingToDo)
    case WorksDuplicated(d) => Error(Duplicates("NOVEL", d))
    case WritingsDuplicated(d) => Error(Duplicates("TULISAN", d))
  }

  /** Everything one run of `generate` writes to the (freshly cleared) log box. */
  function GeneratedLog(worksData: Option<WorksDoc>, writingsData: Option<WritingsDoc>): seq<LogLine> {
    Prelude() + OutcomeLog(Decide(worksData, writingsData))
  }

  /** `generate()`: clears the log, applies the abort rules, then walks works and
      writings in order, downloading one page per record with a non-empty slug and
      logging an error (without stopping) for each record without one. */
  method Generate(worksData: Option<WorksDoc>, writingsData: Option<WritingsDoc>)
    returns (files: seq<Download>, log: seq<LogLine>)
    ensures files == GeneratedFiles(worksData, writingsData)
    ensures log == GeneratedLog(worksData, writingsData)
  {
    var proceed, abort := Preflight(worksData, writingsData);
    if !proceed {
      files, log := [], Prelude() + abort;
      return;
    }
    var run;
    files, run := GenerateAll(WorkList(worksData.value), WritingList(writingsData.value));
    log := Prelude() + run;
  }

  /** The abort rules at the head of `generate`, in the order of the source: an
      unreadable file, two empty collections, duplicate slugs among the works, then
      among the writings. Either generation proceeds, or `abort` holds the one error. */
  method Preflight(worksData: Option<WorksDoc>, writingsData: Option<WritingsDoc>)
    returns (proceed: bool, abort: seq<LogLine>)
    ensures proceed <==> Decide(worksData, writingsData).Proceed?
    ensures proceed ==>
              && worksData.Some? && writingsData.Some?
              && Decide(worksData, writingsData) == Proceed(Normalised(WorkSlugs(WorkList(worksData.value))),
                                                            Normalised(WritingSlugs(WritingList(writingsData.value))))
    ensures !proceed ==> abort == [AbortLine(Decide(worksData, writingsData))]
  {
    if worksData.None? {
      return false, [Error(Unreadable(WorkPage))];
    }
    if writingsData.None? {
      return false, [Error(Unreadable(WritingPage))];
    }
    proceed, abort := CheckLists(WorkList(worksData.value), WritingList(writingsData.value));
  }

  /** The checks at the head of `generate` once both files are loaded. */
  method CheckLists(works: seq<Work>, writings: seq<Writing>) returns (proceed: bool, abort: seq<LogLine>)
    ensures proceed <==> DecideLists(works, writings).Proceed?
    ensures proceed ==> DecideLists(works, writings) == Proceed(Normalised(WorkSlugs(works)), Normalised(WritingSlugs(writings)))
    ensures !proceed ==> abort == [AbortLine(DecideLists(works, writings))]
  {
    if |works| == 0 && |writings| == 0 {
      return false, [Error(NothingToDo)];
    }
    proceed, abort := CheckSlugs(WorkSlugs(works), WritingSlugs(writings));
  }

  /** The two duplicate-slug checks, works first; the second runs only when the first
      passed. */
  method CheckSlugs(workSlugs: seq<Option<string>>, writingSlugs: seq<Option<string>>)
    returns (proceed: bool, abort: seq<LogLine>)
    ensures proceed <==> DecideSlugs(Normalised(workSlugs), Normalised(writingSlugs)).Proceed?
    ensures proceed ==> DecideSlugs(Normalised(workSlugs), Normalised(writingSlugs)) == Proceed(Normalised(workSlugs), Normalised(writingSlugs))
    ensures !proceed ==> abort == [AbortLine(DecideSlugs(Normalised(workSlugs), Normalised(writingSlugs)))]
  {
    proceed, abort := CheckDuplicateSlugs(workSlugs, "NOVEL");
    if proceed {
      proceed, abort := CheckDuplicateSlugs(writingSlugs, "TULISAN");
    }
  }

  /** The part of `generate` after the checks passed: the works loop, the writings loop
      and the summary. */
  method GenerateAll(works: seq<Work>, writings: seq<Writing>)
    returns (files: seq<Download>, log: seq<LogLine>)
    ensures var ws, rs := Normalised(WorkSlugs(works)), Normalised(WritingSlugs(writings));
      && files == Pages(ws, WorkPage) + Pages(rs, WritingPage)
      && log == RunLog(ws, rs)
  {
    var pw, lw, countWorks := GeneratePages(WorkSlugs(works), WorkPage);
    var pr, lr, countWritings := GeneratePages(WritingSlugs(writings), WritingPage);
    files := pw + pr;
    log := [Info(Heading(WorkPage))] + lw + [Info(Blank), Info(Heading(WritingPage))] + lr
      + Summary(countWorks, countWritings);
  }

  /** One `forEach` of `generate` over a collection (the works loop and the writings
      loop are the same code on different data): the downloads, the log lines and the
      count of created files. */
  method GeneratePages(slugs: seq<Option<string>>, kind: Kind)
    returns (files: seq<Download>, log: seq<LogLine>, count: nat)
    ensures files == Pages(Normalised(slugs), kind)
    ensures log == PagesLog(Normalised(slugs), kind)
    ensures count == |files|
  {
    ghost var ns := Normalised(slugs);
    files, log, count := [], [], 0;
    var i := 0;
    while i < |slugs|
      invariant 0 <= i <= |slugs|
      invariant files == Pages(ns[..i], kind)
      invariant log == PagesLog(ns[..i], kind)
      invariant count == |files|
    {
      var slug := SafeSlug(slugs[i]);
      NormalisedAt(slugs, i);
      PagesStep(ns, i, kind);
      if slug == "" {
        log := log + [Error(EmptySlug(kind))];
      } else {
        var filename := slug + ".html";
        files := files + [Download(filename, kind)];
        log := log + [Info(Created(kind, filename))];
        count := count + 1;
      }
      i := i + 1;
    }
    assert ns[..i] == ns;
  }

  /** No file is emitted when either JSON failed to load, when both collections are
      empty, or when either collection holds a duplicate slug. */
  lemma NoFilesOnAbort(worksData: Option<WorksDoc>, writingsData: Option<WritingsDoc>)
    requires
      || worksData.None? || writingsData.None?
      || (|WorkList(worksData.value)| == 0 && |WritingList(writingsData.value)| == 0)
      || DupesOf(Normalised(WorkSlugs(WorkList(worksData.value)))) != []
      || DupesOf(Normalised(WritingSlugs(WritingList(writingsData.value)))) != []
    ensures GeneratedFiles(worksData, writingsData) == []
  {
    if worksData.Some? && writingsData.Some? {
      DupesOfEmptyIff(Normalised(WorkSlugs(WorkList(worksData.value))));
      DupesOfEmptyIff(Normalised(WritingSlugs(WritingList(writingsData.value))));
    }
  }

  /** Duplicates among the works stop the run before the writings are even checked:
      the log ends with the one NOVEL report, whatever the writings hold. */
  lemma WorksDuplicatesShortCircuit(works: seq<Work>, writingsData: Option<WritingsDoc>)
    requires writingsData.Some?
    requires DupesOf(Normalised(WorkSlugs(works))) != []
    ensures GeneratedLog(Some(WorksDoc(Some(works))), writingsData)
      == Prelude() + [Error(Duplicates("NOVEL", DupesOf(Normalised(WorkSlugs(works)))))]
    ensures GeneratedFiles(Some(WorksDoc(Some(works))), writingsData) == []
  {
    DupesOfEmptyIff(Normalised(WorkSlugs(works)));
  }

  /** When neither collection holds a duplicate, generation goes ahead: the works'
      files come first, then the writings' files, each collection in list order (the
      counts are `PagesCount`, the distinct names `PagesDistinct`). */
  lemma GeneratedWhenProceeding(works: seq<Work>, writings: seq<Writing>)
    requires |works| > 0 || |writings| > 0
    requires Unique(Normalised(WorkSlugs(works)))
    requires Unique(Normalised(WritingSlugs(writings)))
    ensures GeneratedFiles(Some(WorksDoc(Some(works))), Some(WritingsDoc(Some(writings))))
         == Pages(Normalised(WorkSlugs(works)), WorkPage) + Pages(Normalised(WritingSlugs(writings)), WritingPage)
  {
    var ws, rs := Normalised(WorkSlugs(works)), Normalised(WritingSlugs(writings));
    var wd, rd := Some(WorksDoc(Some(works))), Some(WritingsDoc(Some(writings)));
    assert WorkList(wd.value) == works && WritingList(rd.value) == writings;
    DupesOfEmptyIff(ws);
    DupesOfEmptyIff(rs);
    assert DecideLists(works, writings) == Proceed(ws, rs);
  }

  /** A run whose per-record lines are an error exactly for the empty slugs. */
  lemma DangerOfPages(ns: seq<string>, kind: Kind)
    ensures Danger(PagesLog(ns, kind)) <==> "" in ns
  {
    PagesLogPerRecord(ns, kind);
    if "" in ns {
      var i :| 0 <= i < |ns| && ns[i] == "";
      assert PagesLog(ns, kind)[i].Error?;
    }
  }

  /** Danger in a concatenation of logs is danger in one of the parts. */
  lemma DangerAppend(a: seq<LogLine>, b: seq<LogLine>)
    ensures Danger(a + b) <==> Danger(a) || Danger(b)
  {
    if Danger(a + b) {
      var i :| 0 <= i < |a + b| && (a + b)[i].Error?;
      if i >= |a| {
        assert b[i - |a|] == (a + b)[i];
      }
    }
    if Danger(a) {
      var i :| 0 <= i < |a| && a[i].Error?;
      assert (a + b)[i] == a[i];
    }
    if Danger(b) {
      var i :| 0 <= i < |b| && b[i].Error?;
      assert (a + b)[|a| + i] == b[i];
    }
  }

  /** A run that goes ahead logs an error exactly for the records with an empty slug. */
  lemma DangerOfRun(ws: seq<string>, rs: seq<string>)
    ensures Danger(RunLog(ws, rs)) <==> "" in ws || "" in rs
  {
    var lw, lr := PagesLog(ws, WorkPage), PagesLog(rs, WritingPage);
    var h1, h2 := [Info(Heading(WorkPage))], [Info(Blank), Info(Heading(WritingPage))];
    var tail := Summary(|Pages(ws, WorkPage)|, |Pages(rs, WritingPage)|);
    DangerOfPages(ws, WorkPage);
    DangerOfPages(rs, WritingPage);
    DangerAppend(h1, lw);
    DangerAppend(h1 + lw, h2);
    DangerAppend(h1 + lw + h2, lr);
    DangerAppend(h1 + lw + h2 + lr, tail);
  }

  /** The log box turns red (`danger`) exactly when the run aborted, or when it went
      ahead and some record's slug normalised to the empty string. */
  lemma DangerIff(worksData: Option<WorksDoc>, writingsData: Option<WritingsDoc>)
    ensures Danger(GeneratedLog(worksData, writingsData)) <==>
      match Decide(worksData, writingsData)
      case Proceed(ws, rs) => "" in ws || "" in rs
      case _ => true
  {
    var v := Decide(worksData, writingsData);
    DangerAppend(Prelude(), OutcomeLog(v));
    if v.Proceed? {
      DangerOfRun(v.works, v.writings);
    } else {
      assert OutcomeLog(v)[0].Error?;
    }
  }
}
