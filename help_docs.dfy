/**
 * The embedded help pages: parsing a Markdown page with optional YAML front
 * matter, indexing the pages of the help directory by slug, and looking a
 * page up for GET /help/{slug}.
 */
module HelpDocs {
  import opened Wrappers
  import opened GoStrings
  import opened Http

  datatype HelpSection = HelpSection(
    title: string,
    slug: string,
    short: string,
    topics: seq<string>,
    commands: seq<string>,
    flags: seq<string>,
    isTopLevel: bool,
    isTemplate: bool,
    showPerDefault: bool,
    sectionType: string,
    content: string)

  const EmptySection := HelpSection("", "", "", [], [], [], false, false, false, "", "")

  /**
   * What the YAML decoder leaves in the section it decodes into, and whether
   * it succeeded; on failure the fields it filled before failing stay set.
   */
  datatype Decoded = Decoded(meta: HelpSection, ok: bool)

  /** A directory entry of the help directory, with the file's text or nothing when it cannot be read. */
  datatype DirEntry = DirEntry(name: string, isDir: bool, text: Option<string>)

  const FrontMatterOpen := "---\n"
  const FrontMatterClose := "\n---\n"

  /**
   * The front matter's metadata and the body: when the trimmed page opens
   * with `---` and has a closing `---` line, the text between them is
   * decoded and, if that succeeds, the body is what follows the closing
   * line. Otherwise the body is the whole trimmed page.
   */
  function SplitFrontMatter(t: string, decode: string -> Decoded): (HelpSection, string)
  {
    if HasPrefix(t, FrontMatterOpen) then
      match SplitOnce(t, FrontMatterClose)
      case Some(parts) =>
        var d := decode(TrimPrefix(parts.0, FrontMatterOpen));
        (d.meta, if d.ok then parts.1 else t)
      case None => (EmptySection, t)
    else (EmptySection, t)
  }

  /** The first line that starts with "# ", without that prefix; "" when there is none. */
  function FirstHeading(lines: seq<string>): string
  {
    if lines == [] then ""
    else if HasPrefix(lines[0], "# ") then TrimPrefix(lines[0], "# ")
    else FirstHeading(lines[1..])
  }

  /** The section a page parses to. */
  function ParsedSection(page: string, decode: string -> Decoded): HelpSection
  {
    var split := SplitFrontMatter(TrimSpace(page), decode);
    var content := TrimSpace(split.1);
    var title := if split.0.title == "" then FirstHeading(Lines(content)) else split.0.title;
    split.0.(title := title, content := content)
  }

  /** `parseHelpMarkdown`: front matter, trimmed content, and the title from the first heading when missing. */
  method ParseHelpMarkdown(page: string, decode: string -> Decoded) returns (sec: HelpSection)
    ensures sec == ParsedSection(page, decode)
  {
    var s := TrimSpace(page);
    var meta := EmptySection;
    var content := s;
    if HasPrefix(s, FrontMatterOpen) {
      var parts := SplitOnce(s, FrontMatterClose);
      if parts.Some? {
        var fm := TrimPrefix(parts.value.0, FrontMatterOpen);
        var d := decode(fm);
        meta := d.meta;
        if d.ok {
          content := parts.value.1;
        }
      }
    }
    assert (meta, content) == SplitFrontMatter(s, decode);
    meta := meta.(content := TrimSpace(content));
    if meta.title == "" {
      var title := FindTitle(Lines(meta.content));
      meta := meta.(title := title);
    }
    sec := meta;
  }

  /** The first-match loop over the content's lines. */
  method FindTitle(lines: seq<string>) returns (title: string)
    ensures title == FirstHeading(lines)
  {
    title := "";
    for i := 0 to |lines|
      invariant FirstHeading(lines) == FirstHeading(lines[i..])
    {
      assert lines[i..][0] == lines[i] && lines[i..][1..] == lines[i + 1..];
      if HasPrefix(lines[i], "# ") {
        return TrimPrefix(lines[i], "# ");
      }
    }
    assert lines[|lines|..] == [];
  }

  /** A text trimmed already is its own trim. */
  lemma TrimSpaceOfTrimmed(t: string)
    requires t == [] || (!IsSpace(t[0]) && !IsSpace(t[|t| - 1]))
    ensures TrimSpace(t) == t
  {
    assert SkipSpaces(t) == t;
  }

  /**
   * The heading found is that of the first line starting with "# ", with
   * no such line before it; it is "" when no line starts with "# ".
   */
  lemma {:induction false} FirstHeadingIsFirst(lines: seq<string>)
    ensures (forall i :: 0 <= i < |lines| ==> !HasPrefix(lines[i], "# ")) ==> FirstHeading(lines) == ""
    ensures (exists i :: 0 <= i < |lines| && HasPrefix(lines[i], "# ")) ==>
      exists i :: 0 <= i < |lines| && HasPrefix(lines[i], "# ") && FirstHeading(lines) == lines[i][2..]
        && forall j :: 0 <= j < i ==> !HasPrefix(lines[j], "# ")
    decreases |lines|
  {
    if lines != [] && !HasPrefix(lines[0], "# ") {
      FirstHeadingIsFirst(lines[1..]);
      if exists i :: 0 <= i < |lines| && HasPrefix(lines[i], "# ") {
        var k :| 0 <= k < |lines| && HasPrefix(lines[k], "# ");
        assert k > 0 && lines[1..][k - 1] == lines[k];
        var i :| 0 <= i < |lines[1..]| && HasPrefix(lines[1..][i], "# ") && FirstHeading(lines[1..]) == lines[1..][i][2..]
          && forall j :: 0 <= j < i ==> !HasPrefix(lines[1..][j], "# ");
        assert lines[i + 1] == lines[1..][i];
        forall j | 0 <= j < i + 1
          ensures !HasPrefix(lines[j], "# ")
        {
          if j > 0 {
            assert lines[j] == lines[1..][j - 1];
          }
        }
      }
      forall i | 0 <= i < |lines| - 1
        ensures lines[1..][i] == lines[i + 1]
      {
      }
    }
  }

  /** The page is framed when it opens with `---` and has a closing `---` line. */
  predicate Framed(t: string)
  {
    HasPrefix(t, FrontMatterOpen) && Contains(t, FrontMatterClose)
  }

  /** The text between the opening and the first closing `---` line of a framed page. */
  function FrontMatter(t: string): string
    requires Framed(t)
  {
    TrimPrefix(SplitOnce(t, FrontMatterClose).value.0, FrontMatterOpen)
  }

  /** The text after the first closing `---` line of a framed page. */
  function Body(t: string): string
    requires Framed(t)
  {
    SplitOnce(t, FrontMatterClose).value.1
  }

  /**
   * A framed page is its front matter's block, the closing line and the
   * body; its metadata is what the decoder leaves, and its body is kept
   * only when decoding succeeds. An unframed page has no metadata and is
   * its own body.
   */
  lemma SplitFrontMatterCases(t: string, decode: string -> Decoded)
    ensures Framed(t) ==>
      && t == SplitOnce(t, FrontMatterClose).value.0 + FrontMatterClose + Body(t)
      && SplitFrontMatter(t, decode) == (decode(FrontMatter(t)).meta, if decode(FrontMatter(t)).ok then Body(t) else t)
    ensures !Framed(t) ==> SplitFrontMatter(t, decode) == (EmptySection, t)
  {
  }

  /** Parsing never fails, and the content is always trimmed. */
  lemma ParsedSectionTrimmed(page: string, decode: string -> Decoded)
    ensures var sec := ParsedSection(page, decode);
      sec.content == [] || (!IsSpace(sec.content[0]) && !IsSpace(sec.content[|sec.content| - 1]))
  {
    var split := SplitFrontMatter(TrimSpace(page), decode);
    assert ParsedSection(page, decode).content == TrimSpace(split.1);
  }

  /**
   * The content is the trimmed text after the first closing `---` line
   * exactly when the trimmed page is framed and its front matter decodes,
   * and the whole trimmed page otherwise.
   */
  lemma ParsedSectionContent(page: string, decode: string -> Decoded)
    ensures var t := TrimSpace(page);
      var sec := ParsedSection(page, decode);
      && (Framed(t) && decode(FrontMatter(t)).ok ==> sec.content == TrimSpace(Body(t)))
      && (!(Framed(t) && decode(FrontMatter(t)).ok) ==> sec.content == t)
  {
    var t := TrimSpace(page);
    SplitFrontMatterCases(t, decode);
    ContentOfSplit(t, decode);
    ParsedContentIsSplitBody(page, decode);
  }

  /** The parsed content is the trimmed second half of the front-matter split. */
  lemma ParsedContentIsSplitBody(page: string, decode: string -> Decoded)
    ensures ParsedSection(page, decode).content == TrimSpace(SplitFrontMatter(TrimSpace(page), decode).1)
  {
  }

  /** Trimming the body of an unframed or undecodable page changes nothing. */
  lemma ContentOfSplit(t: string, decode: string -> Decoded)
    requires t == TrimSpace(t)
    ensures !(Framed(t) && decode(FrontMatter(t)).ok) ==> TrimSpace(SplitFrontMatter(t, decode).1) == t
  {
    SplitFrontMatterCases(t, decode);
  }

  /**
   * The metadata comes from the front matter of a framed page (even when
   * decoding fails part-way) and is empty otherwise; a title from the
   * front matter wins, otherwise the title is the first "# " heading of
   * the content, or "".
   */
  lemma ParsedSectionTitle(page: string, decode: string -> Decoded)
    ensures var t := TrimSpace(page);
      var sec := ParsedSection(page, decode);
      var meta := if Framed(t) then decode(FrontMatter(t)).meta else EmptySection;
      && sec == meta.(title := sec.title, content := sec.content)
      && (meta.title != "" ==> sec.title == meta.title)
      && (meta.title == "" ==> sec.title == FirstHeading(Lines(sec.content)))
  {
    SplitFrontMatterCases(TrimSpace(page), decode);
  }

  // ---------------------------------------------------------------------------
  // The help index
  // ---------------------------------------------------------------------------

  /** Only files (not directories) named `*.md` that can be read are indexed. */
  predicate Indexable(e: DirEntry)
  {
    !e.isDir && HasSuffix(e.name, ".md") && e.text.Some?
  }

  /** The slug a page is indexed under: its own, else its file name without `.md`. */
  function SlugOf(sec: HelpSection, name: string): string
  {
    if sec.slug == "" then TrimSuffix(name, ".md") else sec.slug
  }

  /** The section an indexable entry contributes under `parse`, with its slug filled in. */
  function EntrySection(e: DirEntry, parse: string -> HelpSection): HelpSection
    requires Indexable(e)
  {
    var sec := parse(e.text.value);
    sec.(slug := SlugOf(sec, e.name))
  }

  /**
   * The index after visiting `entries` in order, each page read with
   * `parse`; a later page replaces an earlier one with the same slug.
   */
  function IndexAfter(index: map<string, HelpSection>, entries: seq<DirEntry>, parse: string -> HelpSection)
    : map<string, HelpSection>
    decreases |entries|
  {
    if entries == [] then index
    else
      var before := IndexAfter(index, entries[..|entries| - 1], parse);
      var e := entries[|entries| - 1];
      if Indexable(e) then before[EntrySection(e, parse).slug := EntrySection(e, parse)] else before
  }

  lemma IndexAfterStep(index: map<string, HelpSection>, entries: seq<DirEntry>, parse: string -> HelpSection, i: nat)
    requires i < |entries|
    ensures IndexAfter(index, entries[..i + 1], parse) ==
      if Indexable(entries[i]) then
        IndexAfter(index, entries[..i], parse)[EntrySection(entries[i], parse).slug := EntrySection(entries[i], parse)]
      else IndexAfter(index, entries[..i], parse)
  {
    assert entries[..i + 1][..i] == entries[..i];
  }

  /** Every section is stored under its own slug. */
  ghost predicate SlugKeyed(index: map<string, HelpSection>)
  {
    forall k :: k in index ==> index[k].slug == k
  }

  /** Indexing keeps every section under its own slug. */
  lemma {:induction false} IndexAfterSlugKeyed(index: map<string, HelpSection>, entries: seq<DirEntry>,
                                               parse: string -> HelpSection)
    requires SlugKeyed(index)
    ensures SlugKeyed(IndexAfter(index, entries, parse))
    decreases |entries|
  {
    if entries != [] {
      IndexAfterSlugKeyed(index, entries[..|entries| - 1], parse);
    }
  }

  /** A slug is new to the index only if some indexable entry contributed it. */
  lemma {:induction false} IndexAfterKeys(index: map<string, HelpSection>, entries: seq<DirEntry>,
                                          parse: string -> HelpSection)
    ensures forall k :: k in IndexAfter(index, entries, parse) ==>
      k in index || exists i :: 0 <= i < |entries| && Indexable(entries[i]) && EntrySection(entries[i], parse).slug == k
    decreases |entries|
  {
    if entries != [] {
      var init := entries[..|entries| - 1];
      IndexAfterKeys(index, init, parse);
      var e := entries[|entries| - 1];
      forall k | k in IndexAfter(index, entries, parse)
        ensures k in index || exists i :: 0 <= i < |entries| && Indexable(entries[i]) && EntrySection(entries[i], parse).slug == k
      {
        if k !in IndexAfter(index, init, parse) {
          assert Indexable(e) && EntrySection(e, parse).slug == k;
        } else if k !in index {
          var i :| 0 <= i < |init| && Indexable(init[i]) && EntrySection(init[i], parse).slug == k;
          assert entries[i] == init[i];
        }
      }
    }
  }

  /** No indexable entry after position i has the same slug as entry i. */
  ghost predicate LastWithSlug(entries: seq<DirEntry>, i: int, parse: string -> HelpSection)
    requires 0 <= i < |entries| && Indexable(entries[i])
  {
    forall j :: i < j < |entries| && Indexable(entries[j]) ==>
      EntrySection(entries[j], parse).slug != EntrySection(entries[i], parse).slug
  }

  /** A later page replaces an earlier one with the same slug: the last one stays. */
  lemma {:induction false} IndexAfterLastWins(index: map<string, HelpSection>, entries: seq<DirEntry>,
                                              parse: string -> HelpSection, i: int)
    requires 0 <= i < |entries| && Indexable(entries[i]) && LastWithSlug(entries, i, parse)
    ensures EntrySection(entries[i], parse).slug in IndexAfter(index, entries, parse)
    ensures IndexAfter(index, entries, parse)[EntrySection(entries[i], parse).slug] == EntrySection(entries[i], parse)
    decreases |entries|
  {
    var init := entries[..|entries| - 1];
    if i < |init| {
      assert entries[i] == init[i];
      forall j | i < j < |init| && Indexable(init[j])
        ensures EntrySection(init[j], parse).slug != EntrySection(init[i], parse).slug
      {
        assert entries[j] == init[j];
      }
      IndexAfterLastWins(index, init, parse, i);
      var e := entries[|entries| - 1];
      if Indexable(e) {
        assert EntrySection(e, parse).slug != EntrySection(entries[i], parse).slug;
      }
    }
  }

  /** A file without a slug of its own is indexed under its name without `.md`. */
  lemma SlugFromFileName(e: DirEntry, parse: string -> HelpSection)
    requires Indexable(e)
    ensures parse(e.text.value).slug == "" ==>
      EntrySection(e, parse).slug == e.name[..|e.name| - 3] && e.name == EntrySection(e, parse).slug + ".md"
    ensures parse(e.text.value).slug != "" ==> EntrySection(e, parse) == parse(e.text.value)
  {
    assert e.name == e.name[..|e.name| - 3] + e.name[|e.name| - 3..];
  }

  /** The help pages are read with `parseHelpMarkdown` over a front-matter decoder. */
  function Parser(decode: string -> Decoded): string -> HelpSection
  {
    page => ParsedSection(page, decode)
  }

  class HelpIndex {
    /** `helpIndex`: the loaded sections by slug. */
    var sections: map<string, HelpSection>

    ghost predicate Valid()
      reads this
    {
      SlugKeyed(sections)
    }

    constructor ()
      ensures Valid() && sections == map[]
    {
      sections := map[];
    }

    /**
     * `LoadHelpSections`: a directory that cannot be listed is an error and
     * changes nothing; otherwise every indexable page is parsed and stored
     * under its slug, in listing order.
     */
    method Load(listing: Result<seq<DirEntry>, string>, decode: string -> Decoded) returns (err: Option<string>)
      requires Valid()
      modifies this
      ensures Valid()
      ensures listing.Err? ==> err == Some(listing.error) && sections == old(sections)
      ensures listing.Ok? ==> err.None? && sections == IndexAfter(old(sections), listing.value, Parser(decode))
    {
      if listing.Err? {
        return Some(listing.error);
      }
      var entries := listing.value;
      ghost var parse := Parser(decode);
      IndexAfterSlugKeyed(sections, entries, parse);
      for i := 0 to |entries|
        invariant sections == IndexAfter(old(sections), entries[..i], parse)
      {
        IndexAfterStep(old(sections), entries, parse, i);
        var e := entries[i];
        if e.isDir {
          continue;
        }
        if !HasSuffix(e.name, ".md") {
          continue;
        }
        if e.text.None? {
          continue;
        }
        var section := ParseHelpMarkdown(e.text.value, decode);
        assert parse(e.text.value) == section;
        if section.slug == "" {
          section := section.(slug := TrimSuffix(e.name, ".md"));
        }
        assert section == EntrySection(e, parse);
        sections := sections[section.slug := section];
      }
      assert entries[..|entries|] == entries;
      return None;
    }

    /** `GetSection`: the section indexed under a slug, if any. */
    function GetSection(slug: string): (r: Option<HelpSection>)
      reads this
      ensures r.Some? <==> slug in sections
      ensures r.Some? ==> r.value == sections[slug] && (Valid() ==> r.value.slug == slug)
    {
      if slug in sections then Some(sections[slug]) else None
    }

    /**
     * GET /help/{slug}: the slug is the path after "/help/"; "" and "help"
     * are not found, nor is a slug missing from the index; otherwise the
     * indexed section.
     */
    method HandleHelpGet(path: string) returns (r: Result<HelpSection, HttpError>)
      requires Valid()
      ensures var slug := TrimPrefix(path, "/help/");
        && (r.Ok? <==> slug != "" && slug != "help" && slug in sections)
        && (r.Ok? ==> r.value == sections[slug] && r.value.slug == slug)
        && (r.Err? ==> r.error == HttpError(404, "404 page not found"))
    {
      var slug := TrimPrefix(path, "/help/");
      if slug == "help" || slug == "" {
        return Err(HttpError(404, "404 page not found"));
      }
      var sec := GetSection(slug);
      if sec.None? {
        return Err(HttpError(404, "404 page not found"));
      }
      return Ok(sec.value);
    }
  }
}
