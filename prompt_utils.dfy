/** The prompt text helpers of `src/prompt/utils.rs`: quoting text as a
    Markdown block quote, the excerpt block of the system instructions, the
    fields of the structure that is embedded for the similarity search, and
    the document excerpt headed by its chain of section titles. */
module PromptUtils {
  import opened Wrappers
  import opened Text
  import opened Hex
  import DB = DocDb
  import opened Diagnosis

  // ---------------------------------------------------------------------
  // quote_lines

  /** Each line with `"> "` in front. */
  function Quoted(lines: seq<string>): (r: seq<string>)
    ensures |r| == |lines|
    ensures forall k :: 0 <= k < |r| ==> r[k] == "> " + lines[k]
  {
    seq(|lines|, k requires 0 <= k < |lines| => "> " + lines[k])
  }

  /** `quote_lines`: every line of `content` quoted, joined with `"\n"`. */
  function QuoteLines(content: string): string
  {
    Join(Quoted(Lines(content)), "\n")
  }

  /** Only empty text quotes to nothing: `lines()` yields no line for it
      and at least one line for anything else. */
  lemma QuoteLinesEmpty(content: string)
    ensures QuoteLines(content) == [] <==> content == []
  {
    if content != [] {
      var q := Quoted(Lines(content));
      assert |Lines(content)| > 0;
      if |q| > 1 {
        assert Join(q, "\n") == q[0] + "\n" + Join(q[1..], "\n");
      }
      assert |q[0]| >= 2;
    }
  }

  /** Reading the quoted text back line by line gives the content's lines,
      each behind `"> "`. A line that still ends in `'\r'` loses it when it
      is not the last, since `"\r\n"` counts as a line ending. */
  lemma QuotedLines(content: string)
    ensures Lines(QuoteLines(content)) == Quoted(Relined(Lines(content)))
  {
    var ls := Lines(content);
    QuotedNoNewline(ls);
    LinesOfJoin(Quoted(ls));
    RelinedQuoted(ls);
  }

  /** Quoting keeps every line free of `'\n'`, and makes the last one
      non-empty. */
  lemma QuotedNoNewline(lines: seq<string>)
    requires forall k :: 0 <= k < |lines| ==> '\n' !in lines[k]
    ensures forall k :: 0 <= k < |lines| ==> '\n' !in Quoted(lines)[k]
    ensures |lines| > 0 ==> Quoted(lines)[|lines| - 1] != []
  {
    forall k | 0 <= k < |lines| ensures '\n' !in Quoted(lines)[k] {
      var l := lines[k];
      var line := "> " + l;
      forall i | 0 <= i < |line| ensures line[i] != '\n' {
        if i >= 2 {
          assert line[i] == l[i - 2];
        }
      }
    }
  }

  /** Dropping a line-ending `'\r'` commutes with quoting. */
  lemma RelinedQuoted(lines: seq<string>)
    ensures Relined(Quoted(lines)) == Quoted(Relined(lines))
  {
    var a := Relined(Quoted(lines));
    var b := Quoted(Relined(lines));
    assert |a| == |lines| == |b|;
    forall k | 0 <= k < |lines| ensures a[k] == b[k] {
      var q := Quoted(lines)[k];
      var r := Relined(lines)[k];
      assert q == "> " + lines[k];
      assert b[k] == "> " + r;
      if k < |lines| - 1 {
        assert a[k] == StripCR(q) && r == StripCR(lines[k]);
        StripQuoted(lines[k]);
      } else {
        assert a[k] == q && r == lines[k];
      }
    }
  }

  /** `"\r"` is stripped the same with or without the quote marker. */
  lemma StripQuoted(l: string)
    ensures StripCR("> " + l) == "> " + StripCR(l)
  {
    var line := "> " + l;
    if |l| > 0 && l[|l| - 1] == '\r' {
      assert line[..|line| - 1] == "> " + l[..|l| - 1];
    }
  }

  /** The quoted text has as many lines as the content. */
  lemma QuotedLineCount(content: string)
    ensures |Lines(QuoteLines(content))| == |Lines(content)|
  {
    QuotedLines(content);
  }

  /** The case of `quote_lines` in `src/prompt/utils.rs`: the trailing
      newline adds no line and the empty line is quoted as `"> "`. */
  lemma QuoteLinesExample(content: string)
    requires content == "foo\nbar\n\nbaz\n"
    ensures QuoteLines(content) == "> foo\n> bar\n> \n> baz"
  {
    var ls := ["foo", "bar", "", "baz"];
    ExampleLines(content, ls);
    var q := Quoted(ls);
    ExampleQuoted(ls, q);
    ExampleJoined(q);
  }

  lemma ExampleJoined(q: seq<string>)
    requires q == ["> foo", "> bar", "> ", "> baz"]
    ensures Join(q, "\n") == "> foo\n> bar\n> \n> baz"
  {
    assert Join(q[3..], "\n") == "> baz";
    assert Join(q[2..], "\n") == "> \n> baz";
    assert Join(q[1..], "\n") == "> bar\n> \n> baz";
  }

  lemma ExampleQuoted(ls: seq<string>, q: seq<string>)
    requires ls == ["foo", "bar", "", "baz"] && q == Quoted(ls)
    ensures q == ["> foo", "> bar", "> ", "> baz"]
  {
    assert q[0] == "> " + "foo" == "> foo";
    assert q[1] == "> " + "bar" == "> bar";
    assert q[2] == "> " + "" == "> ";
    assert q[3] == "> " + "baz" == "> baz";
  }

  lemma ExampleLines(content: string, ls: seq<string>)
    requires content == "foo\nbar\n\nbaz\n"
    requires ls == ["foo", "bar", "", "baz"]
    ensures Lines(content) == ls
  {
    assert Join(ls[3..], "\n") == "baz";
    assert Join(ls[2..], "\n") == "\nbaz";
    assert Join(ls[1..], "\n") == "bar\n\nbaz";
    assert content == Join(ls, "\n") + "\n";
    assert forall k :: 0 <= k < |ls| ==> PlainLine(ls[k]);
    LinesTerminated(ls);
  }

  // ---------------------------------------------------------------------
  // SystemInstructionsExcerpts::new

  /** The `excerpts` field: each excerpt quoted, blank lines between. */
  function ExcerptsText(excerpts: seq<string>): string
  {
    Join(seq(|excerpts|, k requires 0 <= k < |excerpts| => QuoteLines(excerpts[k])), "\n\n")
  }

  /** Excerpts keep their order: the block of two runs of excerpts is the
      first run's block, a blank line, and the second run's. */
  lemma ExcerptsAppend(a: seq<string>, b: seq<string>)
    requires a != [] && b != []
    ensures ExcerptsText(a + b) == ExcerptsText(a) + "\n\n" + ExcerptsText(b)
  {
    var qa := seq(|a|, k requires 0 <= k < |a| => QuoteLines(a[k]));
    var qb := seq(|b|, k requires 0 <= k < |b| => QuoteLines(b[k]));
    var ab := a + b;
    assert seq(|ab|, k requires 0 <= k < |ab| => QuoteLines(ab[k])) == qa + qb;
    JoinAppend(qa, qb, "\n\n");
  }

  /** No excerpts give an empty block; one excerpt is just that excerpt
      quoted. */
  lemma ExcerptsFew(x: string)
    ensures ExcerptsText([]) == ""
    ensures ExcerptsText([x]) == QuoteLines(x)
  {
    assert seq(1, k requires 0 <= k < 1 => QuoteLines([x][k])) == [QuoteLines(x)];
  }

  // ---------------------------------------------------------------------
  // EmbedStructure::new

  /** `EmbedStructure`: the Markdown fields filled into the text that is
      embedded for the similarity search. */
  datatype EmbedStructure = EmbedStructure(notes: string, diagnoses: string, statement: string)

  /** The candidates of the diagnoses at depth 1, blank lines between;
      refined text is not used here. */
  function CandidatesText(ds: seq<ResolvedDiagnosis>): string
  {
    Join(seq(|ds|, k requires 0 <= k < |ds| => CandidateText(ds[k].diagnosis, 1)), "\n\n")
  }

  /** `EmbedStructure::new`. `notesMarkdown` is `notes.to_markdown(1)`,
      which renders a template. */
  function NewEmbedStructure(notesMarkdown: string, diagnoses: Option<seq<ResolvedDiagnosis>>, statement: Option<string>): EmbedStructure
  {
    EmbedStructure(
      notesMarkdown,
      match diagnoses case Some(ds) => CandidatesText(ds) case None => "",
      QuoteLines(statement.GetOr("")))
  }

  /** The fields of `EmbedStructure::new`: no diagnoses and no statement
      leave their fields empty; one diagnosis is its candidate's Markdown
      without the refined text; the statement field is non-empty exactly
      when a non-empty statement is given. */
  lemma EmbedStructureFields(notesMarkdown: string, diagnoses: Option<seq<ResolvedDiagnosis>>, statement: Option<string>)
    ensures var e := NewEmbedStructure(notesMarkdown, diagnoses, statement);
      && e.notes == notesMarkdown
      && (diagnoses.None? || diagnoses == Some([]) ==> e.diagnoses == "")
      && (diagnoses.Some? && |diagnoses.value| == 1 ==> e.diagnoses == CandidateText(diagnoses.value[0].diagnosis, 1))
      && (e.statement == "" <==> statement.None? || statement == Some(""))
  {
    QuoteLinesEmpty(statement.GetOr(""));
    if diagnoses.Some? && |diagnoses.value| == 1 {
      var ds := diagnoses.value;
      assert seq(|ds|, k requires 0 <= k < |ds| => CandidateText(ds[k].diagnosis, 1)) == [CandidateText(ds[0].diagnosis, 1)];
    }
  }

  // ---------------------------------------------------------------------
  // get_excerpt

  /** The titles of the documents on `chain`, in walk order, skipping
      documents without one. */
  function ChainTitles(db: DB.DocDb, chain: seq<DB.DocId>): seq<string>
  {
    if chain == [] then []
    else (if chain[0] in db.titles then [db.titles[chain[0]]] else []) + ChainTitles(db, chain[1..])
  }

  /** The titles found are exactly those of the titled documents on the
      chain: none exactly when no document on it has a title, and the
      first is the document's own title when it has one. */
  lemma {:induction false} ChainTitlesSpec(db: DB.DocDb, chain: seq<DB.DocId>)
    ensures ChainTitles(db, chain) == [] <==> forall k :: 0 <= k < |chain| ==> chain[k] !in db.titles
    ensures chain != [] && chain[0] in db.titles ==> ChainTitles(db, chain)[0] == db.titles[chain[0]]
    ensures forall t :: t in ChainTitles(db, chain) ==> exists k :: 0 <= k < |chain| && chain[k] in db.titles && db.titles[chain[k]] == t
  {
    if chain != [] {
      ChainTitlesSpec(db, chain[1..]);
      var rest := ChainTitles(db, chain[1..]);
      forall k | 0 < k < |chain| ensures chain[k] == chain[1..][k - 1] {
      }
      forall t | t in ChainTitles(db, chain)
        ensures exists k :: 0 <= k < |chain| && chain[k] in db.titles && db.titles[chain[k]] == t
      {
        if t !in rest {
          assert chain[0] in db.titles && db.titles[chain[0]] == t;
        } else {
          var k :| 0 <= k < |chain[1..]| && chain[1..][k] in db.titles && db.titles[chain[1..][k]] == t;
          assert chain[k + 1] == chain[1..][k];
        }
      }
    }
  }

  /** A single document contributes its own title when it has one. */
  lemma ChainTitlesSingle(db: DB.DocDb, x: DB.DocId)
    ensures ChainTitles(db, [x]) == if x in db.titles then [db.titles[x]] else []
  {
    assert [x][1..] == [];
  }

  /** Titles are collected in walk order: the titles of a walk split in
      two are those of the first part followed by those of the second. */
  lemma {:induction false} ChainTitlesAppend(db: DB.DocDb, a: seq<DB.DocId>, b: seq<DB.DocId>)
    ensures ChainTitles(db, a + b) == ChainTitles(db, a) + ChainTitles(db, b)
    decreases |a|
  {
    if a == [] {
      assert a + b == b;
    } else {
      var own := if a[0] in db.titles then [db.titles[a[0]]] else [];
      assert (a + b)[0] == a[0] && (a + b)[1..] == a[1..] + b;
      assert ChainTitles(db, a + b) == own + ChainTitles(db, a[1..] + b);
      ChainTitlesAppend(db, a[1..], b);
      assert ChainTitles(db, a) == own + ChainTitles(db, a[1..]);
    }
  }

  /** No title is missed: every titled document on the walk has its title
      collected. */
  lemma {:induction false} ChainTitlesComplete(db: DB.DocDb, chain: seq<DB.DocId>, k: nat)
    requires k < |chain| && chain[k] in db.titles
    ensures db.titles[chain[k]] in ChainTitles(db, chain)
  {
    assert chain == chain[..k] + ([chain[k]] + chain[k + 1..]);
    ChainTitlesAppend(db, chain[..k], [chain[k]] + chain[k + 1..]);
    ChainTitlesAppend(db, [chain[k]], chain[k + 1..]);
    ChainTitlesSingle(db, chain[k]);
  }

  /** The elements of `s` back to front. */
  function Reversed<T>(s: seq<T>): (r: seq<T>)
    ensures |r| == |s|
    ensures forall k :: 0 <= k < |s| ==> r[k] == s[|s| - 1 - k]
  {
    if s == [] then [] else Reversed(s[1..]) + [s[0]]
  }

  /** The text of an excerpt before its id tag: the titles root first
      behind `"# "` when there are any, then the trimmed document. */
  function ExcerptHead(titles: seq<string>, document: string): string
  {
    if titles != [] then "# " + (Join(Reversed(titles), " > ") + "\n\n" + Trim(document))
    else Trim(document)
  }

  /** The tag that closes an excerpt: a blank line and the id in lower-case
      hex inside `<id:` and `>`. */
  function IdTag(id: DB.DocId): string
  {
    "\n\n<id:" + Encode(id) + ">"
  }

  /** The excerpt `get_excerpt` formats from the titles collected on the
      walk (in walk order), the document text and the id. */
  function ExcerptText(titles: seq<string>, document: string, id: DB.DocId): string
  {
    ExcerptHead(titles, document) + IdTag(id)
  }

  /** The 32 hex digits before the final `>` of an excerpt decode back to
      the document's id, so a citation that copies them finds the document
      again. */
  lemma ExcerptNamesDocument(titles: seq<string>, document: string, id: DB.DocId)
    ensures var e := ExcerptText(titles, document, id);
      && |e| >= 33
      && e[|e| - 33..|e| - 1] == Encode(id)
      && DB.DocIdFromHex(Utf8Encode(e[|e| - 33..|e| - 1])) == Success(id)
  {
    TagDecodes(ExcerptHead(titles, document), id);
  }

  /** With titles the excerpt opens with a heading. */
  lemma ExcerptHeading(titles: seq<string>, document: string, id: DB.DocId)
    requires titles != []
    ensures ExcerptText(titles, document, id)[..2] == "# "
  {
    var body := Join(Reversed(titles), " > ") + "\n\n" + Trim(document);
    Framed("# ", body, IdTag(id));
  }

  /** Whatever comes before it, the id tag holds the id's hex digits. */
  lemma TagDecodes(head: string, id: DB.DocId)
    ensures var e := head + IdTag(id);
      && |e| >= 33
      && e[|e| - 33..|e| - 1] == Encode(id)
      && DB.DocIdFromHex(Utf8Encode(e[|e| - 33..|e| - 1])) == Success(id)
  {
    DB.DocIdRoundTrip(id);
    Enclosed(head, "\n\n<id:", Encode(id), ">");
  }

  /** The middle of a part appended to a front. */
  lemma Enclosed<T>(front: seq<T>, p: seq<T>, m: seq<T>, q: seq<T>)
    ensures var e := front + (p + m + q);
      |e| == |front| + |p| + |m| + |q| && e[|front| + |p|..|front| + |p| + |m|] == m
  {
  }

  lemma Associative<T>(a: seq<T>, b: seq<T>, c: seq<T>)
    ensures a + b + c == a + (b + c)
  {
  }

  /** The middle and the front of a concatenation. */
  lemma Framed<T>(p: seq<T>, m: seq<T>, q: seq<T>)
    ensures (p + m + q)[|p|..|p| + |m|] == m
    ensures (p + m + q)[..|p|] == p
  {
  }

  /** `rest` is what is left of a parent walk: each document's parent is the
      next one, and the last has none. */
  ghost predicate Walk(parents: map<DB.DocId, DB.DocId>, rest: seq<DB.DocId>)
  {
    && (rest != [] ==> rest[|rest| - 1] !in parents)
    && forall k :: 0 <= k < |rest| - 1 ==> rest[k] in parents && parents[rest[k]] == rest[k + 1]
  }

  /** One step of a walk: the parent of its first document is the second,
      or there is none when the walk ends there, and the rest is a walk. */
  lemma WalkStep(parents: map<DB.DocId, DB.DocId>, rest: seq<DB.DocId>)
    requires Walk(parents, rest) && rest != []
    ensures Walk(parents, rest[1..])
    ensures |rest| == 1 ==> rest[0] !in parents
    ensures |rest| > 1 ==> rest[0] in parents && parents[rest[0]] == rest[1]
  {
    forall k | 0 <= k < |rest[1..]| - 1
      ensures rest[1..][k] in parents && parents[rest[1..][k]] == rest[1..][k + 1]
    {
      assert rest[1..][k] == rest[k + 1] && rest[1..][k + 1] == rest[k + 2];
    }
  }

  /** The loop of `get_excerpt`: from `id` up the parent chain, collecting
      the titles that exist. */
  method CollectTitles(db: DB.DocDb, id: DB.DocId) returns (titles: seq<string>)
    requires DB.ChainEnds(db.parents, id)
    ensures titles == ChainTitles(db, DB.Chain(db.parents, id, |db.parents|).value)
  {
    ghost var chain := DB.Chain(db.parents, id, |db.parents|).value;
    ghost var rest := chain;
    assert Walk(db.parents, rest);
    titles := [];
    var hashForTitle: Option<DB.DocId> := Some(id);
    while hashForTitle.Some?
      invariant hashForTitle.None? <==> rest == []
      invariant hashForTitle.Some? ==> rest[0] == hashForTitle.value
      invariant Walk(db.parents, rest)
      invariant titles + ChainTitles(db, rest) == ChainTitles(db, chain)
      decreases |rest|
    {
      var hash := hashForTitle.value;
      var title := DB.GetTitle(db, hash);
      ghost var found := if title.Some? then [title.value] else [];
      assert ChainTitles(db, rest) == found + ChainTitles(db, rest[1..]);
      Associative(titles, found, ChainTitles(db, rest[1..]));
      ghost var before := titles;
      if title.Some? {
        titles := titles + [title.value];
      }
      assert titles == before + found;
      WalkStep(db.parents, rest);
      hashForTitle := DB.GetParent(db, hash);
      rest := rest[1..];
    }
    assert titles + [] == titles;
  }

  /** `get_excerpt` once the document is fetched (`document`, `None` when
      the fetch failed): collect the titles along the parent chain of `id`,
      then format the excerpt. */
  method GetExcerpt(db: DB.DocDb, id: DB.DocId, document: Option<string>) returns (r: Option<string>)
    requires DB.ChainEnds(db.parents, id)
    ensures r.None? <==> document.None?
    ensures r.Some? ==> r.value == ExcerptText(ChainTitles(db, DB.Chain(db.parents, id, |db.parents|).value), document.value, id)
  {
    if document.None? {
      return None;
    }
    var titles := CollectTitles(db, id);
    var trimmed := Trim(document.value);
    var head := trimmed;
    if titles != [] {
      var heading := Join(Reversed(titles), " > ");
      head := "# " + (heading + "\n\n" + trimmed);
    }
    r := Some(head + ("\n\n<id:" + Encode(id) + ">"));
  }
}
