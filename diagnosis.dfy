/** The diagnosis helpers of `src/prompt/diagnosis/utils.rs`: Markdown
    rendering of candidate and resolved diagnoses, the first-occurrence
    de-duplication of resolved diagnoses, and the part of
    `find_diagnosis_doc` that turns the documents similar to a candidate into
    the condition document it names. */
module Diagnosis {
  import opened Wrappers
  import opened Text
  import DB = DocDb

  /** `CandidateDiagnosis`: a diagnosis the model proposed. */
  datatype CandidateDiagnosis = CandidateDiagnosis(name: string, reasoningFor: string, reasoningAgainst: string)

  /** `ResolvedDiagnosis`: a candidate tied to the condition document
      `docHash`, possibly with refined text. */
  datatype ResolvedDiagnosis = ResolvedDiagnosis(docHash: DB.DocId, diagnosis: CandidateDiagnosis, refined: Option<string>)

  // ---------------------------------------------------------------------
  // Markdown

  /** A heading one level below `depth`: `depth + 1` hashes, a space and the
      title. */
  function Heading(depth: nat, title: string): string
  {
    seq(depth, _ => '#') + "# " + title
  }

  /** A paragraph after a blank line, or nothing for empty text. */
  function Section(text: string): string
  {
    if text == [] then "" else "\n\n" + text
  }

  /** What `CandidateDiagnosis::to_markdown` renders: the heading, then each
      non-empty reasoning part, separated by blank lines. */
  function CandidateText(c: CandidateDiagnosis, depth: nat): string
  {
    Heading(depth, c.name) + Section(c.reasoningFor) + Section(c.reasoningAgainst)
  }

  /** `CandidateDiagnosis::to_markdown`: collect the heading and the
      non-empty reasoning parts, then join them with blank lines. */
  method CandidateMarkdown(c: CandidateDiagnosis, depth: nat) returns (md: string)
    ensures md == CandidateText(c, depth)
  {
    var hashes := seq(depth, _ => '#');
    var title := hashes + "# " + c.name;
    var parts := [title];
    if c.reasoningFor != [] {
      JoinAppend(parts, [c.reasoningFor], "\n\n");
      parts := parts + [c.reasoningFor];
    }
    if c.reasoningAgainst != [] {
      JoinAppend(parts, [c.reasoningAgainst], "\n\n");
      parts := parts + [c.reasoningAgainst];
    }
    md := Join(parts, "\n\n");
  }

  /** The rendering is the bare heading exactly when both reasoning parts are
      empty. */
  lemma CandidateTextBare(c: CandidateDiagnosis, depth: nat)
    ensures CandidateText(c, depth) == Heading(depth, c.name) <==> c.reasoningFor == [] && c.reasoningAgainst == []
  {
    var h := Heading(depth, c.name);
    if c.reasoningFor != [] || c.reasoningAgainst != [] {
      assert |CandidateText(c, depth)| > |h|;
    }
  }

  /** `ResolvedDiagnosis::to_markdown`: refined text replaces both reasoning
      parts; without it the candidate is rendered. */
  function ResolvedText(r: ResolvedDiagnosis, depth: nat): string
  {
    match r.refined
    case Some(refined) => Heading(depth, r.diagnosis.name) + "\n\n" + refined
    case None => CandidateText(r.diagnosis, depth)
  }

  /** Either way the rendering opens with the diagnosis heading; with refined
      text it does not depend on the reasoning parts. */
  lemma ResolvedTextHeading(r: ResolvedDiagnosis, depth: nat, reasoningFor: string, reasoningAgainst: string)
    ensures var h := Heading(depth, r.diagnosis.name);
      |h| <= |ResolvedText(r, depth)| && ResolvedText(r, depth)[..|h|] == h
    ensures r.refined.Some? ==>
      ResolvedText(r, depth) == ResolvedText(r.(diagnosis := r.diagnosis.(reasoningFor := reasoningFor, reasoningAgainst := reasoningAgainst)), depth)
    ensures r.refined.None? ==> ResolvedText(r, depth) == CandidateText(r.diagnosis, depth)
  {
    var h := Heading(depth, r.diagnosis.name);
    match r.refined
    case Some(refined) =>
      assert ResolvedText(r, depth) == h + ("\n\n" + refined);
    case None =>
      var c := r.diagnosis;
      assert CandidateText(c, depth) == h + (Section(c.reasoningFor) + Section(c.reasoningAgainst));
  }

  // ---------------------------------------------------------------------
  // De-duplication

  /** The document ids of `ds`. */
  function Hashes(ds: seq<ResolvedDiagnosis>): set<DB.DocId>
  {
    set k | 0 <= k < |ds| :: ds[k].docHash
  }

  lemma HashesSnoc(ds: seq<ResolvedDiagnosis>, d: ResolvedDiagnosis)
    ensures Hashes(ds + [d]) == Hashes(ds) + {d.docHash}
  {
    var s := ds + [d];
    forall h | h in Hashes(s) ensures h in Hashes(ds) + {d.docHash} {
      var k :| 0 <= k < |s| && s[k].docHash == h;
      if k < |ds| {
        assert ds[k] == s[k];
      }
    }
    forall h | h in Hashes(ds) ensures h in Hashes(s) {
      var k :| 0 <= k < |ds| && ds[k].docHash == h;
      assert s[k] == ds[k];
    }
    assert s[|ds|] == d;
  }

  /** Diagnosis `j` is the first with its id. */
  predicate IsFirst(ds: seq<ResolvedDiagnosis>, j: nat)
    requires j < |ds|
  {
    ds[j].docHash !in Hashes(ds[..j])
  }

  /** The first diagnosis for each id among the first `n`, in input order. */
  function Deduped(ds: seq<ResolvedDiagnosis>, n: nat): seq<ResolvedDiagnosis>
    requires n <= |ds|
  {
    if n == 0 then []
    else Deduped(ds, n - 1) + if IsFirst(ds, n - 1) then [ds[n - 1]] else []
  }

  /** `dedup_diagnoses`: keep a diagnosis when its id has not been seen. */
  method DedupDiagnoses(diagnoses: seq<ResolvedDiagnosis>) returns (deduped: seq<ResolvedDiagnosis>)
    ensures deduped == Deduped(diagnoses, |diagnoses|)
  {
    var seen: set<DB.DocId> := {};
    deduped := [];
    for i := 0 to |diagnoses|
      invariant deduped == Deduped(diagnoses, i)
      invariant seen == Hashes(diagnoses[..i])
    {
      var diagnosis := diagnoses[i];
      assert diagnoses[..i + 1] == diagnoses[..i] + [diagnosis];
      HashesSnoc(diagnoses[..i], diagnosis);
      if diagnosis.docHash in seen {
        assert Deduped(diagnoses, i + 1) == deduped + [];
        continue;
      }
      seen := seen + {diagnosis.docHash};
      deduped := deduped + [diagnosis];
    }
  }

  /** No id is lost and none is added. */
  lemma {:induction false} DedupedHashes(ds: seq<ResolvedDiagnosis>, n: nat)
    requires n <= |ds|
    ensures Hashes(Deduped(ds, n)) == Hashes(ds[..n])
  {
    if n > 0 {
      DedupedHashes(ds, n - 1);
      var before := Deduped(ds, n - 1);
      assert ds[..n] == ds[..n - 1] + [ds[n - 1]];
      HashesSnoc(ds[..n - 1], ds[n - 1]);
      if IsFirst(ds, n - 1) {
        HashesSnoc(before, ds[n - 1]);
      } else {
        assert ds[n - 1].docHash in Hashes(ds[..n - 1]);
        assert Deduped(ds, n) == before;
        assert Hashes(ds[..n]) == Hashes(ds[..n - 1]);
      }
    }
  }

  /** Pairwise distinct ids. */
  predicate DistinctHashes(ds: seq<ResolvedDiagnosis>) {
    forall i, j :: 0 <= i < j < |ds| ==> ds[i].docHash != ds[j].docHash
  }

  /** The kept diagnoses have pairwise distinct ids. */
  lemma {:induction false} DedupedDistinct(ds: seq<ResolvedDiagnosis>, n: nat)
    requires n <= |ds|
    ensures DistinctHashes(Deduped(ds, n))
  {
    if n > 0 {
      DedupedDistinct(ds, n - 1);
      var before := Deduped(ds, n - 1);
      if IsFirst(ds, n - 1) {
        DedupedHashes(ds, n - 1);
        var r := before + [ds[n - 1]];
        forall i | 0 <= i < |before| ensures r[i].docHash != ds[n - 1].docHash {
          assert r[i].docHash in Hashes(before);
        }
      } else {
        assert Deduped(ds, n) == before;
      }
    }
  }

  /** `a` is `b` with some elements left out. */
  predicate Subsequence<T(==)>(a: seq<T>, b: seq<T>)
    decreases |b|
  {
    if a == [] then true
    else if b == [] then false
    else (a[|a| - 1] == b[|b| - 1] && Subsequence(a[..|a| - 1], b[..|b| - 1])) || Subsequence(a, b[..|b| - 1])
  }

  /** The kept diagnoses are a subsequence of the input: same order, nothing
      new. */
  lemma {:induction false} DedupedSubsequence(ds: seq<ResolvedDiagnosis>, n: nat)
    requires n <= |ds|
    ensures Subsequence(Deduped(ds, n), ds[..n])
  {
    if n > 0 {
      DedupedSubsequence(ds, n - 1);
      var before := Deduped(ds, n - 1);
      var b := ds[..n];
      assert |b| == n && b[..|b| - 1] == ds[..n - 1];
      if IsFirst(ds, n - 1) {
        var r := before + [ds[n - 1]];
        assert r[..|r| - 1] == before;
      } else {
        assert Deduped(ds, n) == before;
        if before != [] {
          assert Subsequence(before, b[..|b| - 1]);
        }
      }
    }
  }

  /** With distinct ids nothing is dropped. */
  lemma {:induction false} DedupedDistinctUnchanged(ds: seq<ResolvedDiagnosis>, n: nat)
    requires n <= |ds| && DistinctHashes(ds)
    ensures Deduped(ds, n) == ds[..n]
  {
    if n > 0 {
      DedupedDistinctUnchanged(ds, n - 1);
      assert IsFirst(ds, n - 1);
      assert ds[..n] == ds[..n - 1] + [ds[n - 1]];
    }
  }

  /** De-duplicating twice is de-duplicating once. */
  lemma DedupedIdempotent(ds: seq<ResolvedDiagnosis>)
    ensures var once := Deduped(ds, |ds|);
      Deduped(once, |once|) == once
  {
    var once := Deduped(ds, |ds|);
    DedupedDistinct(ds, |ds|);
    DedupedDistinctUnchanged(once, |once|);
    assert once[..|once|] == once;
  }

  // ---------------------------------------------------------------------
  // find_diagnosis_doc

  /** The first member of `chain` in `conditions`. */
  function Nearest(chain: seq<DB.DocId>, conditions: set<DB.DocId>): (r: Option<DB.DocId>)
  {
    if chain == [] then None
    else if chain[0] in conditions then Some(chain[0])
    else Nearest(chain[1..], conditions)
  }

  /** `Nearest` finds a condition on the chain with none before it, and
      finds nothing only when the chain holds no condition. */
  lemma {:induction false} NearestIsFirst(chain: seq<DB.DocId>, conditions: set<DB.DocId>)
    ensures Nearest(chain, conditions).None? <==> forall k :: 0 <= k < |chain| ==> chain[k] !in conditions
    ensures Nearest(chain, conditions).Some? ==>
      exists k :: (0 <= k < |chain| && chain[k] == Nearest(chain, conditions).value
                   && chain[k] in conditions && forall m :: 0 <= m < k ==> chain[m] !in conditions)
  {
    if chain != [] && chain[0] !in conditions {
      NearestIsFirst(chain[1..], conditions);
      if Nearest(chain[1..], conditions).Some? {
        var k :| 0 <= k < |chain[1..]| && chain[1..][k] == Nearest(chain[1..], conditions).value
          && chain[1..][k] in conditions && forall m :: 0 <= m < k ==> chain[1..][m] !in conditions;
        assert chain[k + 1] == chain[1..][k];
        forall m | 0 <= m < k + 1 ensures chain[m] !in conditions {
          if m > 0 {
            assert chain[m] == chain[1..][m - 1];
          }
        }
      } else {
        forall k | 0 <= k < |chain| ensures chain[k] !in conditions {
          if k > 0 {
            assert chain[k] == chain[1..][k - 1];
          }
        }
      }
    }
  }

  /** The condition `id` resolves to: the nearest of itself and its ancestors
      that is a condition document. */
  ghost function Resolution(db: DB.DocDb, id: DB.DocId): Option<DB.DocId>
    requires DB.ChainEnds(db.parents, id)
  {
    Nearest(DB.Chain(db.parents, id, |db.parents|).value, db.isCondition)
  }

  /** The loop of `find_diagnosis_doc` over one similar id: climb the
      parents until a condition document or the top. */
  method Resolve(db: DB.DocDb, id: DB.DocId) returns (r: Option<DB.DocId>)
    requires DB.ChainEnds(db.parents, id)
    ensures r == Resolution(db, id)
  {
    ghost var rest := DB.Chain(db.parents, id, |db.parents|).value;
    var hash := id;
    while true
      invariant |rest| >= 1 && rest[0] == hash && rest[|rest| - 1] !in db.parents
      invariant forall k :: 0 <= k < |rest| - 1 ==> rest[k] in db.parents && db.parents[rest[k]] == rest[k + 1]
      invariant Nearest(rest, db.isCondition) == Resolution(db, id)
      decreases |rest|
    {
      if hash in db.isCondition {
        return Some(hash);
      }
      var parent := DB.GetParent(db, hash);
      if parent.None? {
        assert |rest| == 1;
        return None;
      }
      hash := parent.value;
      rest := rest[1..];
    }
  }

  /** The conditions the ids resolve to, in order, dropping those that
      resolve to nothing. */
  ghost function Resolutions(db: DB.DocDb, ids: seq<DB.DocId>): seq<DB.DocId>
    requires forall k :: 0 <= k < |ids| ==> DB.ChainEnds(db.parents, ids[k])
  {
    if ids == [] then []
    else
      var last := ids[|ids| - 1];
      Resolutions(db, ids[..|ids| - 1]) + match Resolution(db, last) case Some(c) => [c] case None => []
  }

  /** How often `x` occurs in `s`. */
  function Count<T(==)>(s: seq<T>, x: T): nat
  {
    multiset(s)[x]
  }

  /** `.counts()` followed by the descending sort and `first()`: an element
      with the highest count, or `None` for no elements. The source keeps
      the counts in a hash map, so which of several equally frequent
      elements comes first is not determined; this takes the earliest. */
  method MostFrequent(s: seq<DB.DocId>) returns (r: Option<DB.DocId>)
    ensures r.None? <==> s == []
    ensures r.Some? ==> r.value in s && forall x :: Count(s, x) <= Count(s, r.value)
  {
    var counts: map<DB.DocId, nat> := map[];
    for i := 0 to |s|
      invariant forall x :: x in counts <==> x in s[..i]
      invariant forall x :: x in counts ==> counts[x] == Count(s[..i], x)
    {
      assert s[..i + 1] == s[..i] + [s[i]];
      var c := if s[i] in counts then counts[s[i]] else 0;
      counts := counts[s[i] := c + 1];
    }
    assert s[..|s|] == s;
    if s == [] {
      return None;
    }
    var best := s[0];
    for i := 1 to |s|
      invariant best in s
      invariant forall k :: 0 <= k < i ==> counts[s[k]] <= counts[best]
    {
      if counts[s[i]] > counts[best] {
        best := s[i];
      }
    }
    forall x ensures Count(s, x) <= Count(s, best) {
      if x in s {
        var k :| 0 <= k < |s| && s[k] == x;
      }
    }
    r := Some(best);
  }

  /** The filter `find_diagnosis_doc` gives to `get_similar`: introduction
      and symptom sections. */
  function SectionFilter(db: DB.DocDb): Option<set<DB.DocId>>
  {
    Some(db.isIntroduction + db.isSymptoms)
  }

  /** Every document's parent chain ends. */
  ghost predicate ChainsEnd(db: DB.DocDb) {
    forall k :: 0 <= k < |db.ids| ==> DB.ChainEnds(db.parents, db.ids[k])
  }

  /** The resolution loop of `find_diagnosis_doc`: each similar id in turn,
      keeping the conditions found. */
  method ResolveAll(db: DB.DocDb, ids: seq<DB.DocId>) returns (resolved: seq<DB.DocId>)
    requires forall k :: 0 <= k < |ids| ==> DB.ChainEnds(db.parents, ids[k])
    ensures resolved == Resolutions(db, ids)
    ensures forall x :: x in resolved ==> x in db.isCondition
  {
    resolved := [];
    for i := 0 to |ids|
      invariant resolved == Resolutions(db, ids[..i])
      invariant forall x :: x in resolved ==> x in db.isCondition
    {
      assert ids[..i + 1][..i] == ids[..i];
      var c := Resolve(db, ids[i]);
      NearestIsFirst(DB.Chain(db.parents, ids[i], |db.parents|).value, db.isCondition);
      if c.Some? {
        resolved := resolved + [c.value];
      }
    }
    assert ids[..|ids|] == ids;
  }

  /** The tail of `find_diagnosis_doc` after the embedding: the eight
      documents most similar among introduction and symptom sections, each
      resolved to its condition, the most frequent condition, and its
      title. `embedding` is the result of `embed_for_db`, `None` when that
      failed. */
  method FindDiagnosisDoc(candidate: CandidateDiagnosis, db: DB.DocDb, embedding: Option<seq<real>>)
    returns (r: Option<ResolvedDiagnosis>)
    requires DB.Valid(db) && ChainsEnd(db)
    requires embedding.Some? ==> |embedding.value| == db.embeddings.width
    ensures embedding.None? ==> r.None?
    ensures embedding.Some? ==>
      var similar := DB.TopIds(db, embedding.value, 8, SectionFilter(db));
      && (forall k :: 0 <= k < |similar| ==> DB.ChainEnds(db.parents, similar[k]))
      && var resolved := Resolutions(db, similar);
      && (resolved == [] ==> r.None?)
      && (r.Some? ==> r.value.docHash in resolved && forall x :: Count(resolved, x) <= Count(resolved, r.value.docHash))
      && ((forall x :: x in resolved ==> x in db.titles) && resolved != [] ==> r.Some?)
      && ((forall x :: x in resolved ==> x !in db.titles) ==> r.None?)
      && (r.None? && resolved != [] ==>
            exists x :: x in resolved && x !in db.titles && forall y :: Count(resolved, y) <= Count(resolved, x))
    ensures r.Some? ==>
      && r.value.docHash in db.isCondition
      && r.value.docHash in db.titles
      && r.value.diagnosis == CandidateDiagnosis(db.titles[r.value.docHash], candidate.reasoningFor, candidate.reasoningAgainst)
      && r.value.refined.None?
  {
    if embedding.None? {
      return None;
    }
    var similar := DB.GetSimilar(db, embedding.value, 8, SectionFilter(db));
    SimilarEnd(db, embedding.value);
    var resolved := ResolveAll(db, similar);
    var winner := MostFrequent(resolved);
    if winner.None? {
      return None;
    }
    var title := DB.GetTitle(db, winner.value);
    if title.None? {
      return None;
    }
    r := Some(ResolvedDiagnosis(winner.value, CandidateDiagnosis(title.value, candidate.reasoningFor, candidate.reasoningAgainst), None));
  }

  /** The similar documents are documents of the database, so their chains
      end. */
  lemma SimilarEnd(db: DB.DocDb, embedding: seq<real>)
    requires DB.Valid(db) && ChainsEnd(db) && |embedding| == db.embeddings.width
    ensures var similar := DB.TopIds(db, embedding, 8, SectionFilter(db));
      forall k :: 0 <= k < |similar| ==> DB.ChainEnds(db.parents, similar[k])
  {
    DB.TopIdsSize(db, embedding, 8, SectionFilter(db));
    var top := DB.TopRanked(db, embedding, 8, SectionFilter(db));
    var similar := DB.TopIds(db, embedding, 8, SectionFilter(db));
    forall k | 0 <= k < |similar| ensures DB.ChainEnds(db.parents, similar[k]) {
      var row := top[k].row;
      assert similar[k] == db.ids[row];
    }
  }
}
