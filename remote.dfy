/**
 * The hosted document database, seen from the store as the ordered log of
 * the writes the store issues to it: a whole-document `setDoc`, a
 * `setDoc(..., { merge: true })` and a `deleteDoc`, each addressed by a
 * collection and a document id. Whether a write succeeds is an input: every
 * write call is wrapped in `safeFbCall`, which swallows the failure, so a
 * failure only shows in which later writes of the same call are skipped.
 */
module Remote {
  import opened Wrappers
  import opened Types
  import Ordering

  datatype Collection = ConfigColl | ProjectsColl | SkillsColl | ExperiencesColl | CertificatesColl

  /** The id of the single document of the config collection. */
  const ConfigId := "siteConfig"

  datatype Doc =
    | ConfigDoc(config: SiteConfig)
    | ProjectDoc(project: Project)
    | SkillDoc(skill: Skill)
    | ExperienceDoc(experience: Experience)
    | CertificateDoc(certificate: Certificate)

  /** What a merge write carries: the `order` field alone, or a record's fields. */
  datatype Fields = OrderOnly(order: Option<int>) | Record(doc: Doc)

  datatype Write =
    | SetDoc(coll: Collection, id: string, doc: Doc)
    | MergeDoc(coll: Collection, id: string, fields: Fields)
    | DeleteDoc(coll: Collection, id: string)

  /**
   * The writes one `safeFbCall` around a sequence of awaited writes issues.
   * With no failure all of them; when write `k` throws, writes `0..k`, and
   * the exception ends the callback, so nothing after `k` is attempted.
   */
  function Issued(ops: seq<Write>, failAt: Option<nat>): (r: seq<Write>)
    ensures r <= ops
    ensures IssuesAll(ops, failAt) <==> r == ops
    ensures !IssuesAll(ops, failAt) ==> |r| == failAt.value + 1 && r[failAt.value] == ops[failAt.value]
  {
    if IssuesAll(ops, failAt) then ops else ops[..failAt.value + 1]
  }

  /** Every write of `ops` is issued: none fails, or only the last one does. */
  predicate IssuesAll(ops: seq<Write>, failAt: Option<nat>) {
    failAt.None? || failAt.value >= |ops| - 1
  }

  /** The failure position as seen by the writes that follow the first `n`. */
  function After(failAt: Option<nat>, n: nat): Option<nat> {
    match failAt
    case None => None
    case Some(k) => if k >= n then Some(k - n) else None
  }

  /**
   * A batch made of two runs of writes: the second run starts only when the
   * first has completed without failing, and then stops at its own failure.
   */
  lemma IssuedConcat(a: seq<Write>, b: seq<Write>, failAt: Option<nat>)
    ensures Issued(a + b, failAt)
         == if failAt.Some? && failAt.value < |a| then Issued(a, failAt) else a + Issued(b, After(failAt, |a|))
  {
    if failAt.Some? && failAt.value < |a| {
      assert (a + b)[..failAt.value + 1] == a[..failAt.value + 1];
    } else if failAt.Some? && failAt.value - |a| < |b| - 1 {
      assert (a + b)[..failAt.value + 1] == a + b[..failAt.value - |a| + 1];
    }
  }

  /** One whole-document write per item, keyed by the item's id, in list order. */
  function SetEach<T>(coll: Collection, items: seq<T>, id: T -> string, doc: T -> Doc): (r: seq<Write>)
    ensures |r| == |items|
    ensures forall i :: 0 <= i < |items| ==> r[i] == SetDoc(coll, id(items[i]), doc(items[i]))
  {
    seq(|items|, i requires 0 <= i < |items| => SetDoc(coll, id(items[i]), doc(items[i])))
  }

  /** Items with distinct ids are written to distinct documents. */
  lemma SetEachDistinctTargets<T>(coll: Collection, items: seq<T>, id: T -> string, doc: T -> Doc)
    requires Distinct(seq(|items|, i requires 0 <= i < |items| => id(items[i])))
    ensures var r := SetEach(coll, items, id, doc);
      forall i, j :: 0 <= i < j < |r| ==> r[i].id != r[j].id
  {
    var ids := seq(|items|, i requires 0 <= i < |items| => id(items[i]));
    var r := SetEach(coll, items, id, doc);
    forall i, j | 0 <= i < j < |r|
      ensures r[i].id != r[j].id
    {
      assert r[i].id == ids[i] && r[j].id == ids[j];
    }
  }

  function ProjectSets(ps: seq<Project>): seq<Write> {
    SetEach(ProjectsColl, ps, (p: Project) => p.id, (p: Project) => ProjectDoc(p))
  }

  function SkillSets(ss: seq<Skill>): seq<Write> {
    SetEach(SkillsColl, ss, (s: Skill) => s.id, (s: Skill) => SkillDoc(s))
  }

  function ExperienceSets(es: seq<Experience>): seq<Write> {
    SetEach(ExperiencesColl, es, (e: Experience) => e.id, (e: Experience) => ExperienceDoc(e))
  }

  function CertificateSets(cs: seq<Certificate>): seq<Write> {
    SetEach(CertificatesColl, cs, (c: Certificate) => c.id, (c: Certificate) => CertificateDoc(c))
  }

  /** `reorderProjects`: for each listed project, a merge of its `order` alone, in list order. */
  function ProjectOrderMerges(ps: seq<Project>): (r: seq<Write>)
    ensures |r| == |ps|
    ensures forall i :: 0 <= i < |ps| ==> r[i] == MergeDoc(ProjectsColl, ps[i].id, OrderOnly(ps[i].order))
  {
    seq(|ps|, i requires 0 <= i < |ps| => MergeDoc(ProjectsColl, ps[i].id, OrderOnly(ps[i].order)))
  }

  /** `reorderCertificates`: for each listed certificate, a merge of its `order` alone, in list order. */
  function CertificateOrderMerges(cs: seq<Certificate>): (r: seq<Write>)
    ensures |r| == |cs|
    ensures forall i :: 0 <= i < |cs| ==> r[i] == MergeDoc(CertificatesColl, cs[i].id, OrderOnly(cs[i].order))
  {
    seq(|cs|, i requires 0 <= i < |cs| => MergeDoc(CertificatesColl, cs[i].id, OrderOnly(cs[i].order)))
  }

  /** The seed content: what an empty database is filled with, and what a reset restores. */
  datatype Seed = Seed(
    config: SiteConfig,
    projects: seq<Project>,
    skills: seq<Skill>,
    experiences: seq<Experience>,
    certificates: seq<Certificate>)

  /** The writes of `resetToDefaults`: the config document, then every project, skill, experience and certificate. */
  function ResetWrites(seed: Seed): (r: seq<Write>)
    ensures |r| == 1 + |seed.projects| + |seed.skills| + |seed.experiences| + |seed.certificates|
    ensures r[0] == SetDoc(ConfigColl, ConfigId, ConfigDoc(seed.config))
  {
    [SetDoc(ConfigColl, ConfigId, ConfigDoc(seed.config))]
      + ProjectSets(seed.projects) + SkillSets(seed.skills)
      + ExperienceSets(seed.experiences) + CertificateSets(seed.certificates)
  }

  /** The position of a collection in the reset sequence. */
  function Rank(w: Write): int {
    match w.coll
    case ConfigColl => 0
    case ProjectsColl => 1
    case SkillsColl => 2
    case ExperiencesColl => 3
    case CertificatesColl => 4
  }

  /** The reset writes every document of the seed, collection after collection, only ever full-document writes. */
  lemma ResetWritesInOrder(seed: Seed)
    ensures var r := ResetWrites(seed);
      && |r| == 1 + |seed.projects| + |seed.skills| + |seed.experiences| + |seed.certificates|
      && Ordering.SortedBy(r, Rank)
      && (forall i :: 0 <= i < |r| ==> r[i].SetDoc?)
      && r[0] == SetDoc(ConfigColl, ConfigId, ConfigDoc(seed.config))
  {
    var r := ResetWrites(seed);
    var p, s, e := |seed.projects|, |seed.skills|, |seed.experiences|;
    forall i | 0 <= i < |r|
      ensures Rank(r[i]) == if i == 0 then 0 else if i <= p then 1 else if i <= p + s then 2 else if i <= p + s + e then 3 else 4
      ensures r[i].SetDoc?
    {
    }
  }

  /**
   * When a reset stops at a failure, the writes it issued are a prefix of the
   * reset sequence: a write to a later collection was only issued after every
   * write to an earlier collection.
   */
  lemma ResetStopsInOrder(seed: Seed, failAt: Option<nat>, i: nat, j: nat)
    requires var r := ResetWrites(seed); i < |r| && j < |Issued(r, failAt)|
    requires Rank(ResetWrites(seed)[i]) < Rank(ResetWrites(seed)[j])
    ensures i < j && ResetWrites(seed)[i] in Issued(ResetWrites(seed), failAt)
  {
    var r := ResetWrites(seed);
    ResetWritesInOrder(seed);
    assert r[j] == Issued(r, failAt)[j];
    assert Issued(r, failAt)[i] == r[i];
  }
}
