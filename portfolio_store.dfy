/**
 * The content store (`usePortfolioStore`): five content slices, the session
 * and loading flags, and the actions the pages and the admin panels call.
 * The database listeners are methods the environment calls with what a
 * snapshot holds; the writes the store issues are appended to `log`, and a
 * write that fails is given by its position in the call (`failAt`).
 */
module PortfolioStore {
  import opened Wrappers
  import opened Types
  import opened Remote

  /** Listeners `initFirebase` attaches: auth, the config document and four collections. */
  const ListenerCount := 6

  /** `EMPTY_SITE_CONFIG`: what the site shows before the config document arrives. */
  function EmptySiteConfig(): (c: SiteConfig)
    ensures c.name == c.tagline == c.bio == c.email == c.phone == c.location == c.heroTitle == ""
    ensures c.github == c.linkedin == ""
    ensures c.aboutTitle == c.aboutMe == c.twitter == c.instagram == c.resumeUrl == c.profileImage == Some("")
    ensures !c.availableForWork && c.theme == Dark && c.accentColor == "#6366f1"
    ensures c.navbarName.None? && c.heroGif.None? && c.projectCategories.None?
  {
    SiteConfig(
      name := "", tagline := "", bio := "", aboutTitle := Some(""), aboutMe := Some(""),
      email := "", phone := "", location := "", availableForWork := false, heroTitle := "",
      github := "", linkedin := "", twitter := Some(""), instagram := Some(""),
      resumeUrl := Some(""), profileImage := Some(""), accentColor := "#6366f1", theme := Dark,
      navbarName := None, heroGif := None, projectCategories := None)
  }

  class Store {
    /** What the store seeds an empty database with and resets to. */
    const seed: Seed

    var projects: seq<Project>
    var siteConfig: SiteConfig
    var skills: seq<Skill>
    var experiences: seq<Experience>
    var certificates: seq<Certificate>
    var isAdminLoggedIn: bool
    var isInitialized: bool
    var projectsLoaded: bool
    var configLoaded: bool
    var authInitialized: bool
    /** The database listeners attached so far. */
    var listeners: nat
    /** Every write issued to the database, oldest first. */
    var log: seq<Write>

    /** Listeners are attached exactly once, and only attached listeners set the loading flags. */
    ghost predicate Valid()
      reads this`listeners, this`isInitialized, this`configLoaded, this`projectsLoaded, this`authInitialized
    {
      && listeners == (if isInitialized then ListenerCount else 0)
      && (configLoaded || projectsLoaded || authInitialized ==> isInitialized)
    }

    /** The flags that are only ever set to true stay true. */
    twostate predicate Latched()
      reads this`isInitialized, this`configLoaded, this`projectsLoaded, this`authInitialized
    {
      && (old(isInitialized) ==> isInitialized)
      && (old(configLoaded) ==> configLoaded)
      && (old(projectsLoaded) ==> projectsLoaded)
      && (old(authInitialized) ==> authInitialized)
    }

    /** The store as created: empty slices, the empty configuration, every flag false, nothing written. */
    constructor(seed: Seed)
      ensures this.seed == seed
      ensures projects == [] && skills == [] && experiences == [] && certificates == []
      ensures siteConfig == EmptySiteConfig()
      ensures !isAdminLoggedIn && !isInitialized && !projectsLoaded && !configLoaded && !authInitialized
      ensures log == []
      ensures Valid()
    {
      this.seed := seed;
      projects, skills, experiences, certificates := [], [], [], [];
      siteConfig := EmptySiteConfig();
      isAdminLoggedIn, isInitialized, projectsLoaded, configLoaded, authInitialized := false, false, false, false, false;
      listeners := 0;
      log := [];
    }

    /** `initFirebase`: attaches the listeners the first time; every later call returns at once. */
    method InitFirebase()
      requires Valid()
      modifies this`isInitialized, this`listeners
      ensures Valid() && Latched()
      ensures isInitialized
      ensures old(isInitialized) ==> listeners == old(listeners)
    {
      if isInitialized {
        return;
      }
      isInitialized := true;
      listeners := ListenerCount;
    }

    /** The auth listener: the admin is logged in exactly when a user is signed in. */
    method OnAuthStateChanged(userPresent: bool)
      requires Valid() && isInitialized
      modifies this`isAdminLoggedIn, this`authInitialized
      ensures Valid() && Latched()
      ensures isAdminLoggedIn == userPresent && authInitialized
    {
      isAdminLoggedIn, authInitialized := userPresent, true;
    }

    /**
     * The config listener. A present document replaces the configuration; a
     * missing one keeps it, and is seeded when the server (not the cache)
     * reported it missing. Either way the configuration counts as loaded.
     */
    method OnConfigSnapshot(data: Option<SiteConfig>, fromCache: bool)
      requires Valid() && isInitialized
      modifies this`siteConfig, this`configLoaded, this`log
      ensures Valid() && Latched()
      ensures configLoaded
      ensures siteConfig == if data.Some? then data.value else old(siteConfig)
      ensures log == old(log) + if data.None? && !fromCache then [SetDoc(ConfigColl, ConfigId, ConfigDoc(seed.config))] else []
    {
      if data.Some? {
        siteConfig, configLoaded := data.value, true;
      } else {
        if !fromCache {
          Issue(SetDoc(ConfigColl, ConfigId, ConfigDoc(seed.config)));
        }
        configLoaded := true;
      }
    }

    /**
     * The projects listener. Documents replace the slice in snapshot order;
     * an empty snapshot keeps it, and from the server it seeds one write per
     * default project. Either way the projects count as loaded.
     */
    method OnProjectsSnapshot(docs: seq<Project>, fromCache: bool)
      requires Valid() && isInitialized
      modifies this`projects, this`projectsLoaded, this`log
      ensures Valid() && Latched()
      ensures projectsLoaded
      ensures projects == if |docs| > 0 then docs else old(projects)
      ensures log == old(log) + if |docs| == 0 && !fromCache then ProjectSets(seed.projects) else []
    {
      if |docs| > 0 {
        projects, projectsLoaded := docs, true;
      } else {
        if !fromCache {
          IssueEach(ProjectSets(seed.projects));
        }
        projectsLoaded := true;
      }
    }

    /** The skills listener: like the projects listener, without a loading flag. */
    method OnSkillsSnapshot(docs: seq<Skill>, fromCache: bool)
      requires isInitialized
      modifies this`skills, this`log
      ensures skills == if |docs| > 0 then docs else old(skills)
      ensures log == old(log) + if |docs| == 0 && !fromCache then SkillSets(seed.skills) else []
    {
      if |docs| > 0 {
        skills := docs;
      } else if !fromCache {
        IssueEach(SkillSets(seed.skills));
      }
    }

    /** The experiences listener: like the skills listener. */
    method OnExperiencesSnapshot(docs: seq<Experience>, fromCache: bool)
      requires isInitialized
      modifies this`experiences, this`log
      ensures experiences == if |docs| > 0 then docs else old(experiences)
      ensures log == old(log) + if |docs| == 0 && !fromCache then ExperienceSets(seed.experiences) else []
    {
      if |docs| > 0 {
        experiences := docs;
      } else if !fromCache {
        IssueEach(ExperienceSets(seed.experiences));
      }
    }

    /** The certificates listener: like the skills listener. */
    method OnCertificatesSnapshot(docs: seq<Certificate>, fromCache: bool)
      requires isInitialized
      modifies this`certificates, this`log
      ensures certificates == if |docs| > 0 then docs else old(certificates)
      ensures log == old(log) + if |docs| == 0 && !fromCache then CertificateSets(seed.certificates) else []
    {
      if |docs| > 0 {
        certificates := docs;
      } else if !fromCache {
        IssueEach(CertificateSets(seed.certificates));
      }
    }

    /**
     * The error callbacks: a failing config or projects listener still marks
     * its slice loaded, so the site does not wait forever; the other three
     * only log a warning.
     */
    method OnSnapshotError(coll: Collection)
      requires Valid() && isInitialized
      modifies this`configLoaded, this`projectsLoaded
      ensures Valid() && Latched()
      ensures configLoaded == (old(configLoaded) || coll == ConfigColl)
      ensures projectsLoaded == (old(projectsLoaded) || coll == ProjectsColl)
    {
      if coll == ConfigColl {
        configLoaded := true;
      } else if coll == ProjectsColl {
        projectsLoaded := true;
      }
    }

    /** One write on its own `safeFbCall`: it is issued whether or not it fails. */
    method Issue(w: Write)
      modifies this`log
      ensures log == old(log) + [w]
    {
      log := log + [w];
    }

    /** Writes each wrapped in a `safeFbCall` of its own: a failure skips none of the others. */
    method IssueEach(ws: seq<Write>)
      modifies this`log
      ensures log == old(log) + ws
    {
      for i := 0 to |ws|
        invariant log == old(log) + ws[..i]
      {
        log := log + [ws[i]];
      }
    }

    /** Writes awaited one after another inside one `safeFbCall`: the first failure ends the batch. */
    method IssueBatch(ws: seq<Write>, failAt: Option<nat>)
      modifies this`log
      ensures log == old(log) + Issued(ws, failAt)
    {
      var i := 0;
      while i < |ws|
        invariant 0 <= i <= |ws|
        invariant log == old(log) + ws[..i]
        invariant failAt.Some? ==> i <= failAt.value
      {
        log := log + [ws[i]];
        if failAt == Some(i) {
          assert ws[..i + 1] == Issued(ws, failAt);
          return;
        }
        i := i + 1;
      }
      assert ws[..i] == ws;
    }

    method AddProject(p: Project)
      modifies this`log
      ensures log == old(log) + [SetDoc(ProjectsColl, p.id, ProjectDoc(p))]
    {
      Issue(SetDoc(ProjectsColl, p.id, ProjectDoc(p)));
    }

    method UpdateProject(id: string, p: Project)
      modifies this`log
      ensures log == old(log) + [MergeDoc(ProjectsColl, id, Record(ProjectDoc(p)))]
    {
      Issue(MergeDoc(ProjectsColl, id, Record(ProjectDoc(p))));
    }

    method DeleteProject(id: string)
      modifies this`log
      ensures log == old(log) + [DeleteDoc(ProjectsColl, id)]
    {
      Issue(DeleteDoc(ProjectsColl, id));
    }

    /** `reorderProjects`: merges each project's order, in list order, until the first failure. */
    method ReorderProjects(ps: seq<Project>, failAt: Option<nat>)
      modifies this`log
      ensures log == old(log) + Issued(ProjectOrderMerges(ps), failAt)
    {
      IssueBatch(ProjectOrderMerges(ps), failAt);
    }

    method UpdateSiteConfig(config: SiteConfig)
      modifies this`log
      ensures log == old(log) + [MergeDoc(ConfigColl, ConfigId, Record(ConfigDoc(config)))]
    {
      Issue(MergeDoc(ConfigColl, ConfigId, Record(ConfigDoc(config))));
    }

    method AddSkill(s: Skill)
      modifies this`log
      ensures log == old(log) + [SetDoc(SkillsColl, s.id, SkillDoc(s))]
    {
      Issue(SetDoc(SkillsColl, s.id, SkillDoc(s)));
    }

    method UpdateSkill(id: string, s: Skill)
      modifies this`log
      ensures log == old(log) + [MergeDoc(SkillsColl, id, Record(SkillDoc(s)))]
    {
      Issue(MergeDoc(SkillsColl, id, Record(SkillDoc(s))));
    }

    method DeleteSkill(id: string)
      modifies this`log
      ensures log == old(log) + [DeleteDoc(SkillsColl, id)]
    {
      Issue(DeleteDoc(SkillsColl, id));
    }

    method AddExperience(e: Experience)
      modifies this`log
      ensures log == old(log) + [SetDoc(ExperiencesColl, e.id, ExperienceDoc(e))]
    {
      Issue(SetDoc(ExperiencesColl, e.id, ExperienceDoc(e)));
    }

    method UpdateExperience(id: string, e: Experience)
      modifies this`log
      ensures log == old(log) + [MergeDoc(ExperiencesColl, id, Record(ExperienceDoc(e)))]
    {
      Issue(MergeDoc(ExperiencesColl, id, Record(ExperienceDoc(e))));
    }

    method DeleteExperience(id: string)
      modifies this`log
      ensures log == old(log) + [DeleteDoc(ExperiencesColl, id)]
    {
      Issue(DeleteDoc(ExperiencesColl, id));
    }

    method AddCertificate(c: Certificate)
      modifies this`log
      ensures log == old(log) + [SetDoc(CertificatesColl, c.id, CertificateDoc(c))]
    {
      Issue(SetDoc(CertificatesColl, c.id, CertificateDoc(c)));
    }

    method UpdateCertificate(id: string, c: Certificate)
      modifies this`log
      ensures log == old(log) + [MergeDoc(CertificatesColl, id, Record(CertificateDoc(c)))]
    {
      Issue(MergeDoc(CertificatesColl, id, Record(CertificateDoc(c))));
    }

    method DeleteCertificate(id: string)
      modifies this`log
      ensures log == old(log) + [DeleteDoc(CertificatesColl, id)]
    {
      Issue(DeleteDoc(CertificatesColl, id));
    }

    /** `reorderCertificates`: merges each certificate's order, in list order, until the first failure. */
    method ReorderCertificates(cs: seq<Certificate>, failAt: Option<nat>)
      modifies this`log
      ensures log == old(log) + Issued(CertificateOrderMerges(cs), failAt)
    {
      IssueBatch(CertificateOrderMerges(cs), failAt);
    }

    /** `loginAdmin`: reports whether sign-in succeeded; the auth listener, not this call, updates the session flag. */
    method LoginAdmin(signInSucceeds: bool) returns (ok: bool)
      ensures ok == signInSucceeds
    {
      ok := signInSucceeds;
    }

    /** `logoutAdmin`: the session flag drops only when sign-out succeeds. */
    method LogoutAdmin(signOutSucceeds: bool)
      modifies this`isAdminLoggedIn
      ensures isAdminLoggedIn == (old(isAdminLoggedIn) && !signOutSucceeds)
    {
      if signOutSucceeds {
        isAdminLoggedIn := false;
      }
    }

    /**
     * `resetToDefaults`: the five slices become the seed at once, the flags
     * stay as they are, and the seed is written back, config first, until the
     * first failure.
     */
    method ResetToDefaults(failAt: Option<nat>)
      modifies this`projects, this`siteConfig, this`skills, this`experiences, this`certificates, this`log
      ensures projects == seed.projects && siteConfig == seed.config && skills == seed.skills
      ensures experiences == seed.experiences && certificates == seed.certificates
      ensures log == old(log) + Issued(ResetWrites(seed), failAt)
    {
      projects, siteConfig, skills := seed.projects, seed.config, seed.skills;
      experiences, certificates := seed.experiences, seed.certificates;
      IssueBatch(ResetWrites(seed), failAt);
    }
  }
}
