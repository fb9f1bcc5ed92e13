/**
 * The content records of the portfolio. Optional properties of the records
 * are `Option`s; a property the admin forms use without the record declaring
 * it (a project's `status` and `role`, the site's `navbarName`, `heroGif`
 * and `projectCategories`) is optional too.
 */
module Types {
  import opened Wrappers

  /**
   * A portfolio project. The declared category type names 'web', 'mobile'
   * and 'other', but the admin form stores any configured category (or the
   * empty string), so it is kept as a string.
   */
  datatype Project = Project(
    id: string,
    title: string,
    tech: string,
    technologies: seq<string>,
    desc: string,
    url: string,
    githubUrl: string,
    category: string,
    year: string,
    image: string,
    features: seq<string>,
    featured: Option<bool>,
    order: Option<int>,
    status: Option<string>,
    role: Option<string>)

  datatype Skill = Skill(id: string, name: string, icon: string)

  datatype ExperienceType = Work | Internship | Freelance

  datatype Experience = Experience(
    id: string,
    company: string,
    role: string,
    period: string,
    location: string,
    description: string,
    technologies: seq<string>,
    kind: ExperienceType)

  datatype Certificate = Certificate(
    id: string,
    title: string,
    issuer: string,
    date: string,
    imageUrl: string,
    description: Option<string>,
    link: Option<string>,
    order: Option<int>)

  datatype Theme = Dark | Light

  datatype SiteConfig = SiteConfig(
    name: string,
    tagline: string,
    bio: string,
    aboutTitle: Option<string>,
    aboutMe: Option<string>,
    email: string,
    phone: string,
    location: string,
    availableForWork: bool,
    heroTitle: string,
    github: string,
    linkedin: string,
    twitter: Option<string>,
    instagram: Option<string>,
    resumeUrl: Option<string>,
    profileImage: Option<string>,
    accentColor: string,
    theme: Theme,
    navbarName: Option<string>,
    heroGif: Option<string>,
    projectCategories: Option<seq<string>>)

  datatype ToastKind = Success | Error | Info | Warning

  datatype ToastMessage = ToastMessage(id: string, kind: ToastKind, message: string)

  /** No value occurs twice. */
  predicate Distinct<T(==)>(s: seq<T>) {
    forall i, j :: 0 <= i < j < |s| ==> s[i] != s[j]
  }

  function ProjectIds(ps: seq<Project>): (r: seq<string>)
    ensures |r| == |ps| && forall i :: 0 <= i < |ps| ==> r[i] == ps[i].id
  {
    seq(|ps|, i requires 0 <= i < |ps| => ps[i].id)
  }

  function CertificateIds(cs: seq<Certificate>): (r: seq<string>)
    ensures |r| == |cs| && forall i :: 0 <= i < |cs| ==> r[i] == cs[i].id
  {
    seq(|cs|, i requires 0 <= i < |cs| => cs[i].id)
  }

  /** The `order` values of a certificate list, position by position. */
  function CertificateOrders(cs: seq<Certificate>): (r: seq<Option<int>>)
    ensures |r| == |cs| && forall i :: 0 <= i < |cs| ==> r[i] == cs[i].order
  {
    seq(|cs|, i requires 0 <= i < |cs| => cs[i].order)
  }
}
