/**
 * The seed content written to an empty database and restored by a reset:
 * eight projects, the site configuration, twelve skills, three experiences
 * and three certificates.
 *
 * Each seed list is assembled by a function that takes the long texts of its
 * entries as parameters, and the properties of the list (its length, its
 * ids, its orders, its categories) are stated on that function for every
 * choice of texts. The texts themselves are plain constants; keeping them out
 * of the proofs keeps those proofs small, and nothing proved here depends on
 * them.
 */
module DefaultData {
  import opened Wrappers
  import opened Types
  import Remote

  /** The parts of a default project that no rule inspects: its texts, links and lists. */
  datatype ProjectContent = ProjectContent(
    title: string,
    tech: string,
    technologies: seq<string>,
    desc: string,
    url: string,
    githubUrl: string,
    image: string,
    features: seq<string>)

  function WithContent(id: string, category: string, year: string, featured: bool, order: int, c: ProjectContent): Project {
    Project(
      id := id,
      title := c.title,
      tech := c.tech,
      technologies := c.technologies,
      desc := c.desc,
      url := c.url,
      githubUrl := c.githubUrl,
      category := category,
      year := year,
      image := c.image,
      features := c.features,
      featured := Some(featured),
      order := Some(order),
      status := None,
      role := None)
  }

  /**
   * The eight default projects around the given contents: eight entries with
   * distinct ids, each ordered at its position plus one, each in category
   * "web" or "mobile".
   */
  function SeedProjects(
    newLife: ProjectContent, trackPoint: ProjectContent, weFlix: ProjectContent, linkClub: ProjectContent,
    curriculum: ProjectContent, cafeZ: ProjectContent, portfolio: ProjectContent, reclaimify: ProjectContent): (r: seq<Project>)
    ensures |r| == 8
    ensures Distinct(ProjectIds(r))
    ensures forall i :: 0 <= i < |r| ==> r[i].order == Some(i + 1)
    ensures forall i :: 0 <= i < |r| ==> r[i].category == "web" || r[i].category == "mobile"
  {
    [
      WithContent("newlife", "web", "2025", true, 1, newLife),
      WithContent("trackpoint", "web", "2025", true, 2, trackPoint),
      WithContent("weflix", "web", "2025", false, 3, weFlix),
      WithContent("linkclub", "web", "2025", true, 4, linkClub),
      WithContent("curriculum", "web", "2025", false, 5, curriculum),
      WithContent("cafez", "mobile", "2024", false, 6, cafeZ),
      WithContent("portfolio", "web", "2025", false, 7, portfolio),
      WithContent("reclaimify", "mobile", "2023", false, 8, reclaimify)
    ]
  }

  /** `defaultProjects`. */
  function DefaultProjects(): (r: seq<Project>)
    ensures |r| == 8
  {
    SeedProjects(NewLifeContent(), TrackPointContent(), WeFlixContent(), LinkClubContent(), CurriculumContent(), CafeZContent(), PortfolioContent(), ReclaimifyContent())
  }

  function NewLifeContent(): ProjectContent {
    ProjectContent(
      title := "NewLife - AI-Powered Travel Companion",
      tech := "React, TypeScript, AI Integration, Real-time APIs",
      technologies := [
        "React",
        "TypeScript",
        "AI/ML",
        "Real-time APIs",
        "Weather API",
        "Maps Integration",
        "Social Features"
      ],
      desc := "Comprehensive AI-powered travel planning platform that "
        + "revolutionizes trip organization. Features intelligent "
        + "itinerary generation, real-time updates based on weather and "
        + "traffic, vibrant community engagement, and seamless travel "
        + "experience management.",
      url := "https://new-life-ai.vercel.app/",
      githubUrl := "https://github.com/kweephyo-pmt/new_life",
      image := "https://images.unsplash.com/photo-1488646953014-85cb44e25828"
        + "?w=800&q=80",
      features := [
        "AI-powered real-time itinerary planning with intelligent "
        + "suggestions and personalized recommendations",
        "Smart trip updates that automatically adjust plans based on "
        + "weather conditions, traffic, and local events",
        "Vibrant travel community platform with post creation, "
        + "reactions, comments, and experience sharing",
        "Comprehensive trip management system for both weekend "
        + "getaways and international journeys",
        "Modern TypeScript architecture with responsive design for "
        + "seamless mobile and desktop experiences",
        "Integration with multiple APIs for weather forecasting, "
        + "maps, and real-time travel information"
      ])
  }

  function TrackPointContent(): ProjectContent {
    ProjectContent(
      title := "TrackPoint - Professional Attendance Tracking",
      tech := "React, TypeScript, Supabase, Facial Recognition",
      technologies := [
        "React",
        "TypeScript",
        "Supabase",
        "Facial Recognition",
        "Location Services",
        "Real-time Analytics"
      ],
      desc := "A comprehensive, modern attendance tracking application "
        + "built with React, TypeScript, and Supabase. Features "
        + "advanced facial recognition, location-based restrictions, "
        + "real-time analytics, and a complete admin management system.",
      url := "https://trackpoint-attendance.vercel.app/",
      githubUrl := "https://github.com/kweephyo-pmt/TrackPoint",
      image := "https://images.unsplash.com/photo-1551288049-bebda4e38f71?w="
        + "800&q=80",
      features := [
        "Advanced facial recognition technology for secure and "
        + "accurate attendance tracking",
        "Location-based restrictions ensuring attendance can only be "
        + "marked from designated areas",
        "Real-time analytics dashboard with comprehensive reporting "
        + "and data visualization",
        "Complete admin management system with user roles, "
        + "permissions, and attendance oversight",
        "Modern TypeScript architecture with Supabase backend for "
        + "scalable data management",
        "Responsive design optimized for both desktop and mobile "
        + "attendance marking"
      ])
  }

  function WeFlixContent(): ProjectContent {
    ProjectContent(
      title := "WeFlix Movie Streaming Platform",
      tech := "React, JavaScript, CSS, Movie API",
      technologies := [
        "React",
        "JavaScript",
        "CSS",
        "Movie API"
      ],
      desc := "Modern movie streaming platform with comprehensive movie "
        + "database integration. Features advanced search "
        + "functionality, detailed movie information, responsive "
        + "design, and intuitive user interface for seamless movie "
        + "discovery.",
      url := "https://weflixmovie.netlify.app/",
      githubUrl := "https://github.com/kweephyo-pmt/WeFlix",
      image := "https://images.unsplash.com/photo-1536440136628-849c177e76a1"
        + "?w=800&q=80",
      features := [
        "Comprehensive movie database integration with real-time "
        + "search and filtering capabilities",
        "Responsive design architecture optimized for desktop, "
        + "tablet, and mobile viewing experiences",
        "Interactive movie details with ratings, cast information, "
        + "and trailer integration",
        "Modern UI/UX design with smooth animations and intuitive "
        + "navigation system"
      ])
  }

  function LinkClubContent(): ProjectContent {
    ProjectContent(
      title := "LinkClub Real-Time Chat Application",
      tech := "React, MERN Stack, Socket.io, JWT, Stream.io",
      technologies := [
        "React",
        "Node.js",
        "Express.js",
        "MongoDB",
        "Socket.io",
        "JWT",
        "Cloudinary",
        "TailwindCSS",
        "DaisyUI",
        "Zustand"
      ],
      desc := "Modern, full-stack real-time chat application built with the "
        + "MERN stack, featuring instant messaging and comprehensive "
        + "user management. Implements Socket.io for real-time "
        + "bidirectional communication.",
      url := "https://linkclub.netlify.app/",
      githubUrl := "https://github.com/kweephyo-pmt/linkclub",
      image := "https://images.unsplash.com/photo-1611746872915-64382b5c76da"
        + "?w=800&q=80",
      features := [
        "Real-time bidirectional communication using Socket.io with "
        + "instant message delivery and typing indicators",
        "Comprehensive user authentication system with JWT tokens and "
        + "bcryptjs password hashing for security",
        "Modern React 18 frontend with Vite build tool, TailwindCSS "
        + "styling, and DaisyUI components",
        "Full-stack MERN architecture with Express.js API, MongoDB "
        + "database, and Cloudinary image upload integration"
      ])
  }

  function CurriculumContent(): ProjectContent {
    ProjectContent(
      title := "Curriculum Statistics Website",
      tech := "Vue.js, Chart.js, Node.js, MySQL, Firebase, GCP",
      technologies := [
        "Vue.js",
        "Chart.js",
        "Node.js",
        "MySQL",
        "Firebase",
        "GCP"
      ],
      desc := "Enterprise-level data visualization platform developed for "
        + "Mae Fah Luang University's School of Management. Features "
        + "comprehensive academic analytics with interactive dashboards "
        + "and real-time data processing.",
      url := "https://app.som-bi.work.gd/",
      githubUrl := "https://github.com/kweephyo-pmt/senior_project",
      image := "https://images.unsplash.com/photo-1551288049-bebda4e38f71?w="
        + "800&q=80",
      features := [
        "Advanced data visualization using Chart.js with dynamic "
        + "filtering and export capabilities",
        "Scalable backend architecture with MySQL database and "
        + "Firebase integration",
        "Responsive web design with cross-browser compatibility and "
        + "mobile optimization",
        "Secure authentication system with multi-level user "
        + "permissions and data protection"
      ])
  }

  function CafeZContent(): ProjectContent {
    ProjectContent(
      title := "CafeZ Mobile App",
      tech := "Flutter, Firebase",
      technologies := [
        "Flutter",
        "Firebase"
      ],
      desc := "Cross-platform mobile application for streamlined cafe "
        + "operations and customer engagement. Implemented secure "
        + "payment processing, real-time order management, and "
        + "comprehensive business analytics.",
      url := "https://play.google.com/store/apps/details?id=com.cafez.app&"
        + "hl=en",
      githubUrl := "https://github.com/kweephyo-pmt/cafe_z",
      image := "https://images.unsplash.com/photo-1495474472287-4d71bcdd2085"
        + "?w=800&q=80",
      features := [
        "Intuitive mobile interface with seamless ordering workflow "
        + "and integrated payment gateway",
        "Cross-platform development using Flutter framework for iOS "
        + "and Android deployment",
        "Cloud-based backend infrastructure with Firebase for "
        + "real-time synchronization and secure user management"
      ])
  }

  function PortfolioContent(): ProjectContent {
    ProjectContent(
      title := "Personal Portfolio Website",
      tech := "React, Tailwind CSS, Framer Motion, Vite",
      technologies := [
        "React",
        "Tailwind CSS",
        "Framer Motion",
        "Vite"
      ],
      desc := "Professional portfolio website demonstrating full-stack "
        + "development capabilities and project management skills. "
        + "Features performance-optimized architecture, modern UI/UX "
        + "design principles, and comprehensive project documentation.",
      url := "https://phyominthein.com/",
      githubUrl := "https://github.com/kweephyo-pmt/phyominthein-portfolio",
      image := "https://images.unsplash.com/photo-1467232004584-a241de8bcf5d"
        + "?w=800&q=80",
      features := [
        "Responsive design architecture with performance-optimized "
        + "animations and micro-interactions",
        "Modern build pipeline using Vite for fast development and "
        + "optimized production builds",
        "Interactive project galleries with live deployment links and "
        + "comprehensive documentation",
        "Accessible design with dark/light theme support and "
        + "professional typography system"
      ])
  }

  function ReclaimifyContent(): ProjectContent {
    ProjectContent(
      title := "Reclaimify Lost & Found App",
      tech := "Flutter, Firebase, GoogleMaps API",
      technologies := [
        "Flutter",
        "Firebase",
        "Google Maps API"
      ],
      desc := "Comprehensive lost-and-found management system with "
        + "geolocation services and intelligent matching algorithms. "
        + "Features advanced search capabilities, automated "
        + "notifications, and community-driven item recovery platform.",
      url := "https://github.com/kweephyo-pmt/lost_found",
      githubUrl := "https://github.com/kweephyo-pmt/lost_found",
      image := "https://images.unsplash.com/photo-1505409628601-edc9af17fda6"
        + "?w=800&q=80",
      features := [
        "Geospatial mapping integration with Google Maps API for "
        + "precise location tracking",
        "Advanced image processing and machine learning for item "
        + "categorization and matching",
        "Push notification system with intelligent matching "
        + "algorithms for item recovery",
        "Responsive user interface with accessibility features and "
        + "multilingual support"
      ])
  }

  /**
   * The default site configuration around the given biography and about
   * text. It configures no project categories, so the components fall back
   * to their own, and leaves the navbar name and hero animation unset.
   */
  function SeedSiteConfig(bio: string, aboutMe: string): (r: SiteConfig)
    ensures r.projectCategories.None?
    ensures r.navbarName.None? && r.heroGif.None?
    ensures r.bio == bio && r.aboutMe == Some(aboutMe)
  {
    SiteConfig(
      name := "Phyo Min Thein",
      tagline := "Leo",
      bio := bio,
      aboutTitle := Some("Hi, I'm Phyo Min Thein"),
      aboutMe := Some(aboutMe),
      email := "phyominthein.dev@gmail.com",
      phone := "+66 XX XXX XXXX",
      location := "Thailand \U{1F1F9}\U{1F1ED}",
      availableForWork := true,
      heroTitle := "Full-Stack Developer",
      github := "https://github.com/kweephyo-pmt",
      linkedin := "https://linkedin.com/in/phyominthein",
      twitter := Some(""),
      instagram := Some(""),
      resumeUrl := Some(""),
      profileImage := Some(""),
      accentColor := "#6366f1",
      theme := Dark,
      navbarName := None,
      heroGif := None,
      projectCategories := None)
  }

  /** `defaultSiteConfig`. */
  function DefaultSiteConfig(): (r: SiteConfig)
    ensures r.projectCategories.None? && r.navbarName.None? && r.heroGif.None?
    ensures r.bio == DefaultBio() && r.aboutMe == Some(DefaultAboutMe())
  {
    SeedSiteConfig(DefaultBio(), DefaultAboutMe())
  }

  function DefaultBio(): string {
    "Software Engineering student with expertise in full-stack "
      + "development, and DevOps. Delivering innovative solutions "
      + "through modern technology stacks."
  }

  function DefaultAboutMe(): string {
    "I'm a passionate full-stack developer who loves building "
      + "elegant, user-centered digital experiences. With expertise "
      + "spanning web and mobile development, I craft solutions that "
      + "combine technical excellence with beautiful design."
  }

  /** The address of an icon in the devicon set hosted on the jsDelivr CDN. */
  function Devicon(dir: string, file: string): string {
    "https://cdn.jsdelivr.net/gh/devicons/" + "devicon@latest/icons/" + dir + "/" + file
  }

  /** `defaultSkills`: twelve skills with distinct ids. */
  function DefaultSkills(): (r: seq<Skill>)
    ensures |r| == 12
    ensures Distinct(seq(|r|, i requires 0 <= i < |r| => r[i].id))
  {
    [
      Skill("react", "React", Devicon("react", "react-original.svg")),
      Skill("nextjs", "Next.js", Devicon("nextjs", "nextjs-original.svg")),
      Skill("nodejs", "Node.js", Devicon("nodejs", "nodejs-original.svg")),
      Skill("cpp", "C++", Devicon("cplusplus", "cplusplus-original.svg")),
      Skill("java", "Java", Devicon("java", "java-original.svg")),
      Skill("python", "Python", Devicon("python", "python-original.svg")),
      Skill("javascript", "JavaScript", Devicon("javascript", "javascript-plain.svg")),
      Skill("git", "Git", Devicon("git", "git-original.svg")),
      Skill("typescript", "TypeScript", Devicon("typescript", "typescript-original.svg")),
      Skill("mongodb", "MongoDB", Devicon("mongodb", "mongodb-original.svg")),
      Skill("mysql", "MySQL", Devicon("mysql", "mysql-original.svg")),
      Skill("firebase", "Firebase", Devicon("firebase", "firebase-plain.svg"))
    ]
  }

  /** The parts of a default experience that no rule inspects. */
  datatype ExperienceContent = ExperienceContent(
    company: string,
    role: string,
    period: string,
    location: string,
    description: string,
    technologies: seq<string>)

  /** The three default experiences around the given contents: distinct ids, each of kind work or freelance. */
  function SeedExperiences(exp1: ExperienceContent, exp2: ExperienceContent, exp3: ExperienceContent): (r: seq<Experience>)
    ensures |r| == 3
    ensures Distinct(ExperienceIds(r))
    ensures forall i :: 0 <= i < |r| ==> r[i].kind == Work || r[i].kind == Freelance
    ensures ExperienceIds(r) == ["exp1", "exp2", "exp3"]
    ensures ExperienceKinds(r) == [Work, Freelance, Work]
  {
    [
      Experience("exp1", exp1.company, exp1.role, exp1.period, exp1.location, exp1.description, exp1.technologies, Work),
      Experience("exp2", exp2.company, exp2.role, exp2.period, exp2.location, exp2.description, exp2.technologies, Freelance),
      Experience("exp3", exp3.company, exp3.role, exp3.period, exp3.location, exp3.description, exp3.technologies, Work)
    ]
  }

  /** The ids of a list of experiences, in order. */
  function ExperienceIds(es: seq<Experience>): seq<string> {
    seq(|es|, i requires 0 <= i < |es| => es[i].id)
  }

  /** The kinds of a list of experiences, in order. */
  function ExperienceKinds(es: seq<Experience>): seq<ExperienceType> {
    seq(|es|, i requires 0 <= i < |es| => es[i].kind)
  }

  /** `defaultExperiences`. */
  function DefaultExperiences(): (r: seq<Experience>)
    ensures |r| == 3
  {
    SeedExperiences(Exp1Content(), Exp2Content(), Exp3Content())
  }

  /** The site's default experiences are work, freelance and work, in that order. */
  lemma DefaultExperienceKinds()
    ensures ExperienceKinds(DefaultExperiences()) == [Work, Freelance, Work]
  {
  }

  function Exp1Content(): ExperienceContent {
    ExperienceContent(
      company := "Mae Fah Luang University",
      role := "Full-Stack Developer (Senior Project)",
      period := "2024 \U{2013} 2025",
      location := "Chiang Rai, Thailand",
      description := "Developed an enterprise-level curriculum statistics platform "
        + "for the School of Management, featuring advanced data "
        + "visualization, role-based access control, and real-time "
        + "analytics dashboards serving university administrators and "
        + "faculty.",
      technologies := [
        "Vue.js",
        "Chart.js",
        "Node.js",
        "MySQL",
        "Firebase",
        "GCP"
      ])
  }

  function Exp2Content(): ExperienceContent {
    ExperienceContent(
      company := "Freelance",
      role := "Mobile App Developer",
      period := "2023 \U{2013} 2024",
      location := "Remote",
      description := "Built cross-platform mobile applications using Flutter and "
        + "Firebase for various clients. Delivered production-ready "
        + "apps including a cafe management system (CafeZ) published on "
        + "Google Play Store.",
      technologies := [
        "Flutter",
        "Firebase",
        "Dart",
        "Google Maps API"
      ])
  }

  function Exp3Content(): ExperienceContent {
    ExperienceContent(
      company := "Personal Projects",
      role := "Full-Stack Developer",
      period := "2023 \U{2013} Present",
      location := "Remote",
      description := "Continuously building and deploying modern web and mobile "
        + "applications, exploring cutting-edge technologies including "
        + "AI integration, real-time communication, and facial "
        + "recognition systems.",
      technologies := [
        "React",
        "TypeScript",
        "Supabase",
        "Socket.io",
        "AI/ML"
      ])
  }

  /** The parts of a default certificate that no rule inspects. */
  datatype CertificateContent = CertificateContent(
    title: string,
    issuer: string,
    date: string,
    imageUrl: string,
    description: string,
    link: string)

  /** The three default certificates around the given contents: distinct ids, ordered 1, 2, 3 in list order. */
  function SeedCertificates(cert1: CertificateContent, cert2: CertificateContent, cert3: CertificateContent): (r: seq<Certificate>)
    ensures |r| == 3
    ensures Distinct(CertificateIds(r))
    ensures CertificateOrders(r) == [Some(1), Some(2), Some(3)]
  {
    [
      Certificate("cert1", cert1.title, cert1.issuer, cert1.date, cert1.imageUrl, Some(cert1.description), Some(cert1.link), Some(1)),
      Certificate("cert2", cert2.title, cert2.issuer, cert2.date, cert2.imageUrl, Some(cert2.description), Some(cert2.link), Some(2)),
      Certificate("cert3", cert3.title, cert3.issuer, cert3.date, cert3.imageUrl, Some(cert3.description), Some(cert3.link), Some(3))
    ]
  }

  /** `defaultCertificates`. */
  function DefaultCertificates(): (r: seq<Certificate>)
    ensures |r| == 3
    ensures Distinct(CertificateIds(r))
    ensures CertificateOrders(r) == [Some(1), Some(2), Some(3)]
  {
    SeedCertificates(Cert1Content(), Cert2Content(), Cert3Content())
  }

  function Cert1Content(): CertificateContent {
    CertificateContent(
      title := "IBM FullStack Software Developer",
      issuer := "IBM",
      date := "2025",
      imageUrl := "https://images.unsplash.com/photo-1517694712202-14dd9538aa97"
        + "?w=800&q=80",
      description := "Professional certification in full-stack software "
        + "development covering both frontend and backend technologies",
      link := "https://coursera.org/share/40b4858ad6371b82352207c45d2860c3")
  }

  function Cert2Content(): CertificateContent {
    CertificateContent(
      title := "Foundation of Digital Marketing & E-Commerce",
      issuer := "Google",
      date := "2025",
      imageUrl := "https://images.unsplash.com/photo-1551288049-bebda4e38f71?w="
        + "800&q=80",
      description := "Google certification covering digital marketing fundamentals "
        + "and e-commerce strategies",
      link := "https://coursera.org/share/89ab619cbadf335ba8d8bc3a7f4b688b")
  }

  function Cert3Content(): CertificateContent {
    CertificateContent(
      title := "Google AI Essentials",
      issuer := "Google",
      date := "2025",
      imageUrl := "https://images.unsplash.com/photo-1677442136019-21780ecad995"
        + "?w=800&q=80",
      description := "Essential certification in artificial intelligence concepts "
        + "and Google AI tools",
      link := "https://coursera.org/share/6a8123f02bb4ba5578285fd82e580839")
  }

  /** The seed the store fills an empty database with and restores on a reset. */
  function Defaults(): Remote.Seed {
    Remote.Seed(DefaultSiteConfig(), DefaultProjects(), DefaultSkills(), DefaultExperiences(), DefaultCertificates())
  }
}
