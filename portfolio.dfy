// The content store: the portfolio document, its fixed seed, and the
// lookups by identifier. The document is a constant; nothing writes it.
module Portfolio {
  import opened Wrappers

  datatype SocialLinks = SocialLinks(
    github: Option<string>,
    linkedin: Option<string>,
    twitter: Option<string>,
    email: Option<string>)

  datatype TechItem = TechItem(name: string, icon: string, url: string)

  datatype TechCategory = TechCategory(category: string, items: seq<TechItem>)

  datatype Project = Project(
    id: string,
    title: string,
    description: string,
    longDescription: Option<string>,
    image: string,
    tags: seq<string>,
    demoUrl: Option<string>,
    githubUrl: Option<string>,
    category: string)

  datatype Achievement = Achievement(
    id: string,
    title: string,
    date: string,
    address: Option<string>,
    description: string,
    icon: Option<string>)

  datatype PortfolioData = PortfolioData(
    name: string,
    tagline: string,
    profileImage: string,
    about: string,
    socialLinks: SocialLinks,
    techStack: seq<TechCategory>,
    projects: seq<Project>,
    achievements: seq<Achievement>)

  const AboutText: string :=
    "\U{1F31F} Aspiring Software Engineer | CSE Student | DSA Enthusiast \U{1F31F}\n\nHello! I\U{2019}m currently a second-year Computer Science and Engineering student, passionately diving into the world of technology and software development.\n\nMy journey is focused on mastering Data Structures and Algorithms (DSA), as I believe they are the backbone of efficient programming and problem-solving.\n\n\U{1F4BB} I\U{2019}m actively enhancing my skills in full-stack development, exploring various programming languages and frameworks to create innovative solutions.\n\nI enjoy tackling complex problems and turning ideas into functional applications.\n\n\U{1F50D} I'm always eager to learn and grow, whether through collaborative projects, internships, or personal coding challenges.\n\nMy goal is to leverage my skills to contribute to impactful tech projects and eventually make a mark in the industry.\n\n\U{1F4EB} Let\U{2019}s connect! I\U{2019}m excited to network with fellow tech enthusiasts, share knowledge, and explore new opportunities together."

  const ProjectLongDescription1: string :=
    "Skill-Swap is a peer-to-peer skill-sharing platform that enables users to learn and teach skills by exchanging knowledge with each other. Whether someone is an expert in coding, graphic design, marketing, language learning, music, or fitness, they can offer their skills in exchange for learning something new from another user.\n\nSkill-Swap eliminates the barrier of cost by allowing direct exchanges between users, fostering a community-driven learning ecosystem where people can grow together."

  const ProjectLongDescription2: string :=
    "\U{1F50D} Introduction\nIn today\U{2019}s fast-paced world of software development, coding is no longer a solo journey. Developers work in teams, contributing to projects from different locations, debugging errors, and reviewing each other\U{2019}s code. But switching between VS Code, GitHub, Slack, and debugging tools is time-consuming and inefficient.\n\n\U{1F4A1} What if there was an all-in-one solution?\n\nWelcome to our AI-powered collaborative code editor, an advanced development environment that:\n\U{2714} Fixes coding errors automatically using AI.\n\U{2714} Explains code in simple terms for better understanding.\n\U{2714} Generates code from scratch based on user instructions.\n\U{2714} Supports real-time collaboration like Google Docs but for coding!\n\U{2714} Has built-in chat so teams can communicate without switching apps.\n\U{2714} Works like GitHub pull/push, allowing code sharing and version control.\n\nThis editor combines AI intelligence, real-time teamwork, and cloud-based coding into one powerful tool!"

  const ProjectLongDescription3: string :=
    "This face detection app uses a pre-trained machine learning model to detect faces in images. Users can use the app to upload images, and the model will highlight the faces with bounding boxes. It also provides the option to download the image with the detected faces highlighted."

  const Seed: PortfolioData := PortfolioData(
    name := "Vemuri Prince Tarun",
    tagline := "Full Stack Developer & UI/UX Enthusiast",
    profileImage := "https://img.freepik.com/free-vector/hacker-operating-laptop-cartoon-icon-illustration-technology-icon-concept-isolated-flat-cartoon-style_138676-2387.jpg",
    about := AboutText,
    socialLinks := SocialLinks(github := Some("https://github.com/TARUN062005"), linkedin := Some("https://www.linkedin.com/in/vemuri-prince-tarun-9b8821326"), twitter := None, email := Some("princetarunvemuri@gmail.com")),
    techStack := [
      TechCategory("Programming Languages", [
        TechItem("C", "https://upload.wikimedia.org/wikipedia/commons/1/18/C_Programming_Language.svg", "https://en.wikipedia.org/wiki/C_(programming_language)"),
        TechItem("C++", "https://upload.wikimedia.org/wikipedia/commons/1/18/ISO_C%2B%2B_Logo.svg", "https://en.wikipedia.org/wiki/C%2B%2B"),
        TechItem("Java", "https://upload.wikimedia.org/wikipedia/en/3/30/Java_programming_language_logo.svg", "https://en.wikipedia.org/wiki/Java_(programming_language)"),
        TechItem("Python", "https://upload.wikimedia.org/wikipedia/commons/c/c3/Python-logo-notext.svg", "https://en.wikipedia.org/wiki/Python_(programming_language)"),
        TechItem("JavaScript", "https://upload.wikimedia.org/wikipedia/commons/6/6a/JavaScript-logo.png", "https://en.wikipedia.org/wiki/JavaScript"),
        TechItem("TypeScript", "https://upload.wikimedia.org/wikipedia/commons/4/4c/Typescript_logo_2020.svg", "https://www.typescriptlang.org/")
      ]),
      TechCategory("Frontend", [
        TechItem("Html & Css", "https://upload.wikimedia.org/wikipedia/commons/6/61/HTML5_logo_and_wordmark.svg", "https://developer.mozilla.org/en-US/docs/Web/HTML"),
        TechItem("JavaScript", "https://upload.wikimedia.org/wikipedia/commons/6/6a/JavaScript-logo.png", "https://developer.mozilla.org/en-US/docs/Web/JavaScript"),
        TechItem("Tailwind CSS", "https://upload.wikimedia.org/wikipedia/commons/d/d5/Tailwind_CSS_Logo.svg", "https://tailwindcss.com/"),
        TechItem("Next.js", "https://upload.wikimedia.org/wikipedia/commons/8/8e/Nextjs-logo.svg", "https://nextjs.org/"),
        TechItem("ShadCN/UI", "https://images.seeklogo.com/logo-png/51/1/shadcn-ui-logo-png_seeklogo-519786.png", "https://ui.shadcn.com/"),
        TechItem("React", "https://upload.wikimedia.org/wikipedia/commons/a/a7/React-icon.svg", "https://reactjs.org/")
      ]),
      TechCategory("Backend", [
        TechItem("Node.js", "https://upload.wikimedia.org/wikipedia/commons/d/d9/Node.js_logo.svg", "https://nodejs.org/"),
        TechItem("Express", "https://upload.wikimedia.org/wikipedia/commons/6/64/Expressjs.png", "https://expressjs.com/"),
        TechItem("MongoDB", "https://pbs.twimg.com/profile_images/1452637606559326217/GFz_P-5e_400x400.png", "https://www.mongodb.com/"),
        TechItem("PostgreSQL", "https://upload.wikimedia.org/wikipedia/commons/2/29/Postgresql_elephant.svg", "https://www.postgresql.org/"),
        TechItem("GraphQL", "https://upload.wikimedia.org/wikipedia/commons/1/17/GraphQL_Logo.svg", "https://graphql.org/"),
        TechItem("Firebase", "https://upload.wikimedia.org/wikipedia/commons/3/37/Firebase_Logo.svg", "https://firebase.google.com/")
      ]),
      TechCategory("Tools & Others", [
        TechItem("Git", "https://upload.wikimedia.org/wikipedia/commons/e/e0/Git-logo.svg", "https://git-scm.com/"),
        TechItem("AWS", "https://upload.wikimedia.org/wikipedia/commons/9/93/Amazon_Web_Services_Logo.svg", "https://aws.amazon.com/"),
        TechItem("Figma", "https://upload.wikimedia.org/wikipedia/commons/3/33/Figma-logo.svg", "https://www.figma.com/"),
        TechItem("CI/CD", "https://encrypted-tbn0.gstatic.com/images?q=tbn:ANd9GcRAABUoTg0hRIRysVXsNZg21ojLCOSsljUElA&s", "https://en.wikipedia.org/wiki/CI/CD"),
        TechItem("Vercel", "https://curity.io/images/resources/code-examples/code-examples-vercel.jpg", "https://vercel.com/")
      ])
    ],
    projects := [
      Project(
        id := "1",
        title := "Swap-Skill",
        description := "A platform for exchanging skills and services with others in the community.",
        longDescription := Some(ProjectLongDescription1),
        image := "https://media.istockphoto.com/id/1023100470/vector/businessmen-handshake-with-elements-and-icons-of-finance-and-corporate-life-tools.jpg?s=612x612&w=0&k=20&c=QQCXSnQt21cgu6Uq4nP412Uo07Hea9G4BApk25vc4oU=",
        tags := ["Html", "CSS", "MongoDB", "Javascript", "Node.js", "Express"],
        demoUrl := Some("https://example.com"),
        githubUrl := Some("https://github.com"),
        category := "web"),
      Project(
        id := "2",
        title := "AI CODE-EDITOR",
        description := "An AI-powered code editor that helps developers write better code faster.",
        longDescription := Some(ProjectLongDescription2),
        image := "https://is1-ssl.mzstatic.com/image/thumb/Purple221/v4/59/88/4d/59884d4d-60fd-75ae-717c-9106ae600592/AppIcon-0-0-1x_U007epad-0-1-85-220.png/1200x630wa.png",
        tags := ["ReactJs", "NodeJS", "Gpt-4", "VS Code"],
        demoUrl := Some("https://example.com"),
        githubUrl := Some("https://github.com"),
        category := "mobile"),
      Project(
        id := "3",
        title := "Face-Detection-App",
        description := "A web application that detects faces in images using machine learning.",
        longDescription := Some(ProjectLongDescription3),
        image := "https://media.licdn.com/dms/image/v2/D4D12AQFYAwqCnVPChg/article-cover_image-shrink_720_1280/article-cover_image-shrink_720_1280/0/1691045078079?e=2147483647&v=beta&t=xrwkrzF7rrtdri-Z_2ZyeLQF5jMQ3dfpp_-4Re8yqr0",
        tags := ["Python", "Machine Learning", "Django"],
        demoUrl := Some("https://example.com"),
        githubUrl := Some("https://github.com"),
        category := "web")
    ],
    achievements := [
      Achievement(
        id := "1",
        title := "Industrial Trainee",
        date := "June 2023 - November 2023",
        address := Some("MSME-CITD Hyderabad Sub Centre Vijaywada"),
        description := "During my industrial training at MSME-CITD Hyderabad Sub Centre Vijaywada, I got exposure to industry standards in product manufacturing and learned how low-level systems work. I explored meta-programming, compilers, and the basics of system operations.",
        icon := None),
      Achievement(
        id := "2",
        title := "Round-Qualifier in TCS Codevita 12",
        date := "2024",
        address := None,
        description := "Participated in TCS Codevita 12 and qualified for the next round. It was a great learning experience and a chance to test my problem-solving skills.",
        icon := None),
      Achievement(
        id := "3",
        title := "Data-Science Workshop - BRAINOVISION Solutions",
        date := "November 2024",
        address := None,
        description := "Attended a workshop on data science and machine learning, where I learned about data analysis, predictive modeling, and the latest trends in AI. I worked on a project and developed an Area Safety Prediction Web Application.",
        icon := None),
      Achievement(
        id := "4",
        title := "Hackathon - National level",
        date := "Feb 2025",
        address := None,
        description := "I had the incredible opportunity to participate in the National Level Hackathon on Web Development conducted by Sir C.R. Reddy College of Engineering. It was an amazing learning experience where I collaborated with talented individuals, tackled real-world challenges, and explored innovative web solutions.",
        icon := None)
    ])

  function ProjectId(p: Project): string { p.id }

  function AchievementId(a: Achievement): string { a.id }

  /** No two entries of `xs` share a key. */
  predicate DistinctKeys<T>(xs: seq<T>, key: T -> string) {
    forall i, j :: 0 <= i < j < |xs| ==> key(xs[i]) != key(xs[j])
  }

  /** `xs.find(x => key(x) === k)`: the first entry whose key is `k`, or nothing. */
  function FindByKey<T>(xs: seq<T>, key: T -> string, k: string): (r: Option<T>)
    ensures r.None? <==> forall i :: 0 <= i < |xs| ==> key(xs[i]) != k
    ensures r.Some? ==> exists i :: 0 <= i < |xs| && xs[i] == r.value && key(xs[i]) == k
                                    && forall j :: 0 <= j < i ==> key(xs[j]) != k
  {
    if xs == [] then None
    else if key(xs[0]) == k then Some(xs[0])
    else
      var r := FindByKey(xs[1..], key, k);
      assert forall i :: 1 <= i < |xs| ==> xs[i] == xs[1..][i - 1];
      r
  }

  /** When keys are distinct, looking up the key of any entry finds exactly that entry. */
  lemma FindByKeyDistinct<T>(xs: seq<T>, key: T -> string, i: nat)
    requires DistinctKeys(xs, key) && i < |xs|
    ensures FindByKey(xs, key, key(xs[i])) == Some(xs[i])
  {
    var r := FindByKey(xs, key, key(xs[i]));
    var j :| 0 <= j < |xs| && xs[j] == r.value && key(xs[j]) == key(xs[i])
             && forall m :: 0 <= m < j ==> key(xs[m]) != key(xs[i]);
    assert j == i;
  }

  /** `getPortfolioData()`: always the seeded document, whose identifiers are unique per collection. */
  function GetPortfolioData(): (d: PortfolioData)
    ensures DistinctKeys(d.projects, ProjectId)
    ensures DistinctKeys(d.achievements, AchievementId)
    ensures |d.projects| == 3 && |d.achievements| == 4
  {
    SeedIdsDistinct();
    Seed
  }

  /** The seeded project ids are "1", "2", "3" and the achievement ids "1" to "4". */
  lemma SeedIdsDistinct()
    ensures DistinctKeys(Seed.projects, ProjectId)
    ensures DistinctKeys(Seed.achievements, AchievementId)
  {
    SeedIds();
  }

  /** `getProjectById(id)`: the first project of the document with this id, or nothing. */
  function GetProjectById(id: string): (r: Option<Project>)
    ensures r.Some? ==> r.value.id == id && r.value in GetPortfolioData().projects
    ensures r.None? <==> forall p :: p in GetPortfolioData().projects ==> p.id != id
  {
    FindByKey(GetPortfolioData().projects, ProjectId, id)
  }

  /** `getAchievementById(id)`: the first achievement of the document with this id, or nothing. */
  function GetAchievementById(id: string): (r: Option<Achievement>)
    ensures r.Some? ==> r.value.id == id && r.value in GetPortfolioData().achievements
    ensures r.None? <==> forall a :: a in GetPortfolioData().achievements ==> a.id != id
  {
    FindByKey(GetPortfolioData().achievements, AchievementId, id)
  }

  /** When the keys of `xs` are exactly `keys`, in order and distinct, a lookup succeeds just for those keys. */
  lemma FindByKeyAmong<T>(xs: seq<T>, key: T -> string, keys: seq<string>, k: string)
    requires |xs| == |keys| && DistinctKeys(xs, key)
    requires forall i :: 0 <= i < |xs| ==> key(xs[i]) == keys[i]
    ensures FindByKey(xs, key, k).Some? <==> k in keys
    ensures forall i :: 0 <= i < |xs| ==> FindByKey(xs, key, key(xs[i])) == Some(xs[i])
  {
    forall i | 0 <= i < |xs| ensures FindByKey(xs, key, key(xs[i])) == Some(xs[i]) {
      FindByKeyDistinct(xs, key, i);
    }
    if k in keys {
      var i :| 0 <= i < |keys| && keys[i] == k;
      assert key(xs[i]) == k;
    }
  }

  /** Every seeded project is found by its own id, and only ids "1", "2", "3" find anything. */
  lemma ProjectLookupInSeed(id: string)
    ensures GetProjectById(id).Some? <==> id in ["1", "2", "3"]
    ensures forall i :: 0 <= i < |Seed.projects| ==> GetProjectById(Seed.projects[i].id) == Some(Seed.projects[i])
  {
    SeedIds();
    SeedIdsDistinct();
    FindByKeyAmong(Seed.projects, ProjectId, ["1", "2", "3"], id);
  }

  /** Every seeded achievement is found by its own id, and only ids "1" to "4" find anything. */
  lemma AchievementLookupInSeed(id: string)
    ensures GetAchievementById(id).Some? <==> id in ["1", "2", "3", "4"]
    ensures forall i :: 0 <= i < |Seed.achievements| ==> GetAchievementById(Seed.achievements[i].id) == Some(Seed.achievements[i])
  {
    SeedIds();
    SeedIdsDistinct();
    FindByKeyAmong(Seed.achievements, AchievementId, ["1", "2", "3", "4"], id);
  }

  /** The seeded identifiers, collection by collection. */
  lemma SeedIds()
    ensures |Seed.projects| == 3 && |Seed.achievements| == 4
    ensures forall i :: 0 <= i < 3 ==> Seed.projects[i].id == ["1", "2", "3"][i]
    ensures forall i :: 0 <= i < 4 ==> Seed.achievements[i].id == ["1", "2", "3", "4"][i]
  {
  }
}
